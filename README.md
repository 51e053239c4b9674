# Native bank contract — a Dafny model

The native bank contract is the executor's asset registry. It has two operations:

- `register` takes an asset contract address together with a name, a symbol and a supply. It does five things in order:
  1. Rejects an address whose contract type is not `Asset`.
  2. Derives the asset id as the hash of the chain id bytes followed by the address bytes.
  3. Refuses an id that is already in the staged state.
  4. Stages the new asset record, with an empty-hash storage root.
  5. Charges the `BankRegister` cycle cost to the invocation context.
- `get_asset` reads a record back by id, or fails with `NotFound`.

Module layout:

- `types.dfy` (`BankTypes`): bytes, hashes, contract addresses, the asset record and a `Result` type.
- `cycles.dfy` (`Cycles`): the abstract interface of cycle metering.
- `bank.dfy` (`Bank`): the errors and `RegisterOutcome`, a pure specification of one `register` call. It also holds three classes:
  - `StateAdapter`: the staged asset table.
  - `InvokeContext`: the cycle fields of the invocation context.
  - `NativeBankContract`: the contract itself. Its fields are constants, so the registry has no state of its own.
- `session.dfy` (`BankSession`): properties across several calls in one session. These cover round trips, duplicate rejection, and invariants kept by any sequence of registrations.

Foreign primitives are parameters of the contract's constructor. These are the hash function, the empty hash and the cycle pricing table. The hash is not assumed to be injective. The source itself checks for collisions, and the uniqueness results below do not need injectivity.

If metering fails, the staged record stays in the table, but the context's cycle usage keeps its old value. The charge was made on a local copy, and that copy is written back only on success. As a result, after an out-of-cycles failure the asset can be read back, and a retry with the same address is refused as a duplicate (`MeteringFailureKeepsRecord`).

## Model

| member | source | states |
|---|---|---|
| `Cycles.ConsumeCycles` | core/executor/src/native_contract/bank.rs:87-93 | The charge succeeds exactly when usage plus the action's cost at the given price stays within the limit. The new usage is then that sum. Otherwise the error is `OutOfCycles`. |
| `Bank.AssetIdOf` | core/executor/src/native_contract/bank.rs:57-59 | The asset id is the digest of an input that holds the whole chain id first and then exactly the address bytes, in that order. So the id depends only on the chain id and the address bytes. |
| `Bank.NewAsset` | core/executor/src/native_contract/bank.rs:70-78 | The record built for a registration carries the derived id, the given name, symbol and supply, the address as managing contract, and the empty hash as storage root. |
| `Bank.RegisterOutcome` | core/executor/src/native_contract/bank.rs:45-96 | Covers each path of one `register` call. A non-asset address gives `InvalidAddress`, and table and usage are unchanged. A taken id gives `AssetExists` with that id, and nothing changes. A fresh id stages exactly one record under it, holding the given fields, the address as manager and the empty storage root. No other key changes and the table grows by one. The call succeeds exactly when the cost fits the limit; usage then grows by the cost, and the result is the record built from the inputs, the same one that was staged. When the cost does not fit, the result is the meter's `OutOfCycles` error and the record stays staged. On every failure the usage is unchanged. |
| `Bank.StateAdapter.InsertCache` | core/executor/src/native_contract/bank.rs:80-85 | Staging writes the record under its id and leaves every other key as it was. |
| `Bank.NativeBankContract.constructor` | core/executor/src/native_contract/bank.rs:29-34 | The contract keeps the chain id and the state adapter handle it is given. |
| `Bank.NativeBankContract.Register` | core/executor/src/native_contract/bank.rs:45-96 | The returned result is the one `RegisterOutcome` gives for the old table and old usage. So are the new staged table and the context's new cycle usage. The context's price and limit are not modified. |
| `Bank.NativeBankContract.GetAsset` | core/executor/src/native_contract/bank.rs:98-105 | Returns the stored record exactly when the id is present, and otherwise `NotFound` with that id. It is a function, so it changes neither the store nor the context. |
| `BankSession.RegisterThenGetAndRepeat` | core/executor/src/native_contract/bank.rs:57-85 | After a successful `register`, the returned asset is the record derived from the inputs and can be read back under its id. A second `register` of the same address, with any name, symbol or supply, fails with `AssetExists` for that same id and changes nothing. |
| `BankSession.MeteringFailureKeepsRecord` | core/executor/src/native_contract/bank.rs:80-94 | After an out-of-cycles failure, the usage is unchanged and the staged record stays. A retry with the same address is refused as a duplicate. |
| `BankSession.OneAssetPerAddress` | core/executor/src/native_contract/bank.rs:57-68 | In a table where each record sits under the id derived from its manager, no two records share a manager. |
| `BankSession.RegisteredAddressIsRefused` | core/executor/src/native_contract/bank.rs:57-68 | Once an address manages a staged asset, registering it again fails with that asset's id and changes nothing. |
| `BankSession.RegisterKeepsRegistered` | core/executor/src/native_contract/bank.rs:53-85 | Every path of `register` preserves the table invariant. The invariant is that each record is keyed by its id, is managed by an asset contract, and has an id derived from that contract's address. |
| `BankSession.RunKeepsRegistered` | core/executor/src/native_contract/bank.rs:45-96 | Any sequence of registrations preserves that table invariant. |
| `BankSession.RunKeepsRecords` | core/executor/src/native_contract/bank.rs:62-85 | Later registrations never update or remove a staged record. |
| `BankSession.RunStagesOnlyCalledIds` | core/executor/src/native_contract/bank.rs:57-85 | A sequence of n registrations adds at most n records. Each new key is the id derived from one of the calls' addresses. |
| `BankSession.RunCyclesWithinLimit` | core/executor/src/native_contract/bank.rs:87-94 | Across registrations, cycle usage never decreases. Usage that starts within the limit stays within it. |
| `BankSession.RegisterGetRegister` | core/executor/src/native_contract/bank.rs:45-105 | Applies to the contract object. After a successful `register`, the asset carries the given fields, the address as manager and the empty storage root. `get_asset` on the derived id returns it, and a second `register` of the same address fails with `AssetExists` for that id. After an out-of-cycles failure, `get_asset` still finds the record and the second call is still refused. For any asset-contract address the second call fails with `AssetExists`. |

## Left out

- Shared ownership and interior mutability of the state adapter and the invocation context are left out. The model holds them as plain objects that the contract method modifies.
- The hash algorithm is not modelled. `Hash::digest` is an arbitrary function and `Hash::from_empty` an arbitrary constant, both supplied at construction.
- The address type tag is not modelled as bytes. An address carries its contract type beside its bytes. Only `Asset` versus any other type matters here, so the other contract types are folded into one.
- The cycle pricing table and the internals of cycle metering are not modelled. These live in the cycles module, which is not part of this model. Cost is a parameter function of action and price, and the limit check is stated as "usage plus cost must not exceed the limit".
- Cycles.ConsumeCycles: cycle counts are unbounded naturals, so 64-bit overflow in the metering arithmetic is not modelled.
- RLP encoding and decoding of stored assets is not modelled. The table holds decoded records. `FixedCodec` is kept as an error variant, but the model never produces it.
- Errors raised by the state store itself (the `?` on `contains`, `insert_cache` and `get`) are not modelled. The model's store cannot fail.
- Commit, persistence, rollback and isolation between sessions are not modelled. These belong to the external state adapter. The model's table is the staged view of one session.
- The `Display`, `Error` and `ProtocolError` conversion boilerplate is not modelled. `ProtocolError` is a sum of the bank error and the cycles error.
