/** Properties of the bank contract across calls within one uncommitted
    session: round trips between `register` and `get_asset`, duplicate
    rejection, and what any sequence of `register` calls keeps true. */
module BankSession {
  import opened BankTypes
  import opened Cycles
  import opened Bank

  /** Every staged record sits under its own id, is managed by an asset
      contract, and its id is the one derived from that contract's address. */
  ghost predicate Registered(cfg: BankConfig, assets: map<AssetID, Asset>)
  {
    forall k :: k in assets ==>
      && assets[k].id == k
      && assets[k].manageContract.contractType == AssetContract
      && k == AssetIdOf(cfg, assets[k].manageContract)
  }

  /** A successful registration can be read back, and registering the same
      address again is refused with the same id and changes nothing. */
  lemma RegisterThenGetAndRepeat(cfg: BankConfig, budget: Budget, w: World,
                                 address: ContractAddress, name: string, symbol: string, supply: nat,
                                 name2: string, symbol2: string, supply2: nat)
    requires RegisterOutcome(cfg, budget, w, address, name, symbol, supply).result.Ok?
    ensures var out := RegisterOutcome(cfg, budget, w, address, name, symbol, supply);
            var a := out.result.value;
            && a == NewAsset(cfg, address, name, symbol, supply)
            && a.id in out.world.assets && out.world.assets[a.id] == a
            && RegisterOutcome(cfg, budget, out.world, address, name2, symbol2, supply2)
               == Outcome(Err(Bank(AssetExists(a.id))), out.world)
  {
  }

  /** A registration that ran out of cycles still leaves its record staged:
      the record can be read back and a retry with the same address is
      refused as a duplicate. */
  lemma MeteringFailureKeepsRecord(cfg: BankConfig, budget: Budget, w: World,
                                   address: ContractAddress, name: string, symbol: string, supply: nat,
                                   budget2: Budget, name2: string, symbol2: string, supply2: nat)
    requires RegisterOutcome(cfg, budget, w, address, name, symbol, supply).result == Err(Cycles(OutOfCycles))
    ensures var out := RegisterOutcome(cfg, budget, w, address, name, symbol, supply);
            var id := AssetIdOf(cfg, address);
            && out.world.cyclesUsed == w.cyclesUsed
            && id in out.world.assets && out.world.assets[id] == NewAsset(cfg, address, name, symbol, supply)
            && RegisterOutcome(cfg, budget2, out.world, address, name2, symbol2, supply2)
               == Outcome(Err(Bank(AssetExists(id))), out.world)
  {
  }

  /** In a registered table, one address manages at most one asset. */
  lemma OneAssetPerAddress(cfg: BankConfig, assets: map<AssetID, Asset>, k1: AssetID, k2: AssetID)
    requires Registered(cfg, assets)
    requires k1 in assets && k2 in assets
    requires assets[k1].manageContract == assets[k2].manageContract
    ensures k1 == k2 && assets[k1] == assets[k2]
  {
  }

  /** Once an address manages a staged asset, registering that address again
      is refused with the id of that asset and changes nothing. */
  lemma RegisteredAddressIsRefused(cfg: BankConfig, budget: Budget, w: World, k: AssetID,
                                   name: string, symbol: string, supply: nat)
    requires Registered(cfg, w.assets)
    requires k in w.assets
    ensures RegisterOutcome(cfg, budget, w, w.assets[k].manageContract, name, symbol, supply)
            == Outcome(Err(Bank(AssetExists(k))), w)
  {
  }

  /** `register` keeps the table registered, on every path. */
  lemma RegisterKeepsRegistered(cfg: BankConfig, budget: Budget, w: World,
                                address: ContractAddress, name: string, symbol: string, supply: nat)
    requires Registered(cfg, w.assets)
    ensures Registered(cfg, RegisterOutcome(cfg, budget, w, address, name, symbol, supply).world.assets)
  {
  }

  /** The arguments of one `register` call. */
  datatype RegisterCall = RegisterCall(address: ContractAddress, name: string, symbol: string, supply: nat)

  /** The world after the calls in `calls` ran one after the other against
      the same session and the same invocation budget. */
  function RunRegisters(cfg: BankConfig, budget: Budget, w: World, calls: seq<RegisterCall>): World
    decreases |calls|
  {
    if calls == [] then w
    else
      var c := calls[0];
      RunRegisters(cfg, budget, RegisterOutcome(cfg, budget, w, c.address, c.name, c.symbol, c.supply).world, calls[1..])
  }

  /** Any sequence of registrations keeps the table registered. */
  lemma {:induction false} RunKeepsRegistered(cfg: BankConfig, budget: Budget, w: World, calls: seq<RegisterCall>)
    requires Registered(cfg, w.assets)
    ensures Registered(cfg, RunRegisters(cfg, budget, w, calls).assets)
    decreases |calls|
  {
    if calls != [] {
      var c := calls[0];
      RegisterKeepsRegistered(cfg, budget, w, c.address, c.name, c.symbol, c.supply);
      RunKeepsRegistered(cfg, budget, RegisterOutcome(cfg, budget, w, c.address, c.name, c.symbol, c.supply).world, calls[1..]);
    }
  }

  /** A staged record is never updated or removed by later registrations. */
  lemma {:induction false} RunKeepsRecords(cfg: BankConfig, budget: Budget, w: World, calls: seq<RegisterCall>)
    ensures var final := RunRegisters(cfg, budget, w, calls);
            forall k :: k in w.assets ==> k in final.assets && final.assets[k] == w.assets[k]
    decreases |calls|
  {
    if calls != [] {
      var c := calls[0];
      RunKeepsRecords(cfg, budget, RegisterOutcome(cfg, budget, w, c.address, c.name, c.symbol, c.supply).world, calls[1..]);
    }
  }

  /** Each call stages at most one record, and every new record is keyed by
      the id derived from the address of one of the calls. */
  lemma {:induction false} RunStagesOnlyCalledIds(cfg: BankConfig, budget: Budget, w: World, calls: seq<RegisterCall>)
    ensures var final := RunRegisters(cfg, budget, w, calls);
            && |final.assets| <= |w.assets| + |calls|
            && forall k :: k in final.assets ==>
                 k in w.assets || exists i :: 0 <= i < |calls| && k == AssetIdOf(cfg, calls[i].address)
    decreases |calls|
  {
    if calls != [] {
      var c := calls[0];
      var next := RegisterOutcome(cfg, budget, w, c.address, c.name, c.symbol, c.supply).world;
      RunStagesOnlyCalledIds(cfg, budget, next, calls[1..]);
      var final := RunRegisters(cfg, budget, w, calls);
      forall k | k in final.assets
        ensures k in w.assets || exists i :: 0 <= i < |calls| && k == AssetIdOf(cfg, calls[i].address)
      {
        if k !in w.assets {
          if k in next.assets {
            assert k == AssetIdOf(cfg, calls[0].address);
          } else {
            var i :| 0 <= i < |calls[1..]| && k == AssetIdOf(cfg, calls[1..][i].address);
            assert k == AssetIdOf(cfg, calls[i + 1].address);
          }
        }
      }
    }
  }

  /** Cycle usage never goes down, and once within the limit it stays there. */
  lemma {:induction false} RunCyclesWithinLimit(cfg: BankConfig, budget: Budget, w: World, calls: seq<RegisterCall>)
    ensures var final := RunRegisters(cfg, budget, w, calls);
            && w.cyclesUsed <= final.cyclesUsed
            && (w.cyclesUsed <= budget.limit ==> final.cyclesUsed <= budget.limit)
    decreases |calls|
  {
    if calls != [] {
      var c := calls[0];
      RunCyclesWithinLimit(cfg, budget, RegisterOutcome(cfg, budget, w, c.address, c.name, c.symbol, c.supply).world, calls[1..]);
    }
  }

  /** At the level of the contract object: register an address, read back
      the id derived from it, and register the same address again. */
  method RegisterGetRegister(bank: NativeBankContract, ctx: InvokeContext,
                             address: ContractAddress, name: string, symbol: string, supply: nat)
    returns (first: Result<Asset, ProtocolError>, fetched: Result<Asset, ProtocolError>,
             second: Result<Asset, ProtocolError>)
    modifies bank.state, ctx`cyclesUsed
    ensures first.Ok? ==> first.value.manageContract == address && first.value.name == name &&
                          first.value.symbol == symbol && first.value.supply == supply &&
                          first.value.storageRoot == bank.config.hasher.empty
    // A successful registration is read back and cannot be repeated.
    ensures first.Ok? ==> fetched == first && second == Err(Bank(AssetExists(first.value.id)))
    // Running out of cycles still leaves the record readable and the address taken.
    ensures first == Err(Cycles(OutOfCycles)) ==>
              fetched.Ok? && second == Err(Bank(AssetExists(fetched.value.id)))
    // Whatever the first call did, an asset-contract address is taken afterwards.
    ensures address.contractType == AssetContract ==> second.Err? && second.error.Bank? && second.error.bankError.AssetExists?
  {
    first := bank.Register(ctx, address, name, symbol, supply);
    fetched := bank.GetAsset(ctx, AssetIdOf(bank.config, address));
    second := bank.Register(ctx, address, name, symbol, supply);
  }
}
