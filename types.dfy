/** Protocol types the bank contract works with: bytes, hashes, contract
    addresses, the asset record, and a result type for fallible calls. */
module BankTypes {

  newtype Byte = b: int | 0 <= b < 256

  /** Length in bytes of a protocol hash. */
  const HashLength := 32

  /** A protocol hash: a fixed-size byte string. */
  type Hash = h: seq<Byte> | |h| == HashLength witness seq(HashLength, _ => 0 as Byte)

  /** An asset is identified by a hash. */
  type AssetID = Hash

  /** The hash primitives the contract calls. Their algorithm is foreign to
      this model: `digest` is an arbitrary function (in particular it is not
      assumed to be injective) and `empty` is the canonical hash of nothing. */
  datatype Hasher = Hasher(digest: seq<Byte> -> Hash, empty: Hash)

  /** The type tag of a contract address. The bank only distinguishes asset
      contracts from every other kind of contract. */
  datatype ContractType = AssetContract | OtherContract

  /** A contract address: its raw bytes (what `as_bytes` yields) together with
      the contract type those bytes encode. */
  datatype ContractAddress = ContractAddress(contractType: ContractType, bytes: seq<Byte>)

  /** The record the bank stores for each registered asset. `supply` is an
      arbitrary-precision balance. */
  datatype Asset = Asset(
    id: AssetID,
    name: string,
    symbol: string,
    supply: nat,
    manageContract: ContractAddress,
    storageRoot: Hash)

  datatype Result<T, E> = Ok(value: T) | Err(error: E)
}
