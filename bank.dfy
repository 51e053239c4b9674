/** The native bank contract: the executor's asset registry. It derives an
    asset id from the chain id and the asset contract's address, refuses ids
    already present in the staged state, stages the new asset record and
    charges the registration to the invocation's cycle budget. */
module Bank {
  import opened BankTypes
  import opened Cycles

  /** The errors of the bank contract itself. */
  datatype BankError =
    | AssetExists(id: AssetID)
    | NotFound(id: AssetID)
    | InvalidAddress
      /** Decoding a stored record failed; the store of this model holds decoded records. */
    | FixedCodec

  /** What the contract's operations return on failure: a bank error, or the
      metering error passed through unchanged. */
  datatype ProtocolError = Bank(bankError: BankError) | Cycles(cyclesError: CyclesError)

  /** The immutable part of a bank contract: the chain it serves and the
      foreign primitives it calls. */
  datatype BankConfig = BankConfig(chainId: Hash, hasher: Hasher, pricing: CyclesPricing)

  /** Everything a `register` call may change: the staged asset table and the
      invocation's cycle usage. */
  datatype World = World(assets: map<AssetID, Asset>, cyclesUsed: nat)

  /** The invocation's read-only cycle settings. */
  datatype Budget = Budget(price: nat, limit: nat)

  datatype Outcome = Outcome(result: Result<Asset, ProtocolError>, world: World)

  /** The id of the asset managed by `address`: the digest of the chain id
      bytes followed by the address bytes. */
  function AssetIdOf(cfg: BankConfig, address: ContractAddress): (id: AssetID)
    // The digest input is the chain id, whole and first, then exactly the address bytes.
    ensures exists input: seq<Byte> {:trigger cfg.hasher.digest(input)} ::
              && |input| == HashLength + |address.bytes|
              && input[..HashLength] == cfg.chainId
              && input[HashLength..] == address.bytes
              && id == cfg.hasher.digest(input)
  {
    var input := cfg.chainId + address.bytes;
    assert input[..HashLength] == cfg.chainId && input[HashLength..] == address.bytes;
    cfg.hasher.digest(input)
  }

  /** The record `register` stages for a fresh asset. */
  function NewAsset(cfg: BankConfig, address: ContractAddress, name: string, symbol: string, supply: nat): (a: Asset)
    ensures a.id == AssetIdOf(cfg, address)
    ensures a.name == name && a.symbol == symbol && a.supply == supply
    ensures a.manageContract == address && a.storageRoot == cfg.hasher.empty
  {
    Asset(AssetIdOf(cfg, address), name, symbol, supply, address, cfg.hasher.empty)
  }

  /** The cycles one registration costs under `budget`. */
  function RegisterCost(cfg: BankConfig, budget: Budget): nat
  {
    cfg.pricing(BankRegister, budget.price)
  }

  /** The effect of one `register` call on the world `w`. */
  function RegisterOutcome(cfg: BankConfig, budget: Budget, w: World,
                           address: ContractAddress, name: string, symbol: string, supply: nat)
    : (out: Outcome)
    // Not an asset contract: rejected, nothing staged, nothing charged.
    ensures address.contractType != AssetContract ==> out == Outcome(Err(Bank(InvalidAddress)), w)
    // The id is taken: rejected with that id, nothing staged, nothing charged.
    ensures address.contractType == AssetContract && AssetIdOf(cfg, address) in w.assets ==>
              out == Outcome(Err(Bank(AssetExists(AssetIdOf(cfg, address)))), w)
    // A fresh id: exactly one record is staged under it, whatever the metering says.
    ensures address.contractType == AssetContract && AssetIdOf(cfg, address) !in w.assets ==>
              var id := AssetIdOf(cfg, address);
              && id in out.world.assets
              && out.world.assets[id] == NewAsset(cfg, address, name, symbol, supply)
              && (forall k :: k != id ==> (k in out.world.assets <==> k in w.assets))
              && (forall k :: k in w.assets ==> out.world.assets[k] == w.assets[k])
              && |out.world.assets| == |w.assets| + 1
    // The call succeeds exactly when the charge fits the limit; the usage then
    // grows by the charge and the result is the staged record.
    ensures out.result.Ok? <==>
              address.contractType == AssetContract && AssetIdOf(cfg, address) !in w.assets &&
              w.cyclesUsed + RegisterCost(cfg, budget) <= budget.limit
    ensures out.result.Ok? ==>
              && out.world.cyclesUsed == w.cyclesUsed + RegisterCost(cfg, budget) <= budget.limit
              && out.result.value == NewAsset(cfg, address, name, symbol, supply)
              && out.result.value.id in out.world.assets
              && out.world.assets[out.result.value.id] == out.result.value
    // Any failure leaves the usage where it was.
    ensures out.result.Err? ==> out.world.cyclesUsed == w.cyclesUsed
    // The charge does not fit: the meter's error is passed on, and the record stays staged.
    ensures address.contractType == AssetContract && AssetIdOf(cfg, address) !in w.assets &&
            w.cyclesUsed + RegisterCost(cfg, budget) > budget.limit ==>
              out.result == Err(Cycles(OutOfCycles)) && AssetIdOf(cfg, address) in out.world.assets
  {
    if address.contractType != AssetContract then
      Outcome(Err(Bank(InvalidAddress)), w)
    else
      var id := AssetIdOf(cfg, address);
      if id in w.assets then
        Outcome(Err(Bank(AssetExists(id))), w)
      else
        var asset := NewAsset(cfg, address, name, symbol, supply);
        var staged := w.assets[id := asset];
        match ConsumeCycles(cfg.pricing, BankRegister, budget.price, w.cyclesUsed, budget.limit)
        case Err(e) => Outcome(Err(Cycles(e)), World(staged, w.cyclesUsed))
        case Ok(fee) => Outcome(Ok(asset), World(staged, fee))
  }

  /** The staged layer of the state store, restricted to the asset schema. */
  class StateAdapter {
    var assets: map<AssetID, Asset>

    constructor (assets: map<AssetID, Asset>)
      ensures this.assets == assets
    {
      this.assets := assets;
    }

    /** Stages `asset` under `id`, replacing whatever was staged there. */
    method InsertCache(id: AssetID, asset: Asset)
      modifies this
      ensures assets == old(assets)[id := asset]
    {
      assets := assets[id := asset];
    }
  }

  /** The cycle fields of an invocation context. */
  class InvokeContext {
    var cyclesUsed: nat
    var cyclesPrice: nat
    var cyclesLimit: nat

    constructor (cyclesUsed: nat, cyclesPrice: nat, cyclesLimit: nat)
      ensures this.cyclesUsed == cyclesUsed && this.cyclesPrice == cyclesPrice && this.cyclesLimit == cyclesLimit
    {
      this.cyclesUsed := cyclesUsed;
      this.cyclesPrice := cyclesPrice;
      this.cyclesLimit := cyclesLimit;
    }

    function CyclesBudget(): Budget
      reads this
    {
      Budget(cyclesPrice, cyclesLimit)
    }
  }

  class NativeBankContract {
    const config: BankConfig
    const state: StateAdapter

    constructor (chainId: Hash, state: StateAdapter, hasher: Hasher, pricing: CyclesPricing)
      ensures config == BankConfig(chainId, hasher, pricing) && this.state == state
    {
      this.config := BankConfig(chainId, hasher, pricing);
      this.state := state;
    }

    /** Registers the asset managed by `address`. The staged table and the
        context's cycle usage change exactly as `RegisterOutcome` says. */
    method Register(ctx: InvokeContext, address: ContractAddress, name: string, symbol: string, supply: nat)
      returns (r: Result<Asset, ProtocolError>)
      modifies state, ctx`cyclesUsed
      ensures var out := RegisterOutcome(config, ctx.CyclesBudget(), World(old(state.assets), old(ctx.cyclesUsed)),
                                         address, name, symbol, supply);
              r == out.result && state.assets == out.world.assets && ctx.cyclesUsed == out.world.cyclesUsed
    {
      if address.contractType != AssetContract {
        return Err(Bank(InvalidAddress));
      }

      var id := AssetIdOf(config, address);
      // The id is taken after an earlier registration of the same address, or on a digest collision.
      if id in state.assets {
        return Err(Bank(AssetExists(id)));
      }

      var asset := NewAsset(config, address, name, symbol, supply);
      state.InsertCache(id, asset);

      // The charge is made on a copy of the usage and written back only on success.
      var fee := ctx.cyclesUsed;
      var charged := ConsumeCycles(config.pricing, BankRegister, ctx.cyclesPrice, fee, ctx.cyclesLimit);
      if charged.Err? {
        return Err(Cycles(charged.error));
      }
      fee := charged.value;
      ctx.cyclesUsed := fee;
      return Ok(asset);
    }

    /** Looks up a staged or committed asset. The context is not used. */
    function GetAsset(ctx: InvokeContext, id: AssetID): (r: Result<Asset, ProtocolError>)
      reads state
      ensures r.Ok? <==> id in state.assets
      ensures r.Ok? ==> r.value == state.assets[id]
      ensures r.Err? ==> r.error == Bank(NotFound(id))
    {
      if id in state.assets then Ok(state.assets[id]) else Err(Bank(NotFound(id)))
    }
  }
}
