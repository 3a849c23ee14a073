/**
 * Contract calls: `EthEngine.callFunction` and the `EthConfirmation` levels.
 *
 * The call resolves its parameters in a fixed order, writing them into the caller's
 * `generalParams` object, and then dispatches on the confirmation level. The node's
 * answers are inputs (`NodeAnswers`); a failed read rejects the call. The model records
 * the external calls in the order they are made, the final contents of
 * `generalParams`, and how the returned promise ends.
 */
module CallPipeline {
  import opened Wrappers
  import opened Abi

  type Bytecode = string

  /** `EthConfirmation.RECEIPT`: send and settle on the receipt. */
  const Receipt: int := 0
  /** `EthConfirmation.CONFIRMATION`: send and settle on the first confirmation. */
  const Confirmation: int := 1
  /** `EthConfirmation.STATIC`: a read-only call, no transaction. */
  const Static: int := 2

  /** The fields of `generalParams` that `callFunction` writes. `None` is `undefined`. */
  datatype Params = Params(gas: Option<int>, gasLimit: Option<int>, gasPrice: Option<int>, nonce: Option<int>)

  /** The caller's `generalParams` object, updated in place. */
  class GeneralParams {
    var gas: Option<int>
    var gasLimit: Option<int>
    var gasPrice: Option<int>
    var nonce: Option<int>

    constructor (p: Params)
      ensures Snapshot() == p
    {
      gas := p.gas;
      gasLimit := p.gasLimit;
      gasPrice := p.gasPrice;
      nonce := p.nonce;
    }

    function Snapshot(): Params
      reads this
    {
      Params(gas, gasLimit, gasPrice, nonce)
    }
  }

  /**
   * The engine's own configuration, used when no ABI and address are passed. The
   * constructor accepts a missing ABI configuration or bytecode holder (`None`).
   */
  datatype EngineConfig = EngineConfig(
    abiConfiguration: Option<seq<MethodDescriptor>>,
    /** `abiConfiguration.defaultWallet` (the source reads this property of the ABI). */
    abiWallet: Option<Address>,
    /** `configuration.defaultWallet`. */
    defaultWallet: Address,
    /** `bin.code`, or `None` when there is no `bin`. */
    binCode: Option<Bytecode>)

  /**
   * The node's answers, in the order they would be asked for. `methodFound` says whether
   * the contract object has a method called `name`; when it has not, building the call
   * throws.
   */
  datatype NodeAnswers = NodeAnswers(
    code: Option<Bytecode>,
    deployEstimate: Option<int>,
    methodFound: bool,
    gasPrice: Option<int>,
    methodEstimate: Option<int>,
    nonce: Option<int>)

  /** One external call, with what it is given. */
  datatype Call =
    | GetCode(address: Address)
    | EstimateGas(data: Option<Bytecode>, to: Option<Address>)
    | GetGasPrice
    | MethodEstimateGas(params: Params)
    | GetTransactionCount
    | MethodSend(params: Params)
    | MethodCall(params: Params)

  /** Which event or callback settles the promise once the call is dispatched. */
  datatype Branch = OnReceipt | OnConfirmation | OnStaticResult

  /** How the returned promise ends: rejected by a failed step, handed to a branch, or never settled. */
  datatype CallOutcome = Rejected | Dispatched(branch: Branch) | NeverSettles

  datatype Resolution = Resolution(trace: seq<Call>, outcome: CallOutcome, final: Params)

  /** A JavaScript string argument is truthy when it is present and not empty. */
  predicate Given(address: Option<Address>)
  {
    address.Some? && address.value != ""
  }

  /** The confirmation level after defaulting: a missing level is `RECEIPT`. */
  function Level(confirmation: Option<int>): int
  {
    if confirmation.None? then Receipt else confirmation.value
  }

  /**
   * The ABI the payability check looks at: the given one, or the engine's. A `for ... in`
   * loop over a missing configuration runs no iteration, so that case checks an empty ABI.
   */
  function CheckedAbi(abi: Option<seq<MethodDescriptor>>, config: EngineConfig): seq<MethodDescriptor>
  {
    if abi.Some? then abi.value
    else if config.abiConfiguration.Some? then config.abiConfiguration.value
    else []
  }

  /** Whether the caller's ABI and contract address are used (`abi && contractAddress`). */
  predicate UsesGivenContract(abi: Option<seq<MethodDescriptor>>, contractAddress: Option<Address>)
  {
    abi.Some? && Given(contractAddress)
  }

  /**
   * Whether a contract can be built: from the caller's ABI and address, or else from the
   * engine's ABI configuration and bytecode, both present.
   */
  predicate ContractAvailable(abi: Option<seq<MethodDescriptor>>, contractAddress: Option<Address>, config: EngineConfig)
  {
    UsesGivenContract(abi, contractAddress) || (config.abiConfiguration.Some? && config.binCode.Some?)
  }

  /**
   * The whole of `callFunction` as a value: the calls made, how the promise ends, and
   * what `generalParams` holds afterwards (writes made before a failure stay).
   */
  function Resolve(name: string, gp: Params, confirmation: Option<int>, abi: Option<seq<MethodDescriptor>>,
                   contractAddress: Option<Address>, gasMultiplier: int, config: EngineConfig,
                   node: NodeAnswers): Resolution
  {
    var payable := Payable(CheckedAbi(abi, config), name);
    var given := UsesGivenContract(abi, contractAddress);
    var fetchCode := given && payable;
    if fetchCode && node.code.None? then Resolution([GetCode(contractAddress.value)], Rejected, gp)
    else if !given && (config.abiConfiguration.None? || config.binCode.None?) then Resolution([], Rejected, gp)
    else
      var t1 := if fetchCode then [GetCode(contractAddress.value)] else [];
      var code := if !given then config.binCode else if payable then node.code else None;
      var wallet := if given then Some(config.defaultWallet) else config.abiWallet;
      var estimate := gp.gas.None? && payable;
      if estimate && node.deployEstimate.None? then Resolution(t1 + [EstimateGas(code, wallet)], Rejected, gp)
      else
        var t2 := if estimate then t1 + [EstimateGas(code, wallet)] else t1;
        var p2 := if estimate then gp.(gas := node.deployEstimate, gasLimit := Some(node.deployEstimate.value * gasMultiplier))
                  else gp;
        ResolveMethod(t2, p2, confirmation, gasMultiplier, node)
  }

  /**
   * The second half of `callFunction`, from building the method call on, given the calls
   * made so far (`t2`) and what `generalParams` holds at that point (`p2`).
   */
  function ResolveMethod(t2: seq<Call>, p2: Params, confirmation: Option<int>, gasMultiplier: int,
                         node: NodeAnswers): (r: Resolution)
    ensures |t2| <= |r.trace| && r.trace[..|t2|] == t2
    ensures forall k :: |t2| <= k < |r.trace| ==> !r.trace[k].GetCode? && !r.trace[k].EstimateGas?
    ensures r.outcome != Rejected ==>
      node.methodEstimate.Some? && node.gasPrice.Some? && node.nonce.Some? &&
      r.final == Params(node.methodEstimate, Some(node.methodEstimate.value * gasMultiplier), node.gasPrice, node.nonce)
    ensures r.outcome.Dispatched? ==>
      |r.trace| == |t2| + 4 &&
      r.trace[|t2|] == GetGasPrice && r.trace[|t2| + 1] == MethodEstimateGas(p2) &&
      r.trace[|t2| + 2] == GetTransactionCount &&
      (r.trace[|t2| + 3] == MethodSend(r.final) || r.trace[|t2| + 3] == MethodCall(r.final))
  {
    if !node.methodFound then Resolution(t2, Rejected, p2)
    else if node.gasPrice.None? then Resolution(t2 + [GetGasPrice], Rejected, p2)
    else if node.methodEstimate.None? then Resolution(t2 + [GetGasPrice] + [MethodEstimateGas(p2)], Rejected, p2)
    else
      var gas := node.methodEstimate.value;
      var p3 := p2.(gas := Some(gas), gasLimit := Some(gas * gasMultiplier), gasPrice := node.gasPrice);
      var t3 := t2 + [GetGasPrice] + [MethodEstimateGas(p2)] + [GetTransactionCount];
      if node.nonce.None? then Resolution(t3, Rejected, p3)
      else
        var p4 := p3.(nonce := node.nonce);
        var level := Level(confirmation);
        if level == Receipt then Resolution(t3 + [MethodSend(p4)], Dispatched(OnReceipt), p4)
        else if level == Confirmation then Resolution(t3 + [MethodSend(p4)], Dispatched(OnConfirmation), p4)
        else if level == Static then Resolution(t3 + [MethodCall(p4)], Dispatched(OnStaticResult), p4)
        else Resolution(t3, NeverSettles, p4)
  }

  /**
   * `callFunction`: check payability, pick the contract, possibly fetch the bytecode and
   * estimate deployment gas, build the method call, read the gas price, estimate the
   * call's gas, read the nonce, and dispatch on the confirmation level. Each read that
   * fails rejects the call, leaving `generalParams` as far as it was written.
   */
  method CallFunction(name: string, generalParams: GeneralParams, confirmation: Option<int>,
                      abi: Option<seq<MethodDescriptor>>, contractAddress: Option<Address>,
                      gasMultiplier: int, config: EngineConfig, node: NodeAnswers)
    returns (trace: seq<Call>, outcome: CallOutcome)
    modifies generalParams
    ensures var r := Resolve(name, old(generalParams.Snapshot()), confirmation, abi, contractAddress,
                             gasMultiplier, config, node);
      trace == r.trace && outcome == r.outcome && generalParams.Snapshot() == r.final
  {
    var payable := IsMethodPayable(name, CheckedAbi(abi, config));
    trace := [];
    var code: Option<Bytecode> := None;
    var wallet: Option<Address>;
    if abi.Some? && Given(contractAddress) {
      if payable {
        trace := [GetCode(contractAddress.value)];
        if node.code.None? {
          return trace, Rejected;
        }
        code := node.code;
      }
      wallet := Some(config.defaultWallet);
    } else {
      // reading `abiConfiguration.defaultWallet` or `bin.code` throws when either is missing
      if config.abiConfiguration.None? || config.binCode.None? {
        return trace, Rejected;
      }
      wallet := config.abiWallet;
      code := config.binCode;
    }

    if generalParams.gas.None? && payable {
      trace := trace + [EstimateGas(code, wallet)];
      if node.deployEstimate.None? {
        return trace, Rejected;
      }
      var ets := node.deployEstimate.value;
      generalParams.gas := Some(ets);
      generalParams.gasLimit := Some(ets * gasMultiplier);
    }

    trace, outcome := CallMethod(generalParams, trace, confirmation, gasMultiplier, node);
  }

  /**
   * The second half of `callFunction`: build the method call, read the gas price,
   * estimate the call's gas, read the nonce, and dispatch on the confirmation level.
   */
  method CallMethod(generalParams: GeneralParams, trace0: seq<Call>, confirmation: Option<int>,
                    gasMultiplier: int, node: NodeAnswers)
    returns (trace: seq<Call>, outcome: CallOutcome)
    modifies generalParams
    ensures var r := ResolveMethod(trace0, old(generalParams.Snapshot()), confirmation, gasMultiplier, node);
      trace == r.trace && outcome == r.outcome && generalParams.Snapshot() == r.final
  {
    var level := Level(confirmation);
    trace := trace0;
    if !node.methodFound {
      return trace, Rejected;
    }

    trace := trace + [GetGasPrice];
    if node.gasPrice.None? {
      return trace, Rejected;
    }
    var gasPrice := node.gasPrice.value;
    trace := trace + [MethodEstimateGas(generalParams.Snapshot())];
    if node.methodEstimate.None? {
      return trace, Rejected;
    }
    var gas := node.methodEstimate.value;
    generalParams.gas := Some(gas);
    generalParams.gasLimit := Some(gas * gasMultiplier);
    generalParams.gasPrice := Some(gasPrice);
    trace := trace + [GetTransactionCount];
    if node.nonce.None? {
      return trace, Rejected;
    }
    generalParams.nonce := node.nonce;

    if level == Receipt {
      trace := trace + [MethodSend(generalParams.Snapshot())];
      outcome := Dispatched(OnReceipt);
    } else if level == Confirmation {
      trace := trace + [MethodSend(generalParams.Snapshot())];
      outcome := Dispatched(OnConfirmation);
    } else if level == Static {
      trace := trace + [MethodCall(generalParams.Snapshot())];
      outcome := Dispatched(OnStaticResult);
    } else {
      outcome := NeverSettles;
    }
  }

  // ---------------------------------------------------------------------------
  // Properties of the resolution order

  /** A missing confirmation level behaves exactly like `RECEIPT`. */
  lemma MissingLevelIsReceipt(name: string, gp: Params, abi: Option<seq<MethodDescriptor>>,
                              contractAddress: Option<Address>, gasMultiplier: int, config: EngineConfig,
                              node: NodeAnswers)
    ensures Resolve(name, gp, None, abi, contractAddress, gasMultiplier, config, node) ==
            Resolve(name, gp, Some(Receipt), abi, contractAddress, gasMultiplier, config, node)
  {
  }

  /**
   * Without a given ABI and address the engine's configuration is used, and when its ABI
   * configuration or its bytecode holder is missing the call rejects before any node
   * call, leaving `generalParams` as it was.
   */
  lemma MissingConfigRejects(name: string, gp: Params, confirmation: Option<int>,
                             abi: Option<seq<MethodDescriptor>>, contractAddress: Option<Address>,
                             gasMultiplier: int, config: EngineConfig, node: NodeAnswers)
    requires !ContractAvailable(abi, contractAddress, config)
    ensures Resolve(name, gp, confirmation, abi, contractAddress, gasMultiplier, config, node) == Resolution([], Rejected, gp)
  {
  }

  /**
   * The bytecode is fetched only for a payable method called through a given ABI and
   * address, and then it is the first call; no other step fetches it.
   */
  lemma CodeFetchedOnlyWhenPayableAndGiven(name: string, gp: Params, confirmation: Option<int>,
                                           abi: Option<seq<MethodDescriptor>>, contractAddress: Option<Address>,
                                           gasMultiplier: int, config: EngineConfig, node: NodeAnswers)
    ensures var r := Resolve(name, gp, confirmation, abi, contractAddress, gasMultiplier, config, node);
      (r.trace != [] && r.trace[0].GetCode?) <==>
        Payable(CheckedAbi(abi, config), name) && UsesGivenContract(abi, contractAddress)
    ensures var r := Resolve(name, gp, confirmation, abi, contractAddress, gasMultiplier, config, node);
      forall k :: 0 < k < |r.trace| ==> !r.trace[k].GetCode?
  {
  }

  /**
   * Whenever the call gets as far as the nonce, the parameters hold the method's own gas
   * estimate (whatever the caller passed and whatever the conditional estimate wrote),
   * the gas limit is that estimate times the multiplier, and the gas price and nonce are
   * the values read.
   */
  lemma FinalParamsFromMethodEstimate(name: string, gp: Params, confirmation: Option<int>,
                                      abi: Option<seq<MethodDescriptor>>, contractAddress: Option<Address>,
                                      gasMultiplier: int, config: EngineConfig, node: NodeAnswers)
    ensures var r := Resolve(name, gp, confirmation, abi, contractAddress, gasMultiplier, config, node);
      r.outcome != Rejected ==>
        node.methodEstimate.Some? && node.gasPrice.Some? && node.nonce.Some? &&
        r.final == Params(node.methodEstimate, Some(node.methodEstimate.value * gasMultiplier), node.gasPrice, node.nonce)
  {
  }

  /**
   * Order of the last steps: a dispatched call ends with the gas-price read, the method's
   * gas estimate, the nonce read and then the send or call, which receives the final
   * parameters.
   */
  lemma NonceReadLast(name: string, gp: Params, confirmation: Option<int>,
                      abi: Option<seq<MethodDescriptor>>, contractAddress: Option<Address>,
                      gasMultiplier: int, config: EngineConfig, node: NodeAnswers)
    ensures var r := Resolve(name, gp, confirmation, abi, contractAddress, gasMultiplier, config, node);
      r.outcome.Dispatched? ==>
        |r.trace| >= 4 &&
        r.trace[|r.trace| - 4] == GetGasPrice &&
        r.trace[|r.trace| - 3].MethodEstimateGas? &&
        r.trace[|r.trace| - 2] == GetTransactionCount &&
        (r.trace[|r.trace| - 1] == MethodSend(r.final) || r.trace[|r.trace| - 1] == MethodCall(r.final))
  {
  }

  /**
   * The switch has no default: a level other than 0, 1 and 2 sends nothing and calls
   * nothing, and the promise never settles.
   */
  lemma UnmatchedLevelNeverSettles(name: string, gp: Params, confirmation: Option<int>,
                                   abi: Option<seq<MethodDescriptor>>, contractAddress: Option<Address>,
                                   gasMultiplier: int, config: EngineConfig, node: NodeAnswers)
    requires Level(confirmation) != Receipt && Level(confirmation) != Confirmation && Level(confirmation) != Static
    ensures var r := Resolve(name, gp, confirmation, abi, contractAddress, gasMultiplier, config, node);
      r.outcome != Rejected ==>
        r.outcome == NeverSettles &&
        forall k :: 0 <= k < |r.trace| ==> !r.trace[k].MethodSend? && !r.trace[k].MethodCall?
  {
  }

  /**
   * A payable method without a caller-supplied gas gets the conditional estimate, which
   * is also what the method's own estimate is given; when the call goes on, that first
   * estimate is overwritten.
   */
  lemma ConditionalEstimateOverwritten(name: string, gp: Params, confirmation: Option<int>,
                                       abi: Option<seq<MethodDescriptor>>, contractAddress: Option<Address>,
                                       gasMultiplier: int, config: EngineConfig, node: NodeAnswers)
    requires gp.gas.None? && Payable(CheckedAbi(abi, config), name) && ContractAvailable(abi, contractAddress, config)
    requires node.code.Some? && node.deployEstimate.Some? && node.methodFound && node.gasPrice.Some?
    requires node.methodEstimate.Some? && node.nonce.Some?
    ensures var r := Resolve(name, gp, confirmation, abi, contractAddress, gasMultiplier, config, node);
      (exists k :: 0 <= k < |r.trace| && r.trace[k].EstimateGas?) &&
      (exists k :: 0 <= k < |r.trace| && r.trace[k] == MethodEstimateGas(gp.(gas := node.deployEstimate,
         gasLimit := Some(node.deployEstimate.value * gasMultiplier)))) &&
      r.final.gas == node.methodEstimate
  {
    var r := Resolve(name, gp, confirmation, abi, contractAddress, gasMultiplier, config, node);
    var i := if UsesGivenContract(abi, contractAddress) then 1 else 0;
    assert r.trace[i].EstimateGas?;
    assert r.trace[i + 2].MethodEstimateGas?;
  }

  /**
   * The deployment estimate is asked for only when it is needed: a call that estimates
   * deployment gas has a payable method and no caller-supplied `gas`, and it asks once.
   */
  lemma EstimateOnlyWhenNeeded(name: string, gp: Params, confirmation: Option<int>,
                               abi: Option<seq<MethodDescriptor>>, contractAddress: Option<Address>,
                               gasMultiplier: int, config: EngineConfig, node: NodeAnswers)
    ensures var r := Resolve(name, gp, confirmation, abi, contractAddress, gasMultiplier, config, node);
      (exists k :: 0 <= k < |r.trace| && r.trace[k].EstimateGas?) ==>
        gp.gas.None? && Payable(CheckedAbi(abi, config), name)
    ensures var r := Resolve(name, gp, confirmation, abi, contractAddress, gasMultiplier, config, node);
      forall k, l :: 0 <= k < l < |r.trace| && r.trace[k].EstimateGas? ==> !r.trace[l].EstimateGas?
  {
  }

  /**
   * Writes are not undone: when building the method call fails after the conditional
   * estimate, the caller's object keeps that estimate and its gas limit.
   */
  lemma FailedCallKeepsEarlyWrites(name: string, gp: Params, confirmation: Option<int>,
                                   abi: Option<seq<MethodDescriptor>>, contractAddress: Option<Address>,
                                   gasMultiplier: int, config: EngineConfig, node: NodeAnswers)
    requires gp.gas.None? && Payable(CheckedAbi(abi, config), name) && ContractAvailable(abi, contractAddress, config)
    requires node.code.Some? && node.deployEstimate.Some? && !node.methodFound
    ensures var r := Resolve(name, gp, confirmation, abi, contractAddress, gasMultiplier, config, node);
      r.outcome == Rejected &&
      r.final == gp.(gas := node.deployEstimate, gasLimit := Some(node.deployEstimate.value * gasMultiplier))
  {
  }
}
