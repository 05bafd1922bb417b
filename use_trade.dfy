/**
 * The trade hook: market parameters read from the orderbook contract, the
 * per-side conversion of the entered amounts into contract units, the gas
 * limit with its 20 % buffer and hard cap, the choice of fee fields, and the
 * trade flow (checks, approval, calldata, submission) as a sequence of
 * external calls appended to a log.
 */
module UseTrade {
  import opened Wrappers
  import opened Units

  type Address = string

  /** ethers' `constants.AddressZero`, the placeholder for the native asset. */
  const ZeroAddress: Address := "0x0000000000000000000000000000000000000000"
  const GasLimitCap: nat := 2800000
  const ApproveGasLimit: nat := 50000

  const Log10OfZero := "Log10 of zero is undefined"
  const WalletNotConnected := "Wallet not connected"
  const MarketNotLoaded := "Market not loaded"
  const PublicClientNotConnected := "Public client not connected"
  const MalformedMarketParams := "could not decode the getMarketParams result"

  datatype Side = Buy | Sell

  // ---------------------------------------------------------------------------
  // Market parameters

  /** One decoded value of the contract's result tuple. */
  datatype AbiValue = Uint(n: nat) | AddressValue(a: Address)

  datatype MarketParams = MarketParams(
    pricePrecision: nat,
    sizePrecision: nat,
    baseAssetAddress: Address,
    baseAssetDecimals: nat,
    quoteAssetAddress: Address,
    quoteAssetDecimals: nat,
    tickSize: nat,
    minSize: nat,
    maxSize: nat,
    takerFeeBps: nat,
    makerFeeBps: nat)

  /** The layout of `getMarketParams()`'s eleven-value result, in position order. */
  function AbiTuple(mp: MarketParams): (raw: seq<AbiValue>)
  {
    [Uint(mp.pricePrecision), Uint(mp.sizePrecision), AddressValue(mp.baseAssetAddress),
     Uint(mp.baseAssetDecimals), AddressValue(mp.quoteAssetAddress), Uint(mp.quoteAssetDecimals),
     Uint(mp.tickSize), Uint(mp.minSize), Uint(mp.maxSize), Uint(mp.takerFeeBps), Uint(mp.makerFeeBps)]
  }

  /** Positions 2 and 4 of the result hold addresses, all others unsigned integers. */
  predicate WellTyped(raw: seq<AbiValue>)
  {
    |raw| == 11 && forall i :: 0 <= i < 11 ==> (raw[i].AddressValue? <==> i == 2 || i == 4)
  }

  /**
   * `fetchMarketParams`' field mapping: position i of the result becomes the
   * i-th field of the record. A result of another shape is a read error.
   */
  function FetchMarketParams(raw: seq<AbiValue>): (r: Result<MarketParams>)
    ensures r.Success? <==> WellTyped(raw)
    ensures r.Success? ==> AbiTuple(r.value) == raw
    ensures r.Failure? ==> r.error == MalformedMarketParams
  {
    if !WellTyped(raw) then Failure(MalformedMarketParams)
    else
      assert raw[0].Uint? && raw[1].Uint? && raw[2].AddressValue? && raw[3].Uint? && raw[4].AddressValue?;
      assert raw[5].Uint? && raw[6].Uint? && raw[7].Uint? && raw[8].Uint? && raw[9].Uint? && raw[10].Uint?;
      Success(MarketParams(raw[0].n, raw[1].n, raw[2].a, raw[3].n, raw[4].a, raw[5].n,
                           raw[6].n, raw[7].n, raw[8].n, raw[9].n, raw[10].n))
  }

  /** Decoding the contract's layout of a record gives back that record. */
  lemma FetchMarketParamsOfTuple(mp: MarketParams)
    ensures FetchMarketParams(AbiTuple(mp)) == Success(mp)
  {
    var raw := AbiTuple(mp);
    assert WellTyped(raw) by {
      forall i | 0 <= i < 11 ensures raw[i].AddressValue? <==> i == 2 || i == 4 {
      }
    }
    var r := FetchMarketParams(raw);
    assert AbiTuple(r.value) == AbiTuple(mp);
    AbiTupleInjective(r.value, mp);
  }

  lemma AbiTupleInjective(a: MarketParams, b: MarketParams)
    requires AbiTuple(a) == AbiTuple(b)
    ensures a == b
  {
    assert AbiTuple(a)[0] == AbiTuple(b)[0] && AbiTuple(a)[1] == AbiTuple(b)[1];
    assert AbiTuple(a)[2] == AbiTuple(b)[2] && AbiTuple(a)[3] == AbiTuple(b)[3];
    assert AbiTuple(a)[4] == AbiTuple(b)[4] && AbiTuple(a)[5] == AbiTuple(b)[5];
    assert AbiTuple(a)[6] == AbiTuple(b)[6] && AbiTuple(a)[7] == AbiTuple(b)[7];
    assert AbiTuple(a)[8] == AbiTuple(b)[8] && AbiTuple(a)[9] == AbiTuple(b)[9];
    assert AbiTuple(a)[10] == AbiTuple(b)[10];
  }

  // ---------------------------------------------------------------------------
  // Decimal exponent of a precision

  /**
   * `log10BigNumber`: the number of decimal digits of n minus one, that is
   * the k with 10^k <= n < 10^(k+1); zero has no logarithm.
   */
  function Log10(n: nat): (r: Result<nat>)
    ensures r.Failure? <==> n == 0
    ensures r.Failure? ==> r.error == Log10OfZero
    ensures r.Success? ==> Pow10(r.value) <= n < Pow10(r.value + 1)
  {
    if n == 0 then Failure(Log10OfZero)
    else
      NatToStringLength(n);
      Success(|NatToString(n)| - 1)
  }

  lemma {:induction false} Pow10Monotone(a: nat, b: nat)
    requires a < b
    ensures Pow10(a) < Pow10(b)
    decreases b
  {
    if a + 1 < b {
      Pow10Monotone(a, b - 1);
    }
  }

  /** A precision that is a power of ten yields its exponent. */
  lemma Log10OfPow10(k: nat)
    ensures Log10(Pow10(k)) == Success(k)
  {
    var n := Pow10(k);
    var r := Log10(n);
    assert r.Success?;
    var m := r.value;
    assert Pow10(m) <= n < Pow10(m + 1);
    if m < k {
      Pow10MonotoneLe(m + 1, k);
    } else if m > k {
      Pow10MonotoneLe(k + 1, m);
    }
  }

  lemma Pow10MonotoneLe(a: nat, b: nat)
    requires a <= b
    ensures Pow10(a) <= Pow10(b)
  {
    if a < b {
      Pow10Monotone(a, b);
    }
  }

  // ---------------------------------------------------------------------------
  // Per-side order parameters

  /** size, minAmountOut and the native value attached to the call (None: undefined). */
  datatype OrderParams = OrderParams(size: nat, minAmountOut: nat, value: Option<nat>)

  /** The precision whose exponent gives `size`'s decimals. */
  function SizePrecision(side: Side, mp: MarketParams): nat
  {
    if side == Buy then mp.pricePrecision else mp.sizePrecision
  }

  /** The asset the user pays in: quote for a buy, base for a sell. */
  function InputAsset(side: Side, mp: MarketParams): Address
  {
    if side == Buy then mp.quoteAssetAddress else mp.baseAssetAddress
  }

  function InputDecimals(side: Side, mp: MarketParams): nat
  {
    if side == Buy then mp.quoteAssetDecimals else mp.baseAssetDecimals
  }

  /** The decimals of the asset received, which `minAmountOut` is counted in. */
  function OutputDecimals(side: Side, mp: MarketParams): nat
  {
    if side == Buy then mp.baseAssetDecimals else mp.quoteAssetDecimals
  }

  /**
   * The native value attached when the input asset is the native one (the
   * zero address): the amount in that asset's decimals. Margin mode, which
   * would suppress it, is always off.
   */
  function NativeValue(side: Side, amount: string, mp: MarketParams): (r: Result<Option<nat>>)
    ensures InputAsset(side, mp) != ZeroAddress ==> r == Success(None)
    ensures InputAsset(side, mp) == ZeroAddress ==>
              r == (match ParseUnits(amount, InputDecimals(side, mp))
                    case Success(v) => Success(Some(v))
                    case Failure(e) => Failure(e))
  {
    if InputAsset(side, mp) == ZeroAddress then
      var v :- ParseUnits(amount, InputDecimals(side, mp));
      Success(Some(v))
    else Success(None)
  }

  /**
   * The conversions the hook makes before encoding: `size` from the amount in
   * log10(precision) decimals, `minAmountOut` from the estimate in the output
   * asset's decimals, then the native value. The first conversion to fail
   * decides the error.
   */
  function DeriveOrder(side: Side, amount: string, estimatedReceive: string, mp: MarketParams): (r: Result<OrderParams>)
    ensures r.Success? <==>
              && Log10(SizePrecision(side, mp)).Success?
              && ParseUnits(amount, Log10(SizePrecision(side, mp)).value).Success?
              && ParseUnits(estimatedReceive, OutputDecimals(side, mp)).Success?
              && NativeValue(side, amount, mp).Success?
    ensures r.Success? ==>
              && ParseUnits(amount, Log10(SizePrecision(side, mp)).value) == Success(r.value.size)
              && ParseUnits(estimatedReceive, OutputDecimals(side, mp)) == Success(r.value.minAmountOut)
              && NativeValue(side, amount, mp) == Success(r.value.value)
  {
    var decimals :- Log10(SizePrecision(side, mp));
    var size :- ParseUnits(amount, decimals);
    var minAmountOut :- ParseUnits(estimatedReceive, OutputDecimals(side, mp));
    var value :- NativeValue(side, amount, mp);
    Success(OrderParams(size, minAmountOut, value))
  }

  /** A zero precision stops the conversion with the logarithm's error. */
  lemma DeriveOrderZeroPrecision(side: Side, amount: string, estimatedReceive: string, mp: MarketParams)
    requires SizePrecision(side, mp) == 0
    ensures DeriveOrder(side, amount, estimatedReceive, mp) == Failure(Log10OfZero)
  {
  }

  // ---------------------------------------------------------------------------
  // Calldata, transactions and fee fields

  datatype Calldata =
    | PlaceAndExecuteMarket(side: Side, size: nat, minAmountOut: nat, isMargin: bool, isFillOrKill: bool)
    | Approve(spender: Address, amount: nat)

  /** The trade entry point's arguments: margin off, fill-or-kill on. */
  function TradeCalldata(side: Side, order: OrderParams): (data: Calldata)
    ensures data.PlaceAndExecuteMarket? && data.side == side
    ensures data.size == order.size && data.minAmountOut == order.minAmountOut
    ensures !data.isMargin && data.isFillOrKill
  {
    PlaceAndExecuteMarket(side, order.size, order.minAmountOut, false, true)
  }

  datatype FeeFields = NoFeeFields | Eip1559(maxFeePerGas: nat, maxPriorityFeePerGas: nat) | Legacy(gasPrice: nat)

  /** The provider's fee data; each field may be missing. */
  datatype FeeData = FeeData(gasPrice: Option<nat>, maxFeePerGas: Option<nat>, maxPriorityFeePerGas: Option<nat>)

  /**
   * Both EIP-1559 fields when both are present, otherwise the legacy gas
   * price with a missing price read as 0. (BigNumber values are objects and
   * always truthy, so the request always carries one of the two.)
   */
  function SelectFeeFields(fd: FeeData): (f: FeeFields)
    ensures f.Eip1559? <==> fd.maxFeePerGas.Some? && fd.maxPriorityFeePerGas.Some?
    ensures f.Eip1559? ==> f.maxFeePerGas == fd.maxFeePerGas.value && f.maxPriorityFeePerGas == fd.maxPriorityFeePerGas.value
    ensures !f.Eip1559? ==> f == Legacy(fd.gasPrice.GetOr(0))
  {
    if fd.maxFeePerGas.Some? && fd.maxPriorityFeePerGas.Some? then
      Eip1559(fd.maxFeePerGas.value, fd.maxPriorityFeePerGas.value)
    else
      Legacy(fd.gasPrice.GetOr(0))
  }

  datatype TxRequest = TxRequest(
    to: Address,
    from: Option<Address>,
    data: Calldata,
    value: Option<nat>,
    gasLimit: nat,
    nonce: Option<nat>,
    fees: FeeFields)

  /** The allowance for the market to pull the sold base asset, with its fixed gas limit. */
  function ApproveTx(market: Address, mp: MarketParams, amount: nat): (tx: TxRequest)
    ensures tx.to == mp.baseAssetAddress && tx.data == Approve(market, amount)
    ensures tx.gasLimit == ApproveGasLimit && tx.value.None?
  {
    TxRequest(mp.baseAssetAddress, None, Approve(market, amount), None, ApproveGasLimit, None, NoFeeFields)
  }

  // ---------------------------------------------------------------------------
  // Gas limit

  /**
   * The gas limit from a simulation: the simulated amount plus 20 %
   * (integer arithmetic, rounded down), capped at 2,800,000; the cap itself
   * when the simulation failed (None).
   */
  function GasLimitFor(simulated: Option<nat>): (g: nat)
    ensures g <= GasLimitCap
    ensures simulated.None? ==> g == GasLimitCap
    ensures simulated.Some? && simulated.value * 120 / 100 <= GasLimitCap ==> g == simulated.value * 120 / 100
    ensures simulated.Some? && simulated.value * 120 / 100 > GasLimitCap ==> g == GasLimitCap
  {
    match simulated
    case None => GasLimitCap
    case Some(s) => if s * 120 / 100 > GasLimitCap then GasLimitCap else s * 120 / 100
  }

  /**
   * The hook's gas-limit steps: buffer the simulated value, then lower it to
   * the cap if it exceeds it; fall back to the cap when simulation failed.
   */
  method PlanGasLimit(simulated: Option<nat>) returns (g: nat)
    ensures g == GasLimitFor(simulated)
    ensures g <= GasLimitCap
  {
    if simulated.Some? {
      g := simulated.value * 120 / 100;
      if g > GasLimitCap {
        g := GasLimitCap;
      }
    } else {
      g := GasLimitCap;
    }
  }

  /** A larger simulated value never yields a smaller limit. */
  lemma GasLimitMonotone(a: nat, b: nat)
    requires a <= b
    ensures GasLimitFor(Some(a)) <= GasLimitFor(Some(b))
  {
    assert a * 120 <= b * 120;
    assert a * 120 / 100 <= b * 120 / 100;
  }

  /** Below the cap the buffered limit covers the simulated amount. */
  lemma GasLimitCoversSimulation(a: nat)
    requires a <= GasLimitCap
    ensures a <= GasLimitFor(Some(a))
  {
  }

  /** A failed simulation gets the largest limit any simulation could get. */
  lemma GasLimitFallbackIsMaximal(a: nat)
    ensures GasLimitFor(Some(a)) <= GasLimitFor(None)
  {
  }

  lemma GasLimitOfThreeMillion()
    ensures GasLimitFor(Some(3000000)) == 2800000
  {
  }

  // ---------------------------------------------------------------------------
  // The trade and estimate flows

  /** An interaction with the chain: a read on the read-only provider or a signed send. */
  datatype Call =
    | ReadMarketParams(orderbook: Address)
    | SimulateGas(to: Address, from: Address, data: Calldata, value: Option<nat>)
    | GetFeeData
    | GetTransactionCount(account: Address)
    | SendTransaction(tx: TxRequest)

  /** What the hook sees of the wallet, the market and the public client at call time. */
  datatype Session = Session(wallet: Option<Address>, market: Option<Address>, publicClient: bool)

  /**
   * The answers the chain gives, in the order the trade asks: the market
   * parameters read, the gas simulation (None: it failed), the fee data, the
   * nonce, and the outcome of each send (a transaction hash or a rejection).
   */
  datatype Chain = Chain(
    marketParams: Result<seq<AbiValue>>,
    simulation: Option<nat>,
    feeData: Result<FeeData>,
    nonce: Result<nat>,
    approveSend: Result<string>,
    tradeSend: Result<string>)

  /** What one hook call did: its calls in order, its outcome and the gas state it wrote. */
  datatype Run = Run(calls: seq<Call>, result: Result<string>, gasLimit: Option<nat>, gasPrice: Option<nat>)

  /** Everything computed from the market parameters before anything is sent. */
  datatype Prepared = Prepared(params: MarketParams, order: OrderParams, approval: Option<nat>)

  /**
   * The sell-side allowance amount: the amount in the base asset's decimals,
   * needed only when selling a base asset that is not the native one.
   */
  function ApprovalAmount(side: Side, amount: string, mp: MarketParams): (r: Result<Option<nat>>)
    ensures (side == Sell && mp.baseAssetAddress != ZeroAddress) <==> r != Success(None)
    ensures r.Success? && r.value.Some? ==> ParseUnits(amount, mp.baseAssetDecimals) == Success(r.value.value)
  {
    if side == Sell && mp.baseAssetAddress != ZeroAddress then
      var a :- ParseUnits(amount, mp.baseAssetDecimals);
      Success(Some(a))
    else Success(None)
  }

  /** The market read, its decoding, the order conversions and (for trades) the allowance amount. */
  function Prepare(side: Side, amount: string, estimatedReceive: string, read: Result<seq<AbiValue>>,
                   withApproval: bool): (r: Result<Prepared>)
    ensures r.Success? ==> read.Success? && FetchMarketParams(read.value) == Success(r.value.params)
    ensures r.Success? ==> DeriveOrder(side, amount, estimatedReceive, r.value.params) == Success(r.value.order)
    ensures r.Success? && withApproval ==> ApprovalAmount(side, amount, r.value.params) == Success(r.value.approval)
    ensures r.Success? && !withApproval ==> r.value.approval.None?
    ensures read.Failure? ==> r == Failure(read.error)
    ensures read.Success? && FetchMarketParams(read.value).Failure? ==> r == Failure(MalformedMarketParams)
    ensures read.Success? && FetchMarketParams(read.value).Success? ==>
              var mp := FetchMarketParams(read.value).value;
              var order := DeriveOrder(side, amount, estimatedReceive, mp);
              && (order.Failure? ==> r == Failure(order.error))
              && (order.Success? && withApproval && ApprovalAmount(side, amount, mp).Failure? ==>
                    r == Failure(ApprovalAmount(side, amount, mp).error))
              && (order.Success? && (withApproval ==> ApprovalAmount(side, amount, mp).Success?) ==> r.Success?)
  {
    var raw :- read;
    var mp :- FetchMarketParams(raw);
    var order :- DeriveOrder(side, amount, estimatedReceive, mp);
    var approval :- if withApproval then ApprovalAmount(side, amount, mp) else Success(None);
    Success(Prepared(mp, order, approval))
  }

  /** The session's checks, in the hook's order, yielding the signer and the market address. */
  function CheckSession(s: Session): (r: Result<(Address, Address)>)
    ensures s.wallet.None? ==> r == Failure(WalletNotConnected)
    ensures s.wallet.Some? && s.market.None? ==> r == Failure(MarketNotLoaded)
    ensures s.wallet.Some? && s.market.Some? && !s.publicClient ==> r == Failure(PublicClientNotConnected)
    ensures r.Success? <==> s.wallet.Some? && s.market.Some? && s.publicClient
    ensures r.Success? ==> r.value == (s.wallet.value, s.market.value)
  {
    if s.wallet.None? then Failure(WalletNotConnected)
    else if s.market.None? then Failure(MarketNotLoaded)
    else if !s.publicClient then Failure(PublicClientNotConnected)
    else Success((s.wallet.value, s.market.value))
  }

  /** The trade transaction: calldata, native value, capped gas limit, fresh nonce and fee fields. */
  function TradeTx(side: Side, market: Address, user: Address, order: OrderParams, gas: nat, nonce: nat, fd: FeeData): (tx: TxRequest)
    ensures tx.to == market && tx.from == Some(user) && tx.data == TradeCalldata(side, order)
    ensures tx.value == order.value && tx.gasLimit == gas && tx.nonce == Some(nonce)
    ensures tx.fees == SelectFeeFields(fd)
  {
    TxRequest(market, Some(user), TradeCalldata(side, order), order.value, gas, Some(nonce), SelectFeeFields(fd))
  }

  /** A run with some calls made before it. */
  function Prepend(before: seq<Call>, run: Run): (r: Run)
    ensures r.calls == before + run.calls
    ensures r.result == run.result && r.gasLimit == run.gasLimit && r.gasPrice == run.gasPrice
  {
    run.(calls := before + run.calls)
  }

  /**
   * What `trade` does, step by step: the session checks, then the market read
   * and everything after it. A failed check ends the run before any call.
   */
  function TradeRun(side: Side, amount: string, estimatedReceive: string, s: Session, chain: Chain): (r: Run)
    ensures CheckSession(s).Failure? ==> r == Run([], Failure(CheckSession(s).error), None, None)
    ensures CheckSession(s).Success? ==> r.calls != [] && r.calls[0] == ReadMarketParams(s.market.value)
    ensures r.gasLimit.Some? ==> r.gasLimit.value <= GasLimitCap
  {
    match CheckSession(s)
    case Failure(e) => Run([], Failure(e), None, None)
    case Success(ids) =>
      Prepend([ReadMarketParams(ids.1)], TradeAfterRead(side, amount, estimatedReceive, ids.0, ids.1, chain))
  }

  /** The conversions after the read; a failed read or conversion ends the run. */
  function TradeAfterRead(side: Side, amount: string, estimatedReceive: string, user: Address, market: Address,
                          chain: Chain): Run
  {
    match Prepare(side, amount, estimatedReceive, chain.marketParams, true)
    case Failure(e) => Run([], Failure(e), None, None)
    case Success(p) => TradeAfterPrepare(side, user, market, p, chain)
  }

  /** The approval send, when one is due (a rejected one ends the run), then the submission. */
  function TradeAfterPrepare(side: Side, user: Address, market: Address, p: Prepared, chain: Chain): Run
  {
    if p.approval.Some? then
      var approve := SendTransaction(ApproveTx(market, p.params, p.approval.value));
      if chain.approveSend.Failure? then Run([approve], Failure(chain.approveSend.error), None, None)
      else Prepend([approve], Submit(side, user, market, p.order, chain))
    else Submit(side, user, market, p.order, chain)
  }

  /**
   * The gas simulation (never fatal), the fee data, the nonce and the trade
   * send, whose outcome is the run's.
   */
  function Submit(side: Side, user: Address, market: Address, order: OrderParams, chain: Chain): (r: Run)
    ensures |r.calls| >= 2
    ensures r.calls[0] == SimulateGas(market, user, TradeCalldata(side, order), order.value) && r.calls[1] == GetFeeData
    ensures r.gasLimit == Some(GasLimitFor(chain.simulation))
    ensures r.result.Success? <==> chain.feeData.Success? && chain.nonce.Success? && chain.tradeSend.Success?
  {
    var gas := GasLimitFor(chain.simulation);
    var head := [SimulateGas(market, user, TradeCalldata(side, order), order.value), GetFeeData];
    match chain.feeData
    case Failure(e) => Run(head, Failure(e), Some(gas), None)
    case Success(fd) =>
      match chain.nonce
      case Failure(e) => Run(head + [GetTransactionCount(user)], Failure(e), Some(gas), Some(fd.gasPrice.GetOr(0)))
      case Success(nonce) =>
        Run(head + [GetTransactionCount(user), SendTransaction(TradeTx(side, market, user, order, gas, nonce, fd))],
            chain.tradeSend, Some(gas), Some(fd.gasPrice.GetOr(0)))
  }

  /**
   * What `estimateGas` does: nothing without a market; otherwise the market
   * read and conversions (a failure ends it silently), the simulation from
   * the connected address or the zero address, then the fee data.
   */
  function EstimateRun(side: Side, amount: string, estimatedReceive: string, s: Session, chain: Chain): (r: Run)
    ensures r.result == Success("")
    ensures s.market.None? ==> r.calls == []
    ensures s.market.Some? ==> r.calls != [] && r.calls[0] == ReadMarketParams(s.market.value)
    ensures r.gasLimit.Some? ==> r.gasLimit.value <= GasLimitCap
  {
    if s.market.None? then Run([], Success(""), None, None)
    else
      Prepend([ReadMarketParams(s.market.value)],
              EstimateAfterRead(side, amount, estimatedReceive, s.wallet.GetOr(ZeroAddress), s.market.value, chain))
  }

  function EstimateAfterRead(side: Side, amount: string, estimatedReceive: string, from: Address, market: Address,
                             chain: Chain): Run
  {
    match Prepare(side, amount, estimatedReceive, chain.marketParams, false)
    case Failure(_) => Run([], Success(""), None, None)
    case Success(p) => EstimateAfterPrepare(side, from, market, p, chain)
  }

  /** The simulation and the fee data of the estimate; a failed fee read ends it silently. */
  function EstimateAfterPrepare(side: Side, from: Address, market: Address, p: Prepared, chain: Chain): Run
  {
    var gas := GasLimitFor(chain.simulation);
    var calls := [SimulateGas(market, from, TradeCalldata(side, p.order), p.order.value), GetFeeData];
    match chain.feeData
    case Failure(_) => Run(calls, Success(""), Some(gas), None)
    case Success(fd) => Run(calls, Success(""), Some(gas), Some(fd.gasPrice.GetOr(0)))
  }

  /** The text of a caught error: its message, or "Error" when the message is empty. */
  function ErrorText(message: string): (t: string)
    ensures t != ""
    ensures message != "" ==> t == message
  {
    if message == "" then "Error" else message
  }

  predicate IsTradeSend(c: Call)
  {
    c.SendTransaction? && c.tx.data.PlaceAndExecuteMarket?
  }

  predicate IsApprovalSend(c: Call)
  {
    c.SendTransaction? && c.tx.data.Approve?
  }

  // ---------------------------------------------------------------------------
  // Properties of the trade flow

  /** The three session checks come first and in order; a failed one makes no call. */
  lemma TradeChecksSessionFirst(side: Side, amount: string, estimatedReceive: string, s: Session, chain: Chain)
    ensures var run := TradeRun(side, amount, estimatedReceive, s, chain);
            && (s.wallet.None? ==> run == Run([], Failure(WalletNotConnected), None, None))
            && (s.wallet.Some? && s.market.None? ==> run == Run([], Failure(MarketNotLoaded), None, None))
            && (s.wallet.Some? && s.market.Some? && !s.publicClient ==>
                  run == Run([], Failure(PublicClientNotConnected), None, None))
            && (s.wallet.Some? && s.market.Some? && s.publicClient ==>
                  run.calls != [] && run.calls[0] == ReadMarketParams(s.market.value))
  {
  }

  /**
   * A successful submission returns the trade send's hash; the send is its
   * last call, to the market, from the signer, with the side's calldata, the
   * order's native value, the capped gas limit, the nonce and the selected
   * fee fields. It records that gas limit and the gas price (0 when missing).
   */
  lemma SubmitSuccess(side: Side, user: Address, market: Address, order: OrderParams, chain: Chain)
    requires Submit(side, user, market, order, chain).result.Success?
    ensures var run := Submit(side, user, market, order, chain);
            && chain.feeData.Success? && chain.nonce.Success?
            && run.result == chain.tradeSend
            && run.calls == [SimulateGas(market, user, TradeCalldata(side, order), order.value), GetFeeData,
                             GetTransactionCount(user),
                             SendTransaction(TradeTx(side, market, user, order, GasLimitFor(chain.simulation),
                                                     chain.nonce.value, chain.feeData.value))]
            && run.gasLimit == Some(GasLimitFor(chain.simulation))
            && run.gasPrice == Some(chain.feeData.value.gasPrice.GetOr(0))
  {
  }

  /**
   * A successful trade passed every check and conversion, and its last call
   * is the trade send built from the decoded market parameters.
   */
  lemma TradeSuccessSendsOrder(side: Side, amount: string, estimatedReceive: string, s: Session, chain: Chain)
    requires TradeRun(side, amount, estimatedReceive, s, chain).result.Success?
    ensures s.wallet.Some? && s.market.Some? && s.publicClient
    ensures var prep := Prepare(side, amount, estimatedReceive, chain.marketParams, true);
            var run := TradeRun(side, amount, estimatedReceive, s, chain);
            && prep.Success?
            && chain.feeData.Success? && chain.nonce.Success?
            && run.result == chain.tradeSend
            && run.calls[|run.calls| - 1] == SendTransaction(TradeTx(side, s.market.value, s.wallet.value, prep.value.order,
                                                                      GasLimitFor(chain.simulation), chain.nonce.value,
                                                                      chain.feeData.value))
  {
    TradeRunAfterRead(side, amount, estimatedReceive, s, chain);
    var p := Prepare(side, amount, estimatedReceive, chain.marketParams, true).value;
    AfterPrepareSuccess(side, s.wallet.value, s.market.value, p, chain);
  }

  /**
   * The outcome of a trade that passes the session checks: the first failing
   * step (conversions, the approval send when one is due, the fee read, the
   * nonce read) fails the trade with that step's error; when every step
   * succeeds the trade's outcome is the trade send's.
   */
  lemma TradeRunOutcome(side: Side, amount: string, estimatedReceive: string, s: Session, chain: Chain)
    requires s.wallet.Some? && s.market.Some? && s.publicClient
    ensures var prep := Prepare(side, amount, estimatedReceive, chain.marketParams, true);
            var run := TradeRun(side, amount, estimatedReceive, s, chain);
            && (prep.Failure? ==> run == Run([ReadMarketParams(s.market.value)], Failure(prep.error), None, None))
            && (prep.Success? && prep.value.approval.Some? && chain.approveSend.Failure? ==>
                  run.result == Failure(chain.approveSend.error))
            && (prep.Success? && (prep.value.approval.Some? ==> chain.approveSend.Success?) ==>
                  && (chain.feeData.Failure? ==> run.result == Failure(chain.feeData.error))
                  && (chain.feeData.Success? && chain.nonce.Failure? ==> run.result == Failure(chain.nonce.error))
                  && (chain.feeData.Success? && chain.nonce.Success? ==> run.result == chain.tradeSend))
  {
    TradeRunAfterRead(side, amount, estimatedReceive, s, chain);
  }

  /** A successful run after the conversions ends with the trade send of the prepared order. */
  lemma AfterPrepareSuccess(side: Side, user: Address, market: Address, p: Prepared, chain: Chain)
    requires TradeAfterPrepare(side, user, market, p, chain).result.Success?
    ensures var run := Prepend([ReadMarketParams(market)], TradeAfterPrepare(side, user, market, p, chain));
            && chain.feeData.Success? && chain.nonce.Success?
            && run.result == chain.tradeSend
            && run.calls[|run.calls| - 1]
               == SendTransaction(TradeTx(side, market, user, p.order, GasLimitFor(chain.simulation), chain.nonce.value,
                                          chain.feeData.value))
  {
    SubmitSuccess(side, user, market, p.order, chain);
  }

  /**
   * The allowance: for a sell of a non-native base asset that gets past the
   * conversions, the call after the read is the approval of the market for
   * the amount in base decimals, sent to the base asset with gas limit 50,000;
   * in every other case no approval is ever sent.
   */
  lemma ApprovalFirst(side: Side, user: Address, market: Address, p: Prepared, chain: Chain)
    requires p.approval.Some?
    ensures var run := TradeAfterPrepare(side, user, market, p, chain);
            run.calls != [] && run.calls[0] == SendTransaction(ApproveTx(market, p.params, p.approval.value))
  {
  }

  lemma SubmitSendsNoApproval(side: Side, user: Address, market: Address, order: OrderParams, chain: Chain)
    ensures var run := Submit(side, user, market, order, chain);
            forall i :: 0 <= i < |run.calls| ==> !IsApprovalSend(run.calls[i])
  {
  }

  lemma ApprovalPrecedesTrade(side: Side, amount: string, estimatedReceive: string, s: Session, chain: Chain)
    requires s.wallet.Some? && s.market.Some? && s.publicClient
    requires Prepare(side, amount, estimatedReceive, chain.marketParams, true).Success?
    ensures var p := Prepare(side, amount, estimatedReceive, chain.marketParams, true).value;
            var run := TradeRun(side, amount, estimatedReceive, s, chain);
            && (side == Sell && p.params.baseAssetAddress != ZeroAddress ==>
                  && ParseUnits(amount, p.params.baseAssetDecimals).Success?
                  && |run.calls| >= 2
                  && run.calls[1] == SendTransaction(ApproveTx(s.market.value, p.params,
                                                               ParseUnits(amount, p.params.baseAssetDecimals).value)))
            && (side == Buy || p.params.baseAssetAddress == ZeroAddress ==>
                  forall i :: 0 <= i < |run.calls| ==> !IsApprovalSend(run.calls[i]))
  {
    var p := Prepare(side, amount, estimatedReceive, chain.marketParams, true).value;
    PrepareApproval(side, amount, estimatedReceive, chain.marketParams);
    TradeRunAfterPrepare(side, amount, estimatedReceive, s, chain);
    AfterPrepareApproval(side, s.wallet.value, s.market.value, p, chain);
  }

  /** The amount to approve, when the trade's conversions succeed: due exactly for a non-native sell. */
  lemma PrepareApproval(side: Side, amount: string, estimatedReceive: string, read: Result<seq<AbiValue>>)
    requires Prepare(side, amount, estimatedReceive, read, true).Success?
    ensures var p := Prepare(side, amount, estimatedReceive, read, true).value;
            && (p.approval.Some? <==> side == Sell && p.params.baseAssetAddress != ZeroAddress)
            && (p.approval.Some? ==> ParseUnits(amount, p.params.baseAssetDecimals) == Success(p.approval.value))
  {
  }

  /** With a connected session and successful conversions, the run is the read followed by the rest. */
  lemma TradeRunAfterPrepare(side: Side, amount: string, estimatedReceive: string, s: Session, chain: Chain)
    requires s.wallet.Some? && s.market.Some? && s.publicClient
    requires Prepare(side, amount, estimatedReceive, chain.marketParams, true).Success?
    ensures TradeRun(side, amount, estimatedReceive, s, chain)
            == Prepend([ReadMarketParams(s.market.value)],
                       TradeAfterPrepare(side, s.wallet.value, s.market.value,
                                         Prepare(side, amount, estimatedReceive, chain.marketParams, true).value, chain))
  {
  }

  /** An approval that is due is the first call after the read; otherwise none is ever sent. */
  lemma AfterPrepareApproval(side: Side, user: Address, market: Address, p: Prepared, chain: Chain)
    ensures var run := Prepend([ReadMarketParams(market)], TradeAfterPrepare(side, user, market, p, chain));
            && (p.approval.Some? ==>
                  |run.calls| >= 2 && run.calls[1] == SendTransaction(ApproveTx(market, p.params, p.approval.value)))
            && (p.approval.None? ==> forall i :: 0 <= i < |run.calls| ==> !IsApprovalSend(run.calls[i]))
  {
    if p.approval.Some? {
      ApprovalFirst(side, user, market, p, chain);
    } else {
      SubmitSendsNoApproval(side, user, market, p.order, chain);
    }
  }

  /** Only the last call can be the trade send: nothing follows it. */
  lemma TradeSendIsLast(side: Side, amount: string, estimatedReceive: string, s: Session, chain: Chain)
    ensures var run := TradeRun(side, amount, estimatedReceive, s, chain);
            forall j :: 0 <= j < |run.calls| && IsTradeSend(run.calls[j]) ==> j == |run.calls| - 1
  {
    TradeRunAfterRead(side, amount, estimatedReceive, s, chain);
    if CheckSession(s).Success? {
      AfterReadSendIsLast(side, amount, estimatedReceive, s.wallet.value, s.market.value, chain);
    }
  }

  /** A run that gets past the session checks is the read followed by the rest. */
  lemma TradeRunAfterRead(side: Side, amount: string, estimatedReceive: string, s: Session, chain: Chain)
    ensures var run := TradeRun(side, amount, estimatedReceive, s, chain);
            && (CheckSession(s).Failure? ==> run.calls == [])
            && (CheckSession(s).Success? ==>
                  run == Prepend([ReadMarketParams(s.market.value)],
                                 TradeAfterRead(side, amount, estimatedReceive, s.wallet.value, s.market.value, chain)))
  {
  }

  lemma AfterReadSendIsLast(side: Side, amount: string, estimatedReceive: string, user: Address, market: Address,
                            chain: Chain)
    ensures var run := Prepend([ReadMarketParams(market)], TradeAfterRead(side, amount, estimatedReceive, user, market, chain));
            forall j :: 0 <= j < |run.calls| && IsTradeSend(run.calls[j]) ==> j == |run.calls| - 1
  {
    match Prepare(side, amount, estimatedReceive, chain.marketParams, true)
    case Failure(_) =>
    case Success(p) => AfterPrepareSendIsLast(side, user, market, p, chain);
  }

  lemma AfterPrepareSendIsLast(side: Side, user: Address, market: Address, p: Prepared, chain: Chain)
    ensures var run := Prepend([ReadMarketParams(market)], TradeAfterPrepare(side, user, market, p, chain));
            forall j :: 0 <= j < |run.calls| && IsTradeSend(run.calls[j]) ==> j == |run.calls| - 1
  {
  }

  /**
   * The estimate and the trade are separate runs on the chain as it is at
   * each moment (`ce` when the amount changes, `ct` when the trade is
   * submitted, after any approval). With the same market parameters and a
   * connected wallet, the estimate simulates exactly the transaction the
   * trade simulates; the two gas limits agree whenever the two simulations
   * answer alike.
   */
  lemma EstimateMatchesTrade(side: Side, amount: string, estimatedReceive: string, s: Session, ce: Chain, ct: Chain)
    requires s.wallet.Some? && s.market.Some? && s.publicClient
    requires ce.marketParams == ct.marketParams
    requires ct.approveSend.Success?
    requires Prepare(side, amount, estimatedReceive, ct.marketParams, true).Success?
    ensures var e := EstimateRun(side, amount, estimatedReceive, s, ce);
            var t := TradeRun(side, amount, estimatedReceive, s, ct);
            && |e.calls| >= 2 && e.calls[1].SimulateGas?
            && e.calls[1] in t.calls
            && e.gasLimit == Some(GasLimitFor(ce.simulation)) && t.gasLimit == Some(GasLimitFor(ct.simulation))
            && (ce.simulation == ct.simulation ==> e.gasLimit == t.gasLimit)
  {
    var pt := Prepare(side, amount, estimatedReceive, ct.marketParams, true).value;
    PrepareWithoutApproval(side, amount, estimatedReceive, ct.marketParams);
    var pe := Prepare(side, amount, estimatedReceive, ce.marketParams, false).value;
    var user, market := s.wallet.value, s.market.value;
    assert s.wallet.GetOr(ZeroAddress) == user;
    TradeRunAfterPrepare(side, amount, estimatedReceive, s, ct);
    EstimateRunAfterPrepare(side, amount, estimatedReceive, s, ce);
    PreparedRunsMatch(side, user, market, pe, pt, ce, ct);
  }

  /** The estimate and the trade of one prepared order, each on its own chain. */
  lemma PreparedRunsMatch(side: Side, user: Address, market: Address, pe: Prepared, pt: Prepared, ce: Chain, ct: Chain)
    requires pe.order == pt.order && ct.approveSend.Success?
    ensures var e := Prepend([ReadMarketParams(market)], EstimateAfterPrepare(side, user, market, pe, ce));
            var t := Prepend([ReadMarketParams(market)], TradeAfterPrepare(side, user, market, pt, ct));
            && |e.calls| >= 2 && e.calls[1].SimulateGas? && e.calls[1] in t.calls
            && e.gasLimit == Some(GasLimitFor(ce.simulation)) && t.gasLimit == Some(GasLimitFor(ct.simulation))
  {
    SimulationInTrade(side, user, market, pt, ct);
    EstimateSimulatesSubmit(side, user, market, pe, pt.order, ce);
    assert Submit(side, user, market, pt.order, ce).calls[0] == Submit(side, user, market, pt.order, ct).calls[0];
  }

  /** With a market and successful conversions, the estimate is the read followed by the rest. */
  lemma EstimateRunAfterPrepare(side: Side, amount: string, estimatedReceive: string, s: Session, chain: Chain)
    requires s.market.Some?
    requires Prepare(side, amount, estimatedReceive, chain.marketParams, false).Success?
    ensures EstimateRun(side, amount, estimatedReceive, s, chain)
            == Prepend([ReadMarketParams(s.market.value)],
                       EstimateAfterPrepare(side, s.wallet.GetOr(ZeroAddress), s.market.value,
                                            Prepare(side, amount, estimatedReceive, chain.marketParams, false).value, chain))
  {
  }

  /** The estimate's simulation and gas limit are the submission's, for the same order. */
  lemma EstimateSimulatesSubmit(side: Side, user: Address, market: Address, p: Prepared, order: OrderParams, chain: Chain)
    requires p.order == order
    ensures var e := Prepend([ReadMarketParams(market)], EstimateAfterPrepare(side, user, market, p, chain));
            var sub := Submit(side, user, market, order, chain);
            && |e.calls| >= 2 && e.calls[1].SimulateGas? && e.calls[1] == sub.calls[0]
            && e.gasLimit == sub.gasLimit
  {
  }

  /** The estimate's conversions succeed whenever the trade's do, with the same order. */
  lemma PrepareWithoutApproval(side: Side, amount: string, estimatedReceive: string, read: Result<seq<AbiValue>>)
    requires Prepare(side, amount, estimatedReceive, read, true).Success?
    ensures var pe := Prepare(side, amount, estimatedReceive, read, false);
            pe.Success? && pe.value.order == Prepare(side, amount, estimatedReceive, read, true).value.order
  {
  }

  /** Past an accepted approval, the trade runs the submission's simulation and keeps its gas limit. */
  lemma SimulationInTrade(side: Side, user: Address, market: Address, p: Prepared, chain: Chain)
    requires chain.approveSend.Success?
    ensures var run := TradeAfterPrepare(side, user, market, p, chain);
            var sub := Submit(side, user, market, p.order, chain);
            sub.calls[0] in run.calls && run.gasLimit == sub.gasLimit
  {
    var run := TradeAfterPrepare(side, user, market, p, chain);
    var sub := Submit(side, user, market, p.order, chain);
    if p.approval.Some? {
      assert run.calls[1] == sub.calls[0];
    }
  }

  /** The estimate only reads: it never sends a transaction. */
  lemma EstimateNeverSends(side: Side, amount: string, estimatedReceive: string, s: Session, chain: Chain)
    ensures var e := EstimateRun(side, amount, estimatedReceive, s, chain);
            forall i :: 0 <= i < |e.calls| ==> !e.calls[i].SendTransaction?
  {
    var e := EstimateRun(side, amount, estimatedReceive, s, chain);
    if s.market.Some? {
      var rest := EstimateAfterRead(side, amount, estimatedReceive, s.wallet.GetOr(ZeroAddress), s.market.value, chain);
      EstimateAfterReadReads(side, amount, estimatedReceive, s.wallet.GetOr(ZeroAddress), s.market.value, chain);
      assert e.calls == [ReadMarketParams(s.market.value)] + rest.calls;
      forall i | 0 <= i < |e.calls| ensures !e.calls[i].SendTransaction? {
        if i > 0 {
          assert e.calls[i] == rest.calls[i - 1];
        }
      }
    }
  }

  /** After the read the estimate makes at most the simulation and the fee read. */
  lemma EstimateAfterReadReads(side: Side, amount: string, estimatedReceive: string, from: Address, market: Address,
                               chain: Chain)
    ensures var rest := EstimateAfterRead(side, amount, estimatedReceive, from, market, chain);
            rest.calls == [] || (|rest.calls| == 2 && rest.calls[0].SimulateGas? && rest.calls[1] == GetFeeData)
  {
  }

  // ---------------------------------------------------------------------------
  // The hook's state

  lemma LogAssoc(a: seq<Call>, b: seq<Call>, c: seq<Call>)
    ensures (a + b) + c == a + (b + c)
  {
  }

  datatype Loading = NotLoading | Loading(side: Side)

  class TradeHook {
    var loading: Loading
    var txHash: string
    var error: string
    var gasLimit: Option<nat>
    var gasPrice: Option<nat>
    /** Every call made on the chain so far, oldest first. */
    var calls: seq<Call>

    constructor ()
      ensures loading == NotLoading && txHash == "" && error == ""
      ensures gasLimit == None && gasPrice == None && calls == []
    {
      loading := NotLoading;
      txHash := "";
      error := "";
      gasLimit := None;
      gasPrice := None;
      calls := [];
    }

    /** This hook's state after a run: its calls logged and the gas values it wrote. */
    predicate Recorded(run: Run, calls0: seq<Call>, gasLimit0: Option<nat>, gasPrice0: Option<nat>)
      reads this
    {
      && calls == calls0 + run.calls
      && gasLimit == (if run.gasLimit.Some? then run.gasLimit else gasLimit0)
      && gasPrice == (if run.gasPrice.Some? then run.gasPrice else gasPrice0)
    }

    /**
     * `trade`: clears the error and hash, runs the flow, records the hash on
     * success or the error text on failure (the failure is returned, as the
     * hook rethrows it), and ends with `loading` false on every path.
     */
    method Trade(side: Side, amount: string, estimatedReceive: string, s: Session, chain: Chain)
      returns (r: Result<string>)
      modifies this
      ensures r == TradeRun(side, amount, estimatedReceive, s, chain).result
      ensures Recorded(TradeRun(side, amount, estimatedReceive, s, chain), old(calls), old(gasLimit), old(gasPrice))
      ensures r.Success? ==> txHash == r.value && error == ""
      ensures r.Failure? ==> txHash == "" && error == ErrorText(r.error)
      ensures loading == NotLoading
    {
      loading := Loading(side);
      error := "";
      txHash := "";
      r := TradeSteps(side, amount, estimatedReceive, s, chain);
      match r {
        case Success(hash) =>
          txHash := hash;
        case Failure(e) =>
          error := ErrorText(e);
      }
      loading := NotLoading;
    }

    /** The body of `trade`'s try block: the checks and the market read. */
    method TradeSteps(side: Side, amount: string, estimatedReceive: string, s: Session, chain: Chain)
      returns (r: Result<string>)
      modifies this`calls, this`gasLimit, this`gasPrice
      ensures r == TradeRun(side, amount, estimatedReceive, s, chain).result
      ensures Recorded(TradeRun(side, amount, estimatedReceive, s, chain), old(calls), old(gasLimit), old(gasPrice))
    {
      if s.wallet.None? {
        return Failure(WalletNotConnected);
      }
      if s.market.None? {
        return Failure(MarketNotLoaded);
      }
      if !s.publicClient {
        return Failure(PublicClientNotConnected);
      }
      var user, market := s.wallet.value, s.market.value;
      ghost var calls0 := calls;
      calls := calls + [ReadMarketParams(market)];
      r := ApproveAndSubmit(side, amount, estimatedReceive, user, market, chain);
      ghost var after := TradeAfterRead(side, amount, estimatedReceive, user, market, chain);
      assert TradeRun(side, amount, estimatedReceive, s, chain) == Prepend([ReadMarketParams(market)], after);
      LogAssoc(calls0, [ReadMarketParams(market)], after.calls);
    }

    /** The conversions, the approval for a non-native sell, and the submission. */
    method ApproveAndSubmit(side: Side, amount: string, estimatedReceive: string, user: Address, market: Address,
                            chain: Chain)
      returns (r: Result<string>)
      modifies this`calls, this`gasLimit, this`gasPrice
      ensures r == TradeAfterRead(side, amount, estimatedReceive, user, market, chain).result
      ensures Recorded(TradeAfterRead(side, amount, estimatedReceive, user, market, chain), old(calls), old(gasLimit), old(gasPrice))
    {
      var prepared := Prepare(side, amount, estimatedReceive, chain.marketParams, true);
      if prepared.Failure? {
        return Failure(prepared.error);
      }
      r := ApproveThenSubmit(side, user, market, prepared.value, chain);
    }

    /** The approval send when one is due, then the submission. */
    method ApproveThenSubmit(side: Side, user: Address, market: Address, p: Prepared, chain: Chain)
      returns (r: Result<string>)
      modifies this`calls, this`gasLimit, this`gasPrice
      ensures r == TradeAfterPrepare(side, user, market, p, chain).result
      ensures Recorded(TradeAfterPrepare(side, user, market, p, chain), old(calls), old(gasLimit), old(gasPrice))
    {
      ghost var calls0 := calls;
      if p.approval.Some? {
        var approve := SendTransaction(ApproveTx(market, p.params, p.approval.value));
        calls := calls + [approve];
        if chain.approveSend.Failure? {
          return Failure(chain.approveSend.error);
        }
        r := SubmitSteps(side, user, market, p.order, chain);
        LogAssoc(calls0, [approve], Submit(side, user, market, p.order, chain).calls);
      } else {
        r := SubmitSteps(side, user, market, p.order, chain);
      }
    }

    /** The simulation, gas limit, fee data, nonce and trade send. */
    method SubmitSteps(side: Side, user: Address, market: Address, order: OrderParams, chain: Chain)
      returns (r: Result<string>)
      modifies this`calls, this`gasLimit, this`gasPrice
      ensures r == Submit(side, user, market, order, chain).result
      ensures Recorded(Submit(side, user, market, order, chain), old(calls), old(gasLimit), old(gasPrice))
    {
      var data := TradeCalldata(side, order);
      calls := calls + [SimulateGas(market, user, data, order.value)];
      var gas := PlanGasLimit(chain.simulation);
      gasLimit := Some(gas);
      calls := calls + [GetFeeData];
      if chain.feeData.Failure? {
        return Failure(chain.feeData.error);
      }
      var fd := chain.feeData.value;
      gasPrice := Some(fd.gasPrice.GetOr(0));
      calls := calls + [GetTransactionCount(user)];
      if chain.nonce.Failure? {
        return Failure(chain.nonce.error);
      }
      var tx := TxRequest(market, Some(user), data, order.value, gas, Some(chain.nonce.value), SelectFeeFields(fd));
      calls := calls + [SendTransaction(tx)];
      r := chain.tradeSend;
    }

    /**
     * `estimateGas`: writes the planned gas limit and the gas price when it
     * gets that far; every error is swallowed and nothing is sent.
     */
    method EstimateGas(side: Side, amount: string, estimatedReceive: string, s: Session, chain: Chain)
      modifies this`calls, this`gasLimit, this`gasPrice
      ensures Recorded(EstimateRun(side, amount, estimatedReceive, s, chain), old(calls), old(gasLimit), old(gasPrice))
      ensures gasLimit != old(gasLimit) ==> gasLimit.Some? && gasLimit.value <= GasLimitCap
    {
      if s.market.None? {
        return;
      }
      var market := s.market.value;
      ghost var calls0 := calls;
      calls := calls + [ReadMarketParams(market)];
      var from := if s.wallet.Some? then s.wallet.value else ZeroAddress;
      EstimateSteps(side, amount, estimatedReceive, from, market, chain);
      LogAssoc(calls0, [ReadMarketParams(market)], EstimateAfterRead(side, amount, estimatedReceive, from, market, chain).calls);
    }

    /** The conversions, the simulation from `from` and the fee data, as far as they succeed. */
    method EstimateSteps(side: Side, amount: string, estimatedReceive: string, from: Address, market: Address,
                         chain: Chain)
      modifies this`calls, this`gasLimit, this`gasPrice
      ensures Recorded(EstimateAfterRead(side, amount, estimatedReceive, from, market, chain), old(calls), old(gasLimit), old(gasPrice))
      ensures gasLimit != old(gasLimit) ==> gasLimit.Some? && gasLimit.value <= GasLimitCap
    {
      var prepared := Prepare(side, amount, estimatedReceive, chain.marketParams, false);
      if prepared.Failure? {
        return;
      }
      EstimateFrom(side, from, market, prepared.value, chain);
    }

    /** The simulation, the planned gas limit and the fee data. */
    method EstimateFrom(side: Side, from: Address, market: Address, p: Prepared, chain: Chain)
      modifies this`calls, this`gasLimit, this`gasPrice
      ensures Recorded(EstimateAfterPrepare(side, from, market, p, chain), old(calls), old(gasLimit), old(gasPrice))
      ensures gasLimit != old(gasLimit) ==> gasLimit.Some? && gasLimit.value <= GasLimitCap
    {
      calls := calls + [SimulateGas(market, from, TradeCalldata(side, p.order), p.order.value)];
      var gas := PlanGasLimit(chain.simulation);
      gasLimit := Some(gas);
      calls := calls + [GetFeeData];
      if chain.feeData.Failure? {
        return;
      }
      gasPrice := Some(chain.feeData.value.gasPrice.GetOr(0));
    }
  }
}
