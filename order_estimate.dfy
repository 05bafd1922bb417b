/**
 * The order-estimate hook: every change of the inputs starts a run of the
 * effect. A run checks its inputs, calls the estimator, and writes the
 * estimate, the error and the `estimating` flag only while its own `ignore`
 * flag is clear; the effect's cleanup sets that flag.
 */
module OrderEstimate {
  import opened Wrappers
  import opened Units
  import opened UseTrade

  /** The value of the digits of a decimal, with the fraction's place weights. */
  function DecimalValue(dec: Decimal): (v: real)
    requires AllDigits(dec.whole) && AllDigits(dec.fraction)
    ensures v >= 0.0
  {
    DigitsValue(dec.whole) as real + DigitsValue(dec.fraction) as real / Pow10(|dec.fraction|) as real
  }

  /**
   * `Number(amount)` on an unsigned decimal string; None stands for NaN.
   * (`Number("")` is 0 in JavaScript; the guard rejects the empty amount first.)
   */
  function NumberValue(amount: string): (v: Option<real>)
    ensures v.Some? <==> ParseDecimal(amount).Some?
    ensures v.Some? ==> v.value >= 0.0
  {
    match ParseDecimal(amount)
    case None => None
    case Some(dec) => Some(DecimalValue(dec))
  }

  /** The run's guard: a non-empty, numeric, positive amount and a market address. */
  predicate ValidRequest(amount: string, market: Option<Address>)
  {
    && amount != ""
    && NumberValue(amount).Some?
    && NumberValue(amount).value > 0.0
    && market.Some? && market.value != ""
  }

  /**
   * The number the guard tests is the number the trade converts: when the
   * amount converts to n units of d decimals, its value is n / 10^d.
   */
  lemma NumberValueAgreesWithUnits(amount: string, d: nat, n: nat)
    requires ParseUnits(amount, d) == Success(n)
    ensures NumberValue(amount) == Some(n as real / Pow10(d) as real)
  {
    UnitsScale(amount, d, n);
    DecimalValueScale(ParseDecimal(amount).value, d, n);
  }

  lemma DecimalValueScale(dec: Decimal, d: nat, n: nat)
    requires AllDigits(dec.whole) && AllDigits(dec.fraction)
    requires n * Pow10(|dec.fraction|) == DigitsValue(dec.whole + dec.fraction) * Pow10(d)
    ensures DecimalValue(dec) == n as real / Pow10(d) as real
  {
    DigitsValueConcat(dec.whole, dec.fraction);
    RealScale(n, DigitsValue(dec.whole), DigitsValue(dec.fraction), DigitsValue(dec.whole + dec.fraction),
              Pow10(|dec.fraction|), Pow10(d));
  }

  lemma UnitsScale(amount: string, d: nat, n: nat)
    requires ParseUnits(amount, d) == Success(n)
    ensures ParseDecimal(amount).Some?
    ensures var dec := ParseDecimal(amount).value;
            n * Pow10(|dec.fraction|) == DigitsValue(dec.whole + dec.fraction) * Pow10(d)
  {
    ParseUnitsDenotes(amount, d);
  }

  lemma RealScale(n: nat, w: nat, f: nat, wf: nat, pf: nat, pd: nat)
    requires pf >= 1 && pd >= 1
    requires wf == w * pf + f && n * pf == wf * pd
    ensures w as real + f as real / pf as real == n as real / pd as real
  {
    var N, W, F, WF, PF, PD := n as real, w as real, f as real, wf as real, pf as real, pd as real;
    assert WF == W * PF + F;
    assert N * PF == WF * PD;
    assert W + F / PF == WF / PF;
    assert WF / PF == N / PD;
  }

  /** The guard accepts exactly the amounts with a non-zero digit (and a market). */
  lemma ValidRequestIffNonZero(amount: string, market: Option<Address>)
    ensures ValidRequest(amount, market) <==>
              && ParseDecimal(amount).Some?
              && DigitsValue(ParseDecimal(amount).value.whole + ParseDecimal(amount).value.fraction) > 0
              && market.Some? && market.value != ""
  {
    if ParseDecimal(amount).Some? {
      DecimalPositive(ParseDecimal(amount).value);
    }
  }

  lemma DecimalPositive(dec: Decimal)
    requires AllDigits(dec.whole) && AllDigits(dec.fraction)
    ensures DecimalValue(dec) > 0.0 <==> DigitsValue(dec.whole + dec.fraction) > 0
  {
    DigitsValueConcat(dec.whole, dec.fraction);
    PositiveScale(DigitsValue(dec.whole), DigitsValue(dec.fraction), Pow10(|dec.fraction|));
  }

  lemma PositiveScale(w: nat, f: nat, pf: nat)
    requires pf >= 1
    ensures w as real + f as real / pf as real > 0.0 <==> w * pf + f > 0
  {
    if w * pf + f > 0 {
      if w == 0 {
        assert f > 0;
      }
    } else {
      assert w == 0 && f == 0;
    }
  }

  // ---------------------------------------------------------------------------
  // Events and state

  /** The arguments the estimator is called with. */
  datatype EstimateRequest = EstimateRequest(isBuy: bool, market: Address, amount: real, slippage: real)

  /** The estimator's answer: the slippage-adjusted output and the estimated gas, each possibly absent. */
  datatype Estimate = Estimate(minAmountOut: Option<string>, estimatedGas: Option<nat>)

  /** How a run's estimator call ended: a value (null included) or a thrown error. */
  datatype Outcome = Resolved(estimate: Option<Estimate>) | Rejected(message: string)

  /**
   * A snapshot of the hook: the four state values it returns, each run's
   * `ignore` flag and whether its estimator call is still unresolved, and
   * every request made of the estimator.
   */
  datatype EstimateState = EstimateState(
    estimatedReceive: Option<string>,
    estimatedGas: Option<string>,
    estimating: bool,
    error: Option<string>,
    ignore: seq<bool>,
    pending: seq<bool>,
    requests: seq<EstimateRequest>)

  const Initial := EstimateState(None, None, false, None, [], [], [])

  /** `estimate?.minAmountOut ?? null`. */
  function ReceiveText(e: Option<Estimate>): (r: Option<string>)
    ensures e.None? ==> r.None?
    ensures e.Some? ==> r == e.value.minAmountOut
  {
    if e.Some? then e.value.minAmountOut else None
  }

  /** The estimated gas as decimal text when it is present and truthy (non-zero), else null. */
  function GasText(e: Option<Estimate>): (r: Option<string>)
    ensures r.Some? <==> e.Some? && e.value.estimatedGas.Some? && e.value.estimatedGas.value != 0
    ensures r.Some? ==> AllDigits(r.value) && DigitsValue(r.value) == e.value.estimatedGas.value
  {
    if e.Some? && e.value.estimatedGas.Some? && e.value.estimatedGas.value != 0 then
      Some(NatToString(e.value.estimatedGas.value))
    else None
  }

  /**
   * A new run of the effect: it clears the error, and then either empties
   * the estimate (invalid inputs; the estimator is not called) or raises
   * `estimating` and calls the estimator.
   */
  function StartStep(st: EstimateState, side: Side, market: Option<Address>, amount: string, slippage: real): (r: EstimateState)
    ensures r.error.None? && r.ignore == st.ignore + [false]
    ensures |r.pending| == |st.pending| + 1 && r.pending[..|st.pending|] == st.pending
    ensures |st.requests| <= |r.requests| <= |st.requests| + 1 && r.requests[..|st.requests|] == st.requests
    ensures |r.requests| == |st.requests| + 1 <==> ValidRequest(amount, market)
    ensures |r.requests| == |st.requests| + 1 ==> r.estimating
  {
    var cleared := st.(error := None, ignore := st.ignore + [false]);
    if !ValidRequest(amount, market) then
      cleared.(estimatedReceive := None, estimatedGas := None, pending := st.pending + [false])
    else
      cleared.(estimating := true, pending := st.pending + [true],
               requests := st.requests + [EstimateRequest(side == Buy, market.value, NumberValue(amount).value, slippage)])
  }

  /** The effect's cleanup for one run: its `ignore` flag becomes true. */
  function CleanupStep(st: EstimateState, run: nat): (r: EstimateState)
    requires run < |st.ignore|
    ensures View(r) == View(st) && r.pending == st.pending && r.requests == st.requests
    ensures |r.ignore| == |st.ignore| && r.ignore[run]
    ensures forall i :: 0 <= i < |st.ignore| && i != run ==> r.ignore[i] == st.ignore[i]
  {
    st.(ignore := st.ignore[run := true])
  }

  /**
   * The estimator call of a run settles. Unless the run is ignored, a value
   * sets both estimates, an error sets the error text, and either clears
   * `estimating`.
   */
  function CompleteStep(st: EstimateState, run: nat, outcome: Outcome): (r: EstimateState)
    requires run < |st.ignore| && run < |st.pending|
    ensures r.ignore == st.ignore && r.requests == st.requests
    ensures |r.pending| == |st.pending| && !r.pending[run]
    ensures st.ignore[run] ==> View(r) == View(st)
    ensures !st.ignore[run] ==> !r.estimating
  {
    var settled := st.(pending := st.pending[run := false]);
    if st.ignore[run] then settled
    else
      match outcome
      case Resolved(e) => settled.(estimatedReceive := ReceiveText(e), estimatedGas := GasText(e), estimating := false)
      case Rejected(m) => settled.(error := Some(ErrorText(m)), estimating := false)
  }

  /** The four values the hook returns. */
  function View(st: EstimateState): (Option<string>, Option<string>, bool, Option<string>)
  {
    (st.estimatedReceive, st.estimatedGas, st.estimating, st.error)
  }

  /** One flag and one pending bit per run, and only the latest run not yet cleaned up. */
  predicate Valid(st: EstimateState)
  {
    && |st.ignore| == |st.pending|
    && forall i :: 0 <= i < |st.ignore| - 1 ==> st.ignore[i]
  }

  /** Every run so far has been cleaned up, as React does before it runs the effect again. */
  predicate AllCleaned(st: EstimateState)
  {
    forall i :: 0 <= i < |st.ignore| ==> st.ignore[i]
  }

  // ---------------------------------------------------------------------------
  // Properties of the events

  /** Invalid inputs empty the estimate, clear the error and never reach the estimator. */
  lemma InvalidStartSkipsEstimator(st: EstimateState, side: Side, market: Option<Address>, amount: string, slippage: real)
    requires !ValidRequest(amount, market)
    ensures var st2 := StartStep(st, side, market, amount, slippage);
            && st2.estimatedReceive.None? && st2.estimatedGas.None? && st2.error.None?
            && st2.requests == st.requests
            && st2.estimating == st.estimating
            && st2.pending == st.pending + [false]
  {
  }

  /** Valid inputs raise `estimating`, clear the error and pass isBuy, Number(amount) and slippage unchanged. */
  lemma ValidStartCallsEstimator(st: EstimateState, side: Side, market: Option<Address>, amount: string, slippage: real)
    requires ValidRequest(amount, market)
    ensures var st2 := StartStep(st, side, market, amount, slippage);
            && st2.estimating && st2.error.None?
            && st2.requests == st.requests + [EstimateRequest(side == Buy, market.value, NumberValue(amount).value, slippage)]
            && st2.requests[|st.requests|].amount > 0.0
            && st2.estimatedReceive == st.estimatedReceive && st2.estimatedGas == st.estimatedGas
  {
  }

  /** A run whose cleanup has fired writes none of the four values when it settles. */
  lemma StaleCompletionWritesNothing(st: EstimateState, run: nat, outcome: Outcome)
    requires run < |st.ignore| && run < |st.pending| && st.ignore[run]
    ensures View(CompleteStep(st, run, outcome)) == View(st)
  {
  }

  /** A live run that resolves sets both estimates and clears `estimating`, leaving the error. */
  lemma LiveResolutionSetsEstimate(st: EstimateState, run: nat, e: Option<Estimate>)
    requires run < |st.ignore| && run < |st.pending| && !st.ignore[run]
    ensures var st2 := CompleteStep(st, run, Resolved(e));
            && st2.estimatedReceive == (if e.Some? then e.value.minAmountOut else None)
            && (st2.estimatedGas.Some? <==> e.Some? && e.value.estimatedGas.Some? && e.value.estimatedGas.value > 0)
            && !st2.estimating && st2.error == st.error
  {
  }

  /** A live run that fails records the message and leaves the previous estimate untouched. */
  lemma LiveRejectionKeepsEstimate(st: EstimateState, run: nat, message: string)
    requires run < |st.ignore| && run < |st.pending| && !st.ignore[run]
    ensures var st2 := CompleteStep(st, run, Rejected(message));
            && st2.error.Some? && st2.error.value != ""
            && (message != "" ==> st2.error == Some(message))
            && st2.estimatedReceive == st.estimatedReceive && st2.estimatedGas == st.estimatedGas
            && !st2.estimating
  {
  }

  /** After a cleanup every later event leaves the flag set: each step keeps every set flag. */
  predicate KeepsFlags(st: EstimateState, st2: EstimateState)
  {
    && |st.ignore| <= |st2.ignore|
    && forall i :: 0 <= i < |st.ignore| && st.ignore[i] ==> st2.ignore[i]
  }

  lemma StepsKeepFlags(st: EstimateState, side: Side, market: Option<Address>, amount: string, slippage: real,
                       run: nat, outcome: Outcome)
    ensures KeepsFlags(st, StartStep(st, side, market, amount, slippage))
    ensures run < |st.ignore| ==> KeepsFlags(st, CleanupStep(st, run))
    ensures run < |st.ignore| && run < |st.pending| ==> KeepsFlags(st, CompleteStep(st, run, outcome))
  {
  }

  /** The events keep one flag and one pending bit per run, with only the latest run live. */
  lemma StepsKeepValid(st: EstimateState, side: Side, market: Option<Address>, amount: string, slippage: real,
                       run: nat, outcome: Outcome)
    requires Valid(st)
    ensures AllCleaned(st) ==> Valid(StartStep(st, side, market, amount, slippage))
    ensures run < |st.ignore| ==> Valid(CleanupStep(st, run))
    ensures run < |st.ignore| ==> Valid(CompleteStep(st, run, outcome))
  {
    if AllCleaned(st) {
      var st2 := StartStep(st, side, market, amount, slippage);
      assert forall i :: 0 <= i < |st2.ignore| - 1 ==> st2.ignore[i] == st.ignore[i];
    }
  }

  // ---------------------------------------------------------------------------
  // The spinner after an invalid run

  /** While the latest run is live, `estimating` says whether its estimator call is unresolved. */
  predicate Settled(st: EstimateState)
  {
    |st.ignore| == |st.pending| && |st.ignore| > 0 && !st.ignore[|st.ignore| - 1] ==>
      (st.estimating <==> st.pending[|st.pending| - 1])
  }

  /**
   * An invalid run after a superseded valid one leaves `estimating` raised:
   * the invalid run returns before its `finally`, and the superseded run is
   * ignored when it settles, so nothing clears the flag.
   */
  lemma InvalidRunAfterValidLeavesSpinner(market: Address, slippage: real)
    requires market != ""
    ensures var st1 := StartStep(Initial, Buy, Some(market), "1", slippage);
            var st2 := CleanupStep(st1, 0);
            var st3 := StartStep(st2, Buy, Some(market), "", slippage);
            && Valid(st3) && st3.estimating && !Settled(st3)
            && forall o :: CompleteStep(st3, 0, o).estimating
  {
    OneIsValid(market);
    var st1 := StartStep(Initial, Buy, Some(market), "1", slippage);
    assert st1.estimating;
    var st2 := CleanupStep(st1, 0);
    assert st2.estimating && st2.ignore == [true] && st2.pending == [true];
    assert !ValidRequest("", Some(market));
    var st3 := StartStep(st2, Buy, Some(market), "", slippage);
    assert st3 == st2.(error := None, ignore := [true, false], estimatedReceive := None, estimatedGas := None,
                       pending := [true, false]);
  }

  /** The amount "1" with a market passes the guard. */
  lemma OneIsValid(market: Address)
    requires market != ""
    ensures ValidRequest("1", Some(market))
  {
    assert ParseDecimal("1") == Some(Decimal("1", ""));
    assert DigitsValue("1") == 1;
  }

  /** A new run that also lowers `estimating` on invalid inputs. */
  function StartStepResettingSpinner(st: EstimateState, side: Side, market: Option<Address>, amount: string,
                                     slippage: real): EstimateState
  {
    var st2 := StartStep(st, side, market, amount, slippage);
    if ValidRequest(amount, market) then st2 else st2.(estimating := false)
  }

  /** With the flag lowered on invalid inputs, every event keeps the hook settled. */
  lemma ResettingSpinnerKeepsSettled(st: EstimateState, side: Side, market: Option<Address>, amount: string,
                                     slippage: real, run: nat, outcome: Outcome)
    requires Valid(st) && Settled(st)
    ensures Settled(StartStepResettingSpinner(st, side, market, amount, slippage))
    ensures run < |st.ignore| ==> Settled(CleanupStep(st, run))
    ensures run < |st.ignore| ==> Settled(CompleteStep(st, run, outcome))
  {
    if run < |st.ignore| {
      var last := |st.ignore| - 1;
      var st2 := CompleteStep(st, run, outcome);
      if run != last {
        assert st.ignore[run];
        assert st2.pending[last] == st.pending[last];
      }
    }
  }

  // ---------------------------------------------------------------------------
  // The hook

  class OrderEstimateHook {
    var estimatedReceive: Option<string>
    var estimatedGas: Option<string>
    var estimating: bool
    var error: Option<string>
    /** Each run's `ignore` flag, by run number. */
    var ignore: seq<bool>
    /** Whether each run's estimator call is still unresolved. */
    var pending: seq<bool>
    /** Every call made of the estimator, oldest first. */
    var requests: seq<EstimateRequest>

    function State(): EstimateState
      reads this
    {
      EstimateState(estimatedReceive, estimatedGas, estimating, error, ignore, pending, requests)
    }

    constructor ()
      ensures State() == Initial
    {
      estimatedReceive, estimatedGas, estimating, error := None, None, false, None;
      ignore, pending, requests := [], [], [];
    }

    /** The effect body up to its first await; returns the new run's number. */
    method Start(side: Side, market: Option<Address>, amount: string, slippage: real) returns (run: nat)
      modifies this
      ensures run == |old(ignore)|
      ensures State() == StartStep(old(State()), side, market, amount, slippage)
    {
      run := |ignore|;
      ignore := ignore + [false];
      error := None;
      var number := NumberValue(amount);
      if amount == "" || number.None? || number.value <= 0.0 || market.None? || market.value == "" {
        estimatedReceive := None;
        estimatedGas := None;
        pending := pending + [false];
        return;
      }
      estimating := true;
      pending := pending + [true];
      requests := requests + [EstimateRequest(side == Buy, market.value, number.value, slippage)];
    }

    /** The cleanup returned by a run: sets that run's `ignore` flag. */
    method Cleanup(run: nat)
      requires run < |ignore|
      modifies this
      ensures State() == CleanupStep(old(State()), run)
    {
      ignore := ignore[run := true];
    }

    /** The rest of a run once its estimator call settles, each write guarded by the run's flag. */
    method Complete(run: nat, outcome: Outcome)
      requires run < |ignore| && run < |pending| && pending[run]
      modifies this
      ensures State() == CompleteStep(old(State()), run, outcome)
    {
      pending := pending[run := false];
      match outcome {
        case Resolved(e) =>
          if !ignore[run] {
            estimatedReceive := if e.Some? then e.value.minAmountOut else None;
            estimatedGas := if e.Some? && e.value.estimatedGas.Some? && e.value.estimatedGas.value != 0
                            then Some(NatToString(e.value.estimatedGas.value)) else None;
          }
        case Rejected(m) =>
          if !ignore[run] {
            error := Some(if m == "" then "Error" else m);
          }
      }
      if !ignore[run] {
        estimating := false;
      }
    }

    /** `Start` with the flag also lowered when the inputs are invalid. */
    method StartResettingSpinner(side: Side, market: Option<Address>, amount: string, slippage: real) returns (run: nat)
      modifies this
      ensures run == |old(ignore)|
      ensures State() == StartStepResettingSpinner(old(State()), side, market, amount, slippage)
      ensures Settled(State())
    {
      run := Start(side, market, amount, slippage);
      if !ValidRequest(amount, market) {
        estimating := false;
      }
    }
  }
}
