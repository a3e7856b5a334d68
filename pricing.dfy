/** The pricing engine: a report's price is computed by the strategy that
    was in effect when the report was created. A strategy names a
    calculator and gives it keyword parameters; only the linear calculator
    with a minimum is registered. */
module Pricing {
  import opened Common
  import opened Money

  /** One configured, time-stamped pricing strategy. */
  datatype PriceStrategy = PriceStrategy(
    startedAt: Timestamp,
    calculator: string,
    params: map<string, real>)

  /** Why no price could be produced. Every one of these is a configuration
      error that propagates as an exception. */
  datatype PricingError =
    | NoStrategy                 // no strategy started before the report
    | UnknownCalculator(name: string)  // the calculator table has no such key
    | BadParams                  // the keyword arguments do not fit the calculator

  /** The registered calculators, as a closed variant. */
  datatype Calculator = LinearWithMinThreshold(minThreshold: real, rowPrice: real)
  {
    /** The unrounded price of a report with `nRows` rows. */
    function Price(nRows: nat): real {
      match this
      case LinearWithMinThreshold(minThreshold, rowPrice) =>
        LinearPrice(minThreshold, rowPrice, nRows)
    }
  }

  const LinearName: string := "linear_with_min_threshold"
  const MinThresholdParam: string := "min_threshold"
  const RowPriceParam: string := "row_price"

  /** The linear calculator: the row price times the row count, but never
      less than the minimum. Zero rows are allowed. */
  function LinearPrice(minThreshold: real, rowPrice: real, nRows: nat): (price: real)
    ensures price >= minThreshold && price >= rowPrice * nRows as real
    ensures price == minThreshold || price == rowPrice * nRows as real
  {
    var linear := rowPrice * nRows as real;
    if minThreshold >= linear then minThreshold else linear
  }

  /** Looking the calculator up by name and calling it with the strategy's
      parameters as keyword arguments: an unknown name fails first, then a
      parameter set that is not exactly the calculator's keywords. */
  function Resolve(name: string, params: map<string, real>): (r: Result<Calculator, PricingError>)
    ensures r.Ok? <==> name == LinearName && params.Keys == {MinThresholdParam, RowPriceParam}
    ensures name != LinearName ==> r == Err(UnknownCalculator(name))
    ensures name == LinearName && params.Keys != {MinThresholdParam, RowPriceParam} ==> r == Err(BadParams)
    ensures r.Ok? ==>
      r.value == LinearWithMinThreshold(params[MinThresholdParam], params[RowPriceParam])
  {
    if name != LinearName then Err(UnknownCalculator(name))
    else if params.Keys != {MinThresholdParam, RowPriceParam} then Err(BadParams)
    else Ok(LinearWithMinThreshold(params[MinThresholdParam], params[RowPriceParam]))
  }

  /** The index of the strategy the service selects: the last one in list
      order whose start is not after the creation time. */
  function LastQualifying(strategies: seq<PriceStrategy>, createdAt: Timestamp): (r: Option<nat>)
    ensures r.Some? ==>
      && r.value < |strategies|
      && strategies[r.value].startedAt <= createdAt
      && forall j :: r.value < j < |strategies| ==> strategies[j].startedAt > createdAt
    ensures r.None? <==> forall j :: 0 <= j < |strategies| ==> strategies[j].startedAt > createdAt
    decreases |strategies|
  {
    if |strategies| == 0 then None
    else if strategies[|strategies| - 1].startedAt <= createdAt then Some(|strategies| - 1)
    else LastQualifying(strategies[..|strategies| - 1], createdAt)
  }

  /** The price the service computes for a report with `nRows` rows created
      at `createdAt`, rounded to two decimals. */
  function PriceFor(strategies: seq<PriceStrategy>, nRows: nat, createdAt: Timestamp): Result<real, PricingError>
  {
    match LastQualifying(strategies, createdAt)
    case None => Err(NoStrategy)
    case Some(i) =>
      match Resolve(strategies[i].calculator, strategies[i].params)
      case Err(e) => Err(e)
      case Ok(calculator) => Ok(Round2(calculator.Price(nRows)))
  }

  /** The price service's computation: scan the strategies from the end,
      stop at the first that started no later than the report, fail when the
      scan runs out, then dispatch on the calculator name. */
  method Calc(strategies: seq<PriceStrategy>, nRows: nat, createdAt: Timestamp)
    returns (r: Result<real, PricingError>)
    ensures r == PriceFor(strategies, nRows, createdAt)
  {
    var i := |strategies|;
    var chosen: Option<nat> := None;
    while i > 0
      invariant 0 <= i <= |strategies| && chosen.None?
      invariant forall j :: i <= j < |strategies| ==> strategies[j].startedAt > createdAt
    {
      i := i - 1;
      if strategies[i].startedAt <= createdAt {
        chosen := Some(i);
        break;
      }
    }
    if chosen.None? {
      return Err(NoStrategy);
    }
    var strategy := strategies[chosen.value];
    var calculator := Resolve(strategy.calculator, strategy.params);
    if calculator.Err? {
      return Err(calculator.error);
    }
    r := Ok(Round2(calculator.value.Price(nRows)));
  }

  // ---------------------------------------------------------------------
  // Properties of the selection

  /** The selected strategy always started no later than the report. */
  lemma SelectedStartedBefore(strategies: seq<PriceStrategy>, nRows: nat, createdAt: Timestamp)
    requires PriceFor(strategies, nRows, createdAt).Ok?
    ensures exists i :: 0 <= i < |strategies| && strategies[i].startedAt <= createdAt
    ensures var i := LastQualifying(strategies, createdAt).value;
      strategies[i].startedAt <= createdAt
  {
    var i := LastQualifying(strategies, createdAt).value;
    assert 0 <= i < |strategies| && strategies[i].startedAt <= createdAt;
  }

  /** The computation fails for lack of a strategy exactly when every
      strategy starts after the report was created, the empty list
      included. */
  lemma NoStrategyIff(strategies: seq<PriceStrategy>, nRows: nat, createdAt: Timestamp)
    ensures PriceFor(strategies, nRows, createdAt) == Err(NoStrategy)
        <==> forall j :: 0 <= j < |strategies| ==> strategies[j].startedAt > createdAt
  {
    match LastQualifying(strategies, createdAt)
    case None =>
    case Some(i) =>
      assert Resolve(strategies[i].calculator, strategies[i].params) != Err(NoStrategy);
  }

  ghost predicate Ascending(strategies: seq<PriceStrategy>) {
    forall i, j :: 0 <= i < j < |strategies| ==> strategies[i].startedAt <= strategies[j].startedAt
  }

  ghost predicate StrictlyAscending(strategies: seq<PriceStrategy>) {
    forall i, j :: 0 <= i < j < |strategies| ==> strategies[i].startedAt < strategies[j].startedAt
  }

  /** For a list sorted by start, the selected strategy is the most recently
      effective one: none that qualifies started later. */
  lemma AscendingSelectsMostRecent(strategies: seq<PriceStrategy>, createdAt: Timestamp, k: nat)
    requires Ascending(strategies)
    requires k < |strategies| && strategies[k].startedAt <= createdAt
    ensures LastQualifying(strategies, createdAt).Some?
    ensures var i := LastQualifying(strategies, createdAt).value;
      k <= i && strategies[k].startedAt <= strategies[i].startedAt <= createdAt
  {
  }

  /** The start boundary is inclusive: a report created at the very moment a
      strategy starts is priced by it (starts being distinct). */
  lemma StartIsInclusive(strategies: seq<PriceStrategy>, k: nat)
    requires StrictlyAscending(strategies)
    requires k < |strategies|
    ensures LastQualifying(strategies, strategies[k].startedAt) == Some(k)
  {
  }

  /** A selected strategy whose calculator is not registered fails with
      that name instead of producing a price. */
  lemma UnregisteredCalculatorFails(strategies: seq<PriceStrategy>, nRows: nat, createdAt: Timestamp)
    requires LastQualifying(strategies, createdAt).Some?
    requires strategies[LastQualifying(strategies, createdAt).value].calculator != LinearName
    ensures PriceFor(strategies, nRows, createdAt)
         == Err(UnknownCalculator(strategies[LastQualifying(strategies, createdAt).value].calculator))
  {
  }

  /** Every computed price has at most two decimals and lies within half a
      cent of the calculator's exact value. */
  lemma PriceIsRounded(strategies: seq<PriceStrategy>, nRows: nat, createdAt: Timestamp)
    requires PriceFor(strategies, nRows, createdAt).Ok?
    ensures IsCents(PriceFor(strategies, nRows, createdAt).value)
    ensures var s := strategies[LastQualifying(strategies, createdAt).value];
      var exact := LinearPrice(s.params[MinThresholdParam], s.params[RowPriceParam], nRows);
      exact - 0.005 <= PriceFor(strategies, nRows, createdAt).value <= exact + 0.005
  {
  }

  // ---------------------------------------------------------------------
  // Properties of the linear calculator

  /** With no rows the price is the minimum, when that is not negative. */
  lemma LinearZeroRows(minThreshold: real, rowPrice: real)
    requires minThreshold >= 0.0
    ensures LinearPrice(minThreshold, rowPrice, 0) == minThreshold
  {
  }

  /** With a non-negative row price, more rows never cost less. */
  lemma LinearMonotone(minThreshold: real, rowPrice: real, n: nat, m: nat)
    requires rowPrice >= 0.0 && n <= m
    ensures LinearPrice(minThreshold, rowPrice, n) <= LinearPrice(minThreshold, rowPrice, m)
  {
    assert rowPrice * n as real <= rowPrice * m as real by {
      assert rowPrice * m as real - rowPrice * n as real == rowPrice * (m - n) as real;
    }
  }

  // ---------------------------------------------------------------------
  // The configured linear strategies of the pricing tests, with a 19-row
  // report; timestamps are yyyymmdd.

  function LinearStrategies(): seq<PriceStrategy> {
    [ PriceStrategy(20211030, LinearName, map[MinThresholdParam := 10.0, RowPriceParam := 1.001]),
      PriceStrategy(20211130, LinearName, map[MinThresholdParam := 100.0, RowPriceParam := 1.0]),
      PriceStrategy(20211230, LinearName, map[MinThresholdParam := 200.0, RowPriceParam := 1.0]) ]
  }

  /** 19 rows at 1.001 with minimum 10 cost 19.019, rounded to 19.02; a later
      creation date picks a later strategy, the start day itself included;
      a date before every strategy fails. */
  lemma LinearStrategiesExamples()
    ensures PriceFor(LinearStrategies(), 19, 20211120) == Ok(19.02)
    ensures PriceFor(LinearStrategies(), 19, 20211220) == Ok(100.0)
    ensures PriceFor(LinearStrategies(), 19, 20211230) == Ok(200.0)
    ensures PriceFor(LinearStrategies(), 19, 20210920) == Err(NoStrategy)
  {
    var s := LinearStrategies();
    assert s[..2][..1] == [s[0]];
    assert RoundHalfEven(1901.9) == 1902;
    assert RoundHalfEven(10000.0) == 10000;
    assert RoundHalfEven(20000.0) == 20000;
  }
}
