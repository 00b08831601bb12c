/**
  The outcome loop of `get_tp_sl` in bot.py, `for datum in
  founded_cas.values()`: for each collected call, the entry price is looked
  up; calls on chain "ethereum" and calls whose entry price is the 0.0
  sentinel are skipped; every other call appends to six lists the percentage
  move from the entry price to the highest and to the lowest price over the
  next 12, 24 and 48 hours.

  `Contributions` and `Tally` specify the loop; `ComputeOutcomes` is the loop
  and is proved to compute them. `calculate_tp_sl`, which bot.py defines but
  never calls, is modelled at the end.
*/
module Outcomes {
  import opened Basics
  import opened Collector
  import opened PriceRange

  const Ethereum := "ethereum"

  /** `get_price(address, chain, time)`: the price at a time, 0.0 when the request fails. */
  type PriceOracle = (string, string, int) -> real

  /** The end of a horizon of `hours` hours after `t`, in seconds since the epoch. */
  function HorizonEnd(t: int, hours: int): (e: int)
    ensures hours >= 0 ==> e >= t
    ensures hours > 0 ==> e > t
  {
    t + hours * 3600
  }

  /** `((extreme - initial)/initial)*100`: the move from the entry price, in percent. */
  function PctChange(extreme: real, initial: real): real
    requires initial != 0.0
  {
    (extreme - initial) / initial * 100.0
  }

  /** The six percentage moves of one call. */
  datatype Excursion = Excursion(
    high12: real, low12: real,
    high24: real, low24: real,
    high48: real, low48: real)

  /** What one call contributes: nothing for chain "ethereum" or a 0.0 entry
      price, otherwise its six percentage moves. */
  function CallOutcome(call: Call, priceAt: PriceOracle, fetch: HistoryOracle): Option<Excursion> {
    if call.chain == Ethereum then None
    else
      var initial := priceAt(call.address, call.chain, call.timestamp);
      if initial == 0.0 then None
      else Some(Measure(call, initial, fetch))
  }

  /** The six moves of a call with entry price `initial`. */
  function Measure(call: Call, initial: real, fetch: HistoryOracle): Excursion
    requires initial != 0.0
  {
    var t := call.timestamp;
    var r12 := RangeOf(fetch(call.address, call.chain, t, HorizonEnd(t, 12)));
    var r24 := RangeOf(fetch(call.address, call.chain, t, HorizonEnd(t, 24)));
    var r48 := RangeOf(fetch(call.address, call.chain, t, HorizonEnd(t, 48)));
    Excursion(
      PctChange(r12.0, initial), PctChange(r12.1, initial),
      PctChange(r24.0, initial), PctChange(r24.1, initial),
      PctChange(r48.0, initial), PctChange(r48.1, initial))
  }

  /** The excursions of the first `n` calls, in order, skipped calls left out. */
  function Contributions(calls: seq<Call>, n: nat, priceAt: PriceOracle, fetch: HistoryOracle): (xs: seq<Excursion>)
    requires n <= |calls|
    ensures |xs| <= n
    decreases n
  {
    if n == 0 then []
    else
      var before := Contributions(calls, n - 1, priceAt, fetch);
      match CallOutcome(calls[n - 1], priceAt, fetch)
      case None => before
      case Some(e) => before + [e]
  }

  /** The six lists `_12h_highs`, `_12h_lows`, … */
  datatype Samples = Samples(
    highs12: seq<real>, lows12: seq<real>,
    highs24: seq<real>, lows24: seq<real>,
    highs48: seq<real>, lows48: seq<real>)

  const NoSamples := Samples([], [], [], [], [], [])

  /** The lists after the excursions `xs` have been appended in order. */
  function Tally(xs: seq<Excursion>): (s: Samples)
    decreases |xs|
  {
    if xs == [] then NoSamples
    else Append(Tally(xs[..|xs| - 1]), xs[|xs| - 1])
  }

  /** Append one call's six moves, one to each list. */
  function Append(s: Samples, e: Excursion): Samples {
    Samples(s.highs12 + [e.high12], s.lows12 + [e.low12],
            s.highs24 + [e.high24], s.lows24 + [e.low24],
            s.highs48 + [e.high48], s.lows48 + [e.low48])
  }

  /** The lists are the columns of the excursions: they all have one entry
      per contributing call, and entry `i` of each is the matching move of
      the `i`-th contributing call. */
  lemma {:induction false} TallyColumns(xs: seq<Excursion>)
    ensures var s := Tally(xs);
      && |s.highs12| == |xs| && |s.lows12| == |xs|
      && |s.highs24| == |xs| && |s.lows24| == |xs|
      && |s.highs48| == |xs| && |s.lows48| == |xs|
      && (forall i :: 0 <= i < |xs| ==> s.highs12[i] == xs[i].high12 && s.lows12[i] == xs[i].low12)
      && (forall i :: 0 <= i < |xs| ==> s.highs24[i] == xs[i].high24 && s.lows24[i] == xs[i].low24)
      && (forall i :: 0 <= i < |xs| ==> s.highs48[i] == xs[i].high48 && s.lows48[i] == xs[i].low48)
    decreases |xs|
  {
    if xs != [] {
      var init := xs[..|xs| - 1];
      TallyColumns(init);
      assert forall i :: 0 <= i < |init| ==> init[i] == xs[i];
    }
  }

  /** The three range requests of a priced call and its six moves. */
  method MeasureCall(datum: Call, initial: real, fetch: HistoryOracle) returns (e: Excursion)
    requires initial != 0.0
    ensures e == Measure(datum, initial, fetch)
  {
    var t := datum.timestamp;
    var high12, low12 := GetPriceHistory(fetch(datum.address, datum.chain, t, HorizonEnd(t, 12)));
    var high24, low24 := GetPriceHistory(fetch(datum.address, datum.chain, t, HorizonEnd(t, 24)));
    var high48, low48 := GetPriceHistory(fetch(datum.address, datum.chain, t, HorizonEnd(t, 48)));
    e := Excursion(
      PctChange(high12, initial), PctChange(low12, initial),
      PctChange(high24, initial), PctChange(low24, initial),
      PctChange(high48, initial), PctChange(low48, initial));
  }

  /** Appending an excursion appends its moves to the lists. */
  lemma TallyStep(xs: seq<Excursion>, e: Excursion)
    ensures Tally(xs + [e]) == Append(Tally(xs), e)
  {
    assert (xs + [e])[..|xs + [e]| - 1] == xs;
  }

  /** The body of the outcome loop for one call: skip it (`continue`) on
      chain "ethereum" or a 0.0 entry price, otherwise append its six moves. */
  method RecordCall(s: Samples, datum: Call, priceAt: PriceOracle, fetch: HistoryOracle) returns (next: Samples)
    ensures CallOutcome(datum, priceAt, fetch).None? ==> next == s
    ensures CallOutcome(datum, priceAt, fetch).Some? ==> next == Append(s, CallOutcome(datum, priceAt, fetch).value)
  {
    next := s;
    if datum.chain == Ethereum {
      return;
    }
    var initial := priceAt(datum.address, datum.chain, datum.timestamp);
    if initial != 0.0 {
      var e := MeasureCall(datum, initial, fetch);
      next := Append(s, e);
    }
  }

  /** The outcome loop over `founded_cas.values()`. */
  method ComputeOutcomes(calls: seq<Call>, priceAt: PriceOracle, fetch: HistoryOracle) returns (s: Samples)
    ensures s == Tally(Contributions(calls, |calls|, priceAt, fetch))
  {
    s := NoSamples;
    ghost var xs: seq<Excursion> := [];
    for i := 0 to |calls|
      invariant xs == Contributions(calls, i, priceAt, fetch)
      invariant s == Tally(xs)
    {
      ghost var outcome := CallOutcome(calls[i], priceAt, fetch);
      s := RecordCall(s, calls[i], priceAt, fetch);
      if outcome.Some? {
        TallyStep(xs, outcome.value);
        xs := xs + [outcome.value];
      }
    }
  }

  /** A call on chain "ethereum" contributes nothing, whatever the prices. */
  lemma EthereumSkipped(calls: seq<Call>, n: nat, priceAt: PriceOracle, fetch: HistoryOracle)
    requires n < |calls| && calls[n].chain == Ethereum
    ensures Contributions(calls, n + 1, priceAt, fetch) == Contributions(calls, n, priceAt, fetch)
  {
  }

  /** A call whose entry price comes back as 0.0 contributes nothing. */
  lemma ZeroPriceSkipped(calls: seq<Call>, n: nat, priceAt: PriceOracle, fetch: HistoryOracle)
    requires n < |calls|
    requires priceAt(calls[n].address, calls[n].chain, calls[n].timestamp) == 0.0
    ensures Contributions(calls, n + 1, priceAt, fetch) == Contributions(calls, n, priceAt, fetch)
  {
  }

  /** Any other call appends exactly one excursion. */
  lemma PricedCallCounted(calls: seq<Call>, n: nat, priceAt: PriceOracle, fetch: HistoryOracle)
    requires n < |calls| && calls[n].chain != Ethereum
    requires priceAt(calls[n].address, calls[n].chain, calls[n].timestamp) != 0.0
    ensures |Contributions(calls, n + 1, priceAt, fetch)| == |Contributions(calls, n, priceAt, fetch)| + 1
  {
  }

  /** A range request that fails yields (0.0, 0.0), which becomes a move of
      -100 percent rather than being left out. */
  lemma FailedFetchIsMinusHundred(call: Call, priceAt: PriceOracle, fetch: HistoryOracle)
    requires call.chain != Ethereum
    requires priceAt(call.address, call.chain, call.timestamp) != 0.0
    requires fetch(call.address, call.chain, call.timestamp, HorizonEnd(call.timestamp, 12)) == FetchFailed
    ensures CallOutcome(call, priceAt, fetch).Some?
    ensures CallOutcome(call, priceAt, fetch).value.high12 == -100.0
    ensures CallOutcome(call, priceAt, fetch).value.low12 == -100.0
  {
    var initial := priceAt(call.address, call.chain, call.timestamp);
    ZeroIsMinusHundred(initial);
  }

  lemma ZeroIsMinusHundred(initial: real)
    requires initial != 0.0
    ensures PctChange(0.0, initial) == -100.0
  {
    assert (0.0 - initial) / initial == -1.0;
  }

  /** With a positive entry price, a larger price is a larger move. */
  lemma PctChangeMonotone(a: real, b: real, initial: real)
    requires initial > 0.0 && a <= b
    ensures PctChange(a, initial) <= PctChange(b, initial)
  {
    assert (a - initial) / initial <= (b - initial) / initial;
  }

  /** With a positive entry price, each horizon's high move is at least its low move. */
  lemma HighMoveAtLeastLowMove(call: Call, priceAt: PriceOracle, fetch: HistoryOracle)
    requires priceAt(call.address, call.chain, call.timestamp) > 0.0
    requires CallOutcome(call, priceAt, fetch).Some?
    ensures var e := CallOutcome(call, priceAt, fetch).value;
      e.low12 <= e.high12 && e.low24 <= e.high24 && e.low48 <= e.high48
  {
    var initial := priceAt(call.address, call.chain, call.timestamp);
    assert CallOutcome(call, priceAt, fetch).value == Measure(call, initial, fetch);
    var t := call.timestamp;
    var r12 := RangeOf(fetch(call.address, call.chain, t, HorizonEnd(t, 12)));
    var r24 := RangeOf(fetch(call.address, call.chain, t, HorizonEnd(t, 24)));
    var r48 := RangeOf(fetch(call.address, call.chain, t, HorizonEnd(t, 48)));
    PctChangeMonotone(r12.1, r12.0, initial);
    PctChangeMonotone(r24.1, r24.0, initial);
    PctChangeMonotone(r48.1, r48.0, initial);
  }

  /** `calculate_tp_sl(initial_price, high, low)`: the prices `high` and `low`
      (as fractions, not percentages) above the entry price. */
  function CalculateTpSl(initialPrice: real, high: real, low: real): (real, real) {
    (high * initialPrice + initialPrice, low * initialPrice + initialPrice)
  }

  /** Given a move as a fraction (the percentage divided by 100),
      `calculate_tp_sl` recovers the price the move was measured to. */
  lemma TpSlInvertsMove(initial: real, highPrice: real, lowPrice: real)
    requires initial != 0.0
    ensures CalculateTpSl(initial, PctChange(highPrice, initial) / 100.0, PctChange(lowPrice, initial) / 100.0)
            == (highPrice, lowPrice)
  {
    var h := (highPrice - initial) / initial;
    var l := (lowPrice - initial) / initial;
    assert h * 100.0 / 100.0 == h && l * 100.0 / 100.0 == l;
    assert h * initial == highPrice - initial && l * initial == lowPrice - initial;
    assert PctChange(highPrice, initial) / 100.0 == h && PctChange(lowPrice, initial) / 100.0 == l;
  }
}
