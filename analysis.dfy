/**
  `get_tp_sl` in bot.py as a whole: on a cache miss, collect the channel's
  calls, measure them, and store the six medians with the number of calls
  under the channel's name; on a hit, return the stored record and do
  nothing else.

  `Analyze` specifies what a miss computes; `ChannelCache.GetTpSl` is the
  method, built from the loops of the other modules, and is proved to
  compute it and to change only the channel's own entry.
*/
module Analysis {
  import opened Basics
  import opened Detector
  import opened Collector
  import opened PriceRange
  import opened Median
  import opened Extremes
  import opened Outcomes

  /** The record stored under a channel: the medians of the six lists and
      `len(founded_cas)`. */
  datatype Record = Record(
    tp12: real, sl12: real,
    tp24: real, sl24: real,
    tp48: real, sl48: real,
    calls: nat)

  /** Why `get_tp_sl` raises instead of returning a record. */
  datatype AnalysisError =
    | ChannelNotFound  // `client.get_entity` or a history request raises
    | NoSamples        // `calculate_median` of an empty list: IndexError

  /** Every address in the insertion order is distinct, so the order is as
      long as the set of its elements. */
  lemma {:induction false} DistinctCount(order: seq<string>)
    requires forall i, j :: 0 <= i < j < |order| ==> order[i] != order[j]
    ensures |set a | a in order| == |order|
    decreases |order|
  {
    if order != [] {
      var rest := order[1..];
      forall i, j | 0 <= i < j < |rest| ensures rest[i] != rest[j] {
        assert rest[i] == order[i + 1] && rest[j] == order[j + 1];
      }
      DistinctCount(rest);
      assert order[0] !in rest by {
        forall j | 0 <= j < |rest| ensures rest[j] != order[0] {
          assert rest[j] == order[j + 1];
        }
      }
      assert (set a | a in order) == {order[0]} + (set a | a in rest) by {
        assert order == [order[0]] + rest;
      }
    }
  }

  /** A well-formed dictionary yields one value per key. */
  lemma ValuesCount(c: Calls)
    requires c.Valid()
    ensures |c.Values()| == |c.byAddress|
  {
    DistinctCount(c.order);
    assert c.byAddress.Keys == set a | a in c.order;
  }

  /** The calls `founded_cas.values()` yields after the collection loop. */
  function CollectedCalls(pages: seq<seq<Message>>, dateLimit: int, confirm: Confirm): (calls: seq<Call>)
    ensures |calls| == |Collect(pages, dateLimit, confirm).calls.byAddress|
  {
    NoCallsValid();
    CollectValid(NoCalls, pages, 0, dateLimit, confirm);
    ValuesCount(Collect(pages, dateLimit, confirm).calls);
    Collect(pages, dateLimit, confirm).calls.Values()
  }

  /** What a cache miss computes for a channel whose history is `source`
      (`None` when the channel cannot be found or a history request
      raises). */
  function Analyze(source: Option<seq<seq<Message>>>, dateLimit: int, confirm: Confirm,
                   priceAt: PriceOracle, fetch: HistoryOracle): (r: Result<Record, AnalysisError>)
    ensures source.None? ==> r == Failure(ChannelNotFound)
    ensures source.Some? ==>
      var calls := CollectedCalls(source.value, dateLimit, confirm);
      var xs := Contributions(calls, |calls|, priceAt, fetch);
      && (r.Failure? <==> xs == [])
      && (r.Failure? ==> r.error == NoSamples)
      && (r.Success? ==> r.value.calls == |Collect(source.value, dateLimit, confirm).calls.byAddress|)
      && (r.Success? ==> 0 < |xs| <= r.value.calls)
  {
    match source
    case None => Failure(ChannelNotFound)
    case Some(pages) =>
      var calls := CollectedCalls(pages, dateLimit, confirm);
      var xs := Contributions(calls, |calls|, priceAt, fetch);
      var s := Tally(xs);
      TallyColumns(xs);
      if xs == [] then Failure(NoSamples)
      else
        Success(Record(
          CalculateMedian(s.highs12).value, CalculateMedian(s.lows12).value,
          CalculateMedian(s.highs24).value, CalculateMedian(s.lows24).value,
          CalculateMedian(s.highs48).value, CalculateMedian(s.lows48).value,
          |calls|))
  }

  /** Each stored median lies between the smallest and the largest move of its list. */
  lemma AnalyzeMediansInRange(pages: seq<seq<Message>>, dateLimit: int, confirm: Confirm,
                              priceAt: PriceOracle, fetch: HistoryOracle)
    requires Analyze(Some(pages), dateLimit, confirm, priceAt, fetch).Success?
    ensures var r := Analyze(Some(pages), dateLimit, confirm, priceAt, fetch).value;
      var calls := CollectedCalls(pages, dateLimit, confirm);
      var s := Tally(Contributions(calls, |calls|, priceAt, fetch));
      && s.highs12 != [] && MinOf(s.highs12) <= r.tp12 <= MaxOf(s.highs12)
      && s.lows12 != [] && MinOf(s.lows12) <= r.sl12 <= MaxOf(s.lows12)
      && s.highs24 != [] && MinOf(s.highs24) <= r.tp24 <= MaxOf(s.highs24)
      && s.lows24 != [] && MinOf(s.lows24) <= r.sl24 <= MaxOf(s.lows24)
      && s.highs48 != [] && MinOf(s.highs48) <= r.tp48 <= MaxOf(s.highs48)
      && s.lows48 != [] && MinOf(s.lows48) <= r.sl48 <= MaxOf(s.lows48)
  {
    var calls := CollectedCalls(pages, dateLimit, confirm);
    var xs := Contributions(calls, |calls|, priceAt, fetch);
    var s := Tally(xs);
    TallyColumns(xs);
    MedianWithinRange(s.highs12);
    MedianWithinRange(s.lows12);
    MedianWithinRange(s.highs24);
    MedianWithinRange(s.lows24);
    MedianWithinRange(s.highs48);
    MedianWithinRange(s.lows48);
  }

  /** Three calls with entry prices 10, 20 and 5 and 12-hour highs 12, 18
      and 7 move by 20, -10 and 40 percent, and the median of those moves is
      20 (`ThreeCallsStoreTakeProfit` shows that it is what gets stored). */
  lemma ThreeCallsTakeProfitExample()
    ensures PctChange(12.0, 10.0) == 20.0
    ensures PctChange(18.0, 20.0) == -10.0
    ensures PctChange(7.0, 5.0) == 40.0
    ensures CalculateMedian([PctChange(12.0, 10.0), PctChange(18.0, 20.0), PctChange(7.0, 5.0)]) == Some(20.0)
  {
    MedianOfThreeCallsExample();
  }

  /* A channel with three calls, end to end: one page of three messages,
     each a 32-character base-58 token, dated 3, 2 and 1 with the cutoff at
     0; `confirm_ca` returns its input; the entry prices are 10, 20 and 5 and
     the 12-hour series are the single values 12, 18 and 7. */

  /** Three distinct tokens of 32 base-58 characters. */
  predicate ThreeTokens(a: string, b: string, c: string) {
    && |a| == MinLen && AllBase58(a)
    && |b| == MinLen && AllBase58(b)
    && |c| == MinLen && AllBase58(c)
    && a != b && a != c && b != c
  }

  /** The page of the three calls, newest first. */
  function ThreeCallPage(a: string, b: string, c: string): seq<Message> {
    [Message(3, 3, a), Message(2, 2, b), Message(1, 1, c)]
  }

  /** The prices the oracles give for the three calls. */
  predicate ThreeCallPrices(a: string, b: string, c: string, confirm: Confirm,
                            priceAt: PriceOracle, fetch: HistoryOracle) {
    && confirm(a, Solana) == (a, Solana)
    && confirm(b, Solana) == (b, Solana)
    && confirm(c, Solana) == (c, Solana)
    && priceAt(a, Solana, 3) == 10.0
    && priceAt(b, Solana, 2) == 20.0
    && priceAt(c, Solana, 1) == 5.0
    && fetch(a, Solana, 3, HorizonEnd(3, 12)) == Items([Some(12.0)])
    && fetch(b, Solana, 2, HorizonEnd(2, 12)) == Items([Some(18.0)])
    && fetch(c, Solana, 1, HorizonEnd(1, 12)) == Items([Some(7.0)])
  }

  /** A message that is one 32-character base-58 token is detected whole, on "solana". */
  lemma TokenDetected(t: string)
    requires |t| == MinLen && AllBase58(t)
    ensures DetectCaAndChain(t) == Some(Detection(t, Solana))
  {
    assert IsWordChar(t[0]) && IsWordChar(t[MinLen - 1]);
    assert SolanaMatch(t, 0, MinLen);
    SearchFindsLeftmost(t, 0, MinLen);
    assert t[0..MinLen] == t;
  }

  /** Each message of the page names its own token, on "solana", at its date. */
  lemma ThreeCallSightings(a: string, b: string, c: string, confirm: Confirm,
                           priceAt: PriceOracle, fetch: HistoryOracle)
    requires ThreeTokens(a, b, c) && ThreeCallPrices(a, b, c, confirm, priceAt, fetch)
    ensures var page := ThreeCallPage(a, b, c);
      && Sighting(page[0], confirm) == Some(Call(a, Solana, 3))
      && Sighting(page[1], confirm) == Some(Call(b, Solana, 2))
      && Sighting(page[2], confirm) == Some(Call(c, Solana, 1))
  {
    TokenDetected(a);
    TokenDetected(b);
    TokenDetected(c);
  }

  /** No message of the page is older than a cutoff at 0. */
  lemma ThreeCallCutoff(a: string, b: string, c: string)
    ensures Cutoff(ThreeCallPage(a, b, c), 0) == 3
  {
    assert CutoffFrom(ThreeCallPage(a, b, c), 0, 3) == 3;
  }

  /** Storing three distinct addresses gives them in insertion order. */
  lemma ThreeStores(a: string, b: string, c: string)
    requires a != b && a != c && b != c
    ensures Store(Store(Store(NoCalls, Call(a, Solana, 3)), Call(b, Solana, 2)), Call(c, Solana, 1))
         == Calls(map[a := Call(a, Solana, 3), b := Call(b, Solana, 2), c := Call(c, Solana, 1)], [a, b, c])
  {
  }

  /** The inner loop keeps all three messages and stores the three calls in order. */
  lemma ThreeCallScan(a: string, b: string, c: string, confirm: Confirm,
                      priceAt: PriceOracle, fetch: HistoryOracle)
    requires ThreeTokens(a, b, c) && ThreeCallPrices(a, b, c, confirm, priceAt, fetch)
    ensures var page := ThreeCallPage(a, b, c);
      && Cutoff(page, 0) == 3
      && ScanPrefix(NoCalls, page, 3, confirm)
         == Calls(map[a := Call(a, Solana, 3), b := Call(b, Solana, 2), c := Call(c, Solana, 1)], [a, b, c])
  {
    ThreeCallCutoff(a, b, c);
    ThreeCallSightings(a, b, c, confirm, priceAt, fetch);
    ThreeStores(a, b, c);
  }

  /** A history of one non-empty page whose last message is not older than
      the cutoff is that page's kept prefix, processed. */
  lemma OnePageCollected(page: seq<Message>, dateLimit: int, confirm: Confirm)
    requires page != [] && page[|page| - 1].date >= dateLimit
    ensures Collect([page], dateLimit, confirm).calls
         == ScanPrefix(NoCalls, page, Cutoff(page, dateLimit), confirm)
  {
    var next := ScanPrefix(NoCalls, page, Cutoff(page, dateLimit), confirm);
    assert CollectFrom(next, [page], 1, dateLimit, confirm).calls == next;
  }

  /** `founded_cas.values()` after the collection loop: the three calls, newest first. */
  lemma ThreeCallsCollected(a: string, b: string, c: string, confirm: Confirm,
                            priceAt: PriceOracle, fetch: HistoryOracle)
    requires ThreeTokens(a, b, c) && ThreeCallPrices(a, b, c, confirm, priceAt, fetch)
    ensures CollectedCalls([ThreeCallPage(a, b, c)], 0, confirm)
         == [Call(a, Solana, 3), Call(b, Solana, 2), Call(c, Solana, 1)]
  {
    ThreeCallScan(a, b, c, confirm, priceAt, fetch);
    OnePageCollected(ThreeCallPage(a, b, c), 0, confirm);
  }

  /** Every one of the three calls contributes, with 12-hour high moves of
      20, -10 and 40 percent. */
  lemma ThreeCallContributions(a: string, b: string, c: string, confirm: Confirm,
                               priceAt: PriceOracle, fetch: HistoryOracle)
    requires ThreeTokens(a, b, c) && ThreeCallPrices(a, b, c, confirm, priceAt, fetch)
    ensures var xs := Contributions([Call(a, Solana, 3), Call(b, Solana, 2), Call(c, Solana, 1)],
                                    3, priceAt, fetch);
      && |xs| == 3
      && xs[0].high12 == 20.0 && xs[1].high12 == -10.0 && xs[2].high12 == 40.0
  {
    assert Values([Some(12.0)]) == [12.0] && Values([Some(18.0)]) == [18.0] && Values([Some(7.0)]) == [7.0];
    assert RangeOf(Items([Some(12.0)])).0 == 12.0;
    assert RangeOf(Items([Some(18.0)])).0 == 18.0;
    assert RangeOf(Items([Some(7.0)])).0 == 7.0;
    ThreeCallsTakeProfitExample();
  }

  /** When some call contributes, the analysis succeeds and stores as the
      12-hour take profit the median of the contributions' 12-hour high moves. */
  lemma AnalyzeStoresMedian(pages: seq<seq<Message>>, dateLimit: int, confirm: Confirm,
                            priceAt: PriceOracle, fetch: HistoryOracle, calls: seq<Call>, highs: seq<real>)
    requires CollectedCalls(pages, dateLimit, confirm) == calls
    requires var xs := Contributions(calls, |calls|, priceAt, fetch);
      && |highs| == |xs| > 0
      && forall i :: 0 <= i < |xs| ==> xs[i].high12 == highs[i]
    ensures var r := Analyze(Some(pages), dateLimit, confirm, priceAt, fetch);
      && r.Success?
      && Some(r.value.tp12) == CalculateMedian(highs)
      && r.value.calls == |calls|
  {
    var xs := Contributions(calls, |calls|, priceAt, fetch);
    TallyColumns(xs);
    assert Tally(xs).highs12 == highs;
  }

  /** The channel of three calls with entry prices 10, 20 and 5 and 12-hour
      highs 12, 18 and 7 is stored with a 12-hour take profit of 20 and
      three calls. */
  lemma ThreeCallsStoreTakeProfit(a: string, b: string, c: string, confirm: Confirm,
                                  priceAt: PriceOracle, fetch: HistoryOracle)
    requires ThreeTokens(a, b, c) && ThreeCallPrices(a, b, c, confirm, priceAt, fetch)
    ensures var r := Analyze(Some([ThreeCallPage(a, b, c)]), 0, confirm, priceAt, fetch);
      r.Success? && r.value.tp12 == 20.0 && r.value.calls == 3
  {
    var calls := [Call(a, Solana, 3), Call(b, Solana, 2), Call(c, Solana, 1)];
    ThreeCallsCollected(a, b, c, confirm, priceAt, fetch);
    ThreeCallContributions(a, b, c, confirm, priceAt, fetch);
    AnalyzeStoresMedian([ThreeCallPage(a, b, c)], 0, confirm, priceAt, fetch, calls, [20.0, -10.0, 40.0]);
    MedianOfThreeCallsExample();
  }

  const TokenA: string := seq(32, _ => 'A')
  const TokenB: string := seq(32, _ => 'B')
  const TokenC: string := seq(32, _ => 'C')

  const ConfirmUnchanged: Confirm := (address, chain) => (address, chain)

  const AlphaPrices: PriceOracle :=
    (address, chain, t) => if address == TokenA then 10.0 else if address == TokenB then 20.0 else 5.0

  const AlphaHistory: HistoryOracle :=
    (address, chain, from, to) =>
      Items([Some(if address == TokenA then 12.0 else if address == TokenB then 18.0 else 7.0)])

  /** The tokens of all `A`, all `B` and all `C` with the oracles above meet
      the scenario, so its requirements can be met. */
  lemma AlphaMeetsScenario()
    ensures ThreeTokens(TokenA, TokenB, TokenC)
    ensures ThreeCallPrices(TokenA, TokenB, TokenC, ConfirmUnchanged, AlphaPrices, AlphaHistory)
  {
    assert TokenA[0] != TokenB[0] && TokenA[0] != TokenC[0] && TokenB[0] != TokenC[0];
  }

  /** The channel whose one page holds the tokens of all `A`, all `B` and
      all `C` stores a 12-hour take profit of 20 and three calls. */
  lemma AlphaStoresTakeProfit()
    ensures var r := Analyze(Some([ThreeCallPage(TokenA, TokenB, TokenC)]), 0, ConfirmUnchanged,
                             AlphaPrices, AlphaHistory);
      r.Success? && r.value.tp12 == 20.0 && r.value.calls == 3
  {
    AlphaMeetsScenario();
    ThreeCallsStoreTakeProfit(TokenA, TokenB, TokenC, ConfirmUnchanged, AlphaPrices, AlphaHistory);
  }

  /** The `data` dictionary of stored records, by channel name. */
  class ChannelCache {
    var data: map<string, Record>

    /** `load_data()`: the records stored so far. */
    constructor(stored: map<string, Record>)
      ensures data == stored
    {
      data := stored;
    }

    /** `get_tp_sl(channel_username)`. */
    method GetTpSl(channel: string, source: Option<seq<seq<Message>>>, dateLimit: int, confirm: Confirm,
                   priceAt: PriceOracle, fetch: HistoryOracle)
      returns (r: Result<Record, AnalysisError>)
      modifies this
      ensures channel in old(data) ==> r == Success(old(data)[channel]) && data == old(data)
      ensures channel !in old(data) ==> r == Analyze(source, dateLimit, confirm, priceAt, fetch)
      ensures channel !in old(data) && r.Success? ==> data == old(data)[channel := r.value]
      ensures r.Failure? ==> data == old(data)
    {
      if channel in data {
        return Success(data[channel]);
      }
      if source.None? {
        return Failure(ChannelNotFound);
      }
      var pages := source.value;
      var found, stop := CollectCalls(pages, dateLimit, confirm);
      NoCallsValid();
      CollectValid(NoCalls, pages, 0, dateLimit, confirm);
      ValuesCount(found);
      var s := ComputeOutcomes(found.Values(), priceAt, fetch);
      var tp12 := CalculateMedian(s.highs12);
      var sl12 := CalculateMedian(s.lows12);
      var tp24 := CalculateMedian(s.highs24);
      var sl24 := CalculateMedian(s.lows24);
      var tp48 := CalculateMedian(s.highs48);
      var sl48 := CalculateMedian(s.lows48);
      ghost var calls := CollectedCalls(pages, dateLimit, confirm);
      TallyColumns(Contributions(calls, |calls|, priceAt, fetch));
      if tp12.None? {
        return Failure(NoSamples);
      }
      var record := Record(tp12.value, sl12.value, tp24.value, sl24.value, tp48.value, sl48.value,
                           |found.byAddress|);
      data := data[channel := record];
      r := Success(record);
    }
  }

  /** Asking twice for the same channel: the second answer is the first, and
      whatever history the second request would have seen, nothing is
      recomputed and nothing more is stored. */
  method RepeatedScan(cache: ChannelCache, channel: string,
                      first: Option<seq<seq<Message>>>, second: Option<seq<seq<Message>>>,
                      dateLimit: int, confirm: Confirm, priceAt: PriceOracle, fetch: HistoryOracle)
    returns (r1: Result<Record, AnalysisError>, r2: Result<Record, AnalysisError>)
    modifies cache
    ensures r1.Success? ==> r2 == r1
    ensures r1.Success? ==> cache.data == old(cache.data)[channel := r1.value]
  {
    r1 := cache.GetTpSl(channel, first, dateLimit, confirm, priceAt, fetch);
    r2 := cache.GetTpSl(channel, second, dateLimit, confirm, priceAt, fetch);
  }
}
