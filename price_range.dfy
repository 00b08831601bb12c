/**
  The price-range half of `get_price_history` in bot.py: the minute series
  returned by the price service is collected into a list and reduced to its
  highest and lowest value. Any failure, including an empty series (on which
  `max` raises), yields the pair (0.0, 0.0).
*/
module PriceRange {
  import opened Basics
  import opened Extremes

  /** The decoded body of the price-history request. `FetchFailed` stands for
      a network error or a response without `data.items`; in `Items`, each
      element is the item's `value`, `None` when the item has no such key. */
  datatype History = FetchFailed | Items(items: seq<Option<real>>)

  /** The oracle that performs the request for (address, chain, from, to). */
  type HistoryOracle = (string, string, int, int) -> History

  predicate AllPresent(items: seq<Option<real>>) {
    forall j :: 0 <= j < |items| ==> items[j].Some?
  }

  /** The list `prices` built from the items, in order. */
  function Values(items: seq<Option<real>>): (vs: seq<real>)
    requires AllPresent(items)
  {
    seq(|items|, j requires 0 <= j < |items| => items[j].value)
  }

  /** The (high, low) pair `get_price_history` returns for a response. */
  function RangeOf(h: History): (r: (real, real))
    ensures h.Items? && AllPresent(h.items) && |h.items| > 0 ==>
      && r.0 in Values(h.items) && r.1 in Values(h.items)
      && forall j :: 0 <= j < |h.items| ==> r.1 <= h.items[j].value <= r.0
    ensures !(h.Items? && AllPresent(h.items) && |h.items| > 0) ==> r == (0.0, 0.0)
    ensures r.1 <= r.0
  {
    match h
    case FetchFailed => (0.0, 0.0)
    case Items(items) =>
      if !AllPresent(items) || |items| == 0 then (0.0, 0.0)
      else
        var prices := Values(items);
        assert forall j :: 0 <= j < |items| ==> prices[j] == items[j].value;
        (MaxOf(prices), MinOf(prices))
  }

  /** `get_price_history` after the request: append each item's value, then take max and min. */
  method GetPriceHistory(response: History) returns (high: real, low: real)
    ensures (high, low) == RangeOf(response)
  {
    if response.FetchFailed? {
      return 0.0, 0.0;
    }
    var items := response.items;
    var prices: seq<real> := [];
    for n := 0 to |items|
      invariant AllPresent(items[..n]) && prices == Values(items[..n])
    {
      match items[n]
      case None =>
        // KeyError on `price["value"]`, caught by the handler
        return 0.0, 0.0;
      case Some(v) =>
        assert Values(items[..n + 1]) == Values(items[..n]) + [v];
        prices := prices + [v];
    }
    assert items[..|items|] == items;
    if |prices| == 0 {
      // `max` of an empty list raises ValueError, caught by the handler
      return 0.0, 0.0;
    }
    high, low := MaxOf(prices), MinOf(prices);
  }
}
