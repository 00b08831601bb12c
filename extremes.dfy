/** Python's `max` and `min` builtins over a non-empty list of prices. */
module Extremes {

  /** The largest of the first `n` values, scanning from the left as `max` does. */
  function MaxUpTo(values: seq<real>, n: nat): (m: real)
    requires 0 < n <= |values|
    ensures exists j :: 0 <= j < n && values[j] == m
    ensures forall j :: 0 <= j < n ==> values[j] <= m
  {
    if n == 1 then values[0]
    else
      var m := MaxUpTo(values, n - 1);
      if values[n - 1] > m then values[n - 1] else m
  }

  /** The smallest of the first `n` values, scanning from the left as `min` does. */
  function MinUpTo(values: seq<real>, n: nat): (m: real)
    requires 0 < n <= |values|
    ensures exists j :: 0 <= j < n && values[j] == m
    ensures forall j :: 0 <= j < n ==> m <= values[j]
  {
    if n == 1 then values[0]
    else
      var m := MinUpTo(values, n - 1);
      if values[n - 1] < m then values[n - 1] else m
  }

  /** `max(values)`: an element of the list that no element exceeds. */
  function MaxOf(values: seq<real>): (m: real)
    requires |values| > 0
    ensures m in values
    ensures forall j :: 0 <= j < |values| ==> values[j] <= m
  {
    MaxUpTo(values, |values|)
  }

  /** `min(values)`: an element of the list that exceeds no element. */
  function MinOf(values: seq<real>): (m: real)
    requires |values| > 0
    ensures m in values
    ensures forall j :: 0 <= j < |values| ==> m <= values[j]
  {
    MinUpTo(values, |values|)
  }
}
