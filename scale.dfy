/** The scaling shared by the two line charts: the largest and smallest
    amount, their spread, and the divisor that spreads the points along
    the x axis. */
module Scale {

  /** `Math.max(...amounts)`. */
  function MaxOf(s: seq<real>): (r: real)
    requires s != []
    ensures forall i :: 0 <= i < |s| ==> s[i] <= r
    ensures exists i :: 0 <= i < |s| && s[i] == r
  {
    if |s| == 1 then s[0]
    else var m := MaxOf(s[1..]); if s[0] >= m then s[0] else m
  }

  /** `Math.min(...amounts)`. */
  function MinOf(s: seq<real>): (r: real)
    requires s != []
    ensures forall i :: 0 <= i < |s| ==> r <= s[i]
    ensures exists i :: 0 <= i < |s| && s[i] == r
  {
    if |s| == 1 then s[0]
    else var m := MinOf(s[1..]); if s[0] <= m then s[0] else m
  }

  /** `maxAmount - minAmount || maxAmount`: the spread, or the maximum when
      every amount is the same. */
  function Spread(lo: real, hi: real): (r: real)
    ensures lo < hi ==> r == hi - lo && r > 0.0
    ensures lo == hi ==> r == hi
  {
    if hi - lo != 0.0 then hi - lo else hi
  }

  /** `data.length - 1 || 1`. */
  function XDivisor(n: nat): (r: real)
    ensures n >= 1 ==> r >= 1.0
    ensures n == 0 ==> r == -1.0
    ensures n >= 2 ==> r == (n - 1) as real
  {
    if n - 1 != 0 then (n - 1) as real else 1.0
  }
}
