/** Minimum, maximum and sum of real sequences: the reference definitions the candle
    aggregation and the Ichimoku windows are stated against. */
module Series {

  function Min(a: real, b: real): real { if a <= b then a else b }

  function Max(a: real, b: real): real { if a >= b then a else b }

  /** The least element, folding from the front. */
  function SeqMin(s: seq<real>): (m: real)
    requires |s| > 0
    ensures m in s
    ensures forall i :: 0 <= i < |s| ==> m <= s[i]
  {
    if |s| == 1 then s[0] else Min(s[0], SeqMin(s[1..]))
  }

  /** The greatest element, folding from the front. */
  function SeqMax(s: seq<real>): (m: real)
    requires |s| > 0
    ensures m in s
    ensures forall i :: 0 <= i < |s| ==> s[i] <= m
  {
    if |s| == 1 then s[0] else Max(s[0], SeqMax(s[1..]))
  }

  /** The sum of the elements, folding from the back. */
  function Sum(s: seq<real>): real
  {
    if |s| == 0 then 0.0 else Sum(s[..|s| - 1]) + s[|s| - 1]
  }

  /** Extending a sequence by one element moves its minimum as Min says. */
  lemma {:induction false} ExtendMin(s: seq<real>, x: real)
    requires |s| > 0
    ensures SeqMin(s + [x]) == Min(SeqMin(s), x)
  {
    var t := s + [x];
    if |s| == 1 {
      assert t[1..] == [x];
    } else {
      assert t[1..] == s[1..] + [x];
      ExtendMin(s[1..], x);
    }
  }

  /** Extending a sequence by one element moves its maximum as Max says. */
  lemma {:induction false} ExtendMax(s: seq<real>, x: real)
    requires |s| > 0
    ensures SeqMax(s + [x]) == Max(SeqMax(s), x)
  {
    var t := s + [x];
    if |s| == 1 {
      assert t[1..] == [x];
    } else {
      assert t[1..] == s[1..] + [x];
      ExtendMax(s[1..], x);
    }
  }

  lemma SumExtend(s: seq<real>, x: real)
    ensures Sum(s + [x]) == Sum(s) + x
  {
    assert (s + [x])[..|s|] == s;
  }
}
