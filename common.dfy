/** Small shared vocabulary: optional values, sums of reals, Python-style
    integer truncation, ASCII upper-casing and decimal rendering of naturals. */
module Common {

  datatype Option<+T> = None | Some(value: T)

  /** Sum of a sequence of reals, peeled from the back so that appending is cheap. */
  function Sum(s: seq<real>): real
  {
    if s == [] then 0.0 else Sum(s[..|s| - 1]) + s[|s| - 1]
  }

  lemma SumAppend(s: seq<real>, x: real)
    ensures Sum(s + [x]) == Sum(s) + x
  {
    assert (s + [x])[..|s|] == s;
  }

  lemma {:induction false} SumConcat(a: seq<real>, b: seq<real>)
    ensures Sum(a + b) == Sum(a) + Sum(b)
    decreases |b|
  {
    if b == [] {
      assert a + b == a;
    } else {
      var b' := b[..|b| - 1];
      assert a + b == (a + b') + [b[|b| - 1]];
      SumAppend(a + b', b[|b| - 1]);
      SumConcat(a, b');
      assert b == b' + [b[|b| - 1]];
      SumAppend(b', b[|b| - 1]);
    }
  }

  lemma {:induction false} SumNonNegative(s: seq<real>)
    requires forall i :: 0 <= i < |s| ==> s[i] >= 0.0
    ensures Sum(s) >= 0.0
    decreases |s|
  {
    if s != [] {
      SumNonNegative(s[..|s| - 1]);
    }
  }

  lemma {:induction false} SumSplit(s: seq<real>, i: nat)
    requires i < |s|
    ensures Sum(s) == Sum(s[..i]) + s[i] + Sum(s[i + 1..])
  {
    assert s == (s[..i] + [s[i]]) + s[i + 1..];
    SumConcat(s[..i] + [s[i]], s[i + 1..]);
    SumAppend(s[..i], s[i]);
  }

  /** Replacing one element changes the sum by the difference. */
  lemma SumUpdate(s: seq<real>, i: nat, x: real)
    requires i < |s|
    ensures Sum(s[i := x]) == Sum(s) - s[i] + x
  {
    SumSplit(s, i);
    SumSplit(s[i := x], i);
    assert s[i := x][..i] == s[..i];
    assert s[i := x][i + 1..] == s[i + 1..];
  }

  /** Removing one element removes its contribution. */
  lemma SumRemove(s: seq<real>, i: nat)
    requires i < |s|
    ensures Sum(s[..i] + s[i + 1..]) == Sum(s) - s[i]
  {
    SumSplit(s, i);
    SumConcat(s[..i], s[i + 1..]);
  }

  /** Sum behind a non-recursive name, so that proofs mixing sums with
      multiplication and division see a single term for it. */
  function Total(s: seq<real>): real { Sum(s) }

  /** Arithmetic mean, 0 for the empty sequence (the callers guard pandas'
      mean of nothing, which would be NaN). */
  function Mean(s: seq<real>): real
  {
    if |s| > 0 then Total(s) / |s| as real else 0.0
  }

  /** The positive elements, in order. */
  function Positives(s: seq<real>): (r: seq<real>)
    ensures |r| <= |s|
    ensures forall i :: 0 <= i < |r| ==> r[i] > 0.0
  {
    if s == [] then []
    else Positives(s[..|s| - 1]) + (if s[|s| - 1] > 0.0 then [s[|s| - 1]] else [])
  }

  /** The negative elements, in order. */
  function Negatives(s: seq<real>): (r: seq<real>)
    ensures |r| <= |s|
    ensures forall i :: 0 <= i < |r| ==> r[i] < 0.0
  {
    if s == [] then []
    else Negatives(s[..|s| - 1]) + (if s[|s| - 1] < 0.0 then [s[|s| - 1]] else [])
  }

  function Abs(x: real): real { if x < 0.0 then -x else x }

  /** Every element is positive, negative or zero, so the total splits into the
      total of the positives and the total of the negatives. */
  lemma {:induction false} WinLossSplit(s: seq<real>)
    ensures Total(s) == Total(Positives(s)) + Total(Negatives(s))
    ensures |Positives(s)| + |Negatives(s)| <= |s|
    decreases |s|
  {
    if s != [] {
      var n := |s| - 1;
      var x := s[n];
      WinLossSplit(s[..n]);
      SumAppend(s[..n], x);
      assert s == s[..n] + [x];
      if x > 0.0 {
        assert Positives(s) == Positives(s[..n]) + [x];
        assert Negatives(s) == Negatives(s[..n]);
        SumAppend(Positives(s[..n]), x);
      } else if x < 0.0 {
        assert Positives(s) == Positives(s[..n]);
        assert Negatives(s) == Negatives(s[..n]) + [x];
        SumAppend(Negatives(s[..n]), x);
      } else {
        assert Positives(s) == Positives(s[..n]);
        assert Negatives(s) == Negatives(s[..n]);
      }
    }
  }

  lemma {:induction false} NegativeSum(s: seq<real>)
    requires forall i :: 0 <= i < |s| ==> s[i] < 0.0
    ensures s != [] ==> Sum(s) < 0.0
    decreases |s|
  {
    if s != [] { NegativeSum(s[..|s| - 1]); }
  }

  lemma RatioPercent(k: nat, n: nat)
    requires 0 < n && k <= n
    ensures 0.0 <= k as real / n as real * 100.0 <= 100.0
  {
    assert k as real / n as real <= 1.0;
  }

  /** Largest element of a non-empty sequence (Python's max). */
  function SeqMax(s: seq<real>): (m: real)
    requires |s| > 0
    ensures forall i :: 0 <= i < |s| ==> s[i] <= m
    ensures exists i :: 0 <= i < |s| && s[i] == m
  {
    if |s| == 1 then s[0]
    else
      var m' := SeqMax(s[..|s| - 1]);
      assert forall i :: 0 <= i < |s| - 1 ==> s[..|s| - 1][i] == s[i];
      if s[|s| - 1] >= m' then s[|s| - 1] else m'
  }

  /** Smallest element of a non-empty sequence (Python's min). */
  function SeqMin(s: seq<real>): (m: real)
    requires |s| > 0
    ensures forall i :: 0 <= i < |s| ==> m <= s[i]
    ensures exists i :: 0 <= i < |s| && s[i] == m
  {
    if |s| == 1 then s[0]
    else
      var m' := SeqMin(s[..|s| - 1]);
      assert forall i :: 0 <= i < |s| - 1 ==> s[..|s| - 1][i] == s[i];
      if s[|s| - 1] <= m' then s[|s| - 1] else m'
  }

  /** Python's int(x) on a float: truncation toward zero. */
  function Trunc(x: real): (r: int)
    ensures x >= 0.0 ==> 0 <= r && r as real <= x < r as real + 1.0
    ensures x < 0.0 ==> r <= 0 && r as real - 1.0 < x <= r as real
  {
    if x >= 0.0 then x.Floor else -((-x).Floor)
  }

  /** Multiplying by a positive factor preserves order. */
  lemma MulMono(x: real, y: real, c: real)
    requires x <= y && c > 0.0
    ensures x * c <= y * c
    ensures x < y ==> x * c < y * c
  {
  }

  function Max(a: real, b: real): real { if a >= b then a else b }
  function Min(a: real, b: real): real { if a <= b then a else b }

  /** ASCII upper-casing of one character (str.upper on the letters a-z). */
  function UpperChar(c: char): char
  {
    if 'a' <= c <= 'z' then (c as int - 'a' as int + 'A' as int) as char else c
  }

  function Upper(s: string): (r: string)
    ensures |r| == |s|
    ensures forall i :: 0 <= i < |s| ==> r[i] == UpperChar(s[i])
  {
    seq(|s|, i requires 0 <= i < |s| => UpperChar(s[i]))
  }

  function DigitChar(d: nat): char
    requires d < 10
  {
    ('0' as int + d) as char
  }

  /** Decimal rendering of a natural number, as Python's str() / f-string gives it. */
  function NatToString(n: nat): (r: string)
    ensures |r| > 0
    ensures forall i :: 0 <= i < |r| ==> '0' <= r[i] <= '9'
  {
    if n < 10 then [DigitChar(n)] else NatToString(n / 10) + [DigitChar(n % 10)]
  }
}
