/** The few pieces of JavaScript arithmetic the core relies on, written out
    over `real`: `Math.round`, `Math.ceil`, `Math.min`/`Math.max`, the `||`
    default on numbers, and division whose divisor may be zero. */
module JsMath {
  import opened Wrappers

  /** Milliseconds in a day and in an hour (`1000 * 60 * 60 * 24`). */
  const DayMs: real := 86400000.0
  const HourMs: real := 3600000.0

  /** `Math.floor`. */
  function Floor(x: real): (r: int)
    ensures r as real <= x < r as real + 1.0
  {
    x.Floor
  }

  /** `Math.round`: halves go up, so `Round(-2.5) == -2`. */
  function Round(x: real): (r: int)
    ensures x - 0.5 < r as real <= x + 0.5
  {
    Floor(x + 0.5)
  }

  /** `Math.ceil`. */
  function Ceil(x: real): (r: int)
    ensures x <= r as real < x + 1.0
  {
    -Floor(-x)
  }

  function Abs(x: real): (r: real)
    ensures r >= 0.0 && (r == x || r == -x)
  {
    if x < 0.0 then -x else x
  }

  function Min(a: real, b: real): (r: real)
    ensures r <= a && r <= b && (r == a || r == b)
  {
    if a <= b then a else b
  }

  function Max(a: real, b: real): (r: real)
    ensures r >= a && r >= b && (r == a || r == b)
  {
    if a >= b then a else b
  }

  /** `Math.max(lo, Math.min(hi, x))`. */
  function Clamp(lo: real, hi: real, x: real): (r: real)
    requires lo <= hi
    ensures lo <= r <= hi
    ensures lo <= x <= hi ==> r == x
    ensures x < lo ==> r == lo
    ensures x > hi ==> r == hi
  {
    Max(lo, Min(hi, x))
  }

  /** Clamping keeps the order of its argument. */
  lemma ClampMonotone(lo: real, hi: real, x: real, y: real)
    requires lo <= hi && x <= y
    ensures Clamp(lo, hi, x) <= Clamp(lo, hi, y)
  {
  }

  /** `v || d` for a number `v` that may be `undefined`: an absent value and
      a present zero are both falsy and give `d`. */
  function OrElse(v: Option<real>, d: real): (r: real)
    ensures v.Some? && v.value != 0.0 ==> r == v.value
    ensures v.None? || v.value == 0.0 ==> r == d
  {
    if v.Some? && v.value != 0.0 then v.value else d
  }

  /** `m[k]` on a JavaScript object used as a table: `undefined` when absent. */
  function Lookup<V>(m: map<string, V>, k: string): (r: Option<V>)
    ensures r.Some? <==> k in m
    ensures r.Some? ==> r.value == m[k]
  {
    if k in m then Some(m[k]) else None
  }

  /** The IEEE value of `n / d` as far as a comparison can tell: finite,
      `Infinity`, `-Infinity`, or `NaN` (for `0 / 0`). */
  datatype Quotient = Finite(v: real) | PosInfinity | NegInfinity | NotANumber {

    /** `this > c` in JavaScript (`NaN` compares false). */
    predicate Above(c: real) {
      match this
      case Finite(v) => v > c
      case PosInfinity => true
      case NegInfinity => false
      case NotANumber => false
    }

    /** `this < c` in JavaScript (`NaN` compares false). */
    predicate Below(c: real) {
      match this
      case Finite(v) => v < c
      case PosInfinity => false
      case NegInfinity => true
      case NotANumber => false
    }
  }

  /** `n / d` with JavaScript's answer for a zero divisor. */
  function Divide(n: real, d: real): (r: Quotient)
    ensures d != 0.0 ==> r == Finite(n / d)
    ensures d == 0.0 ==> (r.PosInfinity? <==> n > 0.0) && (r.NegInfinity? <==> n < 0.0)
    ensures d == 0.0 ==> (r.NotANumber? <==> n == 0.0)
  {
    if d != 0.0 then Finite(n / d)
    else if n > 0.0 then PosInfinity
    else if n < 0.0 then NegInfinity
    else NotANumber
  }

  /** `Array.prototype.findIndex`, with `None` for `-1`: the first index
      whose element satisfies `p`. */
  function FindIndex<T>(s: seq<T>, p: T -> bool): (r: Option<nat>)
    ensures r.Some? ==> r.value < |s| && p(s[r.value])
    ensures r.Some? ==> forall j :: 0 <= j < r.value ==> !p(s[j])
    ensures r.None? <==> forall j :: 0 <= j < |s| ==> !p(s[j])
  {
    if |s| == 0 then None
    else if p(s[0]) then Some(0)
    else match FindIndex(s[1..], p)
      case None => None
      case Some(i) => Some(i + 1)
  }

  /** `Array.prototype.find`: the first element satisfying `p`. */
  function Find<T>(s: seq<T>, p: T -> bool): (r: Option<T>)
    ensures r.Some? <==> FindIndex(s, p).Some?
    ensures r.Some? ==> r.value == s[FindIndex(s, p).value] && r.value in s && p(r.value)
  {
    match FindIndex(s, p)
    case None => None
    case Some(i) => Some(s[i])
  }

  /** `Array.prototype.filter`: the elements satisfying `p`, in order. */
  function Filter<T>(s: seq<T>, p: T -> bool): (r: seq<T>)
    ensures |r| <= |s|
    ensures forall i :: 0 <= i < |r| ==> r[i] in s && p(r[i])
    ensures forall i :: 0 <= i < |s| && p(s[i]) ==> s[i] in r
    ensures (forall j :: 0 <= j < |s| ==> p(s[j])) ==> r == s
  {
    if |s| == 0 then []
    else if p(s[0]) then [s[0]] + Filter(s[1..], p)
    else Filter(s[1..], p)
  }

  /** Two tests that agree on every element keep the same elements. */
  lemma {:induction false} FilterCongruent<T>(s: seq<T>, p: T -> bool, q: T -> bool)
    requires forall i :: 0 <= i < |s| ==> p(s[i]) == q(s[i])
    ensures Filter(s, p) == Filter(s, q)
  {
    if |s| > 0 {
      var tail := s[1..];
      assert forall i :: 0 <= i < |tail| ==> p(tail[i]) == q(tail[i]) by {
        forall i | 0 <= i < |tail| ensures p(tail[i]) == q(tail[i]) {
          assert tail[i] == s[i + 1];
        }
      }
      FilterCongruent(tail, p, q);
    }
  }

  /** Keeping the elements that satisfy `p` and, apart, those that satisfy
      its negation `q` splits a sequence into two parts that together hold
      every element exactly as often as it did. */
  lemma {:induction false} FilterPartition<T>(s: seq<T>, p: T -> bool, q: T -> bool)
    requires forall i :: 0 <= i < |s| ==> q(s[i]) == !p(s[i])
    ensures multiset(Filter(s, p)) + multiset(Filter(s, q)) == multiset(s)
  {
    if |s| > 0 {
      var tail := s[1..];
      assert forall i :: 0 <= i < |tail| ==> q(tail[i]) == !p(tail[i]) by {
        forall i | 0 <= i < |tail| ensures q(tail[i]) == !p(tail[i]) {
          assert tail[i] == s[i + 1];
        }
      }
      FilterPartition(tail, p, q);
      assert s == [s[0]] + tail;
      if p(s[0]) {
        assert Filter(s, p) == [s[0]] + Filter(tail, p);
        assert Filter(s, q) == Filter(tail, q);
      } else {
        assert Filter(s, p) == Filter(tail, p);
        assert Filter(s, q) == [s[0]] + Filter(tail, q);
      }
    }
  }
}
