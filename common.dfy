/** Shared vocabulary of the dashboard model: optional values (a JavaScript
    NaN produced by 0/0 is `None`), random draws, absolute value, clamping,
    and the sum / mean / count reductions that the views compute with
    `reduce` and `filter`. */
module Common {

  datatype Option<T> = None | Some(value: T)

  /** A draw of `Math.random()`: a real in [0, 1). */
  predicate IsDraw(r: real) {
    0.0 <= r < 1.0
  }

  /** Every element of `rs` is a draw of `Math.random()`. */
  predicate AllDraws(rs: seq<real>) {
    forall i :: 0 <= i < |rs| ==> IsDraw(rs[i])
  }

  /** A composition lookup where a missing element counts as 0: Python's
      `current_composition.get(element, 0)` and JavaScript's
      `currentComposition[element] || 0` (a stored 0 reads as 0 either way). */
  function LookupOr0(m: map<string, real>, key: string): (v: real)
    ensures key !in m ==> v == 0.0
    ensures key in m ==> v == m[key]
  {
    if key in m then m[key] else 0.0
  }

  function Abs(x: real): (r: real)
    ensures r >= 0.0
    ensures r == x || r == -x
  {
    if x < 0.0 then -x else x
  }

  function Max(a: real, b: real): (r: real)
    ensures r >= a && r >= b
    ensures r == a || r == b
  {
    if a >= b then a else b
  }

  function Min(a: real, b: real): (r: real)
    ensures r <= a && r <= b
    ensures r == a || r == b
  {
    if a <= b then a else b
  }

  /** `Math.max(lo, Math.min(hi, x))`; for lo <= hi it is the same value as
      `Math.min(hi, Math.max(lo, x))`, the other order the views use. */
  function Clamp(lo: real, hi: real, x: real): (r: real)
    requires lo <= hi
    ensures lo <= r <= hi
    ensures lo <= x <= hi ==> r == x
    ensures x < lo ==> r == lo
    ensures x > hi ==> r == hi
    ensures r == Min(hi, Max(lo, x))
  {
    Max(lo, Min(hi, x))
  }

  /** Integer clamp, used for counters such as the number of active furnaces. */
  function ClampInt(lo: int, hi: int, x: int): (r: int)
    requires lo <= hi
    ensures lo <= r <= hi
    ensures lo <= x <= hi ==> r == x
    ensures x < lo ==> r == lo
    ensures x > hi ==> r == hi
  {
    if x < lo then lo else if x > hi then hi else x
  }

  /** `xs.reduce((sum, x) => sum + x, 0)`, folded from the left. */
  function Sum(xs: seq<real>): real
  {
    if xs == [] then 0.0 else Sum(xs[..|xs| - 1]) + xs[|xs| - 1]
  }

  /** The sum of a concatenation is the sum of the parts. */
  lemma {:induction false} SumAppend(a: seq<real>, b: seq<real>)
    ensures Sum(a + b) == Sum(a) + Sum(b)
    decreases |b|
  {
    if b == [] {
      assert a + b == a;
    } else {
      assert (a + b)[..|a + b| - 1] == a + b[..|b| - 1];
      SumAppend(a, b[..|b| - 1]);
    }
  }

  /** A sum of values in [lo, hi] lies between |xs|*lo and |xs|*hi. */
  lemma {:induction false} SumBounds(xs: seq<real>, lo: real, hi: real)
    requires forall i :: 0 <= i < |xs| ==> lo <= xs[i] <= hi
    ensures |xs| as real * lo <= Sum(xs) <= |xs| as real * hi
    decreases |xs|
  {
    if xs != [] {
      SumBounds(xs[..|xs| - 1], lo, hi);
    }
  }

  /** A sum of values each at least lo is at least |xs|*lo. */
  lemma {:induction false} SumAtLeast(xs: seq<real>, lo: real)
    requires forall i :: 0 <= i < |xs| ==> lo <= xs[i]
    ensures |xs| as real * lo <= Sum(xs)
    decreases |xs|
  {
    if xs != [] {
      SumAtLeast(xs[..|xs| - 1], lo);
    }
  }

  /** A sum of values each at most hi is at most |xs|*hi. */
  lemma {:induction false} SumAtMost(xs: seq<real>, hi: real)
    requires forall i :: 0 <= i < |xs| ==> xs[i] <= hi
    ensures Sum(xs) <= |xs| as real * hi
    decreases |xs|
  {
    if xs != [] {
      SumAtMost(xs[..|xs| - 1], hi);
    }
  }

  /** A sum of values each at most hi reaches |xs|*hi only when every value is hi. */
  lemma {:induction false} SumAtMaxOnlyIfAllMax(xs: seq<real>, hi: real)
    requires forall i :: 0 <= i < |xs| ==> xs[i] <= hi
    requires Sum(xs) == |xs| as real * hi
    ensures forall i :: 0 <= i < |xs| ==> xs[i] == hi
    decreases |xs|
  {
    if xs != [] {
      var init := xs[..|xs| - 1];
      SumAtMost(init, hi);
      assert xs[|xs| - 1] == hi;
      SumAtMaxOnlyIfAllMax(init, hi);
      assert forall i :: 0 <= i < |init| ==> xs[i] == init[i];
    }
  }

  /** A sum of nonnegative values is zero exactly when every value is zero. */
  lemma {:induction false} SumZeroIffAllZero(xs: seq<real>)
    requires forall i :: 0 <= i < |xs| ==> 0.0 <= xs[i]
    ensures Sum(xs) == 0.0 <==> forall i :: 0 <= i < |xs| ==> xs[i] == 0.0
    decreases |xs|
  {
    if xs != [] {
      var init := xs[..|xs| - 1];
      SumAtLeast(init, 0.0);
      SumZeroIffAllZero(init);
      assert forall i :: 0 <= i < |init| ==> xs[i] == init[i];
    }
  }

  /** Scaling every term scales the sum. */
  lemma {:induction false} SumScaled(xs: seq<real>, ys: seq<real>, k: real)
    requires |ys| == |xs|
    requires forall i :: 0 <= i < |xs| ==> ys[i] == xs[i] * k
    ensures Sum(ys) == Sum(xs) * k
    decreases |xs|
  {
    if xs != [] {
      SumScaled(xs[..|xs| - 1], ys[..|ys| - 1], k);
    }
  }

  /** `sum / length`, where an empty list gives JavaScript's NaN (0/0). */
  function Mean(xs: seq<real>): (m: Option<real>)
    ensures m.None? <==> xs == []
  {
    if xs == [] then None else Some(Sum(xs) / |xs| as real)
  }

  /** The mean of values in [lo, hi] lies in [lo, hi]. */
  lemma MeanBounds(xs: seq<real>, lo: real, hi: real)
    requires xs != []
    requires forall i :: 0 <= i < |xs| ==> lo <= xs[i] <= hi
    ensures lo <= Mean(xs).value <= hi
  {
    SumBounds(xs, lo, hi);
    var n := |xs| as real;
    assert n * lo <= Sum(xs) <= n * hi;
    DivBounds(Sum(xs), n, lo, hi);
  }

  lemma DivBounds(s: real, n: real, lo: real, hi: real)
    requires n > 0.0
    requires n * lo <= s <= n * hi
    ensures lo <= s / n <= hi
  {
    assert s / n * n == s;
  }

  /** Real division is determined by multiplication. */
  lemma DivUnique(x: real, y: real, z: real)
    requires y != 0.0
    requires z * y == x
    ensures x / y == z
  {
  }

  /** x / t >= k when x >= k * t and t is positive. */
  lemma DivAtLeast(x: real, t: real, k: real)
    requires t > 0.0 && x >= k * t
    ensures x / t >= k
  {
    var q := x / t;
    assert q * t == x;
    if q < k {
      assert (k - q) * t > 0.0;
    }
  }

  /** x / t <= k when x <= k * t and t is positive. */
  lemma DivAtMost(x: real, t: real, k: real)
    requires t > 0.0 && x <= k * t
    ensures x / t <= k
  {
    var q := x / t;
    assert q * t == x;
    if q > k {
      assert (q - k) * t > 0.0;
    }
  }

  /** Multiplying by a positive factor keeps the sign. */
  lemma PositiveScaleSign(a: real, c: real)
    requires c > 0.0
    ensures a <= 0.0 <==> a * c <= 0.0
    ensures a >= 0.0 <==> a * c >= 0.0
  {
    if a > 0.0 {
      assert a * c > 0.0;
    }
    if a < 0.0 {
      assert (-a) * c > 0.0;
    }
  }

  /** The number of `true` entries: `xs.filter(p).length` once `p` is mapped over xs. */
  function CountTrue(bs: seq<bool>): nat
  {
    if bs == [] then 0 else CountTrue(bs[..|bs| - 1]) + (if bs[|bs| - 1] then 1 else 0)
  }

  lemma {:induction false} CountTrueAtMostLength(bs: seq<bool>)
    ensures CountTrue(bs) <= |bs|
    decreases |bs|
  {
    if bs != [] {
      CountTrueAtMostLength(bs[..|bs| - 1]);
    }
  }

  /** Counting a concatenation counts the parts. */
  lemma {:induction false} CountTrueAppend(a: seq<bool>, b: seq<bool>)
    ensures CountTrue(a + b) == CountTrue(a) + CountTrue(b)
    decreases |b|
  {
    if b == [] {
      assert a + b == a;
    } else {
      assert (a + b)[..|a + b| - 1] == a + b[..|b| - 1];
      CountTrueAppend(a, b[..|b| - 1]);
    }
  }

  /** A prefix counts no more than the whole list. */
  lemma CountTruePrefix(bs: seq<bool>, k: nat)
    requires k <= |bs|
    ensures CountTrue(bs[..k]) <= CountTrue(bs)
  {
    assert bs == bs[..k] + bs[k..];
    CountTrueAppend(bs[..k], bs[k..]);
  }

  /** Two filters that never hold together count at most the whole list. */
  lemma {:induction false} CountTrueDisjoint(a: seq<bool>, b: seq<bool>)
    requires |a| == |b|
    requires forall i :: 0 <= i < |a| ==> !(a[i] && b[i])
    ensures CountTrue(a) + CountTrue(b) <= |a|
    decreases |a|
  {
    if a != [] {
      CountTrueDisjoint(a[..|a| - 1], b[..|b| - 1]);
    }
  }

  /** A filter implied by another counts at least as much. */
  lemma {:induction false} CountTrueMonotone(a: seq<bool>, b: seq<bool>)
    requires |a| == |b|
    requires forall i :: 0 <= i < |a| ==> a[i] ==> b[i]
    ensures CountTrue(a) <= CountTrue(b)
    decreases |a|
  {
    if a != [] {
      CountTrueMonotone(a[..|a| - 1], b[..|b| - 1]);
    }
  }

  /** Every entry is `true` exactly when the count is the length. */
  lemma {:induction false} CountTrueAll(bs: seq<bool>)
    ensures CountTrue(bs) == |bs| <==> forall i :: 0 <= i < |bs| ==> bs[i]
    decreases |bs|
  {
    if bs != [] {
      CountTrueAll(bs[..|bs| - 1]);
      CountTrueAtMostLength(bs[..|bs| - 1]);
    }
  }

  /** No entry is `true` exactly when the count is zero. */
  lemma {:induction false} CountTrueNone(bs: seq<bool>)
    ensures CountTrue(bs) == 0 <==> forall i :: 0 <= i < |bs| ==> !bs[i]
    decreases |bs|
  {
    if bs != [] {
      CountTrueNone(bs[..|bs| - 1]);
    }
  }
}
