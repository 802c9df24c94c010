/**
 * Regret matching, shared by the three trainers: the current strategy is the
 * positive part of the accumulated regret normalised to sum 1 (uniform when
 * no regret is positive), the reported strategy is the normalised strategy
 * sum, and an action is sampled by scanning the cumulative sums of a
 * strategy for the first one that reaches a uniform draw.
 */
module Regret {

  /** Sum of a vector, accumulated left to right. */
  function Sum(v: seq<real>): real
  {
    if v == [] then 0.0 else Sum(v[..|v| - 1]) + v[|v| - 1]
  }

  /** `sum(u[i] * w[i])` accumulated left to right (a dot product). */
  function Dot(u: seq<real>, w: seq<real>): real
    requires |u| == |w|
  {
    if u == [] then 0.0 else Dot(u[..|u| - 1], w[..|u| - 1]) + u[|u| - 1] * w[|u| - 1]
  }

  ghost predicate NonNegative(v: seq<real>)
  {
    forall i :: 0 <= i < |v| ==> 0.0 <= v[i]
  }

  /** A probability distribution over the indices of `v`. */
  ghost predicate IsDistribution(v: seq<real>)
  {
    NonNegative(v) && Sum(v) == 1.0
  }

  /** `np.full(n, 1 / n)`. */
  function Uniform(n: nat): (u: seq<real>)
    requires n > 0
    ensures |u| == n && IsDistribution(u)
    ensures forall i :: 0 <= i < n ==> u[i] * (n as real) == 1.0
  {
    var u := seq(n, _ => 1.0 / n as real);
    SumConstant(n, 1.0 / n as real);
    u
  }

  /** `np.clip(v, 0, None)`. */
  function PositivePart(v: seq<real>): (p: seq<real>)
    ensures |p| == |v| && NonNegative(p)
    ensures forall i :: 0 <= i < |v| ==> p[i] == (if v[i] > 0.0 then v[i] else 0.0)
  {
    seq(|v|, i requires 0 <= i < |v| => if v[i] > 0.0 then v[i] else 0.0)
  }

  /** Element-wise `v / t`. */
  function Divide(v: seq<real>, t: real): (d: seq<real>)
    requires t != 0.0
    ensures |d| == |v|
    ensures forall i :: 0 <= i < |v| ==> d[i] * t == v[i]
  {
    seq(|v|, i requires 0 <= i < |v| => v[i] / t)
  }

  /** Element-wise `u + w`. */
  function Add(u: seq<real>, w: seq<real>): (r: seq<real>)
    requires |u| == |w|
    ensures |r| == |u| && Sum(r) == Sum(u) + Sum(w)
    ensures forall i :: 0 <= i < |u| ==> r[i] - u[i] == w[i]
    ensures NonNegative(u) && NonNegative(w) ==> NonNegative(r)
  {
    var r := seq(|u|, i requires 0 <= i < |u| => u[i] + w[i]);
    SumAdd(u, w, r);
    r
  }

  /** Element-wise `u - w`. */
  function Sub(u: seq<real>, w: seq<real>): (r: seq<real>)
    requires |u| == |w|
    ensures |r| == |u| && forall i :: 0 <= i < |u| ==> r[i] + w[i] == u[i]
  {
    seq(|u|, i requires 0 <= i < |u| => u[i] - w[i])
  }

  /**
   * Regret matching: the strategy proportional to the positive part of the
   * regrets, or the uniform strategy when no regret is positive.
   */
  function RegretMatching(r: seq<real>): (s: seq<real>)
    requires |r| > 0
    ensures |s| == |r| && IsDistribution(s)
  {
    var pos := PositivePart(r);
    var t := Sum(pos);
    if t > 0.0 then
      SumDivide(pos, t);
      DivideNonNegative(pos, t);
      assert t / t == 1.0;
      Divide(pos, t)
    else
      Uniform(|r|)
  }

  /**
   * When some regret is positive, regret matching times the positive total
   * is the positive part of the regret: each action is played in proportion
   * to its positive regret, and exactly the actions with positive regret
   * are played.
   */
  lemma {:induction false} RegretMatchingProportional(r: seq<real>, i: nat)
    requires i < |r| && exists j :: 0 <= j < |r| && r[j] > 0.0
    ensures RegretMatching(r)[i] * Sum(PositivePart(r)) == (if r[i] > 0.0 then r[i] else 0.0)
    ensures RegretMatching(r)[i] > 0.0 <==> r[i] > 0.0
  {
    SumPositiveIff(r);
    var pos := PositivePart(r);
    var t := Sum(pos);
    var s := Divide(pos, t);
    assert RegretMatching(r) == s;
    assert s[i] * t == pos[i];
    if s[i] > 0.0 {
      assert s[i] * t > 0.0;
    }
  }

  /** When no regret is positive, regret matching is the uniform strategy. */
  lemma {:induction false} RegretMatchingUniform(r: seq<real>, i: nat)
    requires i < |r| && forall j :: 0 <= j < |r| ==> r[j] <= 0.0
    ensures RegretMatching(r)[i] * (|r| as real) == 1.0
  {
    SumPositiveIff(r);
    assert RegretMatching(r) == Uniform(|r|);
  }

  /**
   * The normalised strategy sum, or the uniform strategy when the total is
   * not positive.
   */
  function Average(ss: seq<real>): (a: seq<real>)
    requires |ss| > 0
    ensures |a| == |ss|
    ensures NonNegative(ss) ==> IsDistribution(a)
    ensures Sum(ss) > 0.0 ==> forall i :: 0 <= i < |ss| ==> a[i] * Sum(ss) == ss[i]
    ensures Sum(ss) <= 0.0 ==> forall i :: 0 <= i < |ss| ==> a[i] * (|ss| as real) == 1.0
  {
    var total := Sum(ss);
    if total > 0.0 then
      SumDivide(ss, total);
      DivideNonNegative(ss, total);
      assert total / total == 1.0;
      Divide(ss, total)
    else
      Uniform(|ss|)
  }

  /** `np.cumsum(v)`: entry `i` is the sum of `v[..i+1]`. */
  function PrefixSums(v: seq<real>): (c: seq<real>)
    ensures |c| == |v|
    ensures forall i :: 0 <= i < |v| ==> c[i] == Sum(v[..i + 1])
    ensures |v| > 0 ==> c[|v| - 1] == Sum(v)
  {
    assert v[..|v|] == v;
    seq(|v|, i requires 0 <= i < |v| => Sum(v[..i + 1]))
  }

  /** The least index `r >= i` with `cum[r] >= x`. */
  function FirstAtLeast(cum: seq<real>, x: real, i: nat): (r: nat)
    requires i < |cum| && cum[|cum| - 1] >= x
    ensures i <= r < |cum| && cum[r] >= x
    ensures forall j :: i <= j < r ==> cum[j] < x
    decreases |cum| - i
  {
    if cum[i] >= x then i else FirstAtLeast(cum, x, i + 1)
  }

  /**
   * Inverse-CDF sampling as a function: the least index whose cumulative sum
   * reaches the draw `x`.
   */
  function Pick(s: seq<real>, x: real): (i: nat)
    requires |s| > 0 && Sum(s) == 1.0 && 0.0 <= x < 1.0
    ensures i < |s|
    ensures PrefixSums(s)[i] >= x && forall j :: 0 <= j < i ==> PrefixSums(s)[j] < x
  {
    FirstAtLeast(PrefixSums(s), x, 0)
  }

  /**
   * The sampling loop itself: scan the cumulative sums for the first entry
   * that reaches `x`. The error raised after the loop cannot be reached
   * when the strategy sums to 1 and `x` lies in [0, 1).
   */
  method PickAction(strategy: seq<real>, x: real) returns (i: nat)
    requires |strategy| == 3 && Sum(strategy) == 1.0 && 0.0 <= x < 1.0
    ensures i < 3 && i == Pick(strategy, x)
    ensures PrefixSums(strategy)[i] >= x
    ensures forall j :: 0 <= j < i ==> PrefixSums(strategy)[j] < x
  {
    var cum := PrefixSums(strategy);
    for k := 0 to 3
      invariant forall j :: 0 <= j < k ==> cum[j] < x
    {
      if cum[k] >= x {
        i := k;
        FirstAtLeastIsLeast(cum, x, k);
        return;
      }
    }
    assert false;
  }

  /** Any index that reaches `x` with none before it is the one `FirstAtLeast` finds. */
  lemma {:induction false} FirstAtLeastIsLeast(cum: seq<real>, x: real, k: nat)
    requires k < |cum| && cum[k] >= x && cum[|cum| - 1] >= x
    requires forall j :: 0 <= j < k ==> cum[j] < x
    ensures FirstAtLeast(cum, x, 0) == k
  {
    var r := FirstAtLeast(cum, x, 0);
    assert r <= k;
  }

  /**
   * For a non-negative strategy the index drawn is `i` exactly when `x`
   * falls in the interval of width `s[i]` that ends at the `i`-th cumulative
   * sum (the interval of index 0 also contains 0).
   */
  lemma {:induction false} PickInterval(s: seq<real>, x: real, i: nat)
    requires |s| > 0 && IsDistribution(s) && 0.0 <= x < 1.0 && i < |s|
    ensures Pick(s, x) == i <==>
      (i == 0 || Sum(s[..i]) < x) && x <= Sum(s[..i + 1])
  {
    var cum := PrefixSums(s);
    forall j, k | 0 <= j <= k < |s|
      ensures cum[j] <= cum[k]
    {
      PrefixMonotone(s, j + 1, k + 1);
    }
    if i > 0 {
      assert cum[i - 1] == Sum(s[..i]);
    }
    if (i == 0 || Sum(s[..i]) < x) && x <= Sum(s[..i + 1]) {
      forall j | 0 <= j < i ensures cum[j] < x {
        assert cum[j] <= cum[i - 1];
      }
      FirstAtLeastIsLeast(cum, x, i);
    }
  }

  lemma {:induction false} PrefixMonotone(s: seq<real>, j: nat, k: nat)
    requires NonNegative(s) && j <= k <= |s|
    ensures Sum(s[..j]) <= Sum(s[..k])
    decreases k
  {
    if j < k {
      PrefixMonotone(s, j, k - 1);
      assert s[..k][..k - 1] == s[..k - 1];
    }
  }

  // ---- lemmas about sums ----

  lemma {:induction false} Dot2(u: seq<real>, w: seq<real>)
    requires |u| == |w| == 2
    ensures Dot(u, w) == u[0] * w[0] + u[1] * w[1]
  {
    assert Dot(u, w) == Dot(u[..1], w[..1]) + u[1] * w[1];
    assert Dot(u[..1], w[..1]) == Dot([], []) + u[0] * w[0] by {
      assert u[..1][..0] == [] && w[..1][..0] == [];
    }
  }

  /** A weighted sum of non-negative values with non-negative weights is non-negative. */
  lemma {:induction false} DotNonNegative(u: seq<real>, w: seq<real>)
    requires |u| == |w| && NonNegative(u) && NonNegative(w)
    ensures Dot(u, w) >= 0.0
  {
    if u != [] {
      var n := |u|;
      DotNonNegative(u[..n - 1], w[..n - 1]);
      assert u[n - 1] >= 0.0 && w[n - 1] >= 0.0;
    }
  }

  /** Filling a zero entry of a two-entry vector adds that entry's term to the dot product. */
  lemma {:induction false} DotFill(u: seq<real>, v: seq<real>, w: seq<real>, i: nat)
    requires |u| == |v| == |w| == 2 && i < 2 && u[i] == 0.0 && v == u[i := v[i]]
    ensures Dot(v, w) == Dot(u, w) + v[i] * w[i]
  {
    Dot2(u, w);
    Dot2(v, w);
    assert v[1 - i] == u[1 - i];
  }

  /**
   * A running dot product: adding the filled entry's term, weighted by
   * `wi == w[i]`, to the old total `before` gives the new dot product.
   */
  lemma {:induction false} DotRunningTotal(u: seq<real>, v: seq<real>, w: seq<real>, i: nat, wi: real, before: real, after: real)
    requires |u| == |v| == |w| == 2 && i < 2 && u[i] == 0.0 && v == u[i := v[i]] && wi == w[i]
    requires before == Dot(u, w) && after == before + v[i] * wi
    ensures after == Dot(v, w)
  {
    DotFill(u, v, w, i);
  }

  lemma {:induction false} Sum2(v: seq<real>)
    requires |v| == 2
    ensures Sum(v) == v[0] + v[1]
  {
    assert Sum(v) == Sum(v[..1]) + v[1];
    assert Sum(v[..1]) == Sum([]) + v[0] by {
      assert v[..1][..0] == [];
    }
  }

  lemma {:induction false} DivideNonNegative(v: seq<real>, t: real)
    requires t > 0.0
    ensures NonNegative(v) ==> NonNegative(Divide(v, t))
  {
    forall i | 0 <= i < |v| && NonNegative(v)
      ensures Divide(v, t)[i] >= 0.0
    {
      assert Divide(v, t)[i] == v[i] / t;
    }
  }

  lemma {:induction false} SumConstant(n: nat, c: real)
    ensures Sum(seq(n, _ => c)) == (n as real) * c
  {
    if n > 0 {
      assert seq(n, _ => c)[..n - 1] == seq(n - 1, _ => c);
      SumConstant(n - 1, c);
    }
  }

  lemma {:induction false} SumNonNegative(v: seq<real>)
    requires NonNegative(v)
    ensures Sum(v) >= 0.0
  {
    if v != [] {
      SumNonNegative(v[..|v| - 1]);
    }
  }

  /** The positive part sums to something positive exactly when some entry is positive. */
  lemma {:induction false} SumPositiveIff(v: seq<real>)
    ensures Sum(PositivePart(v)) > 0.0 <==> exists i :: 0 <= i < |v| && v[i] > 0.0
  {
    if v != [] {
      var n := |v|;
      assert PositivePart(v)[..n - 1] == PositivePart(v[..n - 1]);
      SumPositiveIff(v[..n - 1]);
      SumNonNegative(PositivePart(v[..n - 1]));
      if exists i :: 0 <= i < n - 1 && v[i] > 0.0 {
        var i :| 0 <= i < n - 1 && v[i] > 0.0;
        assert v[..n - 1][i] > 0.0;
      }
      if exists i :: 0 <= i < n && v[i] > 0.0 {
        var i :| 0 <= i < n && v[i] > 0.0;
        if i < n - 1 {
          assert v[..n - 1][i] > 0.0;
        }
      }
    }
  }

  lemma {:induction false} SumDivide(v: seq<real>, t: real)
    requires t != 0.0
    ensures Sum(Divide(v, t)) == Sum(v) / t
  {
    if v != [] {
      var n := |v|;
      assert Divide(v, t)[..n - 1] == Divide(v[..n - 1], t);
      SumDivide(v[..n - 1], t);
    }
  }

  lemma {:induction false} SumAdd(u: seq<real>, w: seq<real>, r: seq<real>)
    requires |u| == |w| == |r|
    requires forall i :: 0 <= i < |u| ==> r[i] == u[i] + w[i]
    ensures Sum(r) == Sum(u) + Sum(w)
  {
    if u != [] {
      var n := |u|;
      SumAdd(u[..n - 1], w[..n - 1], r[..n - 1]);
    }
  }
}
