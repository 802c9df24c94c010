/**
 * Regret matching for rock-paper-scissors against an opponent whose mixed
 * strategy never changes. The random draws of `pick_action` are passed in:
 * each round consumes one pair, the first for the trainer's own action and
 * the second for the opponent's.
 */
module RpsFixed {
  import opened Regret
  import opened RpsGame

  /** The opponent's fixed strategy: rock 1/4, paper 1/4, scissors 1/2. */
  const OtherStrategy: seq<real> := [0.25, 0.25, 0.5]

  lemma {:induction false} OtherStrategyIsDistribution()
    ensures IsDistribution(OtherStrategy)
  {
    assert [0.25][..0] == [];
    assert [0.25, 0.25][..1] == [0.25];
    assert OtherStrategy[..2] == [0.25, 0.25];
    assert Sum([0.25]) == 0.25;
    assert Sum([0.25, 0.25]) == 0.5;
  }

  /**
   * One round: the current regret-matching strategy is added to the
   * strategy sum, both actions are sampled with the draws `d`, and the
   * regrets gain the utility differences.
   */
  function Step(r: seq<int>, ss: seq<real>, d: (real, real)): (res: (seq<int>, seq<real>))
    requires |r| == ActionsCount && |ss| == ActionsCount
    requires 0.0 <= d.0 < 1.0 && 0.0 <= d.1 < 1.0
    ensures |res.0| == ActionsCount && |res.1| == ActionsCount
    ensures Sum(res.1) == Sum(ss) + 1.0
    ensures NonNegative(ss) ==> NonNegative(res.1)
  {
    var s := RegretMatching(ToReals(r));
    OtherStrategyIsDistribution();
    var a := Pick(s, d.0);
    var aOther := Pick(OtherStrategy, d.1);
    (RegretUpdate(r, Utility(aOther), a), Add(ss, s))
  }

  /**
   * The regret and strategy sums after training on `draws`, starting from
   * `r` and `ss`. The strategy sum gains total mass 1 per round and stays
   * non-negative.
   */
  function Run(r: seq<int>, ss: seq<real>, draws: seq<(real, real)>): (res: (seq<int>, seq<real>))
    requires |r| == ActionsCount && |ss| == ActionsCount && DrawsValid(draws)
    ensures |res.0| == ActionsCount && |res.1| == ActionsCount
    ensures Sum(res.1) == Sum(ss) + |draws| as real
    ensures NonNegative(ss) ==> NonNegative(res.1)
  {
    if draws == [] then (r, ss)
    else
      var prev := Run(r, ss, draws[..|draws| - 1]);
      Step(prev.0, prev.1, draws[|draws| - 1])
  }

  lemma {:induction false} RunSnoc(r: seq<int>, ss: seq<real>, draws: seq<(real, real)>, j: nat)
    requires |r| == ActionsCount && |ss| == ActionsCount && DrawsValid(draws) && j < |draws|
    ensures var prev := Run(r, ss, draws[..j]);
      Run(r, ss, draws[..j + 1]) == Step(prev.0, prev.1, draws[j])
  {
    assert draws[..j + 1][..j] == draws[..j];
  }

  class Trainer {
    const actionsCount: nat
    var regretSum: seq<int>
    const iterations: nat
    const otherStrategy: seq<real>
    var strategySum: seq<real>

    ghost predicate Valid()
      reads this
    {
      actionsCount == ActionsCount && |regretSum| == ActionsCount && |strategySum| == ActionsCount &&
      otherStrategy == OtherStrategy
    }

    constructor (iterations: nat)
      ensures Valid() && this.iterations == iterations
      ensures regretSum == [0, 0, 0] && strategySum == [0.0, 0.0, 0.0]
    {
      actionsCount := ActionsCount;
      regretSum := [0, 0, 0];
      this.iterations := iterations;
      otherStrategy := OtherStrategy;
      strategySum := [0.0, 0.0, 0.0];
    }

    /**
     * The current strategy by regret matching; it is added to the strategy
     * sum, and the regrets are left alone.
     */
    method GetStrategy() returns (s: seq<real>)
      requires Valid()
      modifies this
      ensures Valid() && s == RegretMatching(ToReals(regretSum)) && IsDistribution(s)
      ensures regretSum == old(regretSum) && strategySum == Add(old(strategySum), s)
      ensures Sum(strategySum) == Sum(old(strategySum)) + 1.0
    {
      var regrets := ToReals(regretSum);
      var pos := PositivePart(regrets);
      var total := Sum(pos);
      if total > 0.0 {
        s := Divide(pos, total);
      } else {
        s := Uniform(actionsCount);
      }
      strategySum := Add(strategySum, s);
    }

    /** Inverse-CDF sampling of `strategy` with the draw `x`. */
    method PickAction(strategy: seq<real>, x: real) returns (i: nat)
      requires Valid()
      requires |strategy| == actionsCount && Sum(strategy) == 1.0 && 0.0 <= x < 1.0
      ensures i < actionsCount && i == Pick(strategy, x)
      ensures PrefixSums(strategy)[i] >= x
      ensures forall j :: 0 <= j < i ==> PrefixSums(strategy)[j] < x
    {
      i := Regret.PickAction(strategy, x);
    }

    /** The normalised strategy sum, or uniform while it is zero; reads only. */
    function AverageStrategy(): (a: seq<real>)
      reads this
      requires Valid()
      ensures a == Average(strategySum)
      ensures NonNegative(strategySum) ==> IsDistribution(a)
    {
      var total := Sum(strategySum);
      if total > 0.0 then Divide(strategySum, total) else Uniform(actionsCount)
    }

    /** The loop that adds `u[i] - u[a]` to every regret. */
    method AddRegrets(u: seq<int>, a: nat)
      requires Valid() && |u| == actionsCount && a < actionsCount
      modifies this`regretSum
      ensures Valid() && regretSum == RegretUpdate(old(regretSum), u, a)
    {
      ghost var r0 := regretSum;
      for i := 0 to actionsCount
        invariant |regretSum| == actionsCount
        invariant forall k :: 0 <= k < i ==> regretSum[k] == RegretUpdate(r0, u, a)[k]
        invariant forall k :: i <= k < actionsCount ==> regretSum[k] == r0[k]
      {
        regretSum := regretSum[i := regretSum[i] + (u[i] - u[a])];
      }
    }

    /**
     * `iterations` rounds of play: pick both actions, build the utility
     * vector for the opponent's action and add `u[i] - u[a]` to every
     * regret. The opponent's strategy is a constant and never changes.
     */
    method Train(draws: seq<(real, real)>)
      requires Valid() && |draws| == iterations && DrawsValid(draws)
      modifies this
      ensures Valid()
      ensures (regretSum, strategySum) == Run(old(regretSum), old(strategySum), draws)
    {
      ghost var r0, ss0 := regretSum, strategySum;
      OtherStrategyIsDistribution();
      for j := 0 to iterations
        invariant Valid()
        invariant (regretSum, strategySum) == Run(r0, ss0, draws[..j])
      {
        RunSnoc(r0, ss0, draws, j);
        var currStrategy := GetStrategy();
        var a := PickAction(currStrategy, draws[j].0);
        var aOther := PickAction(otherStrategy, draws[j].1);
        var actionsUtility := Utility(aOther);
        AddRegrets(actionsUtility, a);
      }
      assert draws[..iterations] == draws;
    }
  }
}
