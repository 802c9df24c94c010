/**
 * Two regret-matching players of rock-paper-scissors trained against each
 * other. Each round consumes one pair of draws, the first for player 1's
 * action and the second for player 2's.
 */
module RpsSelfPlay {
  import opened Regret
  import opened RpsGame

  /** The accumulators of both players. */
  datatype Accumulators = Accumulators(r1: seq<int>, ss1: seq<real>, r2: seq<int>, ss2: seq<real>)
  {
    ghost predicate Shaped()
    {
      |r1| == ActionsCount && |ss1| == ActionsCount && |r2| == ActionsCount && |ss2| == ActionsCount
    }
  }

  /**
   * Player 2's side of the update: each entry changes by the opposite of
   * what `RegretUpdate` adds to player 1's regrets.
   */
  function OpposedUpdate(r: seq<int>, u: seq<int>, a1: nat): (r': seq<int>)
    requires |r| == |u| && a1 < |u|
    ensures |r'| == |r|
    ensures forall i :: 0 <= i < |r| ==> r'[i] - r[i] == -(RegretUpdate(r, u, a1)[i] - r[i])
  {
    seq(|r|, i requires 0 <= i < |r| => r[i] - (u[i] - u[a1]))
  }

  /**
   * One round: both players take their regret-matching strategies (adding
   * them to their strategy sums), sample their actions, and player 1 gains
   * the regret update for `(a1, a2)` while player 2 loses it.
   */
  function Step(acc: Accumulators, d: (real, real)): (res: Accumulators)
    requires acc.Shaped() && 0.0 <= d.0 < 1.0 && 0.0 <= d.1 < 1.0
    ensures res.Shaped()
    ensures Sum(res.ss1) == Sum(acc.ss1) + 1.0 && Sum(res.ss2) == Sum(acc.ss2) + 1.0
    ensures NonNegative(acc.ss1) ==> NonNegative(res.ss1)
    ensures NonNegative(acc.ss2) ==> NonNegative(res.ss2)
    ensures forall i :: 0 <= i < ActionsCount ==> res.r1[i] - acc.r1[i] == -(res.r2[i] - acc.r2[i])
  {
    var s1 := RegretMatching(ToReals(acc.r1));
    var s2 := RegretMatching(ToReals(acc.r2));
    var a1 := Pick(s1, d.0);
    var a2 := Pick(s2, d.1);
    var u := Utility(a2);
    var r1 := RegretUpdate(acc.r1, u, a1);
    var r2 := OpposedUpdate(acc.r2, u, a1);
    assert forall i :: 0 <= i < ActionsCount ==> r1[i] - acc.r1[i] == -(r2[i] - acc.r2[i]);
    Accumulators(r1, Add(acc.ss1, s1), r2, Add(acc.ss2, s2))
  }

  /**
   * The increment for player 1's own action is zero, so neither player's
   * regret for that action changes in a round.
   */
  lemma {:induction false} ChosenActionUnchanged(acc: Accumulators, d: (real, real))
    requires acc.Shaped() && 0.0 <= d.0 < 1.0 && 0.0 <= d.1 < 1.0
    ensures var a1 := Pick(RegretMatching(ToReals(acc.r1)), d.0);
      Step(acc, d).r1[a1] == acc.r1[a1] && Step(acc, d).r2[a1] == acc.r2[a1]
  {
  }

  const Zero: Accumulators := Accumulators([0, 0, 0], [0.0, 0.0, 0.0], [0, 0, 0], [0.0, 0.0, 0.0])

  /**
   * Both players' accumulators after training on `draws` from zero. The
   * two regret vectors stay exact negations of each other, and each
   * strategy sum is non-negative with total mass one per round.
   */
  function Run(draws: seq<(real, real)>): (res: Accumulators)
    requires DrawsValid(draws)
    ensures res.Shaped()
    ensures forall i :: 0 <= i < ActionsCount ==> res.r1[i] + res.r2[i] == 0
    ensures NonNegative(res.ss1) && NonNegative(res.ss2)
    ensures Sum(res.ss1) == |draws| as real && Sum(res.ss2) == |draws| as real
  {
    if draws == [] then
      assert Sum([0.0, 0.0, 0.0]) == 0.0 by {
        assert [0.0, 0.0, 0.0][..2] == [0.0, 0.0];
        assert [0.0, 0.0][..1] == [0.0];
      }
      Zero
    else
      Step(Run(draws[..|draws| - 1]), draws[|draws| - 1])
  }

  lemma {:induction false} RunSnoc(draws: seq<(real, real)>, j: nat)
    requires DrawsValid(draws) && j < |draws|
    ensures Run(draws[..j + 1]) == Step(Run(draws[..j]), draws[j])
  {
    assert draws[..j + 1][..j] == draws[..j];
  }

  class Player {
    const actionsCount: nat
    var regretSum: seq<int>
    var strategySum: seq<real>

    ghost predicate Valid()
      reads this
    {
      actionsCount == ActionsCount && |regretSum| == ActionsCount && |strategySum| == ActionsCount
    }

    constructor ()
      ensures Valid() && regretSum == [0, 0, 0] && strategySum == [0.0, 0.0, 0.0]
    {
      actionsCount := ActionsCount;
      regretSum := [0, 0, 0];
      strategySum := [0.0, 0.0, 0.0];
    }

    /**
     * The current strategy by regret matching; it is added to the strategy
     * sum, and the regrets are left alone.
     */
    method GetStrategy() returns (s: seq<real>)
      requires Valid()
      modifies this`strategySum
      ensures Valid() && s == RegretMatching(ToReals(regretSum)) && IsDistribution(s)
      ensures strategySum == Add(old(strategySum), s)
      ensures Sum(strategySum) == Sum(old(strategySum)) + 1.0
    {
      var regrets := ToReals(regretSum);
      var pos := PositivePart(regrets);
      var total := Sum(pos);
      if total > 0.0 {
        s := Divide(pos, total);
      } else {
        s := Uniform(actionsCount);
      }
      strategySum := Add(strategySum, s);
    }

    /** Inverse-CDF sampling of `strategy` with the draw `x`. */
    method PickAction(strategy: seq<real>, x: real) returns (i: nat)
      requires Valid()
      requires |strategy| == actionsCount && Sum(strategy) == 1.0 && 0.0 <= x < 1.0
      ensures i < actionsCount && i == Pick(strategy, x)
      ensures PrefixSums(strategy)[i] >= x
      ensures forall j :: 0 <= j < i ==> PrefixSums(strategy)[j] < x
    {
      i := Regret.PickAction(strategy, x);
    }

    /** The normalised strategy sum, or uniform while it is zero; reads only. */
    function AverageStrategy(): (a: seq<real>)
      reads this
      requires Valid()
      ensures a == Average(strategySum)
      ensures NonNegative(strategySum) ==> IsDistribution(a)
    {
      var total := Sum(strategySum);
      if total > 0.0 then Divide(strategySum, total) else Uniform(actionsCount)
    }
  }

  /**
   * The per-action loop of one round: `val1 = u[i] - u[a1]` is added to
   * player 1's regret and subtracted from player 2's.
   */
  method UpdateRegrets(p1: Player, p2: Player, u: seq<int>, a1: nat)
    requires p1 != p2 && p1.Valid() && p2.Valid() && |u| == ActionsCount && a1 < ActionsCount
    modifies p1`regretSum, p2`regretSum
    ensures p1.Valid() && p2.Valid()
    ensures p1.regretSum == RegretUpdate(old(p1.regretSum), u, a1)
    ensures p2.regretSum == OpposedUpdate(old(p2.regretSum), u, a1)
  {
    ghost var r1, r2 := p1.regretSum, p2.regretSum;
    for i := 0 to p1.actionsCount
      invariant |p1.regretSum| == ActionsCount && |p2.regretSum| == ActionsCount
      invariant forall k :: 0 <= k < i ==> p1.regretSum[k] == RegretUpdate(r1, u, a1)[k]
      invariant forall k :: 0 <= k < i ==> p2.regretSum[k] == r2[k] - (u[k] - u[a1])
      invariant forall k :: i <= k < ActionsCount ==> p1.regretSum[k] == r1[k] && p2.regretSum[k] == r2[k]
    {
      var val1 := u[i] - u[a1];
      p1.regretSum := p1.regretSum[i := p1.regretSum[i] + val1];
      p2.regretSum := p2.regretSum[i := p2.regretSum[i] - val1];
    }
  }

  /** Both players' accumulators as one value. */
  ghost function State(p1: Player, p2: Player): Accumulators
    reads p1, p2
  {
    Accumulators(p1.regretSum, p1.strategySum, p2.regretSum, p2.strategySum)
  }

  /** The body of one training round, on the draws `x1` and `x2`. */
  method PlayRound(p1: Player, p2: Player, x1: real, x2: real)
    requires p1 != p2 && p1.Valid() && p2.Valid() && 0.0 <= x1 < 1.0 && 0.0 <= x2 < 1.0
    modifies p1, p2
    ensures p1.Valid() && p2.Valid()
    ensures State(p1, p2) == Step(old(State(p1, p2)), (x1, x2))
  {
    var p1Strategy := p1.GetStrategy();
    var p2Strategy := p2.GetStrategy();
    var a1 := p1.PickAction(p1Strategy, x1);
    var a2 := p2.PickAction(p2Strategy, x2);
    var actionsUtility := Utility(a2);
    UpdateRegrets(p1, p2, actionsUtility, a1);
  }

  /**
   * Self-play training: the returned average strategies are those of the
   * two players after `iterations` rounds, and each is a probability
   * distribution.
   */
  method Train(iterations: nat, draws: seq<(real, real)>) returns (s1: seq<real>, s2: seq<real>)
    requires |draws| == iterations && DrawsValid(draws)
    ensures s1 == Average(Run(draws).ss1) && s2 == Average(Run(draws).ss2)
    ensures IsDistribution(s1) && IsDistribution(s2)
  {
    var p1 := new Player();
    var p2 := new Player();
    for j := 0 to iterations
      invariant p1 != p2 && p1.Valid() && p2.Valid()
      invariant Run(draws[..j]) == State(p1, p2)
    {
      RunSnoc(draws, j);
      PlayRound(p1, p2, draws[j].0, draws[j].1);
    }
    assert draws[..iterations] == draws;
    s1 := p1.AverageStrategy();
    s2 := p2.AverageStrategy();
  }
}
