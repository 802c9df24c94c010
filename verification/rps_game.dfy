/**
 * Rock-paper-scissors as both RPS trainers play it: actions 0 (rock),
 * 1 (paper) and 2 (scissors), the utility vector of every action against
 * the opponent's action, and the integer regret update after one round.
 */
module RpsGame {

  const ActionsCount: nat := 3

  /** Which action defeats which: paper beats rock, scissors beat paper, rock beats scissors. */
  predicate Beats(a: nat, b: nat)
  {
    (a, b) == (1, 0) || (a, b) == (2, 1) || (a, b) == (0, 2)
  }

  /** The payoff of playing `mine` against `theirs`: win 1, tie 0, loss -1. */
  function Payoff(mine: nat, theirs: nat): int
  {
    if mine == theirs then 0 else if Beats(mine, theirs) then 1 else -1
  }

  /** Rock-paper-scissors is zero-sum. */
  lemma {:induction false} PayoffZeroSum(a: nat, b: nat)
    requires a < 3 && b < 3
    ensures Payoff(a, b) == -Payoff(b, a)
  {
  }

  /**
   * The utility of each action against `aOther`: a list of zeros with 1 at
   * `(aOther + 1) % 3` and -1 at `(aOther + 2) % 3`. It agrees with the
   * payoff table and sums to 0.
   */
  function Utility(aOther: nat): (u: seq<int>)
    requires aOther < ActionsCount
    ensures |u| == ActionsCount
    ensures forall i :: 0 <= i < ActionsCount ==> u[i] == Payoff(i, aOther)
    ensures u[0] + u[1] + u[2] == 0
  {
    [0, 0, 0][(aOther + 1) % ActionsCount := 1][(aOther + 2) % ActionsCount := -1]
  }

  /** Both draws of every round lie in [0, 1), as `random.random()` promises. */
  ghost predicate DrawsValid(draws: seq<(real, real)>)
  {
    forall j :: 0 <= j < |draws| ==> 0.0 <= draws[j].0 < 1.0 && 0.0 <= draws[j].1 < 1.0
  }

  /**
   * The regret update of one round: each regret grows by how much more its
   * action would have earned than the chosen action `a`, so the regret of
   * `a` itself is unchanged.
   */
  function RegretUpdate(r: seq<int>, u: seq<int>, a: nat): (r': seq<int>)
    requires |r| == |u| && a < |u|
    ensures |r'| == |r|
    ensures forall i :: 0 <= i < |r| ==> r'[i] - r[i] == u[i] - u[a]
    ensures r'[a] == r[a]
  {
    seq(|r|, i requires 0 <= i < |r| => r[i] + (u[i] - u[a]))
  }

  /**
   * After playing `a` against `aOther`, the regret of action `i` grows by
   * how much more `i` would have won than `a`; the chosen action's regret
   * does not change.
   */
  lemma {:induction false} RegretUpdateIsRegret(r: seq<int>, a: nat, aOther: nat, i: nat)
    requires |r| == ActionsCount && a < ActionsCount && aOther < ActionsCount && i < ActionsCount
    ensures RegretUpdate(r, Utility(aOther), a)[i] - r[i] == Payoff(i, aOther) - Payoff(a, aOther)
    ensures RegretUpdate(r, Utility(aOther), a)[a] == r[a]
  {
  }

  /** Integer regrets read as reals (`np.asarray(regret_sum, dtype=float64)`). */
  function ToReals(r: seq<int>): (v: seq<real>)
    ensures |v| == |r| && forall i :: 0 <= i < |r| ==> v[i] == r[i] as real
  {
    seq(|r|, i requires 0 <= i < |r| => r[i] as real)
  }
}
