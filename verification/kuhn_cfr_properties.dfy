/**
 * What one CFR traversal does to the table and what it returns: the value
 * and update rule at a decision history, the terminal case, which states it
 * may change, that strategies stay distributions, and that the regret
 * increments of a visit balance out under the visit's strategy.
 */
module KuhnCfrProperties {
  import opened Regret
  import opened KuhnSpec

  /**
   * Key `k` lies in the subtree that a traversal from `hist` walks with
   * this deal: its history extends `hist` and its card is the one the
   * player acting there holds.
   */
  ghost predicate Reached(cards: seq<int>, hist: History, k: Key)
    requires |cards| == 3
  {
    hist <= k.prefix && k.card == cards[GetPlayer(k.prefix)]
  }

  /** The state the lookup finds at a decision history. */
  ghost function StateAt(t: Table, cards: seq<int>, hist: History): NodeState
    requires WellFormed(t) && ValidDeal(cards) && IsDecision(hist)
  {
    InfoKeyFound(cards, hist);
    t[InfoKey(cards, hist)]
  }

  /** The recursive call for action `a` at a decision history, with reaches `q`. */
  ghost function ChildCall(t: Table, cards: seq<int>, hist: History, a: int, q: (real, real)): (r: (Table, real))
    requires WellFormed(t) && ValidDeal(cards) && IsDecision(hist) && 0 <= a < 2
    ensures WellFormed(r.0)
  {
    ChildIsHistory(hist, a);
    Cfr(t, cards, hist + [a], q.0, q.1)
  }

  /** A terminal history returns player 0's payoff unchanged and leaves the table alone. */
  lemma {:induction false} CfrAtTerminal(t: Table, cards: seq<int>, hist: History, p0: real, p1: real)
    requires WellFormed(t) && ValidDeal(cards) && IsTerminal(hist)
    ensures Cfr(t, cards, hist, p0, p1) == (t, TerminalVal(hist, cards) as real)
  {
    InfoKeyFound(cards, hist);
  }

  /**
   * A traversal from `hist` changes only states in the subtree it walks;
   * every other state keeps its accumulators.
   */
  lemma {:induction false} CfrFrame(t: Table, cards: seq<int>, hist: History, p0: real, p1: real)
    requires WellFormed(t) && ValidDeal(cards) && IsHistory(hist)
    ensures forall k | IsKey(k) && !Reached(cards, hist, k) :: Cfr(t, cards, hist, p0, p1).0[k] == t[k]
    decreases 3 - |hist|, 3
  {
    InfoKeyFound(cards, hist);
    var key := InfoKey(cards, hist);
    if key in t {
      ChildrenFrame(t, cards, hist, p0, p1, t[key].strategy, 2);
    }
  }

  /** The children of `hist` change only states strictly below `hist`. */
  lemma {:induction false} ChildrenFrame(t: Table, cards: seq<int>, hist: History, p0: real, p1: real,
                                         s: seq<real>, k: nat)
    requires WellFormed(t) && ValidDeal(cards) && IsDecision(hist) && |s| == 2 && k <= 2
    ensures forall key | IsKey(key) && !(Reached(cards, hist, key) && |key.prefix| > |hist|) ::
      Children(t, cards, hist, p0, p1, s, k).0[key] == t[key]
    decreases 3 - |hist|, k
  {
    if k > 0 {
      ChildrenFrame(t, cards, hist, p0, p1, s, k - 1);
      var t1 := Children(t, cards, hist, p0, p1, s, k - 1).0;
      var q := ChildReach(hist, p0, p1, s[k - 1]);
      ChildIsHistory(hist, k - 1);
      CfrFrame(t1, cards, hist + [k - 1], q.0, q.1);
      forall key | IsKey(key) && Reached(cards, hist + [k - 1], key)
        ensures Reached(cards, hist, key) && |key.prefix| > |hist|
      {
        ExtensionOfChild(hist, k - 1, key.prefix);
      }
    }
  }

  lemma {:induction false} ExtensionOfChild(hist: History, a: int, h: History)
    requires hist + [a] <= h
    ensures hist <= h && |h| > |hist|
  {
    assert h[..|hist|] == (hist + [a])[..|hist|] == hist;
  }

  /** The state a traversal from `hist` updates is not touched by its children. */
  lemma {:induction false} ChildrenKeepOwnState(t: Table, cards: seq<int>, hist: History, p0: real, p1: real, s: seq<real>, k: nat)
    requires WellFormed(t) && ValidDeal(cards) && IsDecision(hist) && |s| == 2 && k <= 2
    ensures IsKey(InfoKey(cards, hist))
    ensures Children(t, cards, hist, p0, p1, s, k).0[InfoKey(cards, hist)] == t[InfoKey(cards, hist)]
  {
    InfoKeyFound(cards, hist);
    ChildrenFrame(t, cards, hist, p0, p1, s, k);
  }

  /** The `k`-th child is evaluated on the table the earlier children leave. */
  lemma {:induction false} ChildrenStep(t: Table, cards: seq<int>, hist: History, p0: real, p1: real, s: seq<real>, k: nat)
    requires WellFormed(t) && ValidDeal(cards) && IsDecision(hist) && |s| == 2 && 0 < k <= 2
    ensures
      var prev := Children(t, cards, hist, p0, p1, s, k - 1);
      var c := ChildCall(prev.0, cards, hist, k - 1, ChildReach(hist, p0, p1, s[k - 1]));
      Children(t, cards, hist, p0, p1, s, k) == (c.0, prev.1[k - 1 := -c.1])
  {
  }

  /** Before iteration `k` of the action loop, the value of action `k` is still zero. */
  lemma {:induction false} ChildrenPending(t: Table, cards: seq<int>, hist: History, p0: real, p1: real, s: seq<real>, k: nat)
    requires WellFormed(t) && ValidDeal(cards) && IsDecision(hist) && |s| == 2 && k < 2
    ensures Children(t, cards, hist, p0, p1, s, k).1[k] == 0.0
  {
    if k == 1 {
      ChildrenStep(t, cards, hist, p0, p1, s, 1);
    }
  }

  /**
   * One iteration of the action loop: from the state after `k` children,
   * the traversal of child `k` with its reaches gives the state after
   * `k + 1` and leaves the visited node's own state alone; the entry
   * for action `k` was still zero before.
   */
  lemma {:induction false} ChildrenLoopStep(t: Table, cards: seq<int>, hist: History, p0: real, p1: real, s: seq<real>, k: nat,
                                            tPrev: Table, vPrev: seq<real>, tNext: Table, r: real)
    requires WellFormed(t) && ValidDeal(cards) && IsDecision(hist) && |s| == 2 && k < 2
    requires tPrev == Children(t, cards, hist, p0, p1, s, k).0 && vPrev == Children(t, cards, hist, p0, p1, s, k).1
    requires tNext == ChildCall(tPrev, cards, hist, k, ChildReach(hist, p0, p1, s[k])).0
    requires r == ChildCall(tPrev, cards, hist, k, ChildReach(hist, p0, p1, s[k])).1
    ensures tNext == Children(t, cards, hist, p0, p1, s, k + 1).0
    ensures vPrev[k := -r] == Children(t, cards, hist, p0, p1, s, k + 1).1
    ensures IsKey(InfoKey(cards, hist)) && tNext[InfoKey(cards, hist)] == t[InfoKey(cards, hist)]
    ensures vPrev[k] == 0.0
  {
    ChildrenPending(t, cards, hist, p0, p1, s, k);
    ChildrenStep(t, cards, hist, p0, p1, s, k + 1);
    ChildrenKeepOwnState(t, cards, hist, p0, p1, s, k + 1);
  }

  /** Two children: pass is evaluated on the table given, bet on the table pass leaves. */
  lemma {:induction false} ChildrenTwo(t: Table, cards: seq<int>, hist: History, p0: real, p1: real, s: seq<real>)
    requires WellFormed(t) && ValidDeal(cards) && IsDecision(hist) && |s| == 2
    ensures
      var c0 := ChildCall(t, cards, hist, PASS, ChildReach(hist, p0, p1, s[0]));
      var c1 := ChildCall(c0.0, cards, hist, BET, ChildReach(hist, p0, p1, s[1]));
      Children(t, cards, hist, p0, p1, s, 2) == (c1.0, [-c0.1, -c1.1])
  {
    var c0 := ChildCall(t, cards, hist, PASS, ChildReach(hist, p0, p1, s[0]));
    var c1 := ChildCall(c0.0, cards, hist, BET, ChildReach(hist, p0, p1, s[1]));
    assert Children(t, cards, hist, p0, p1, s, 0) == (t, [0.0, 0.0]);
    ChildrenStep(t, cards, hist, p0, p1, s, 1);
    assert [0.0, 0.0][0 := -c0.1] == [-c0.1, 0.0];
    ChildrenStep(t, cards, hist, p0, p1, s, 2);
    assert [-c0.1, 0.0][1 := -c1.1] == [-c0.1, -c1.1];
  }

  /** One visit of a decision history: children first, then the update of its own state. */
  lemma {:induction false} CfrUnfold(t: Table, cards: seq<int>, hist: History, p0: real, p1: real)
    requires WellFormed(t) && ValidDeal(cards) && IsDecision(hist)
    ensures
      var key := InfoKey(cards, hist);
      var n := StateAt(t, cards, hist);
      var ch := Children(t, cards, hist, p0, p1, n.strategy, 2);
      var pMinusI := if GetPlayer(hist) == 0 then p1 else p0;
      var pI := if GetPlayer(hist) == 0 then p0 else p1;
      Cfr(t, cards, hist, p0, p1) ==
        (ch.0[key := Accumulate(n, ch.1, Dot(ch.1, n.strategy), pMinusI, pI)], Dot(ch.1, n.strategy))
  {
    InfoKeyFound(cards, hist);
    ChildrenKeepOwnState(t, cards, hist, p0, p1, StateAt(t, cards, hist).strategy, 2);
  }

  /** The entries of a visit's update, one action at a time. */
  lemma {:induction false} AccumulateEntry(n: NodeState, vs: seq<real>, vTotal: real, pMinusI: real, pI: real, a: nat)
    requires |n.strategy| == 2 && |n.regretSum| == 2 && |n.strategySum| == 2 && |vs| == 2 && a < 2
    ensures
      var r := Accumulate(n, vs, vTotal, pMinusI, pI);
      r.regretSum[a] == n.regretSum[a] + pMinusI * (vs[a] - vTotal) &&
      r.strategySum[a] == n.strategySum[a] + pI * n.strategy[a] &&
      r.strategy == RegretMatching(r.regretSum)
  {
  }

  /**
   * The rule at a decision history: the children for pass and then bet
   * are evaluated with the acting player's reach scaled by the action's
   * probability and the opponent's passed through; the value is the
   * strategy-weighted sum of the negated child values; the state is updated
   * by `Accumulate` with the opponent's and the actor's reach, and nothing
   * else is updated after the children.
   */
  lemma {:induction false} CfrAtDecision(t: Table, cards: seq<int>, hist: History, p0: real, p1: real)
    requires WellFormed(t) && ValidDeal(cards) && IsDecision(hist)
    ensures
      var key := InfoKey(cards, hist);
      var n := StateAt(t, cards, hist);
      var s := n.strategy;
      var c0 := ChildCall(t, cards, hist, PASS, ChildReach(hist, p0, p1, s[0]));
      var c1 := ChildCall(c0.0, cards, hist, BET, ChildReach(hist, p0, p1, s[1]));
      var r := Cfr(t, cards, hist, p0, p1);
      var v := [-c0.1, -c1.1];
      var pMinusI := if GetPlayer(hist) == 0 then p1 else p0;
      var pI := if GetPlayer(hist) == 0 then p0 else p1;
      r.1 == Dot(v, s) &&
      r.0 == c1.0[key := Accumulate(n, v, r.1, pMinusI, pI)]
  {
    var n := StateAt(t, cards, hist);
    ChildrenTwo(t, cards, hist, p0, p1, n.strategy);
    CfrUnfold(t, cards, hist, p0, p1);
  }

  /**
   * As written, the state where player 0 faces a bet after passing (history
   * pass, bet) receives its children's payoffs to player 0 negated: the
   * value it returns is minus player 0's expected payoff under its strategy.
   */
  lemma {:induction false} CfrPassBetValue(t: Table, cards: seq<int>, p0: real, p1: real)
    requires WellFormed(t) && ValidDeal(cards)
    ensures
      var s := StateAt(t, cards, [PASS, BET]).strategy;
      Cfr(t, cards, [PASS, BET], p0, p1).1 ==
        -(s[0] * TerminalVal([PASS, BET, PASS], cards) as real + s[1] * TerminalVal([PASS, BET, BET], cards) as real)
  {
    var hist := [PASS, BET];
    CfrAtDecision(t, cards, hist, p0, p1);
    var key := InfoKey(cards, hist);
    InfoKeyFound(cards, hist);
    var s := t[key].strategy;
    assert hist + [PASS] == [PASS, BET, PASS] && hist + [BET] == [PASS, BET, BET];
    var q0 := ChildReach(hist, p0, p1, s[0]);
    CfrAtTerminal(t, cards, [PASS, BET, PASS], q0.0, q0.1);
    var q1 := ChildReach(hist, p0, p1, s[1]);
    CfrAtTerminal(t, cards, [PASS, BET, BET], q1.0, q1.1);
    Dot2([-Cfr(t, cards, [PASS, BET, PASS], q0.0, q0.1).1, -Cfr(t, cards, [PASS, BET, BET], q1.0, q1.1).1], s);
  }

  /**
   * With non-negative reaches, a traversal keeps every strategy a
   * distribution and every strategy sum non-negative.
   */
  lemma {:induction false} CfrKeepsStrategies(t: Table, cards: seq<int>, hist: History, p0: real, p1: real)
    requires WellFormed(t) && ValidDeal(cards) && IsHistory(hist)
    requires StrategiesValid(t) && p0 >= 0.0 && p1 >= 0.0
    ensures StrategiesValid(Cfr(t, cards, hist, p0, p1).0)
    decreases 3 - |hist|, 3
  {
    InfoKeyFound(cards, hist);
    var key := InfoKey(cards, hist);
    if key in t {
      var s := t[key].strategy;
      ChildrenKeepStrategies(t, cards, hist, p0, p1, s, 2);
      var t1 := Children(t, cards, hist, p0, p1, s, 2).0;
      assert IsDistribution(t1[key].strategy) && NonNegative(t1[key].strategySum);
    }
  }

  lemma {:induction false} ChildrenKeepStrategies(t: Table, cards: seq<int>, hist: History, p0: real, p1: real,
                                                  s: seq<real>, k: nat)
    requires WellFormed(t) && ValidDeal(cards) && IsDecision(hist) && |s| == 2 && k <= 2
    requires StrategiesValid(t) && p0 >= 0.0 && p1 >= 0.0 && NonNegative(s)
    ensures StrategiesValid(Children(t, cards, hist, p0, p1, s, k).0)
    decreases 3 - |hist|, k
  {
    if k > 0 {
      ChildrenKeepStrategies(t, cards, hist, p0, p1, s, k - 1);
      var t1 := Children(t, cards, hist, p0, p1, s, k - 1).0;
      var q := ChildReach(hist, p0, p1, s[k - 1]);
      ChildReachNonNegative(hist, p0, p1, s[k - 1]);
      ChildIsHistory(hist, k - 1);
      CfrKeepsStrategies(t1, cards, hist + [k - 1], q.0, q.1);
    }
  }

  lemma {:induction false} ChildReachNonNegative(hist: History, p0: real, p1: real, sa: real)
    requires p0 >= 0.0 && p1 >= 0.0 && sa >= 0.0
    ensures ChildReach(hist, p0, p1, sa).0 >= 0.0 && ChildReach(hist, p0, p1, sa).1 >= 0.0
  {
  }

  /**
   * The regret increments of one visit sum to zero when weighted by the
   * strategy the visit used: the node's value is exactly the strategy's
   * average action value.
   */
  lemma {:induction false} RegretIncrementsBalance(t: Table, cards: seq<int>, hist: History, p0: real, p1: real)
    requires WellFormed(t) && ValidDeal(cards) && IsDecision(hist)
    requires InfoKey(cards, hist) in t && Sum(t[InfoKey(cards, hist)].strategy) == 1.0
    ensures
      var key := InfoKey(cards, hist);
      var before := t[key];
      var r := Cfr(t, cards, hist, p0, p1).0;
      key in r && Dot(before.strategy, Sub(r[key].regretSum, before.regretSum)) == 0.0
  {
    CfrUnfold(t, cards, hist, p0, p1);
    var n := t[InfoKey(cards, hist)];
    var ch := Children(t, cards, hist, p0, p1, n.strategy, 2);
    var pMinusI := if GetPlayer(hist) == 0 then p1 else p0;
    var pI := if GetPlayer(hist) == 0 then p0 else p1;
    RegretsAfterBalance(n.strategy, n.regretSum, ch.1, pMinusI);
  }

  /**
   * The regret increments of a visit, weighted by the node's strategy,
   * cancel when the total is the strategy-weighted value.
   */
  lemma {:induction false} RegretsAfterBalance(s: Vec, regretSum: Vec, vs: seq<real>, pMinusI: real)
    requires |vs| == 2 && Sum(s) == 1.0
    ensures Dot(s, Sub(RegretsAfter(regretSum, vs, Dot(vs, s), pMinusI), regretSum)) == 0.0
  {
    IncrementsCancel(s, vs, regretSum, RegretsAfter(regretSum, vs, Dot(vs, s), pMinusI), pMinusI);
  }

  /**
   * Increments `c * (vs[a] - m)`, with `m` the `s`-weighted value of `vs`
   * and `s` summing to one, have `s`-weighted sum zero.
   */
  lemma {:induction false} IncrementsCancel(s: seq<real>, vs: seq<real>, before: seq<real>, after: seq<real>, c: real)
    requires |s| == 2 && |vs| == 2 && |before| == 2 && |after| == 2 && Sum(s) == 1.0
    requires forall a :: 0 <= a < 2 ==> after[a] == before[a] + c * (vs[a] - Dot(vs, s))
    ensures Dot(s, Sub(after, before)) == 0.0
  {
    var d := Sub(after, before);
    var m := Dot(vs, s);
    Dot2(vs, s);
    Dot2(s, d);
    Sum2(s);
    assert d[0] == c * (vs[0] - m) && d[1] == c * (vs[1] - m);
    WeightedDeviationsCancel(s[0], s[1], vs[0], vs[1], c);
  }

  /** `s0 * c * (v0 - m) + s1 * c * (v1 - m) == 0` for the mean `m` of a distribution. */
  lemma {:induction false} WeightedDeviationsCancel(s0: real, s1: real, v0: real, v1: real, c: real)
    requires s0 + s1 == 1.0
    ensures var m := v0 * s0 + v1 * s1;
      s0 * (c * (v0 - m)) + s1 * (c * (v1 - m)) == 0.0
  {
    var m := v0 * s0 + v1 * s1;
    calc {
      s0 * (c * (v0 - m)) + s1 * (c * (v1 - m));
      c * (s0 * v0 + s1 * v1 - (s0 + s1) * m);
      c * (m - m);
    }
  }

  /** The four states a traversal from the empty history can change with this deal. */
  function DealtKeys(cards: seq<int>): (ks: set<Key>)
    requires ValidDeal(cards)
    ensures ks <= AllKeys && |ks| == 4
  {
    InfoKeyFound(cards, []);
    InfoKeyFound(cards, [BET]);
    InfoKeyFound(cards, [PASS]);
    InfoKeyFound(cards, [PASS, BET]);
    var ks := {InfoKey(cards, []), InfoKey(cards, [BET]), InfoKey(cards, [PASS]), InfoKey(cards, [PASS, BET])};
    assert |ks| == 4 by {
      var a, b, c, d := InfoKey(cards, []), InfoKey(cards, [BET]), InfoKey(cards, [PASS]), InfoKey(cards, [PASS, BET]);
      assert a.prefix != b.prefix && a.prefix != c.prefix && a.prefix != d.prefix;
      assert b.prefix != c.prefix && b.prefix != d.prefix && c.prefix != d.prefix;
    }
    ks
  }

  /**
   * A traversal from the empty history changes at most the four states of
   * the dealt cards, one per decision history; the other eight keep their
   * accumulators.
   */
  lemma {:induction false} CfrRootFrame(t: Table, cards: seq<int>, p0: real, p1: real)
    requires WellFormed(t) && ValidDeal(cards)
    ensures forall k | IsKey(k) && k !in DealtKeys(cards) :: Cfr(t, cards, [], p0, p1).0[k] == t[k]
    ensures |AllKeys - DealtKeys(cards)| == 8
  {
    assert IsHistory([]);
    CfrFrame(t, cards, [], p0, p1);
    forall k | IsKey(k) && Reached(cards, [], k)
      ensures k in DealtKeys(cards)
    {
      AllKeysShape(k);
      assert k == InfoKey(cards, k.prefix);
    }
    AllKeysCount();
  }

  /** A training step read off its two parts: the shuffled deal and the traversal on it. */
  lemma {:induction false} TrainStepParts(t: Table, cards: seq<int>, draws: seq<int>, t': Table, cards': seq<int>)
    requires WellFormed(t) && ValidDeal(cards) && DrawsValid(draws)
    requires cards' == ShuffleFrom(cards, draws, |cards| - 1) && ValidDeal(cards') && IsHistory([])
    requires t' == Cfr(t, cards', [], 1.0, 1.0).0
    ensures TrainStep(t, cards, draws).0 == t' && TrainStep(t, cards, draws).1 == cards'
  {
  }

  /** Training keeps every strategy a distribution and every strategy sum non-negative. */
  lemma {:induction false} TrainKeepsStrategies(t: Table, cards: seq<int>, draws: seq<seq<int>>, n: nat)
    requires WellFormed(t) && ValidDeal(cards) && StrategiesValid(t) && n <= |draws|
    requires forall j :: 0 <= j < |draws| ==> DrawsValid(draws[j])
    ensures StrategiesValid(TrainRun(t, cards, draws, n).0)
  {
    if n > 0 {
      TrainKeepsStrategies(t, cards, draws, n - 1);
      var prev := TrainRun(t, cards, draws, n - 1);
      var dealt := ShuffleFrom(prev.1, draws[n - 1], |prev.1| - 1);
      ShuffleKeepsDeal(prev.1, draws[n - 1]);
      assert IsHistory([]);
      CfrKeepsStrategies(prev.0, dealt, [], 1.0, 1.0);
    }
  }
}
