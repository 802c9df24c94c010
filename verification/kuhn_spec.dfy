/**
 * Kuhn poker as the CFR trainer sees it, stated as pure functions over an
 * abstract table of information states: the twelve keys the trainer
 * creates, the terminal payoffs, the lookup that tells decision histories
 * from terminal ones, the Fisher-Yates deal and one full CFR traversal.
 *
 * A history is the sequence of actions taken so far (0 = pass, 1 = bet);
 * the digit string "01" of the trainer is the sequence [0, 1] here.
 */
module KuhnSpec {
  import opened Regret

  const PASS: int := 0
  const BET: int := 1
  const JACK: int := 0
  const QUEEN: int := 1
  const KING: int := 2
  const Cards: seq<int> := [JACK, QUEEN, KING]
  const Actions: seq<int> := [PASS, BET]

  type History = seq<int>

  /** An information state's identity: acting player, that player's card, the actions before it. */
  datatype Key = Key(player: nat, card: int, prefix: History)

  /** A vector with one entry per action, as the trainer's arrays of length two. */
  type Vec = v: seq<real> | |v| == 2 witness [0.0, 0.0]

  /** The accumulators of one information state. */
  datatype NodeState = NodeState(strategy: Vec, regretSum: Vec, strategySum: Vec)

  type Table = map<Key, NodeState>

  /** The four histories at which a player decides. */
  predicate IsDecision(hist: History)
  {
    hist == [] || hist == [BET] || hist == [PASS] || hist == [PASS, BET]
  }

  /** The five histories that end a hand. */
  predicate IsTerminal(hist: History)
  {
    hist == [PASS, PASS] || hist == [BET, PASS] || hist == [BET, BET] ||
    hist == [PASS, BET, PASS] || hist == [PASS, BET, BET]
  }

  predicate IsHistory(hist: History)
  {
    IsDecision(hist) || IsTerminal(hist)
  }

  /** Every action at a decision history leads to a history of the game. */
  lemma {:induction false} ChildIsHistory(hist: History, a: int)
    requires IsDecision(hist) && 0 <= a < 2
    ensures IsHistory(hist + [a]) && |hist + [a]| == |hist| + 1 <= 3
  {
    if hist == [] {
      assert hist + [a] == [a];
    } else if hist == [BET] {
      assert hist + [a] == [BET, a];
    } else if hist == [PASS] {
      assert hist + [a] == [PASS, a];
    } else {
      assert hist + [a] == [PASS, BET, a];
    }
  }

  /** The player to act: 0 after an even number of actions, 1 after an odd one. */
  function GetPlayer(hist: History): (p: nat)
    ensures p < 2 && (p == 0 <==> |hist| % 2 == 0)
  {
    |hist| % 2
  }

  /**
   * A deal is an arrangement of the three cards, each dealt exactly once;
   * player `i` holds `cards[i]` and the third card is unused.
   */
  ghost predicate ValidDeal(cards: seq<int>)
  {
    |cards| == 3 && (forall i :: 0 <= i < 3 ==> JACK <= cards[i] <= KING) &&
    cards[0] != cards[1] && cards[0] != cards[2] && cards[1] != cards[2]
  }

  /** The six orders of the three cards, each reached from `Cards` by swaps. */
  function Order(k: nat): (r: seq<int>)
    requires k < 6
    ensures |r| == 3
  {
    if k == 0 then Cards
    else if k == 1 then Swap(Cards, 1, 2)
    else if k == 2 then Swap(Cards, 0, 1)
    else if k == 3 then Swap(Cards, 0, 2)
    else if k == 4 then Swap(Swap(Cards, 0, 1), 1, 2)
    else Swap(Swap(Cards, 0, 2), 1, 2)
  }

  /** Which of the six orders a deal is, read off its first two cards. */
  function OrderOf(cards: seq<int>): (k: nat)
    requires ValidDeal(cards)
    ensures k < 6 && cards == Order(k)
  {
    assert cards == [cards[0], cards[1], cards[2]];
    if cards[0] == JACK then (if cards[1] == QUEEN then 0 else 1)
    else if cards[0] == QUEEN then (if cards[1] == JACK then 2 else 4)
    else (if cards[1] == QUEEN then 3 else 5)
  }

  /** Each order is a rearrangement of the card list. */
  lemma {:induction false} OrderPermutes(k: nat)
    requires k < 6
    ensures multiset(Order(k)) == multiset(Cards)
  {
    if k == 1 { SwapPermutes(Cards, 1, 2); }
    else if k == 2 { SwapPermutes(Cards, 0, 1); }
    else if k == 3 { SwapPermutes(Cards, 0, 2); }
    else if k == 4 { SwapPermutes(Cards, 0, 1); SwapPermutes(Swap(Cards, 0, 1), 1, 2); }
    else if k == 5 { SwapPermutes(Cards, 0, 2); SwapPermutes(Swap(Cards, 0, 2), 1, 2); }
  }

  /** Every deal is a rearrangement of the card list. */
  lemma {:induction false} DealIsPermutation(cards: seq<int>)
    requires ValidDeal(cards)
    ensures multiset(cards) == multiset(Cards)
  {
    OrderPermutes(OrderOf(cards));
  }

  /** Every rearrangement of the card list is a deal. */
  lemma {:induction false} PermutationIsDeal(cards: seq<int>)
    requires multiset(cards) == multiset(Cards)
    ensures ValidDeal(cards)
  {
    assert |cards| == |multiset(Cards)| == 3;
    assert cards == [cards[0], cards[1], cards[2]];
    forall i | 0 <= i < 3 ensures JACK <= cards[i] <= KING && multiset(cards)[cards[i]] == 1 {
      assert cards[i] in multiset(Cards);
    }
  }

  /**
   * The payoff to player 0 of a finished hand: a fold gives the pot's ante
   * to the player who did not fold, a showdown gives 1 (no bet) or 2 (bet
   * and call) to the player with the higher card.
   */
  function TerminalVal(hist: History, cards: seq<int>): (v: int)
    requires IsTerminal(hist) && |cards| >= 2
    ensures v > 0 <==> hist == [BET, PASS] || (hist != [PASS, BET, PASS] && cards[0] > cards[1])
    ensures v == 1 || v == -1 || v == 2 || v == -2
    ensures (v == 2 || v == -2) <==> hist == [BET, BET] || hist == [PASS, BET, BET]
  {
    if hist == [PASS, PASS] then (if cards[0] > cards[1] then 1 else -1)
    else if hist == [BET, PASS] then 1
    else if hist == [BET, BET] then (if cards[0] > cards[1] then 2 else -2)
    else if hist == [PASS, BET, PASS] then -1
    else (if cards[0] > cards[1] then 2 else -2)
  }

  /** Showdown payoffs depend only on which of the two dealt cards is higher. */
  lemma {:induction false} TerminalValRankOnly(hist: History, cards: seq<int>, other: seq<int>)
    requires IsTerminal(hist) && |cards| >= 2 && |other| >= 2
    requires cards[0] > cards[1] <==> other[0] > other[1]
    ensures TerminalVal(hist, cards) == TerminalVal(hist, other)
  {
  }

  /** The key `get_infostate` looks up: the acting player, their card and the history. */
  function InfoKey(cards: seq<int>, hist: History): (k: Key)
    requires |cards| == 3
    ensures k.player == GetPlayer(hist) && k.card == cards[k.player] && k.prefix == hist
  {
    var p := GetPlayer(hist);
    Key(p, cards[p], hist)
  }

  /** The twelve keys `make_infostates` creates, in its order. */
  const AllKeys: set<Key> := {
    Key(0, JACK, []), Key(0, QUEEN, []), Key(0, KING, []),
    Key(1, JACK, [BET]), Key(1, QUEEN, [BET]), Key(1, KING, [BET]),
    Key(1, JACK, [PASS]), Key(1, QUEEN, [PASS]), Key(1, KING, [PASS]),
    Key(0, JACK, [PASS, BET]), Key(0, QUEEN, [PASS, BET]), Key(0, KING, [PASS, BET])
  }

  /**
   * The table holds twelve distinct keys: each decision history crossed
   * with each card, with the player to act at that history.
   */
  predicate IsKey(k: Key)
  {
    IsDecision(k.prefix) && 0 <= k.card < 3 && k.player == GetPlayer(k.prefix)
  }

  /** The keys are those of the four decision points, in the order `make_infostates` lists them. */
  lemma {:induction false} KeyByDecisionPoint(k: Key)
    ensures IsKey(k) <==> (0 <= k.card < 3 &&
      ((k.player == 0 && k.prefix == []) || (k.player == 1 && k.prefix == [BET]) ||
       (k.player == 1 && k.prefix == [PASS]) || (k.player == 0 && k.prefix == [PASS, BET])))
  {
  }

  lemma {:induction false} AllKeysShape(k: Key)
    ensures k in AllKeys <==> IsKey(k)
  {
    if IsKey(k) {
      assert k == Key(k.player, k.card, k.prefix);
    }
  }

  lemma {:induction false} AllKeysCount()
    ensures |AllKeys| == 12
  {
  }

  /** A lookup finds a state exactly at the four decision histories. */
  lemma {:induction false} InfoKeyFound(cards: seq<int>, hist: History)
    requires ValidDeal(cards)
    ensures IsKey(InfoKey(cards, hist)) <==> IsDecision(hist)
  {
  }

  /** The table holds a state for exactly the twelve keys. */
  ghost predicate WellFormed(t: Table)
  {
    forall k {:trigger IsKey(k)} :: k in t <==> IsKey(k)
  }

  /** Every current strategy is a distribution and every strategy sum is non-negative. */
  ghost predicate StrategiesValid(t: Table)
  {
    forall k | k in t :: IsDistribution(t[k].strategy) && NonNegative(t[k].strategySum)
  }

  /** A fresh state: uniform strategy, zero regret and strategy sums. */
  const InitialNode: NodeState := NodeState([0.5, 0.5], [0.0, 0.0], [0.0, 0.0])

  function InitialTable(): (t: Table)
    ensures WellFormed(t) && StrategiesValid(t)
  {
    assert Sum([0.5, 0.5]) == 1.0 by {
      assert [0.5, 0.5][..1] == [0.5];
    }
    forall k ensures k in AllKeys <==> IsKey(k) {
      AllKeysShape(k);
    }
    map k | k in AllKeys :: InitialNode
  }

  /** Swap entries `i` and `j`; every other entry stays in place. */
  function Swap(s: seq<int>, i: nat, j: nat): (r: seq<int>)
    requires i < |s| && j < |s|
    ensures |r| == |s|
    ensures r[i] == s[j] && r[j] == s[i]
    ensures forall k :: 0 <= k < |s| && k != i && k != j ==> r[k] == s[k]
  {
    s[i := s[j]][j := s[i]]
  }

  /** A swap rearranges the entries. */
  lemma {:induction false} SwapPermutes(s: seq<int>, i: nat, j: nat)
    requires i < |s| && j < |s|
    ensures multiset(Swap(s, i, j)) == multiset(s)
  {
    var t := s[i := s[j]];
    assert multiset(t) == multiset(s) - multiset{s[i]} + multiset{s[j]};
  }

  /** A swap of a deal is again a deal. */
  lemma {:induction false} SwapKeepsDeal(s: seq<int>, i: nat, j: nat)
    requires ValidDeal(s) && i < 3 && j < 3
    ensures ValidDeal(Swap(s, i, j))
  {
  }

  /** Each draw `draws[c]` lies in [0, c], as `random.randint(0, c)` promises. */
  ghost predicate DrawsValid(draws: seq<int>)
  {
    |draws| == 3 && forall c :: 0 <= c < 3 ==> 0 <= draws[c] <= c
  }

  /**
   * The Fisher-Yates swaps for positions `c1`, `c1 - 1`, ..., 0. Each swap
   * only reaches downwards, so the positions above `c1` are left alone and
   * position `c1` ends with the entry its own draw selected.
   */
  function ShuffleFrom(s: seq<int>, draws: seq<int>, c1: int): (r: seq<int>)
    requires |s| == 3 && DrawsValid(draws) && -1 <= c1 < 3
    ensures |r| == 3
    ensures forall k :: c1 < k < 3 ==> r[k] == s[k]
    ensures c1 >= 0 ==> r[c1] == s[draws[c1]]
    decreases c1 + 1
  {
    if c1 < 0 then s else ShuffleFrom(Swap(s, c1, draws[c1]), draws, c1 - 1)
  }

  /** Shuffling rearranges the cards. */
  lemma {:induction false} ShufflePermutes(s: seq<int>, draws: seq<int>, c1: int)
    requires |s| == 3 && DrawsValid(draws) && -1 <= c1 < 3
    ensures multiset(ShuffleFrom(s, draws, c1)) == multiset(s)
    decreases c1 + 1
  {
    if c1 >= 0 {
      SwapPermutes(s, c1, draws[c1]);
      ShufflePermutes(Swap(s, c1, draws[c1]), draws, c1 - 1);
    }
  }

  /** A deal after shuffling is again a deal. */
  lemma {:induction false} ShuffleKeepsDeal(cards: seq<int>, draws: seq<int>)
    requires ValidDeal(cards) && DrawsValid(draws)
    ensures ValidDeal(ShuffleFrom(cards, draws, |cards| - 1))
  {
    DealIsPermutation(cards);
    ShufflePermutes(cards, draws, 2);
    PermutationIsDeal(ShuffleFrom(cards, draws, |cards| - 1));
  }

  // ---- one CFR traversal ----

  /**
   * The reach probabilities passed to the child for action probability
   * `sa`: the acting player's reach is scaled by `sa`, the other player's
   * passes through, so the joint reach is scaled by `sa`.
   */
  function ChildReach(hist: History, p0: real, p1: real, sa: real): (r: (real, real))
    ensures GetPlayer(hist) == 0 ==> r.0 == p0 * sa && r.1 == p1
    ensures GetPlayer(hist) == 1 ==> r.0 == p0 && r.1 == p1 * sa
    ensures r.0 * r.1 == p0 * p1 * sa
  {
    if GetPlayer(hist) == 0 then (p0 * sa, p1) else (p0, p1 * sa)
  }

  /**
   * The regrets after a visit: each gains the opponent's reach times how
   * much better the action was than the node's value.
   */
  function RegretsAfter(regretSum: Vec, vs: seq<real>, vTotal: real, pMinusI: real): (r: Vec)
    requires |vs| == 2
    ensures pMinusI > 0.0 ==> forall a :: 0 <= a < 2 ==> (r[a] > regretSum[a] <==> vs[a] > vTotal)
    ensures pMinusI > 0.0 ==> forall a :: 0 <= a < 2 ==> (r[a] < regretSum[a] <==> vs[a] < vTotal)
  {
    seq(2, a requires 0 <= a < 2 => regretSum[a] + pMinusI * (vs[a] - vTotal))
  }

  /**
   * The visit's update of a state: the regrets as `RegretsAfter`, each
   * strategy sum gains the actor's reach times the action's probability,
   * and the strategy is recomputed by regret matching.
   */
  function Accumulate(n: NodeState, vs: seq<real>, vTotal: real, pMinusI: real, pI: real): (r: NodeState)
    requires |vs| == 2
    ensures IsDistribution(r.strategy)
    ensures NonNegative(n.strategy) && NonNegative(n.strategySum) && pI >= 0.0 ==> NonNegative(r.strategySum)
  {
    var rs := RegretsAfter(n.regretSum, vs, vTotal, pMinusI);
    var ss := seq(2, a requires 0 <= a < 2 => n.strategySum[a] + pI * n.strategy[a]);
    NodeState(RegretMatching(rs), rs, ss)
  }

  /**
   * `cfr(hist, p0, p1)` on table `t`: the table after the traversal and the
   * returned value. A history without a state is terminal and returns its
   * payoff to player 0 unchanged; at a state the children are evaluated in
   * action order, their values negated, and the state is updated.
   *
   * `Cfr`, `Visit` and `Children` terminate on the depth left and their
   * position in the recursion. The table size `|t|` that ends each measure
   * plays no part in termination; it only keeps the verifier from unfolding
   * the whole game tree whenever the history is the literal empty sequence.
   */
  function Cfr(t: Table, cards: seq<int>, hist: History, p0: real, p1: real): (r: (Table, real))
    requires WellFormed(t) && ValidDeal(cards) && IsHistory(hist)
    ensures WellFormed(r.0)
    decreases 3 - |hist|, 4, |t|
  {
    InfoKeyFound(cards, hist);
    if InfoKey(cards, hist) !in t then (t, TerminalVal(hist, cards) as real)
    else Visit(t, cards, hist, p0, p1)
  }

  /**
   * The visit of a decision history: the children are evaluated in action
   * order, their values negated, and the history's state is updated with
   * the value `vTotal` under its current strategy.
   */
  function Visit(t: Table, cards: seq<int>, hist: History, p0: real, p1: real): (r: (Table, real))
    requires WellFormed(t) && ValidDeal(cards) && IsDecision(hist)
    ensures WellFormed(r.0)
    decreases 3 - |hist|, 3, |t|
  {
    InfoKeyFound(cards, hist);
    var key := InfoKey(cards, hist);
    var s := t[key].strategy;
    var ch := Children(t, cards, hist, p0, p1, s, 2);
    var pMinusI := if GetPlayer(hist) == 0 then p1 else p0;
    var pI := if GetPlayer(hist) == 0 then p0 else p1;
    var vTotal := Dot(ch.1, s);
    (ch.0[key := Accumulate(ch.0[key], ch.1, vTotal, pMinusI, pI)], vTotal)
  }

  /**
   * The first `k` iterations of the action loop at a decision history,
   * with strategy `s`: the table after them, and the action values, whose
   * first `k` entries hold the children's values negated and whose other
   * entries are still zero.
   */
  function Children(t: Table, cards: seq<int>, hist: History, p0: real, p1: real, s: seq<real>, k: nat)
    : (r: (Table, Vec))
    requires WellFormed(t) && ValidDeal(cards) && IsDecision(hist) && |s| == 2 && k <= 2
    ensures WellFormed(r.0)
    decreases 3 - |hist|, k, |t|
  {
    if k == 0 then (t, [0.0, 0.0])
    else
      var prev := Children(t, cards, hist, p0, p1, s, k - 1);
      var q := ChildReach(hist, p0, p1, s[k - 1]);
      ChildIsHistory(hist, k - 1);
      var c := Cfr(prev.0, cards, hist + [k - 1], q.0, q.1);
      (c.0, prev.1[k - 1 := -c.1])
  }

  /**
   * One training iteration: deal by shuffling the current arrangement
   * with the iteration's draws, then run one traversal from the empty
   * history with both reaches 1. Yields the table and the deal.
   */
  function TrainStep(t: Table, cards: seq<int>, draws: seq<int>): (r: (Table, seq<int>))
    requires WellFormed(t) && ValidDeal(cards) && DrawsValid(draws)
    ensures WellFormed(r.0) && ValidDeal(r.1)
  {
    var dealt := ShuffleFrom(cards, draws, |cards| - 1);
    ShuffleKeepsDeal(cards, draws);
    assert IsHistory([]);
    (Cfr(t, dealt, [], 1.0, 1.0).0, dealt)
  }

  /** Training as a whole: one `TrainStep` for each of the first `n` entries of `draws`, in order. */
  function TrainRun(t: Table, cards: seq<int>, draws: seq<seq<int>>, n: nat): (r: (Table, seq<int>))
    requires WellFormed(t) && ValidDeal(cards) && n <= |draws|
    requires forall j :: 0 <= j < |draws| ==> DrawsValid(draws[j])
    ensures WellFormed(r.0) && ValidDeal(r.1)
    decreases n, 1
  {
    if n == 0 then (t, cards) else LastStep(t, cards, draws, n)
  }

  function LastStep(t: Table, cards: seq<int>, draws: seq<seq<int>>, n: nat): (r: (Table, seq<int>))
    requires WellFormed(t) && ValidDeal(cards) && 0 < n <= |draws|
    requires forall j :: 0 <= j < |draws| ==> DrawsValid(draws[j])
    ensures WellFormed(r.0) && ValidDeal(r.1)
    decreases n, 0
  {
    var prev := TrainRun(t, cards, draws, n - 1);
    TrainStep(prev.0, prev.1, draws[n - 1])
  }
}
