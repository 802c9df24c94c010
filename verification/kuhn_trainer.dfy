/**
 * The Kuhn poker CFR trainer as objects: one `InfoNode` per information
 * state holding its strategy, regret sum and strategy sum, and a `Trainer`
 * holding the table of nodes and the card array. Every method is proved
 * against the pure specification in `KuhnSpec`: `Table()` reads the nodes'
 * accumulators as a table of values, and the traversal and training loop
 * change that table exactly as `KuhnSpec.Cfr` and `KuhnSpec.TrainRun` say.
 */
module KuhnTrainer {
  import opened Regret
  import opened KuhnSpec
  import opened KuhnCfrProperties

  datatype Option<T> = None | Some(value: T)

  /** The constant vector of `n` zeros (`np.zeros(n)`). */
  function Zeros(n: nat): (z: seq<real>)
    ensures |z| == n && NonNegative(z)
    ensures forall i :: 0 <= i < n ==> z[i] == 0.0
  {
    seq(n, _ => 0.0)
  }

  class InfoNode {
    const player: nat
    const card: int
    const previousActions: History
    const actions: seq<int>
    var strategy: seq<real>
    var regretSum: seq<real>
    var strategySum: seq<real>

    /** Every vector has one entry per action. */
    ghost predicate Valid()
      reads this
    {
      |actions| > 0 && |strategy| == |actions| && |regretSum| == |actions| && |strategySum| == |actions|
    }

    /** A node starts with the uniform strategy and zero sums. */
    constructor (player: nat, card: int, previousActions: History, actions: seq<int>)
      requires |actions| > 0
      ensures Valid()
      ensures this.player == player && this.card == card
      ensures this.previousActions == previousActions && this.actions == actions
      ensures strategy == Uniform(|actions|) && regretSum == Zeros(|actions|) && strategySum == Zeros(|actions|)
    {
      this.player := player;
      this.card := card;
      this.previousActions := previousActions;
      this.actions := actions;
      strategy := Uniform(|actions|);
      regretSum := Zeros(|actions|);
      strategySum := Zeros(|actions|);
    }

    /** The node's name in the trainer's table: its history, player and card. */
    function Name(): Key
    {
      Key(player, card, previousActions)
    }

    /** The accumulators as a value of the specification. */
    ghost function State(): NodeState
      reads this
      requires |strategy| == 2 && |regretSum| == 2 && |strategySum| == 2
    {
      NodeState(strategy, regretSum, strategySum)
    }

    /**
     * Regret matching in place: the positive part of the regret sum,
     * normalised when its total is positive and uniform otherwise.
     */
    method UpdateStrategy()
      requires Valid()
      modifies this`strategy
      ensures Valid() && strategy == RegretMatching(regretSum) && IsDistribution(strategy)
    {
      strategy := PositivePart(regretSum);
      var s := Sum(strategy);
      if s > 0.0 {
        strategy := Divide(strategy, s);
      } else {
        strategy := Uniform(|actions|);
      }
    }

    /**
     * The update at the end of a visit: each action's regret gains the
     * opponent's reach times how much better the action did than the
     * node's value `vTotal`, each strategy sum gains the actor's reach times
     * the action's probability, and the strategy is then recomputed.
     */
    method Update(vs: seq<real>, vTotal: real, pMinusI: real, pI: real)
      requires Valid() && |actions| == 2 && |vs| == 2
      modifies this`regretSum, this`strategySum, this`strategy
      ensures Valid() && State() == Accumulate(old(State()), vs, vTotal, pMinusI, pI)
    {
      ghost var n := State();
      ghost var r := Accumulate(n, vs, vTotal, pMinusI, pI);
      for a := 0 to |actions|
        invariant Valid() && strategy == n.strategy
        invariant forall b :: 0 <= b < a ==> regretSum[b] == r.regretSum[b] && strategySum[b] == r.strategySum[b]
        invariant forall b :: a <= b < 2 ==> regretSum[b] == n.regretSum[b] && strategySum[b] == n.strategySum[b]
      {
        AccumulateEntry(n, vs, vTotal, pMinusI, pI, a);
        regretSum := regretSum[a := regretSum[a] + pMinusI * (vs[a] - vTotal)];
        strategySum := strategySum[a := strategySum[a] + pI * strategy[a]];
      }
      assert regretSum == r.regretSum && strategySum == r.strategySum;
      UpdateStrategy();
    }

    /**
     * The strategy sum normalised by its total, or uniform over the actions
     * while the total is not positive; the node is left unchanged.
     */
    function GetAverageStrategy(): (a: seq<real>)
      reads this
      requires Valid()
      ensures a == Average(strategySum)
      ensures NonNegative(strategySum) ==> IsDistribution(a)
    {
      var s := Sum(strategySum);
      if s > 0.0 then Divide(strategySum, s) else Uniform(|actions|)
    }
  }

  /** `np.full(2, 1 / 2)` is the specification's fresh strategy. */
  lemma {:induction false} UniformTwo()
    ensures Uniform(2) == InitialNode.strategy
  {
    assert Uniform(2)[0] == 0.5 && Uniform(2)[1] == 0.5;
  }

  /** A node created for key `k` by `make_infostates`, not yet visited. */
  ghost predicate Initial(n: InfoNode, k: Key)
    reads n
  {
    n.Valid() && n.Name() == k && n.actions == Actions &&
    n.strategy == InitialNode.strategy && n.regretSum == InitialNode.regretSum && n.strategySum == InitialNode.strategySum
  }

  /** Every node of `m` is unvisited and named by its key. */
  ghost predicate AllInitial(m: map<Key, InfoNode>)
    reads set k | k in m :: m[k]
  {
    forall k | k in m :: Initial(m[k], k)
  }

  /** Unvisited nodes, one for each key and named by it, read as the initial table. */
  lemma {:induction false} InitialNodes(m: map<Key, InfoNode>)
    requires (forall k {:trigger IsKey(k)} :: k in m <==> IsKey(k)) && AllInitial(m)
    ensures forall k | k in m :: m[k].Name() == k && m[k].actions == Actions && m[k].Valid()
    ensures (map k | k in m :: m[k].State()) == InitialTable()
  {
    forall k | k in m
      ensures m[k].Name() == k && m[k].actions == Actions && m[k].Valid() && m[k].State() == InitialNode
    {
      assert Initial(m[k], k);
    }
    forall k ensures k in m <==> k in AllKeys {
      AllKeysShape(k);
    }
  }

  class Trainer {
    var nodes: map<Key, InfoNode>
    var cards: array<int>

    /** The node objects of the table. */
    ghost function Nodes(): set<InfoNode>
      reads this
    {
      set k | k in nodes :: nodes[k]
    }

    /**
     * The table holds a node for exactly the twelve keys, each named by its
     * own key, with the two actions pass and bet.
     */
    ghost predicate NodesValid()
      reads this, Nodes()
    {
      (forall k {:trigger IsKey(k)} :: k in nodes <==> IsKey(k)) &&
      (forall k | k in nodes :: nodes[k].Name() == k && nodes[k].actions == Actions && nodes[k].Valid())
    }

    /** The cards are a deal and the table is as `NodesValid` says. */
    ghost predicate Valid()
      reads this, cards, Nodes()
    {
      cards.Length == 3 && ValidDeal(cards[..]) && NodesValid()
    }

    /** The accumulators of every node, as a table of the specification. */
    ghost function Table(): (t: Table)
      reads this, Nodes()
      requires NodesValid()
      ensures WellFormed(t)
    {
      map k | k in nodes :: nodes[k].State()
    }

    /**
     * A fresh trainer: the cards in the order jack, queen, king and the
     * twelve nodes of `make_infostates`, all unvisited.
     */
    constructor ()
      ensures Valid() && Table() == InitialTable() && cards[..] == Cards
      ensures fresh(cards) && fresh(Nodes())
    {
      nodes := map[];
      cards := new int[3] [JACK, QUEEN, KING];
      new;
      assert cards[..] == Cards;
      MakeInfostates();
      InitialNodes(nodes);
      assert ValidDeal(Cards);
    }

    /**
     * The four decision histories in turn (empty, bet, pass, pass-bet),
     * each crossed with the three cards; the player of each node is the
     * one to act after its history.
     */
    method MakeInfostates()
      requires nodes == map[]
      modifies this`nodes
      ensures (forall k {:trigger IsKey(k)} :: k in nodes <==> IsKey(k)) && AllInitial(nodes)
      ensures fresh(Nodes())
    {
      AddDecisionPoint(0, []);
      AddDecisionPoint(1, [BET]);
      AddDecisionPoint(1, [PASS]);
      AddDecisionPoint(0, [PASS, BET]);
      forall k ensures k in nodes <==> IsKey(k) {
        KeyByDecisionPoint(k);
      }
    }

    /** One loop of `make_infostates`: a node for `player` at `prefix` with each card. */
    method AddDecisionPoint(player: nat, prefix: History)
      requires forall k | k in nodes :: k.prefix != prefix
      requires AllInitial(nodes)
      modifies this`nodes
      ensures forall k :: k in nodes <==> k in old(nodes) || (k.player == player && k.prefix == prefix && 0 <= k.card < 3)
      ensures AllInitial(nodes)
      ensures forall k | k in old(nodes) :: nodes[k] == old(nodes)[k]
      ensures forall k | k in nodes && k !in old(nodes) :: fresh(nodes[k])
    {
      UniformTwo();
      for i := 0 to |Cards|
        invariant forall k :: k in nodes <==> k in old(nodes) || (k.player == player && k.prefix == prefix && 0 <= k.card < i)
        invariant AllInitial(nodes)
        invariant forall k | k in old(nodes) :: nodes[k] == old(nodes)[k]
        invariant forall k | k in nodes && k !in old(nodes) :: fresh(nodes[k])
      {
        var node := new InfoNode(player, Cards[i], prefix, Actions);
        assert node.Name() !in nodes;
        nodes := nodes[node.Name() := node];
      }
    }

    /**
     * The node for `hist` under the current deal, or none: the lookup key
     * is the player to act, that player's card and the history itself.
     */
    function GetInfostate(hist: History): (r: Option<InfoNode>)
      reads this, cards, Nodes()
      requires Valid()
      ensures r.Some? <==> IsDecision(hist)
      ensures r.Some? ==> InfoKey(cards[..], hist) in nodes && r.value == nodes[InfoKey(cards[..], hist)]
      ensures r.Some? ==> r.value.player == GetPlayer(hist) && r.value.card == cards[GetPlayer(hist)] &&
                          r.value.previousActions == hist
    {
      var player := GetPlayer(hist);
      var key := Key(player, cards[player], hist);
      InfoKeyFound(cards[..], hist);
      if key in nodes then Some(nodes[key]) else None
    }

    /**
     * Fisher-Yates from the last position down: position `c1` swaps with
     * `draws[c1]`, the draw `random.randint(0, c1)` would return.
     */
    method Shuffle(draws: seq<int>)
      requires Valid() && KuhnSpec.DrawsValid(draws)
      modifies cards
      ensures Valid() && cards[..] == ShuffleFrom(old(cards[..]), draws, |old(cards[..])| - 1)
    {
      ShuffleKeepsDeal(cards[..], draws);
      var c1 := cards.Length - 1;
      while c1 >= 0
        invariant -1 <= c1 <= 2
        invariant ShuffleFrom(cards[..], draws, c1) == ShuffleFrom(old(cards[..]), draws, |old(cards[..])| - 1)
      {
        var c2 := draws[c1];
        cards[c1], cards[c2] := cards[c2], cards[c1];
        c1 := c1 - 1;
      }
    }

    /**
     * The update at the end of a visit, seen from the table: the visited
     * node's entry becomes `Accumulate` of its old one, and no other node
     * changes, since every node is stored under its own name.
     */
    method UpdateNode(node: InfoNode, ghost key: Key, vs: seq<real>, vTotal: real, pMinusI: real, pI: real)
      requires Valid() && key in nodes && node == nodes[key] && |vs| == 2
      modifies node
      ensures Valid()
      ensures Table() == old(Table())[key := Accumulate(old(Table())[key], vs, vTotal, pMinusI, pI)]
    {
      ghost var t1 := Table();
      node.Update(vs, vTotal, pMinusI, pI);
      forall k | k in nodes
        ensures Table()[k] == t1[key := node.State()][k]
      {
        if k != key {
          assert nodes[k].Name() != node.Name();
        }
      }
    }

    /**
     * One turn of the action loop of `cfr`: the child for action `a` is
     * traversed with the reach of the player to act scaled by the node's
     * probability of `a`, its value is negated into entry `a` of `vA` and
     * weighted into the running total `vTotal`; the opponent's reach and the
     * actor's own are returned alongside.
     */
    method VisitChild(hist: History, p0: real, p1: real, node: InfoNode, a: nat, vA: seq<real>, vTotal: real,
                      ghost t0: Table, ghost s: seq<real>)
      returns (vA': seq<real>, vTotal': real, pMinusI: real, pI: real)
      requires Valid() && IsDecision(hist) && a < 2 && WellFormed(t0) && |s| == 2
      requires InfoKey(cards[..], hist) in nodes && node == nodes[InfoKey(cards[..], hist)] && node.strategy == s
      requires InfoKey(cards[..], hist) in t0 && t0[InfoKey(cards[..], hist)].strategy == s
      requires Table() == Children(t0, cards[..], hist, p0, p1, s, a).0 && vA == Children(t0, cards[..], hist, p0, p1, s, a).1
      requires vTotal == Dot(vA, s)
      modifies Nodes()
      ensures Valid() && node.strategy == s
      ensures Table() == Children(t0, cards[..], hist, p0, p1, s, a + 1).0 && vA' == Children(t0, cards[..], hist, p0, p1, s, a + 1).1
      ensures vTotal' == Dot(vA', s)
      ensures pMinusI == (if GetPlayer(hist) == 0 then p1 else p0) && pI == (if GetPlayer(hist) == 0 then p0 else p1)
      decreases 3 - |hist|, 0
    {
      ChildIsHistory(hist, a);
      var sa := node.strategy[a];
      var q := ChildReach(hist, p0, p1, sa);
      var r := Cfr(hist + [a], q.0, q.1);
      if GetPlayer(hist) == 0 {
        pMinusI := p1;
        pI := p0;
      } else {
        pMinusI := p0;
        pI := p1;
      }
      vA' := vA[a := -r];
      ChildrenLoopStep(t0, cards[..], hist, p0, p1, s, a, old(Table()), vA, Table(), r);
      assert node.strategy == Table()[InfoKey(cards[..], hist)].strategy;
      vTotal' := vTotal + vA'[a] * sa;
      DotRunningTotal(vA, vA', s, a, sa, vTotal, vTotal');
    }

    /**
     * The action loop of `cfr` at a node: each child is traversed in action
     * order on the table the earlier ones leave, its value negated into
     * `vA`, and the strategy-weighted sum of those values kept in `vTotal`.
     * The node's own accumulators are not touched.
     */
    method TraverseChildren(hist: History, p0: real, p1: real, node: InfoNode)
      returns (vA: seq<real>, vTotal: real, pMinusI: real, pI: real)
      requires Valid() && IsDecision(hist)
      requires InfoKey(cards[..], hist) in nodes && node == nodes[InfoKey(cards[..], hist)]
      modifies Nodes()
      ensures Valid() && node.strategy == old(node.strategy)
      ensures Table() == Children(old(Table()), cards[..], hist, p0, p1, old(node.strategy), 2).0
      ensures vA == Children(old(Table()), cards[..], hist, p0, p1, old(node.strategy), 2).1
      ensures vTotal == Dot(vA, node.strategy)
      ensures pMinusI == (if GetPlayer(hist) == 0 then p1 else p0) && pI == (if GetPlayer(hist) == 0 then p0 else p1)
      decreases 3 - |hist|, 1
    {
      ghost var key := InfoKey(cards[..], hist);
      ghost var t0 := Table();
      ghost var s := node.strategy;
      vTotal := 0.0;
      vA := Zeros(|node.actions|);
      pMinusI, pI := 0.0, 0.0;
      assert vA == [0.0, 0.0];
      Dot2(vA, s);
      for a := 0 to |node.actions|
        invariant Valid()
        invariant Table() == Children(t0, cards[..], hist, p0, p1, s, a).0
        invariant vA == Children(t0, cards[..], hist, p0, p1, s, a).1
        invariant node.strategy == s && vTotal == Dot(vA, s)
        invariant a > 0 ==> pMinusI == (if GetPlayer(hist) == 0 then p1 else p0)
        invariant a > 0 ==> pI == (if GetPlayer(hist) == 0 then p0 else p1)
      {
        vA, vTotal, pMinusI, pI := VisitChild(hist, p0, p1, node, a, vA, vTotal, t0, s);
      }
    }

    /**
     * One traversal: at a history without a node, the payoff to player 0;
     * otherwise each action's child is traversed with the actor's reach
     * scaled by the action's probability, the values are negated and
     * weighted into the node's value, and the node's regret and strategy
     * sums are updated and its strategy recomputed.
     */
    method Cfr(hist: History, p0: real, p1: real) returns (v: real)
      requires Valid() && IsHistory(hist)
      modifies Nodes()
      ensures Valid()
      ensures Table() == KuhnSpec.Cfr(old(Table()), cards[..], hist, p0, p1).0
      ensures v == KuhnSpec.Cfr(old(Table()), cards[..], hist, p0, p1).1
      decreases 3 - |hist|, 2
    {
      var infoS := GetInfostate(hist);
      if infoS.None? {
        v := TerminalVal(hist, cards[..]) as real;
        return;
      }
      var node := infoS.value;
      ghost var key := InfoKey(cards[..], hist);
      ghost var t0 := Table();
      ghost var s := node.strategy;
      var vA, vTotal, pMinusI, pI := TraverseChildren(hist, p0, p1, node);
      ChildrenKeepOwnState(t0, cards[..], hist, p0, p1, s, 2);
      CfrUnfold(t0, cards[..], hist, p0, p1);
      UpdateNode(node, key, vA, vTotal, pMinusI, pI);
      v := vTotal;
    }

    /** One iteration of `train`: shuffle with `draws`, then a traversal from the root with both reaches one. */
    method TrainIteration(draws: seq<int>)
      requires Valid() && KuhnSpec.DrawsValid(draws)
      modifies cards, Nodes()
      ensures Valid()
      ensures Table() == TrainStep(old(Table()), old(cards[..]), draws).0
      ensures cards[..] == TrainStep(old(Table()), old(cards[..]), draws).1
    {
      ghost var t0, c0 := Table(), cards[..];
      Shuffle(draws);
      assert IsHistory([]);
      var _ := Cfr([], 1.0, 1.0);
      TrainStepParts(t0, c0, draws, Table(), cards[..]);
    }

    /**
     * Training: each iteration deals by shuffling the cards with its own
     * draws and then traverses the game once from the empty history with
     * both reaches one.
     */
    method Train(iterations: nat, draws: seq<seq<int>>)
      requires Valid() && |draws| == iterations
      requires forall j :: 0 <= j < |draws| ==> KuhnSpec.DrawsValid(draws[j])
      modifies cards, Nodes()
      ensures Valid()
      ensures Table() == TrainRun(old(Table()), old(cards[..]), draws, iterations).0
      ensures cards[..] == TrainRun(old(Table()), old(cards[..]), draws, iterations).1
    {
      ghost var t0, c0 := Table(), cards[..];
      for i := 0 to iterations
        invariant Valid()
        invariant Table() == TrainRun(t0, c0, draws, i).0 && cards[..] == TrainRun(t0, c0, draws, i).1
      {
        TrainIteration(draws[i]);
      }
    }
  }

  /**
   * The script's entry: a new trainer is created and trained, each
   * iteration with its own draws in place of the seeded generator.
   */
  method NewTrainerTrained(iterations: nat, draws: seq<seq<int>>) returns (trainer: Trainer)
    requires |draws| == iterations
    requires forall j :: 0 <= j < |draws| ==> KuhnSpec.DrawsValid(draws[j])
    ensures trainer.Valid()
    ensures trainer.Table() == TrainRun(InitialTable(), Cards, draws, iterations).0
    ensures trainer.cards[..] == TrainRun(InitialTable(), Cards, draws, iterations).1
  {
    trainer := new Trainer();
    trainer.Train(iterations, draws);
  }
}
