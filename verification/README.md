# Regret matching and CFR for Kuhn poker and rock-paper-scissors

This project models three small regret-minimisation trainers and proves properties of them:

- **Kuhn poker CFR** (`src/CFR_kuhn_poker.py`).
  - An information-state node keeps a strategy, a regret sum and a strategy sum over the two actions, pass and bet.
  - The trainer creates the twelve nodes of the game: four decision histories crossed with three cards.
  - It deals by a Fisher-Yates shuffle of the three-card array.
  - It walks the game tree once per iteration with `cfr`. The walk propagates the two players' reach probabilities, negates child values, and updates the accumulators of every node it visits.
- **Rock-paper-scissors against a fixed opponent** (`src/RPS_fixed_strategy.py`). Regret matching is played against the mixed strategy 1/4, 1/4, 1/2, with inverse-CDF sampling and an integer regret update.
- **Rock-paper-scissors self-play** (`src/RPS_self_play.py`). Two regret-matching players train against each other. Every regret increment of player 1 is subtracted from player 2.

## Modules

- `Regret` (`regret.dfy`) is shared by all three trainers: regret matching, the average strategy, cumulative sums and inverse-CDF sampling. Vectors are `seq<real>`.
- `RpsGame` (`rps_game.dfy`) holds the payoff table, the utility vector built by modular indexing, and the integer regret update.
- `RpsFixed` and `RpsSelfPlay` (`rps_fixed.dfy`, `rps_self_play.dfy`) hold the trainer classes.
  - Their `strategySum` and `regretSum` fields are reassigned by the methods.
  - Each training loop is proved against a pure function over the sequence of random draws (`Run`).
- `KuhnSpec` (`kuhn_spec.dfy`) is the pure specification of the Kuhn trainer.
  - A history is a sequence of actions (0 = pass, 1 = bet), and a node's name is the key `(player, card, prefix)`.
  - The nodes' accumulators form a table `map<Key, NodeState>`.
  - `Cfr` is one traversal on that table: it returns the new table and the value.
  - `TrainRun` is training as a whole.
- `KuhnCfrProperties` (`kuhn_cfr_properties.dfy`) proves what a traversal does:
  - the value rule and update rule at a decision history, and the terminal case;
  - the frame, i.e. which nodes a traversal may change;
  - that strategies stay distributions;
  - that the regret increments of a visit balance.
- `KuhnTrainer` (`kuhn_trainer.dfy`) is the imperative trainer.
  - `InfoNode` objects are held in a `map<Key, InfoNode>`, and the cards are an `array<int>`.
  - Every method is proved to change `Table()`, the table read off the nodes, exactly as `KuhnSpec` says.
  - The body of `cfr` is split into `TraverseChildren` (the action loop), `VisitChild` (one turn of it), `UpdateNode` and `InfoNode.Update` (the update loop and `update_strategy`).
  - One iteration of `train` is `TrainIteration`.

At the two three-action terminals (pass-bet-pass, pass-bet-bet), `cfr` returns player 0's payoff unchanged, like every other terminal. The player-0 node at pass-bet therefore receives that payoff negated. The model keeps this behaviour, and `KuhnCfrProperties.CfrPassBetValue` states it.

## Model

| member | source | states |
|---|---|---|
| Regret.Uniform | src/RPS_fixed_strategy.py:28 | `np.full(n, 1/n)`: length n, a distribution, every entry times n is 1 |
| Regret.PositivePart | src/RPS_fixed_strategy.py:22 | `np.clip(v, 0, None)`: each entry is `v[i]` if positive and 0 otherwise; the result is non-negative |
| Regret.Divide | src/RPS_fixed_strategy.py:26 | element-wise division: each entry times the divisor gives back the input entry |
| Regret.Add | src/RPS_fixed_strategy.py:29 | `strategy_sum += s`: each entry gains `s[i]`, the total gains `Sum(s)`, non-negativity is kept |
| Regret.RegretMatching | src/RPS_fixed_strategy.py:20-28 | regret matching always yields a probability distribution over the actions |
| Regret.RegretMatchingProportional | src/RPS_fixed_strategy.py:25-26 | when some regret is positive, each probability times the positive total equals that action's positive regret, and an action is played iff its regret is positive |
| Regret.RegretMatchingUniform | src/RPS_fixed_strategy.py:27-28 | when no regret is positive, every probability is 1/n |
| Regret.Average | src/RPS_fixed_strategy.py:45-49 | the strategy sum divided by its total when the total is positive, otherwise uniform; a distribution whenever the sums are non-negative |
| Regret.Dot | src/CFR_kuhn_poker.py:126 | the running `v_total += v_a[a] * strategy[a]` as a left-to-right weighted sum; its contract-bearing partners are `Dot2`, `DotNonNegative` and `DotRunningTotal` |
| Regret.Dot2 | src/CFR_kuhn_poker.py:126 | over two actions the weighted sum is `v[0] * s[0] + v[1] * s[1]` |
| Regret.DotNonNegative | src/CFR_kuhn_poker.py:126 | non-negative values weighted by non-negative weights have a non-negative sum |
| Regret.PrefixSums | src/RPS_fixed_strategy.py:34 | `np.cumsum`: entry i is the sum of the first i+1 entries, and the last is the total |
| Regret.FirstAtLeast | src/RPS_fixed_strategy.py:39-41 | the first index at or after i whose cumulative sum reaches x; all earlier ones fall short |
| Regret.Pick | src/RPS_fixed_strategy.py:33-42 | inverse-CDF sampling as a value: an index of the strategy whose cumulative sum reaches the draw, with every earlier cumulative sum below it |
| Regret.PickAction | src/RPS_fixed_strategy.py:33-42 | for a strategy summing to 1 and x in [0, 1) the scan returns an index below 3 (so the `raise` is unreachable), its cumulative sum reaches x, every earlier one is below x, and it equals `Pick` |
| Regret.FirstAtLeastIsLeast | src/RPS_fixed_strategy.py:39-41 | any index that reaches x with none before it is the one the scan returns |
| Regret.PickInterval | src/RPS_fixed_strategy.py:34-41 | for a distribution, index i is drawn exactly when x lies in the interval `(cum[i-1], cum[i]]` (with 0 included for i = 0) |
| RpsGame.PayoffZeroSum | src/RPS_fixed_strategy.py:58-60 | the payoff table used to read the utility vector is zero-sum |
| RpsGame.Utility | src/RPS_fixed_strategy.py:58-60 | the utility vector has each action's payoff against the opponent's action (0 at `a_other`, +1 at `(a_other+1)%3`, -1 at `(a_other+2)%3`) and sums to 0 |
| RpsGame.RegretUpdate | src/RPS_fixed_strategy.py:62-63 | each regret grows by `u[i] - u[a]`, so the chosen action's regret is unchanged |
| RpsGame.RegretUpdateIsRegret | src/RPS_fixed_strategy.py:62-63 | each regret grows by how much more that action would have won than the chosen one; the chosen action's regret is unchanged |
| RpsGame.ToReals | src/RPS_fixed_strategy.py:21 | the integer regrets read as reals, entry by entry |
| RpsFixed.OtherStrategyIsDistribution | src/RPS_fixed_strategy.py:11 | the opponent's fixed strategy `[1/4, 1/4, 1/2]` is a distribution |
| RpsFixed.Step | src/RPS_fixed_strategy.py:53-63 | one round adds total mass 1 to the strategy sum and keeps it non-negative |
| RpsFixed.Run | src/RPS_fixed_strategy.py:52-63 | after n rounds the strategy sum has gained total mass n and stays non-negative |
| RpsFixed.Trainer.constructor | src/RPS_fixed_strategy.py:6-13 | three actions, zero regrets and strategy sum, the fixed opponent strategy |
| RpsFixed.Trainer.GetStrategy | src/RPS_fixed_strategy.py:20-31 | returns the regret-matching distribution, adds exactly it to the strategy sum (total +1), leaves the regrets alone |
| RpsFixed.Trainer.PickAction | src/RPS_fixed_strategy.py:33-42 | the least index whose cumulative sum reaches the draw, below 3 |
| RpsFixed.Trainer.AverageStrategy | src/RPS_fixed_strategy.py:45-49 | read-only; the normalised strategy sum or uniform, a distribution when the sums are non-negative |
| RpsFixed.Trainer.AddRegrets | src/RPS_fixed_strategy.py:62-63 | the loop adds `u[i] - u[a]` to every regret |
| RpsFixed.Trainer.Train | src/RPS_fixed_strategy.py:52-63 | training leaves regrets and strategy sum as `Run` of the draws; the opponent's strategy is a constant |
| RpsSelfPlay.Step | src/RPS_self_play.py:56-70 | one round adds mass 1 to each strategy sum, keeps them non-negative, and changes the two regret vectors by opposite amounts |
| RpsSelfPlay.ChosenActionUnchanged | src/RPS_self_play.py:67-70 | `val1` is 0 at player 1's action, so neither player's regret for it changes |
| RpsSelfPlay.Run | src/RPS_self_play.py:47-70 | from zero, the two regret vectors stay exact negations, and each strategy sum is non-negative with total equal to the number of rounds |
| RpsSelfPlay.Player.constructor | src/RPS_self_play.py:6-11 | three actions, zero regrets and strategy sum |
| RpsSelfPlay.Player.GetStrategy | src/RPS_self_play.py:15-26 | returns the regret-matching distribution and adds it to the strategy sum (total +1) |
| RpsSelfPlay.Player.PickAction | src/RPS_self_play.py:28-37 | the least index whose cumulative sum reaches the draw, below 3 |
| RpsSelfPlay.Player.AverageStrategy | src/RPS_self_play.py:40-44 | read-only; the normalised strategy sum or uniform, a distribution when the sums are non-negative |
| RpsSelfPlay.OpposedUpdate | src/RPS_self_play.py:70 | player 2's regrets change by exactly the opposite of player 1's `RegretUpdate` |
| RpsSelfPlay.UpdateRegrets | src/RPS_self_play.py:67-70 | the loop adds `val1` to player 1's regrets and subtracts it from player 2's |
| RpsSelfPlay.PlayRound | src/RPS_self_play.py:57-70 | one loop body changes both players exactly as `Step` |
| RpsSelfPlay.Train | src/RPS_self_play.py:47-73 | the players end in the state `Run` gives, and both returned averages are distributions |
| KuhnSpec.ChildIsHistory | src/CFR_kuhn_poker.py:116-122 | every action at a decision history leads to a decision or terminal history, at most three actions deep |
| KuhnSpec.GetPlayer | src/CFR_kuhn_poker.py:101-102 | player 0 after an even number of actions, player 1 after an odd number |
| KuhnSpec.DealIsPermutation | src/CFR_kuhn_poker.py:43 | every deal (three distinct cards in range) is a rearrangement of jack, queen, king |
| KuhnSpec.PermutationIsDeal | src/CFR_kuhn_poker.py:43 | every rearrangement of jack, queen, king is a deal |
| KuhnSpec.TerminalVal | src/CFR_kuhn_poker.py:70-91 | the payoff to player 0 is ±1 or ±2; it is ±2 exactly for the two bet-call showdowns, and positive exactly for bet-fold or a showdown won by player 0 |
| KuhnSpec.TerminalValRankOnly | src/CFR_kuhn_poker.py:70-91 | payoffs depend only on whether player 0's card is higher |
| KuhnSpec.InfoKey | src/CFR_kuhn_poker.py:94-97 | the lookup key is the player to act, that player's card and the history |
| KuhnSpec.KeyByDecisionPoint | src/CFR_kuhn_poker.py:48-66 | the keys are exactly player 0 at the empty history, player 1 after bet, player 1 after pass, player 0 after pass-bet, each with one of three cards |
| KuhnSpec.AllKeysShape | src/CFR_kuhn_poker.py:48-66 | the listed twelve keys are exactly the keys of the game |
| KuhnSpec.AllKeysCount | src/CFR_kuhn_poker.py:48-66 | there are twelve distinct keys |
| KuhnSpec.InfoKeyFound | src/CFR_kuhn_poker.py:94-98 | the lookup finds a node exactly at the four decision histories |
| KuhnSpec.InitialTable | src/CFR_kuhn_poker.py:11-14 | the fresh table holds exactly the twelve keys with distribution strategies and non-negative sums |
| KuhnSpec.Swap | src/CFR_kuhn_poker.py:107 | the two entries trade places and every other entry stays |
| KuhnSpec.SwapPermutes | src/CFR_kuhn_poker.py:107 | a swap rearranges the cards |
| KuhnSpec.SwapKeepsDeal | src/CFR_kuhn_poker.py:107 | a swap of a deal is a deal |
| KuhnSpec.ShuffleFrom | src/CFR_kuhn_poker.py:104-107 | the descending swaps never touch the positions above the current one, and position `c1` ends holding the card its draw selected |
| KuhnSpec.ShufflePermutes | src/CFR_kuhn_poker.py:104-107 | the Fisher-Yates pass rearranges the cards |
| KuhnSpec.ShuffleKeepsDeal | src/CFR_kuhn_poker.py:104-107 | shuffling a deal gives a deal |
| KuhnSpec.Accumulate | src/CFR_kuhn_poker.py:128-132 | after a visit's update the strategy is a distribution, and the strategy sum stays non-negative for a non-negative reach |
| KuhnSpec.Cfr | src/CFR_kuhn_poker.py:109-133 | a traversal keeps a node for exactly the twelve keys |
| KuhnSpec.Visit | src/CFR_kuhn_poker.py:114-133 | a visit keeps a node for exactly the twelve keys; its value and update rule are stated by `KuhnCfrProperties.CfrAtDecision` |
| KuhnSpec.Children | src/CFR_kuhn_poker.py:116-126 | the first k loop turns keep a node for exactly the twelve keys; their order and values are stated by `KuhnCfrProperties.ChildrenStep`, `ChildrenPending` and `ChildrenTwo` |
| KuhnSpec.ChildReach | src/CFR_kuhn_poker.py:117-124 | the acting player's reach is scaled by the action's probability, the other's passes through, so the joint reach is scaled by it |
| KuhnSpec.RegretsAfter | src/CFR_kuhn_poker.py:129 | with a positive opponent reach, an action's regret rises exactly when its value beats the node's value and falls exactly when it is below; `KuhnCfrProperties.RegretsAfterBalance` shows the increments balance |
| KuhnSpec.TrainStep | src/CFR_kuhn_poker.py:138-140 | an iteration keeps the twelve keys and leaves a valid deal |
| KuhnSpec.TrainRun | src/CFR_kuhn_poker.py:137-140 | training keeps the twelve keys and a valid deal |
| KuhnCfrProperties.CfrAtTerminal | src/CFR_kuhn_poker.py:110-112 | at a terminal history the value is player 0's payoff with no sign change, and the table is unchanged |
| KuhnCfrProperties.CfrFrame | src/CFR_kuhn_poker.py:109-133 | a traversal from a history changes only nodes whose history extends it and whose card is held by the player acting there |
| KuhnCfrProperties.ChildrenFrame | src/CFR_kuhn_poker.py:116-125 | the child traversals change only nodes strictly below the history |
| KuhnCfrProperties.ChildrenKeepOwnState | src/CFR_kuhn_poker.py:116-125 | the child traversals leave the visited node's own accumulators alone |
| KuhnCfrProperties.ChildrenStep | src/CFR_kuhn_poker.py:116-125 | child k is traversed on the table the earlier children leave, and its negated value fills entry k |
| KuhnCfrProperties.ChildrenPending | src/CFR_kuhn_poker.py:115 | before its turn, an action's value is still 0 |
| KuhnCfrProperties.ChildrenLoopStep | src/CFR_kuhn_poker.py:116-126 | one turn of the action loop moves from k children to k+1 and keeps the visited node's state |
| KuhnCfrProperties.ChildrenTwo | src/CFR_kuhn_poker.py:116-125 | pass is traversed first, bet second on the table pass leaves, and the values are the two child values negated |
| KuhnCfrProperties.CfrUnfold | src/CFR_kuhn_poker.py:109-133 | a visit is its children, then the update of its own state with the strategy-weighted value |
| KuhnCfrProperties.AccumulateEntry | src/CFR_kuhn_poker.py:128-132 | the update adds `p_minus_i * (v_a[a] - v_total)` to `regret_sum[a]` and `p_i * strategy[a]` to `strategy_sum[a]`, then recomputes the strategy by regret matching |
| KuhnCfrProperties.CfrAtDecision | src/CFR_kuhn_poker.py:114-133 | at a decision history the children are traversed with the actor's reach scaled by the action's probability and the opponent's passed through; the value is the strategy-weighted sum of the negated child values; the node is updated with the opponent's and the actor's reach, using the strategy from before the update |
| KuhnCfrProperties.CfrPassBetValue | src/CFR_kuhn_poker.py:109-126 | at pass-bet the value is minus player 0's expected payoff under the node's strategy |
| KuhnCfrProperties.CfrKeepsStrategies | src/CFR_kuhn_poker.py:109-133 | with non-negative reaches every strategy stays a distribution and every strategy sum non-negative |
| KuhnCfrProperties.ChildrenKeepStrategies | src/CFR_kuhn_poker.py:116-125 | the same for the child traversals |
| KuhnCfrProperties.ChildReachNonNegative | src/CFR_kuhn_poker.py:117-124 | reaches passed to a child stay non-negative |
| KuhnCfrProperties.RegretIncrementsBalance | src/CFR_kuhn_poker.py:126-129 | the visited node's regret increments, weighted by the strategy it used, sum to 0 |
| KuhnCfrProperties.RegretsAfterBalance | src/CFR_kuhn_poker.py:126-129 | the same for the regret update alone |
| KuhnCfrProperties.IncrementsCancel | src/CFR_kuhn_poker.py:126-129 | increments `c * (v_a[a] - v_total)` cancel under a distribution when `v_total` is the weighted value |
| KuhnCfrProperties.DealtKeys | src/CFR_kuhn_poker.py:94-98 | the four keys a root traversal can look up with a deal are four distinct keys of the game |
| KuhnCfrProperties.CfrRootFrame | src/CFR_kuhn_poker.py:140 | a traversal from the empty history changes at most the four nodes of the dealt cards; the other eight are untouched |
| KuhnCfrProperties.TrainStepParts | src/CFR_kuhn_poker.py:139-140 | an iteration is the shuffle followed by a root traversal with both reaches 1 |
| KuhnCfrProperties.TrainKeepsStrategies | src/CFR_kuhn_poker.py:137-140 | training keeps every strategy a distribution and every strategy sum non-negative |
| KuhnTrainer.Zeros | src/CFR_kuhn_poker.py:13-14 | `np.zeros(n)`: length n, every entry 0 |
| KuhnTrainer.InfoNode.constructor | src/CFR_kuhn_poker.py:11-18 | uniform strategy, zero regret and strategy sums, and the given player, card, history and actions |
| KuhnTrainer.InfoNode.UpdateStrategy | src/CFR_kuhn_poker.py:26-32 | the new strategy is regret matching of the regret sum, a distribution |
| KuhnTrainer.InfoNode.Update | src/CFR_kuhn_poker.py:128-132 | the update loop and `update_strategy` change the node exactly as `Accumulate` |
| KuhnTrainer.InfoNode.GetAverageStrategy | src/CFR_kuhn_poker.py:34-37 | read-only; the normalised strategy sum or uniform, a distribution when the sums are non-negative |
| KuhnTrainer.UniformTwo | src/CFR_kuhn_poker.py:12 | the uniform strategy over two actions is one half each |
| KuhnTrainer.InitialNodes | src/CFR_kuhn_poker.py:48-66 | fresh nodes, one per key and named by it, read as the initial table |
| KuhnTrainer.Trainer.constructor | src/CFR_kuhn_poker.py:41-44 | the cards are jack, queen, king, the table is the initial one, and the card array and every node are newly allocated, so the caller may train the new trainer |
| KuhnTrainer.Trainer.MakeInfostates | src/CFR_kuhn_poker.py:48-66 | creates an unvisited node, named by its key, for exactly the twelve keys; every node is newly allocated |
| KuhnTrainer.Trainer.AddDecisionPoint | src/CFR_kuhn_poker.py:50-52 | one loop adds a newly allocated, unvisited node for the given player and history with each of the three cards; the earlier keys keep their node objects and no other key is added |
| KuhnTrainer.Trainer.GetInfostate | src/CFR_kuhn_poker.py:94-98 | finds a node exactly at the decision histories; it is the node for the player to act, their card and the history |
| KuhnTrainer.Trainer.Shuffle | src/CFR_kuhn_poker.py:104-107 | the in-place swaps give `ShuffleFrom` of the old cards, which is again a deal |
| KuhnTrainer.Trainer.UpdateNode | src/CFR_kuhn_poker.py:128-132 | only the visited node's entry of the table changes, to `Accumulate` of its old one |
| KuhnTrainer.Trainer.VisitChild | src/CFR_kuhn_poker.py:116-126 | one turn of the action loop: the table and values after k+1 children, the running total as the weighted sum, and the two reaches |
| KuhnTrainer.Trainer.TraverseChildren | src/CFR_kuhn_poker.py:114-126 | the action loop gives the children's table and values, and `v_total` as their strategy-weighted sum |
| KuhnTrainer.Trainer.Cfr | src/CFR_kuhn_poker.py:109-133 | the traversal changes the table and returns the value exactly as `KuhnSpec.Cfr` |
| KuhnTrainer.Trainer.TrainIteration | src/CFR_kuhn_poker.py:139-140 | one iteration changes table and cards exactly as `TrainStep` |
| KuhnTrainer.Trainer.Train | src/CFR_kuhn_poker.py:137-140 | training changes table and cards exactly as `TrainRun` |
| KuhnTrainer.NewTrainerTrained | src/CFR_kuhn_poker.py:150-153 | a new trainer, trained on the draws, holds `TrainRun` of the initial table and the cards jack, queen, king |

## Left out

- Printing is not modelled: `__str__`, `do_print`, the key dump after `make_infostates`, the report loop after `train`, the periodic print in the fixed-opponent `train`, and the prints of the `__main__` blocks. Creating and training the Kuhn trainer in its `__main__` block is `KuhnTrainer.NewTrainerTrained`; the RPS `__main__` blocks only construct, train and print, which `RpsFixed.Trainer.Train` and `RpsSelfPlay.Train` cover.
- `np.round(res, 3)` in `get_average_strategy` is not modelled; `GetAverageStrategy` returns the unrounded vector.
- Randomness is not modelled. `random.randint(0, c1)` becomes a per-iteration draw vector with `0 <= draws[c1] <= c1`, and `random.random()` becomes a draw in [0, 1). Both are passed as parameters, and `random.seed` has no counterpart.
- Floating point is not modelled: probabilities and sums are exact `real`s. Python integers are unbounded, so the integer RPS regrets are `int`.
- Regret.PickAction, RpsFixed.Trainer.PickAction, RpsSelfPlay.Player.PickAction: require the strategy to sum to exactly 1. The source's check is a tolerance of `1e-4`.
- The `tol` field is not part of the model.
- The string keys of the node dictionary are modelled as the key `(player, card, prefix)`. The string round trip is not modelled, since two keys format to the same string exactly when they are equal.
- KuhnSpec.TerminalVal: requires one of the five terminal histories. The `ValueError` for other strings is not modelled, since a traversal from the empty history never reaches it.
- KuhnTrainer.Trainer.Cfr: requires a decision or terminal history. The source accepts any string, but from the empty history it only ever reaches these nine.
- KuhnTrainer.InfoNode.Update: requires two actions. All twelve nodes have two actions; `update_strategy` and `get_average_strategy` are modelled for any number.
- Convergence of either trainer to an equilibrium is not modelled. It is statistical, and at the three-action terminals the value sign noted above does not support it.
- The Kuhn action loop iterates over `info_s.actions`, which is `[PASS, BET]`. It is modelled as a loop over the indices 0 and 1, which are equal to those two actions.
