# AI Tournament core, modelled in Dafny

AITournament runs tournaments of game-playing agents. A game supplies its player limits, per-player
views, moves and results. Standalone players and player pools are drafted into a roster for
every game. The engine plays the game and hands each pool the results of its members, so the
pool can evolve them. This project models the parts that decide who plays, what is recorded,
and how pools and the draughts game change their state:

- `Roster`, `TournamentEngine` (engine/enigne.py) and `LegacyEngine` (enigne.py at the top
  level): the game-info limits, roster validation, and the drafting of standalone players and
  pool members, round by round, until the roster is full. `_run` also registers results by
  player and by pool and trains each pool on its members' results. The older revision is kept
  with its own behaviour: its scheduler loop never runs, it loops forever without pools, and
  line 67 raises.
- `GameIds` (game.py): turn-order ids handed out by `prepare_new_game` and looked up by
  `get_player_id`; the id map is never cleared between games.
- `EvolutionPool` and `EvolutionReplacement`
  (engine/algorithms/tensorflow/evolution_mutation.py): the tournament-selection pool. It has
  a simultaneous mode and a 1-on-1 mode with a 3/1/0 score table. It also has the replacement
  pass that copies the winners over the whole population, with noise.
- `OnePlusOnePool` (engine/algorithms/tensorflow/one_plus_one_pool.py): the 1+1 pool of a
  best and a challenger, and its self-adaptive mutation strength.
- `MinMax` (algorithms/minmax_player.py): the fixed-depth minimax player, over an abstract
  game logic.
- `DraughtsBoard`, `DraughtsView` and `DraughtsLogic` (engine/games/draughts.py): the 10x10
  board, the views derived from it (pieces moved, side turned, end-of-game verdict, repetition
  count), move listing with the longest-capture rule, move application, and evaluation.

Imperative code keeps its form. `Game`, `Engine`, the pools and `DraughtsView` are classes
whose methods update their fields. Loops are methods with invariants, and each method is
proved against a specification function, whose properties are proved as lemmas. Quirks of the
code are modelled as written, each stated by a contract:

- the pool test of engine/enigne.py:77 looks up a pool among players' keys;
- the winner swap of draughts.py:50-53;
- the early stop at draughts.py:79 while counting the other side;
- `_encode_state` (draughts.py:106-116) reads five consecutive rows of each column (rows 0-4
  or 1-5), not the dark fields, so positions that differ only on rows 6-9 share a code and
  count as repetitions at lines 96-104;
- the king sweep of draughts.py:320-327, whose examined field is taken relative to the board
  origin;
- `_can_piece_move` tests the column sign only for a step onto an empty neighbour
  (draughts.py:125); lines 127-132 also accept an empty neighbour in any direction, backwards
  too, when the field beyond it is empty;
- the MinMax player evaluates children of `self.view`, calls a one-argument
  `evaluate_view`, and returns nothing.

Python exceptions become the `Err` branch of a `Result`, named after their class.

## Model

| member | source | states |
|---|---|---|
| Common.LastValue | game.py:9-13 | a key's current value in a dict written in log order: None exactly when never written, otherwise the value of the last write to it |
| Common.LastIsAt | game.py:11 | the write at position i decides a key's value when no later write touches that key |
| Common.LastValueAppend | game.py:11 | one more write changes the written key's value only |
| Common.LastValueSkip | game.py:11 | writes to other keys leave a key's value as it was |
| Common.TracksWrite | engine/enigne.py:122-136 | a dict updated key by key stays in step with its log of writes |
| Roster.PlayerLimits | engine/enigne.py:13-21 | `players_number` fixes min = max; otherwise both `min_players_number` and `max_players_number` give the bounds; the given exception exactly when neither form is present |
| Roster.Validate | engine/enigne.py:108-117 | Ok exactly when the roster spec is admissible: not empty, at most `_max_players` entries, enough available players, every pool allowing one; ValueError otherwise |
| GameIds.TurnOrder | game.py:9-13 | the i-th roster member is given id i |
| GameIds.TurnOrderIds | game.py:6-13 | with no repeated player, each member's id after the game is its roster position, whatever earlier games assigned |
| GameIds.LatestIdInRoster | game.py:6-13 | even with repeats, a member's id is a position at or after its own that holds the same player |
| GameIds.PreparedIds | game.py:9-13 | after a game every member's id is a roster position holding it, at or after its own, and players outside the roster keep their ids |
| GameIds.Game.constructor | game.py:2-4 | no ids, no players |
| GameIds.Game.PrepareNewGame | game.py:6-13 | the roster is stored; the id log grows by the turn order; each member's id is a position holding it; players outside the roster keep their ids |
| GameIds.Game.GetPlayerId | game.py:28-29 | KeyError exactly when the player never got an id, otherwise the latest id it was given |
| TournamentEngine.DrawsAppend | engine/enigne.py:134-136 | drawing a player for a pool adds one to that pool's count only |
| TournamentEngine.Quota | engine/enigne.py:133-142 | a pool is asked at least once and `max_count()` times when that is positive |
| TournamentEngine.MaxQuota | engine/enigne.py:130-145 | a bound on every pool's number of rounds (termination of the drafting loop) |
| TournamentEngine.Standalone | engine/enigne.py:120-125 | the standalone players open the roster in order, each mapped to None |
| TournamentEngine.ScheduledAppend | engine/enigne.py:133-136 | a pool's next draw extends a well-formed roster log |
| TournamentEngine.RoundStep | engine/enigne.py:133-142 | asking one more pool of a round keeps the per-round draw counts |
| TournamentEngine.RoundEnd | engine/enigne.py:141-145 | a pool stays active for the next round exactly while `max_count()` exceeds the round number |
| TournamentEngine.RoundWithinQuota | engine/enigne.py:130-147 | no pool is drawn more often than its quota |
| TournamentEngine.StandaloneDraws | engine/enigne.py:120-125 | the standalone part draws nothing from any pool |
| TournamentEngine.AdmissibleRosterBound | engine/enigne.py:138-139 | after validation, a roster never exceeds `_max_players` |
| TournamentEngine.EntryKind | engine/enigne.py:119-147 | roster entry i is standalone player i, or a player drawn from a listed pool |
| TournamentEngine.RosterMapped | engine/enigne.py:119-147 | every roster member has an entry in `_pools_by_player` |
| TournamentEngine.Moves | engine/enigne.py:59-64 | one `set_players_moves` call per round, for the current players of that round |
| TournamentEngine.LastOfPool | engine/enigne.py:72-80 | the last roster member drawn from a pool, present exactly when the pool has a member in the game |
| TournamentEngine.PoolResults | engine/enigne.py:70-80 | a game's pool results hold every pool with members, and each list holds only its last member's result (the test at line 77 is never true) |
| TournamentEngine.TrainOrder | engine/enigne.py:91-103 | every pool with members in the game is trained exactly once |
| TournamentEngine.PoolHistorySingletons | engine/enigne.py:76-85 | every entry a pool gets in `results_by_pools` is a one-element list, at most one per game |
| TournamentEngine.SoloHistoryFull | engine/enigne.py:72-83 | a standalone player in every game gets one result per game, in order |
| TournamentEngine.StandaloneStays | engine/enigne.py:119-147 | a standalone player no pool hands out stays in the roster, mapped to None |
| TournamentEngine.DraftedKeys | engine/enigne.py:70-80 | the result keys are listed standalone players and listed pools |
| TournamentEngine.SoloStep | engine/enigne.py:72-75 | one more roster member adds its result when standalone, nothing otherwise |
| TournamentEngine.PoolStep | engine/enigne.py:76-80 | one more pool member replaces its pool's result list by its own result |
| TournamentEngine.PoolsInStep | engine/enigne.py:72-80 | one more pool member adds its pool to the pools with members |
| TournamentEngine.TrainOrderStep | engine/enigne.py:91-99 | pools enter the training order at their first member |
| TournamentEngine.TrainMapStep | engine/enigne.py:91-99 | a pool member's result is added to its pool's training map, other maps unchanged |
| TournamentEngine.HistoryStep | engine/enigne.py:82-103 | one more game appends its results and its training calls to the histories |
| TournamentEngine.AllDraftedStep | engine/enigne.py:47-52 | every game's roster is drafted from the run's lists |
| TournamentEngine.RanStart | engine/enigne.py:45-46 | before any game, every listed player and pool has an empty history |
| TournamentEngine.SoloMapStep | engine/enigne.py:82-83 | appending a game's player results yields the per-player histories |
| TournamentEngine.PoolMapStep | engine/enigne.py:84-85 | appending a game's pool results yields the per-pool histories |
| TournamentEngine.RanStep | engine/enigne.py:47-103 | the run's record after one more game is the record of the longer history |
| TournamentEngine.Engine.constructor | engine/enigne.py:5-21 | the limits are stored; every list is empty |
| TournamentEngine.Engine.Create | engine/enigne.py:5-21 | ValueError exactly when the game info has neither form of the limits, otherwise a fresh engine with those limits |
| TournamentEngine.Engine.SetTrainingPlayers | engine/enigne.py:23-27 | the training lists are stored exactly when they are admissible; ValueError otherwise, lists untouched |
| TournamentEngine.Engine.SetTestingPlayers | engine/enigne.py:29-33 | the testing lists are stored exactly when they are admissible; ValueError otherwise, lists untouched |
| TournamentEngine.Engine.PrepareRoster | engine/enigne.py:119-147 | a tuple player list raises TypeError; a list gives the standalone players then pool draws, each mapped to its pool and produced by its next `get_player` call; no pool beyond its quota; after every write a pool that can still give players is at most one draw behind any other (round-by-round fairness); the roster stops at `_max_players` or once every pool gave its quota |
| TournamentEngine.RoundBalanced | engine/enigne.py:130-145 | at every point of a round the pools' draw counts are balanced: an unexhausted pool is at most one draw behind any other |
| TournamentEngine.InRoundStep | engine/enigne.py:133-142 | asking one pool of the round removes it from the pools left to ask and adds it to the next round exactly when `max_count()` exceeds the round number |
| TournamentEngine.StandaloneFair | engine/enigne.py:120-125 | every prefix of the standalone writes is balanced, since they draw from no pool |
| TournamentEngine.UnfairDraftExcluded | engine/enigne.py:130-145 | with two pools of `max_count()` 3, a roster with three draws from one and one from the other is not fair, so no drafting yields it |
| TournamentEngine.Engine.StandaloneWrites | engine/enigne.py:122-125 | `_pools_by_player` restarts with each standalone player mapped to None |
| TournamentEngine.Engine.DrawRound | engine/enigne.py:133-142 | one round asks every active pool once, keeping the draw counts balanced after every write, and reports a full roster or the pools still active |
| TournamentEngine.Engine.DrawOne | engine/enigne.py:134-136 | one draw appends the pool's next player to the roster and maps it to the pool |
| TournamentEngine.Engine.GatherResults | engine/enigne.py:70-80 | the per-player and per-pool results of one game, as specified |
| TournamentEngine.GroupedStep | engine/enigne.py:91-99 | one more roster member joins its pool's result map, and a pool enters the training order at its first member |
| TournamentEngine.Engine.TrainingMaps | engine/enigne.py:91-99 | the pools in training order, each with the map of its members' results |
| TournamentEngine.Engine.Run | engine/enigne.py:41-106 | a tuple player list raises TypeError in the first game; otherwise every game's roster is drafted from the lists as `PrepareRoster` states, round-by-round fairness included, and the histories and training calls are exactly those of the games played |
| TournamentEngine.Engine.PlayGame | engine/enigne.py:47-103 | one iteration: a roster drafted fairly round by round, its move calls, its results by player and by pool, and its training calls |
| TournamentEngine.PlayRounds | engine/enigne.py:59-64 | the move calls of a game, round by round |
| TournamentEngine.AppendEach | engine/enigne.py:82-85 | each fresh result is appended to its key's history, other histories unchanged |
| LegacyEngine.Engine.constructor | enigne.py:5-21 | the limits are stored, no lists set |
| LegacyEngine.Engine.Create | enigne.py:5-21 | AttributeError exactly when the game info has neither form of the limits |
| LegacyEngine.Engine.SetTrainingPlayers | enigne.py:23-27 | admissible lists are stored; ValueError otherwise, lists untouched |
| LegacyEngine.Engine.SetTestingPlayers | enigne.py:29-33 | admissible lists are stored; ValueError otherwise, lists untouched |
| LegacyEngine.Engine.PrepareRoster | enigne.py:118-143 | a tuple raises TypeError; each pool gets an empty list; with pools the roster is the standalone list (the `while not` loop never runs); without pools the loop never ends |
| LegacyEngine.Engine.Train | enigne.py:46-72 | no iterations: nothing happens; tuple: TypeError; no pools: runs forever; with pools one game is played on a shuffled roster and line 67 raises TypeError |
| LegacyEngine.Engine.Test | enigne.py:85-105 | the same outcomes for one game, whose every move call asks the whole shuffled roster |
| LegacyEngine.PlayGame | enigne.py:49-61 | every round asks the same shuffled roster, a permutation of the drafted one |
| EvolutionPool.Lookup | engine/algorithms/tensorflow/evolution_mutation.py:97-98 | a result lookup is missing exactly when the player has no result |
| EvolutionPool.FirstMax | engine/algorithms/tensorflow/evolution_mutation.py:85 | `max` with a key picks the first element with the largest value |
| EvolutionPool.Duel | engine/algorithms/tensorflow/evolution_mutation.py:97-106 | 3 points to a strict winner, 1 to each side of a draw; an opponent missing from the table raises KeyError unless the contender won |
| EvolutionPool.OpenTable | engine/algorithms/tensorflow/evolution_mutation.py:92-95 | a new table holds the result keys at 0; the contender is added at 0 when absent; existing scores are kept |
| EvolutionPool.RemoveFirst | engine/algorithms/tensorflow/evolution_mutation.py:73 | `list.remove` takes out one occurrence |
| EvolutionPool.ScoreGame | engine/algorithms/tensorflow/evolution_mutation.py:92-106 | scoring keeps the table's keys; success needs both players' results |
| EvolutionPool.Pool.constructor | engine/algorithms/tensorflow/evolution_mutation.py:9-34 | population 0..n-1, no round in progress, nobody selected or in the game |
| EvolutionPool.Pool.MaxCount | engine/algorithms/tensorflow/evolution_mutation.py:62-63 | 2 in 1-on-1 mode, the tournament size otherwise |
| EvolutionPool.Pool.PrepareNewGame | engine/algorithms/tensorflow/evolution_mutation.py:145-146 | nobody is in the game |
| EvolutionPool.Pool.ResetTournament | engine/algorithms/tensorflow/evolution_mutation.py:36-41 | no table, contender or opponent; the whole population unselected |
| EvolutionPool.Pool.DrawUnselected | engine/algorithms/tensorflow/evolution_mutation.py:72-73 | IndexError when nobody is left; otherwise an unselected member, removed from the unselected list |
| EvolutionPool.Pool.GetPlayer | engine/algorithms/tensorflow/evolution_mutation.py:65-80 | simultaneous mode: any member; 1-on-1 mode: the contender first, then the opponent, each drawn from the unselected members when missing |
| EvolutionPool.Pool.Contender | engine/algorithms/tensorflow/evolution_mutation.py:70-74 | the round's contender, drawn when missing |
| EvolutionPool.Pool.Opponent | engine/algorithms/tensorflow/evolution_mutation.py:76-80 | the round's opponent, drawn when missing |
| EvolutionPool.Pool.TrainOnGameOver | engine/algorithms/tensorflow/evolution_mutation.py:82-128 | AssertionError on a wrong result count, whether or not both players were drawn; otherwise the game is played into the round state, a round winner is appended, and a full list of winners replaces the generation |
| EvolutionPool.Pool.SimultaneousGame | engine/algorithms/tensorflow/evolution_mutation.py:84-89 | the first best result wins; ValueError for an empty result |
| EvolutionPool.Pool.DuelGame | engine/algorithms/tensorflow/evolution_mutation.py:91-125 | the duel is scored; a KeyError leaves the winners; a success advances the round |
| EvolutionPool.Pool.EndOfGame | engine/algorithms/tensorflow/evolution_mutation.py:127-128 | a full list of winners is replaced and cleared; otherwise nothing changes |
| EvolutionPool.Pool.ScoreDuel | engine/algorithms/tensorflow/evolution_mutation.py:92-106 | the table after the duel, as `ScoreGame` says |
| EvolutionPool.Pool.AdvanceRound | engine/algorithms/tensorflow/evolution_mutation.py:108-125 | the next opponent from the players left; else a new pass over the table when it is smaller than the tournament; else the table's first top scorer wins and the round resets |
| EvolutionReplacement.RemoveAll | engine/algorithms/tensorflow/evolution_mutation.py:140 | every occurrence of one member is removed, nothing else |
| EvolutionReplacement.DistinctTwice | engine/algorithms/tensorflow/evolution_mutation.py:141-143 | members deferred because they won twice take twice their number of winner slots, so each pass shrinks |
| EvolutionReplacement.PopStep | engine/algorithms/tensorflow/evolution_mutation.py:136-137 | overwriting a non-winner with the last winner keeps the pass invariant |
| EvolutionReplacement.SelfStep | engine/algorithms/tensorflow/evolution_mutation.py:138-140 | a single winner's self-copy and removal keep the pass invariant |
| EvolutionReplacement.DeferStep | engine/algorithms/tensorflow/evolution_mutation.py:141-142 | deferring a repeated winner keeps the pass invariant |
| EvolutionReplacement.Visit | engine/algorithms/tensorflow/evolution_mutation.py:135-142 | one member of a pass: copied into, self-copied, or deferred |
| EvolutionReplacement.ReplacementPass | engine/algorithms/tensorflow/evolution_mutation.py:134-143 | one pass keeps the invariant and leaves fewer members to generate |
| EvolutionReplacement.PassEnd | engine/algorithms/tensorflow/evolution_mutation.py:133-143 | a pass always defers fewer members than it visited |
| EvolutionReplacement.NextGeneration | engine/algorithms/tensorflow/evolution_mutation.py:130-143 | every member is overwritten exactly once; every winner is copied once per win; no copy reads a member already overwritten |
| OnePlusOnePool.Other | engine/algorithms/tensorflow/one_plus_one_pool.py:50-53 | the other slot differs from the given one |
| OnePlusOnePool.ScaleStep | engine/algorithms/tensorflow/one_plus_one_pool.py:81-92 | one game advances the clock and the win count; at the interval sigma goes one factor up when the win proportion beats the target, one down otherwise, and both counters restart |
| OnePlusOnePool.ScaleRunPrefix | engine/algorithms/tensorflow/one_plus_one_pool.py:81-92 | inside an interval the counters count games and challenger wins |
| OnePlusOnePool.IntervalScalesOnce | engine/algorithms/tensorflow/one_plus_one_pool.py:81-92 | a full interval changes sigma by exactly one factor, in the direction the wins decide |
| OnePlusOnePool.ScaleRunBounds | engine/algorithms/tensorflow/one_plus_one_pool.py:81-92 | 0 <= wins <= t < interval after any games |
| OnePlusOnePool.MissingSlot | engine/algorithms/tensorflow/one_plus_one_pool.py:56-63 | results missing a slot hold at most one entry |
| OnePlusOnePool.BothSlotsPresent | engine/algorithms/tensorflow/one_plus_one_pool.py:56-63 | two results hold both slots, so line 63 finds them |
| OnePlusOnePool.Pool.constructor | engine/algorithms/tensorflow/one_plus_one_pool.py:8-36 | the first player is best; counters at zero; sigma at its initial value |
| OnePlusOnePool.Pool.MaxCount | engine/algorithms/tensorflow/one_plus_one_pool.py:38-39 | 2 |
| OnePlusOnePool.Pool.PrepareNewGame | engine/algorithms/tensorflow/one_plus_one_pool.py:78-79 | no active players |
| OnePlusOnePool.Pool.GetPlayer | engine/algorithms/tensorflow/one_plus_one_pool.py:41-53 | the best first, then the challenger, then ValueError |
| OnePlusOnePool.Pool.TrainOnGameOver | engine/algorithms/tensorflow/one_plus_one_pool.py:55-76 | AssertionError on a count mismatch; nothing unless two played; the challenger becomes best on a tie or a win; the best is copied with noise into the other slot; sigma is scaled |
| OnePlusOnePool.Pool.ScaleSigma | engine/algorithms/tensorflow/one_plus_one_pool.py:81-92 | the counters and sigma after one game, as `ScaleStep` says |
| MinMax.Less | algorithms/minmax_player.py:36 | Python `<` on values; TypeError when either is None |
| MinMax.Leaf | algorithms/minmax_player.py:47-48 | a one-argument `evaluate_view` scores the view; the two-argument one of the game-logic interface raises TypeError |
| MinMax.Improves | algorithms/minmax_player.py:56-58 | any value replaces None; the maximising side takes larger values, the other smaller; comparing None raises TypeError |
| MinMax.NodeValue | algorithms/minmax_player.py:44-61 | a node with no moves below the depth limit is worth None |
| MinMax.Extreme | algorithms/minmax_player.py:52-61 | the maximum or minimum of a non-empty list, one of its elements |
| MinMax.FoldFrom | algorithms/minmax_player.py:52-61 | folding children with numeric values computes the extreme of every prefix |
| MinMax.InnerNodeIsExtreme | algorithms/minmax_player.py:44-61 | an inner node is worth the max of its children when this player moves, the min otherwise |
| MinMax.InterfaceLogicNeverScores | algorithms/minmax_player.py:47-48 | with the interface's two-argument `evaluate_view` no node ever gets a number |
| MinMax.FoldNeverScores | algorithms/minmax_player.py:52-61 | the same holds for a fold over children |
| MinMax.Evaluate | algorithms/minmax_player.py:44-61 | `_evaluate` computes the node value |
| MinMax.Achieving | algorithms/minmax_player.py:36-40 | only moves whose value equals the given one are kept |
| MinMax.AchievingNone | algorithms/minmax_player.py:36-40 | when every value is below the given one, no move is kept |
| MinMax.RankFrom | algorithms/minmax_player.py:33-40 | after any prefix the best value is the prefix maximum and the best moves are those that reach it |
| MinMax.RankPrefixStep | algorithms/minmax_player.py:36-40 | one more move keeps the best moves equal to those reaching the maximum |
| MinMax.BestMovesAreArgmax | algorithms/minmax_player.py:30-40 | `best_moves` is exactly the moves of maximal value, in listing order |
| MinMax.RankMoves | algorithms/minmax_player.py:30-40 | the loop computes the ranking |
| MinMax.GetNextMove | algorithms/minmax_player.py:26-42 | returns nothing after a successful ranking; TypeError with no legal move; evaluation errors propagate |
| MinMax.RankedNonEmpty | algorithms/minmax_player.py:30-42 | a successful ranking of at least one move has a best move |
| DraughtsBoard.Wrap | engine/games/draughts.py:148-149 | a Python index from -10 to 9 names the field it wraps to |
| DraughtsBoard.Get | engine/games/draughts.py:148-149 | IndexError exactly off the indexable range; negative indices count from the end |
| DraughtsBoard.Put | engine/games/draughts.py:44-45 | IndexError exactly off the indexable range; otherwise only the addressed field changes |
| DraughtsBoard.EmptyBoard | engine/games/draughts.py:21-23 | field (c, w) is dark exactly when c + w is even; no pieces |
| DraughtsBoard.Flip | engine/games/draughts.py:55-57 | field (c, w) of the turned board is field (9-c, 9-w) |
| DraughtsBoard.FlipFlip | engine/games/draughts.py:55-57 | turning twice gives the board back |
| DraughtsBoard.Code | engine/games/draughts.py:113-115 | 0 for empty, odd for a king, 1-2 for the side to move, 3-4 for the other |
| DraughtsBoard.Offset | engine/games/draughts.py:109 | 0 or 1 |
| DraughtsBoard.Encoding | engine/games/draughts.py:106-116 | 50 codes, each 0..4 |
| DraughtsBoard.EncodingIgnoresUpperRows | engine/games/draughts.py:106-116 | two boards that agree on rows 0-5 get the same position code, whatever stands on rows 6-9 |
| DraughtsBoard.EncodingCollision | engine/games/draughts.py:96-116 | a man on field (0, 8) of the empty board changes the position but not its code |
| DraughtsBoard.CanPieceMoveSomeWay | engine/games/draughts.py:118-134 | a piece can move exactly when one of the four directions allows it |
| DraughtsBoard.Material | engine/games/draughts.py:349-356 | both sides' material is non-negative |
| DraughtsBoard.EvaluationOfWin | engine/games/draughts.py:358-363 | a win is worth at least the 1000-point bonus to the winner (2000 in doubled units) and at most minus that to the loser |
| DraughtsBoard.MaterialSwap | engine/games/draughts.py:349-356 | seen from the other side, the two material totals swap |
| DraughtsBoard.EvaluationZeroSum | engine/games/draughts.py:348-363 | the two sides' evaluations are negatives of each other |
| DraughtsView.Mobility | engine/games/draughts.py:118-134 | the table of `_can_piece_move` for every field |
| DraughtsView.Pieces | engine/games/draughts.py:72-75 | a side's single-king checker: 1 per king, 2 per man |
| DraughtsView.SurveyPovMoves | engine/games/draughts.py:63-77 | the side to move has moves exactly when one of its pieces can move |
| DraughtsView.SurveyPovChecker | engine/games/draughts.py:63-75 | the side to move's checker counts all its pieces |
| DraughtsView.SurveyOtherMoves | engine/games/draughts.py:79-85 | the other side has moves exactly when one of its pieces can move |
| DraughtsView.SurveyOtherChecker | engine/games/draughts.py:79-85 | the other side's checker stops at its first movable piece: it counts all pieces only when none can move |
| DraughtsView.VerdictCounts | engine/games/draughts.py:96-104 | otherwise the position is counted once more and is a draw from the third occurrence |
| DraughtsView.VerdictOutcomes | engine/games/draughts.py:87-95 | no movable piece loses; an opponent without one loses; one lone king each is a draw |
| DraughtsView.TurnedWinner | engine/games/draughts.py:50-53 | after the turn, a winner equal to either side ends as the new side to move |
| DraughtsView.Applied | engine/games/draughts.py:43-45 | the changes written in order; IndexError exactly when one addresses a field off the range |
| DraughtsView.DraughtsView.constructor | engine/games/draughts.py:20-31 | the empty board, no sides, no history, not over |
| DraughtsView.DraughtsView.Of | engine/games/draughts.py:34-41 | a view with exactly the given board and attributes |
| DraughtsView.DraughtsView.Derive | engine/games/draughts.py:33-104 | IndexError exactly when a change is off the board; else the changed board, turned with the roles swapped when asked, with the verdict when asked |
| DraughtsView.DraughtsView.Begin | engine/games/draughts.py:136-146 | pieces on the dark fields of each side's four home rows; white to move |
| DraughtsView.ApplyChanges | engine/games/draughts.py:43-45 | the loop writes the changes as `Applied` says |
| DraughtsView.Settle | engine/games/draughts.py:62-104 | the end-of-move analysis gives the verdict |
| DraughtsView.Conclude | engine/games/draughts.py:87-104 | the verdict once the survey is known |
| DraughtsView.AppliedFails | engine/games/draughts.py:43-45 | once one change is off the board the whole write fails |
| DraughtsView.BegunEmptyBoard | engine/games/draughts.py:136-146 | on a fresh board white fills rows 0-3 and black rows 6-9 on the dark fields |
| DraughtsView.SurveyBoard | engine/games/draughts.py:63-85 | the loop computes the survey |
| DraughtsView.SurveyColumn | engine/games/draughts.py:69-85 | one column of the survey |
| DraughtsView.EncodeState | engine/games/draughts.py:106-116 | the state is the side to move with the board's encoding |
| DraughtsLogic.StepOnBoard | engine/games/draughts.py:230-237 | every distance the scan visits stays on the board |
| DraughtsLogic.Prefixed | engine/games/draughts.py:216 | every move gets the piece's field in front |
| DraughtsLogic.MaxLenIsMax | engine/games/draughts.py:272 | the longest length is an upper bound and is reached |
| DraughtsLogic.OfLengthKeeps | engine/games/draughts.py:274 | exactly the moves of the longest length are kept |
| DraughtsLogic.Dir | engine/games/draughts.py:229-231 | four diagonal directions |
| DraughtsLogic.QuietOk | engine/games/draughts.py:258 | a one-field move keeps the scan well formed |
| DraughtsLogic.LandedOk | engine/games/draughts.py:261-269 | a landing keeps the capture scan well formed |
| DraughtsLogic.MergeOk | engine/games/draughts.py:271-280 | merging a direction keeps every move on the board and of the reported capture length |
| DraughtsLogic.PieceMovesOk | engine/games/draughts.py:225-282 | every listed move of a piece stays on the board and has the reported length |
| DraughtsLogic.DirsFromOk | engine/games/draughts.py:229-282 | the same, over the remaining directions |
| DraughtsLogic.DirOk | engine/games/draughts.py:233-280 | the same, for one direction merged |
| DraughtsLogic.ScanDirOk | engine/games/draughts.py:237-269 | the same, for a direction's scan |
| DraughtsLogic.ScanFieldOk | engine/games/draughts.py:240-269 | the same, for one field of the scan |
| DraughtsLogic.ScanEmptyOk | engine/games/draughts.py:256-269 | the same, for an empty field |
| DraughtsLogic.LandingOk | engine/games/draughts.py:261-269 | the same, for the scan after a landing |
| DraughtsLogic.ListPieceMoves | engine/games/draughts.py:225-282 | the loops compute the piece's moves |
| DraughtsLogic.ScanDirection | engine/games/draughts.py:233-269 | the scan loop computes a direction's moves |
| DraughtsLogic.ScanAt | engine/games/draughts.py:238-269 | one iteration of the scan loop |
| DraughtsLogic.LandOrMove | engine/games/draughts.py:256-269 | a plain move or a landing on an empty field |
| DraughtsLogic.ListingOf | engine/games/draughts.py:213-214 | the `_list_moves` result of every field |
| DraughtsLogic.ListingOfColumn | engine/games/draughts.py:211-214 | the table matches the per-field listing down a column |
| DraughtsLogic.ListingOfLists | engine/games/draughts.py:211-214 | the table matches the per-field listing on every column |
| DraughtsLogic.ListingOfOk | engine/games/draughts.py:225-282 | every entry of the table is well formed |
| DraughtsLogic.PrefixedListed | engine/games/draughts.py:216 | a piece's prefixed moves start on its field and stay on the board |
| DraughtsLogic.ListStepShape | engine/games/draughts.py:213-221 | one more field keeps the board-wide list well formed |
| DraughtsLogic.ListedShape | engine/games/draughts.py:207-223 | every listed move starts on a piece of the side to move and stays on the board |
| DraughtsLogic.ListedLongest | engine/games/draughts.py:207-223 | the board's capture count is the largest of its pieces' |
| DraughtsLogic.ListedComplete | engine/games/draughts.py:207-223 | every move of a piece with the largest capture count is listed, prefixed with its field |
| DraughtsLogic.ListColumn | engine/games/draughts.py:212-221 | one column of the listing loop |
| DraughtsLogic.ListsFromNext | engine/games/draughts.py:211 | the listing table passes from one column to the next |
| DraughtsLogic.ListsColumnNext | engine/games/draughts.py:212 | the listing table passes from one row to the next |
| DraughtsLogic.ListField | engine/games/draughts.py:213-221 | one field of the listing loop |
| DraughtsLogic.ListBoard | engine/games/draughts.py:208-223 | the loops compute the board-wide list |
| DraughtsLogic.ListMoves | engine/games/draughts.py:207-223 | `list_moves` returns the board-wide list built from the per-field listing |
| DraughtsLogic.ClearAll | engine/games/draughts.py:341-342 | each removed field becomes an empty dark field |
| DraughtsLogic.MoveChanges | engine/games/draughts.py:287-344 | IndexError for an empty move or a first field off the board; AssertionError when the first field is not the mover's |
| DraughtsLogic.CapturedGrows | engine/games/draughts.py:308-325 | one more distinct opponent piece keeps the removed list well formed |
| DraughtsLogic.KingSweepFields | engine/games/draughts.py:320-327 | the sweep adds at most one removed piece, an opponent piece not yet removed, at a field taken from the origin along the direction |
| DraughtsLogic.StepRules | engine/games/draughts.py:295-331 | a successful step obeys the step rules |
| DraughtsLogic.KingStepRules | engine/games/draughts.py:315-330 | a king's step is diagonal onto an empty field |
| DraughtsLogic.ManStepRules | engine/games/draughts.py:301-313 | a man steps one row forward only in a two-field move, or jumps two rows over an opponent piece |
| DraughtsLogic.WalkRules | engine/games/draughts.py:294-331 | a walked move ends on its last field, keeps the rank, and jumps only distinct opponent pieces, with every step legal |
| DraughtsLogic.StepWalk | engine/games/draughts.py:294-331 | one step of the walk obeys the rules |
| DraughtsLogic.Written | engine/games/draughts.py:337-344 | the fields the changes write, in order |
| DraughtsLogic.MovedEnds | engine/games/draughts.py:288-344 | a successful move clears its first field and puts the piece on its last field, made a king on row 9 |
| DraughtsLogic.ChangedCaptures | engine/games/draughts.py:337-344 | the middle changes clear exactly the jumped opponent pieces |
| DraughtsLogic.MovedCaptures | engine/games/draughts.py:287-344 | every field cleared between first and last held an opponent piece, none twice |
| DraughtsLogic.WalkCaptured | engine/games/draughts.py:294-331 | the walk removes only distinct opponent pieces |
| DraughtsLogic.MovedApplicable | engine/games/draughts.py:337-346 | the changes of a successful move can always be written |
| DraughtsLogic.WalkLands | engine/games/draughts.py:294-331 | a walk ends on an indexable field |
| DraughtsLogic.ChangedApplicable | engine/games/draughts.py:337-344 | changes built from indexable fields address only indexable fields |
| DraughtsLogic.MovedSteps | engine/games/draughts.py:294-331 | every step of a successful move is legal for the piece's rank |
| DraughtsLogic.SweepKing | engine/games/draughts.py:320-327 | the sweep loop computes the king's sweep |
| DraughtsLogic.WalkStep | engine/games/draughts.py:295-331 | one iteration of the walk |
| DraughtsLogic.ApplyMove | engine/games/draughts.py:287-346 | the error of `MoveChanges` when it fails; otherwise a new view with the changes written, the side turned, and the verdict taken |
| DraughtsLogic.ColumnMaterial | engine/games/draughts.py:351-356 | one column of the material loop |
| DraughtsLogic.EvaluateView | engine/games/draughts.py:348-363 | the evaluation of the view's board and winner |

## Left out

- I/O, TensorFlow and randomness are outside the model. `random.choice` and `random.shuffle`
  become a choice among the allowed values, and pool draws (`get_player`) become a function
  parameter.
- The TensorFlow setters become recorded copy events. The noise they add, and the variable
  lists they copy, are not modelled.
- Floating point: sigma is stored as the integer exponent of `sigma_proportion`. The
  win-proportion test is a cross-multiplied fraction. Draughts material is counted in doubled
  units: a man 2, a king 7, a win bonus 2000.
- Python set iteration order (`non_empty_pools`) is left open: the model proves its
  properties for every order.
- The game enters the engine model only through `GamePlay`: the number of rounds of each
  game (`is_game_over`), each round's current players (`get_current_players`) and each
  player's `get_game_result`. The moves the players return (`get_next_move`) are not
  recorded, only who was asked.
- Notification calls are left out, because they do not touch the modelled state: the
  players' `prepare_new_game` and `set_current_view` and the game's `prepare_new_game` and
  `get_player_view` (engine/enigne.py:54-57, 60-61, 94), and the callbacks
  `on_round_complete`, `on_game_complete` and `on_run_complete` (engine/enigne.py:66-67,
  88-89, 105-106; enigne.py:100-105). The older engine's `on_iteration_complete`
  (enigne.py:70-72) is never reached, and neither is its `break`, because line 67 raises
  first.
- Pools are abstract in the engine model: the engine is not composed with the pool models.
  `pool.prepare_new_game()` calls (engine/enigne.py:49-50) are not recorded.
- `__str__`, `DraughtsMove` (unused by the move code), `MinMaxDraughtsPlayer`, engine/config.py,
  engine/events.py, ai_tournament.py and engine/games/tensorflow/draughts.py are not part of
  this model.
- `get_current_player` and `is_view_terminal` of draughts.py are field reads of the view and
  have no member of their own.
- LegacyEngine.Engine.PrepareRoster: the endless loop without pools is cut off by a fuel
  bound and reported as divergence.
- LegacyEngine.Engine.Train: the endless loop without pools is cut off by a fuel bound and
  reported as divergence.
- LegacyEngine.Engine.Train: line 65 calls `player.game_over(...)`, which the shipped `Player`
  class does not define (it has `train_game_over`). The model assumes that call succeeds, as it
  does for a player object that defines `game_over`; with a plain `Player` the source raises
  AttributeError there, before the TypeError of line 67.
- LegacyEngine.Engine.Test: the endless loop without pools is cut off by a fuel bound and
  reported as divergence.
- DraughtsLogic.ListMoves: stated against the table of per-field `_list_moves` results. That
  listing is the model of lines 225-282. Its moves are proved well formed, but they are not
  compared with an independent definition of legal draughts captures.
- EvolutionPool.Pool.TrainOnGameOver: in 1-on-1 mode with two results it requires that both
  players of the game were drawn. No engine call gives two results otherwise, since two
  `get_player` calls draw both. Without them the source would put None into the score table
  and raise KeyError. A result count other than two, such as one result from a roster that
  filled after the pool's first draw, is modelled: it gives AssertionError. The method also
  requires that the results are keyed by distinct population members, as the engine provides
  them.
- OnePlusOnePool.Pool.TrainOnGameOver: results are keyed by the pool's two slots only. Keys of
  other players, which the engine never passes, are not modelled.
- MinMax.GetNextMove: requires a positive depth, as documented for the player's constructor.
