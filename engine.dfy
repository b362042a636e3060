/** The tournament engine, current revision (engine/enigne.py): rosters built from
    standalone players and player pools, and the train/test loop that plays games and
    hands each pool its members' results. */
module TournamentEngine {
  import opened Common
  import opened Roster

  /** One write to `_pools_by_player`: a roster player and the pool that produced it
      (None for a standalone player). */
  type Entry = (Player, Option<PoolId>)

  /** How many `get_player` calls on `q` the writes record. */
  function Draws(log: seq<Entry>, q: PoolId): nat
  {
    if |log| == 0 then 0
    else Draws(log[..|log| - 1], q) + (if log[|log| - 1].1 == Some(q) then 1 else 0)
  }

  lemma DrawsAppend(log: seq<Entry>, e: Entry, q: PoolId)
    ensures Draws(log + [e], q) == Draws(log, q) + (if e.1 == Some(q) then 1 else 0)
  {
    assert (log + [e])[..|log|] == log;
  }

  /** How many players a pool is asked for when the roster does not fill up first: its
      `max_count()`, but at least one, since every pool is asked in the first round. */
  function Quota(maxCount: PoolId -> int, q: PoolId): (n: nat)
    ensures n >= 1 && n >= maxCount(q)
    ensures maxCount(q) >= 1 ==> n == maxCount(q)
  {
    if maxCount(q) < 1 then 1 else maxCount(q)
  }

  /** The largest quota of the pools. */
  function MaxQuota(pools: seq<PoolId>, maxCount: PoolId -> int): (m: nat)
    ensures m >= 1
    ensures forall q :: q in pools ==> Quota(maxCount, q) <= m
  {
    if |pools| == 0 then 1
    else
      var rest := MaxQuota(pools[1..], maxCount);
      var here := Quota(maxCount, pools[0]);
      assert forall q :: q in pools ==> q == pools[0] || q in pools[1..];
      if here > rest then here else rest
  }

  /** The writes for the standalone players: each is mapped to None. */
  function Standalone(items: seq<Player>): (r: seq<Entry>)
    ensures |r| == |items| && forall i :: 0 <= i < |r| ==> r[i] == (items[i], None)
  {
    seq(|items|, i requires 0 <= i < |items| => (items[i], None))
  }

  /** Write i came from a pool of the list, and its player is what that pool returned on
      its next `get_player` call; `draw(game, q, k)` is the player pool q returns on its
      (k+1)-th call during game number `game`. */
  ghost predicate DrawnAt(log: seq<Entry>, i: nat, pools: seq<PoolId>, draw: (nat, PoolId, nat) -> Player, game: nat)
    requires i < |log|
  {
    log[i].1.Some? && log[i].1.value in pools &&
    log[i].0 == draw(game, log[i].1.value, Draws(log[..i], log[i].1.value))
  }

  /** The roster writes: the standalone players first, in order, then pool draws. */
  ghost predicate Scheduled(items: seq<Player>, pools: seq<PoolId>, draw: (nat, PoolId, nat) -> Player, game: nat, log: seq<Entry>)
  {
    |items| <= |log| && log[..|items|] == Standalone(items) &&
    forall i :: |items| <= i < |log| ==> DrawnAt(log, i, pools, draw, game)
  }

  lemma ScheduledAppend(items: seq<Player>, pools: seq<PoolId>, draw: (nat, PoolId, nat) -> Player, game: nat,
                        log: seq<Entry>, q: PoolId)
    requires Scheduled(items, pools, draw, game, log) && q in pools
    ensures Scheduled(items, pools, draw, game, log + [(draw(game, q, Draws(log, q)), Some(q))])
  {
    var log' := log + [(draw(game, q, Draws(log, q)), Some(q))];
    assert log'[..|items|] == log[..|items|];
    forall i | |items| <= i < |log'| ensures DrawnAt(log', i, pools, draw, game) {
      if i < |log| {
        assert log'[..i] == log[..i] && log'[i] == log[i];
        assert DrawnAt(log, i, pools, draw, game);
      } else {
        assert log'[..i] == log;
      }
    }
  }

  /** The draw counts in the middle of a round in which every pool of `active` is asked
      once (those in `done` already were): an active pool has been asked once per earlier
      round, a pool of the list that dropped out has been asked its quota, and no other
      pool has been asked. */
  ghost predicate RoundCounts(log: seq<Entry>, pools: seq<PoolId>, maxCount: PoolId -> int,
                              active: set<PoolId>, done: set<PoolId>, perPool: nat)
  {
    (forall q :: q in active && q !in done ==> Draws(log, q) == perPool - 1) &&
    (forall q :: q in done ==> Draws(log, q) == perPool) &&
    (forall q :: q in pools && q !in active ==> Draws(log, q) == Quota(maxCount, q) < perPool) &&
    (forall q :: q !in pools ==> Draws(log, q) == 0)
  }

  /** Round-by-round fairness of the draw counts: a pool that can still give players is
      at most one draw behind any other pool of the list. */
  ghost predicate Balanced(log: seq<Entry>, pools: seq<PoolId>, maxCount: PoolId -> int)
  {
    forall q, q' :: q in pools && q' in pools && Draws(log, q') < Quota(maxCount, q') ==>
      Draws(log, q) <= Draws(log, q') + 1
  }

  /** The roster was drafted round by round: the draw counts were balanced after every
      write, not only at the end. */
  ghost predicate Fair(log: seq<Entry>, pools: seq<PoolId>, maxCount: PoolId -> int)
  {
    forall n :: 0 <= n <= |log| ==> Balanced(log[..n], pools, maxCount)
  }

  /** In the middle of a round the counts are balanced. */
  lemma RoundBalanced(log: seq<Entry>, pools: seq<PoolId>, maxCount: PoolId -> int,
                      active: set<PoolId>, done: set<PoolId>, perPool: nat)
    requires RoundCounts(log, pools, maxCount, active, done, perPool) && done <= active
    ensures Balanced(log, pools, maxCount)
  {
  }

  lemma FairAppend(log: seq<Entry>, pools: seq<PoolId>, maxCount: PoolId -> int, e: Entry)
    requires Fair(log, pools, maxCount) && Balanced(log + [e], pools, maxCount)
    ensures Fair(log + [e], pools, maxCount)
  {
    forall n | 0 <= n <= |log| + 1 ensures Balanced((log + [e])[..n], pools, maxCount) {
      if n <= |log| {
        assert (log + [e])[..n] == log[..n];
      } else {
        assert (log + [e])[..n] == log + [e];
      }
    }
  }

  /** Two pools with `max_count()` 3 and room for four players: `_prepare_player_list`
      asks each pool twice, so a roster drawing three times from the first and once from
      the second is not one it can build. */
  lemma UnfairDraftExcluded(a: Player, b: Player)
    ensures var log := [(a, Some(PoolId(0))), (a, Some(PoolId(0))), (a, Some(PoolId(0))), (b, Some(PoolId(1)))];
            !Fair(log, [PoolId(0), PoolId(1)], q => 3)
  {
    var log := [(a, Some(PoolId(0))), (a, Some(PoolId(0))), (a, Some(PoolId(0))), (b, Some(PoolId(1)))];
    assert log[..4] == log;
    assert log[..3][..2] == log[..2] && log[..2][..1] == log[..1];
    assert Draws(log[..1], PoolId(0)) == 1 && Draws(log[..1], PoolId(1)) == 0;
    assert Draws(log[..2], PoolId(0)) == 2 && Draws(log[..2], PoolId(1)) == 0;
    assert Draws(log[..3], PoolId(0)) == 3 && Draws(log[..3], PoolId(1)) == 0;
    assert Draws(log, PoolId(0)) == 3 && Draws(log, PoolId(1)) == 1;
    assert !Balanced(log[..4], [PoolId(0), PoolId(1)], q => 3);
  }

  /** The standalone writes draw from no pool, so every prefix of them is balanced. */
  lemma StandaloneFair(items: seq<Player>, pools: seq<PoolId>, maxCount: PoolId -> int)
    ensures Fair(Standalone(items), pools, maxCount)
  {
    forall n | 0 <= n <= |items| ensures Balanced(Standalone(items)[..n], pools, maxCount) {
      assert Standalone(items)[..n] == Standalone(items[..n]);
      forall q ensures Draws(Standalone(items[..n]), q) == 0 {
        StandaloneDraws(items[..n], q);
      }
    }
  }

  /** Midway through round `perPool`: the pools of `active` not in `remaining` have been
      asked, the draw counts are as `RoundCounts` says and balanced after every write, and
      `next` holds the asked pools whose `max_count()` exceeds the round number. */
  ghost predicate InRound(log: seq<Entry>, pools: seq<PoolId>, maxCount: PoolId -> int,
                          active: set<PoolId>, remaining: set<PoolId>, next: set<PoolId>, perPool: nat)
  {
    remaining <= active && next <= active - remaining &&
    RoundCounts(log, pools, maxCount, active, active - remaining, perPool) && Fair(log, pools, maxCount) &&
    forall q :: q in active - remaining ==> (q in next <==> maxCount(q) > perPool)
  }

  /** Asking pool q moves it out of `remaining`, and into `next` when its `max_count()`
      exceeds the round number. */
  lemma InRoundStep(log0: seq<Entry>, log: seq<Entry>, pools: seq<PoolId>, maxCount: PoolId -> int,
                    active: set<PoolId>, remaining: set<PoolId>, next: set<PoolId>, perPool: nat, q: PoolId)
    requires InRound(log0, pools, maxCount, active, remaining, next, perPool) && q in remaining
    requires RoundCounts(log, pools, maxCount, active, active - (remaining - {q}), perPool) && Fair(log, pools, maxCount)
    ensures maxCount(q) <= perPool ==> InRound(log, pools, maxCount, active, remaining - {q}, next, perPool)
    ensures maxCount(q) > perPool ==> InRound(log, pools, maxCount, active, remaining - {q}, next + {q}, perPool)
  {
  }

  /** Asking pool q of the round once more moves it to the pools done in this round. */
  lemma RoundStep(log: seq<Entry>, pools: seq<PoolId>, maxCount: PoolId -> int,
                  active: set<PoolId>, remaining: set<PoolId>, perPool: nat, q: PoolId, p: Player)
    requires RoundCounts(log, pools, maxCount, active, active - remaining, perPool)
    requires remaining <= active && q in remaining && q in pools && perPool >= 1
    ensures RoundCounts(log + [(p, Some(q))], pools, maxCount, active, active - (remaining - {q}), perPool)
  {
    var log' := log + [(p, Some(q))];
    forall q' ensures Draws(log', q') == Draws(log, q') + (if q' == q then 1 else 0) {
      DrawsAppend(log, (p, Some(q)), q');
    }
    assert forall q' :: q' != q ==> Draws(log', q') == Draws(log, q');
    assert Draws(log', q) == perPool;
  }

  /** At the end of a round the pools whose `max_count()` exceeds its number go on to the
      next round; the others have been asked their quota. */
  lemma RoundEnd(log: seq<Entry>, pools: seq<PoolId>, maxCount: PoolId -> int,
                 active: set<PoolId>, next: set<PoolId>, perPool: nat)
    requires RoundCounts(log, pools, maxCount, active, active, perPool) && perPool >= 1
    requires next <= active && forall q :: q in active ==> (q in next <==> maxCount(q) > perPool)
    requires forall q :: q in active ==> q in pools && perPool <= Quota(maxCount, q)
    ensures RoundCounts(log, pools, maxCount, next, {}, perPool + 1)
    ensures forall q :: q in next ==> perPool + 1 <= Quota(maxCount, q)
  {
  }

  /** No pool is asked for more than its quota, and no pool outside the list is asked. */
  ghost predicate WithinQuota(log: seq<Entry>, pools: seq<PoolId>, maxCount: PoolId -> int)
  {
    forall q :: Draws(log, q) <= if q in pools then Quota(maxCount, q) else 0
  }

  lemma RoundWithinQuota(log: seq<Entry>, pools: seq<PoolId>, maxCount: PoolId -> int,
                         active: set<PoolId>, done: set<PoolId>, perPool: nat)
    requires RoundCounts(log, pools, maxCount, active, done, perPool)
    requires done <= active && forall q :: q in active ==> q in pools && perPool <= Quota(maxCount, q)
    ensures WithinQuota(log, pools, maxCount)
  {
  }

  lemma StandaloneDraws(items: seq<Player>, q: PoolId)
    ensures Draws(Standalone(items), q) == 0
  {
    if |items| > 0 {
      assert Standalone(items)[..|items| - 1] == Standalone(items[..|items| - 1]);
      StandaloneDraws(items[..|items| - 1], q);
    }
  }

  /** Once the specification passed validation, the roster never holds more than
      `_max_players` players. */
  lemma AdmissibleRosterBound(items: seq<Player>, pools: seq<PoolId>, maxCount: PoolId -> int,
                              minPlayers: int, maxPlayers: int,
                              draw: (nat, PoolId, nat) -> Player, game: nat, log: seq<Entry>)
    requires Admissible(|items|, pools, maxCount, minPlayers, maxPlayers)
    requires Scheduled(items, pools, draw, game, log)
    requires |log| <= maxPlayers || maxPlayers <= |items|
    ensures |log| <= maxPlayers
  {
    if |log| > |items| {
      assert DrawnAt(log, |items|, pools, draw, game);
      assert log[|items|].1.value in pools;
    }
  }

  /** Write i is a standalone player's when it lies among the first |items| writes, and a
      pool draw otherwise. */
  lemma EntryKind(items: seq<Player>, pools: seq<PoolId>, draw: (nat, PoolId, nat) -> Player, game: nat,
                  log: seq<Entry>, i: nat)
    requires Scheduled(items, pools, draw, game, log) && i < |log|
    ensures i < |items| ==> log[i] == (items[i], None)
    ensures i >= |items| ==> DrawnAt(log, i, pools, draw, game)
  {
    if i < |items| {
      assert log[..|items|][i] == log[i];
    }
  }

  /** One game's roster, the `_pools_by_player` map built for it, and the writes that
      built it. */
  datatype GameRecord = GameRecord(roster: seq<Player>, pools: map<Player, Option<PoolId>>, log: seq<Entry>)

  /** What `_prepare_player_list` promises about the roster of game number `game`. */
  ghost predicate Drafted(items: seq<Player>, pools: seq<PoolId>, maxCount: PoolId -> int,
                          draw: (nat, PoolId, nat) -> Player, game: nat, maxPlayers: int, g: GameRecord)
  {
    g.roster == Firsts(g.log) &&
    Scheduled(items, pools, draw, game, g.log) &&
    Tracks(g.pools, g.log) &&
    WithinQuota(g.log, pools, maxCount) &&
    Fair(g.log, pools, maxCount) &&
    (|g.log| <= maxPlayers || maxPlayers <= |items|) &&
    (|g.log| == maxPlayers || forall q :: q in pools ==> Draws(g.log, q) == Quota(maxCount, q))
  }

  /** A roster under construction: its writes are scheduled, it lists their players, and
      `_pools_by_player` follows them. */
  ghost predicate Building(items: seq<Player>, pools: seq<PoolId>, draw: (nat, PoolId, nat) -> Player, game: nat,
                           log: seq<Entry>, roster: seq<Player>, pbp: map<Player, Option<PoolId>>)
  {
    Scheduled(items, pools, draw, game, log) && roster == Firsts(log) && Tracks(pbp, log)
  }

  /** Every roster player is a key of the map built with it. */
  lemma RosterMapped(g: GameRecord)
    requires g.roster == Firsts(g.log) && Tracks(g.pools, g.log)
    ensures forall k :: 0 <= k < |g.roster| ==> g.roster[k] in g.pools
  {
    forall k | 0 <= k < |g.roster| ensures g.roster[k] in g.pools {
      assert g.log[k].0 == g.roster[k];
      assert LastValue(g.log, g.roster[k]).Some?;
    }
  }

  /** What the engine learns from the game: `rounds(j)` rounds are played in game j,
      `movers(j, k)` are the current players of its round k, and `result(j, p)` is the
      game result of player p. */
  datatype GamePlay = GamePlay(rounds: nat -> nat, movers: (nat, nat) -> seq<Player>,
                               result: (nat, Player) -> int)

  /** The `set_players_moves` calls of game j: one per round, for its current players. */
  function Moves(play: GamePlay, j: nat): (r: seq<seq<Player>>)
    ensures |r| == play.rounds(j) && forall k :: 0 <= k < |r| ==> r[k] == play.movers(j, k)
  {
    seq(play.rounds(j), k requires 0 <= k < play.rounds(j) => play.movers(j, k))
  }

  /** The `set_players_moves` calls of games 0..n-1, in order. */
  function MoveSchedule(play: GamePlay, n: nat): seq<seq<Player>>
  {
    if n == 0 then [] else MoveSchedule(play, n - 1) + Moves(play, n - 1)
  }

  /** `result_by_player` of game j: the results of the roster players with no pool. */
  function SoloResults(roster: seq<Player>, pbp: map<Player, Option<PoolId>>, play: GamePlay, j: nat): map<Player, int>
  {
    map p | p in roster && p in pbp && pbp[p] == None :: play.result(j, p)
  }

  /** The pools the roster players were drawn from. */
  function PoolsIn(roster: seq<Player>, pbp: map<Player, Option<PoolId>>): set<PoolId>
  {
    set p | p in roster && p in pbp && pbp[p].Some? :: pbp[p].value
  }

  /** The last roster player mapped to pool q. */
  function LastOfPool(roster: seq<Player>, pbp: map<Player, Option<PoolId>>, q: PoolId): (r: Option<Player>)
    ensures r.None? <==> q !in PoolsIn(roster, pbp)
    ensures r.Some? ==> r.value in roster && r.value in pbp && pbp[r.value] == Some(q)
  {
    if |roster| == 0 then None
    else
      var p := roster[|roster| - 1];
      var rest := roster[..|roster| - 1];
      assert forall x :: x in roster <==> x in rest || x == p;
      if p in pbp && pbp[p] == Some(q) then Some(p)
      else LastOfPool(rest, pbp, q)
  }

  /** `results_by_pool` of game j as the code builds it: a pool's list holds one result,
      that of its last roster member (line 77 asks whether the pool is a key of the
      player-keyed `result_by_player`, which it never is, so every member restarts the
      list). */
  function PoolResults(roster: seq<Player>, pbp: map<Player, Option<PoolId>>, play: GamePlay, j: nat)
    : (r: map<PoolId, seq<int>>)
    ensures r.Keys == PoolsIn(roster, pbp)
    ensures forall q :: q in r ==> |r[q]| == 1 && r[q] == [play.result(j, LastOfPool(roster, pbp, q).value)]
  {
    map q | q in PoolsIn(roster, pbp) :: [play.result(j, LastOfPool(roster, pbp, q).value)]
  }

  /** The pools of `results_by_pools_by_players` in insertion order: each pool with a
      roster member once, in order of its first member. */
  function TrainOrder(roster: seq<Player>, pbp: map<Player, Option<PoolId>>): (r: seq<PoolId>)
    ensures Distinct(r)
    ensures forall q :: q in r <==> q in PoolsIn(roster, pbp)
  {
    if |roster| == 0 then []
    else
      var p := roster[|roster| - 1];
      var rest := roster[..|roster| - 1];
      var o := TrainOrder(rest, pbp);
      assert forall x :: x in roster <==> x in rest || x == p;
      if p in pbp && pbp[p].Some? && pbp[p].value !in o then o + [pbp[p].value] else o
  }

  /** The results `train_on_game_over` hands pool q after game j: exactly its members. */
  function TrainMap(roster: seq<Player>, pbp: map<Player, Option<PoolId>>, play: GamePlay, j: nat, q: PoolId)
    : map<Player, int>
  {
    map p | p in roster && p in pbp && pbp[p] == Some(q) :: play.result(j, p)
  }

  /** `order` and `maps` hold the pools of `roster` in first-member order, each with its
      members' results. */
  ghost predicate Grouped(roster: seq<Player>, pbp: map<Player, Option<PoolId>>, play: GamePlay, j: nat,
                          order: seq<PoolId>, maps: map<PoolId, map<Player, int>>)
  {
    order == TrainOrder(roster, pbp) &&
    forall q :: q in order ==> q in maps && maps[q] == TrainMap(roster, pbp, play, j, q)
  }

  /** One more roster player joins its pool's map, opening it at the end of the order when
      it is the pool's first member. */
  lemma GroupedStep(prefix: seq<Player>, p: Player, pbp: map<Player, Option<PoolId>>, play: GamePlay, j: nat,
                    order: seq<PoolId>, maps: map<PoolId, map<Player, int>>)
    requires p in pbp && Grouped(prefix, pbp, play, j, order, maps)
    ensures pbp[p].None? ==> Grouped(prefix + [p], pbp, play, j, order, maps)
    ensures pbp[p].Some? && pbp[p].value in order ==>
              var added: map<Player, int> := maps[pbp[p].value][p := play.result(j, p)];
              Grouped(prefix + [p], pbp, play, j, order, maps[pbp[p].value := added])
    ensures pbp[p].Some? && pbp[p].value !in order ==>
              var started: map<Player, int> := map[p := play.result(j, p)];
              Grouped(prefix + [p], pbp, play, j, order + [pbp[p].value], maps[pbp[p].value := started])
  {
    TrainOrderStep(prefix, p, pbp);
    TrainMapStep(prefix, p, pbp, play, j);
  }

  /** The `train_on_game_over` calls after game j, in order. */
  function TrainCalls(roster: seq<Player>, pbp: map<Player, Option<PoolId>>, play: GamePlay, j: nat)
    : (r: seq<(PoolId, map<Player, int>)>)
  {
    var o := TrainOrder(roster, pbp);
    seq(|o|, i requires 0 <= i < |o| => (o[i], TrainMap(roster, pbp, play, j, o[i])))
  }

  /** The train calls of all the games of a run. */
  function TrainSchedule(games: seq<GameRecord>, play: GamePlay): seq<(PoolId, map<Player, int>)>
  {
    if |games| == 0 then []
    else TrainSchedule(games[..|games| - 1], play) +
         TrainCalls(games[|games| - 1].roster, games[|games| - 1].pools, play, |games| - 1)
  }

  /** `results_by_players[p]` after the games: one entry per game in which p played
      without a pool. */
  function SoloHistory(games: seq<GameRecord>, play: GamePlay, p: Player): seq<int>
  {
    if |games| == 0 then []
    else
      var j := |games| - 1;
      var solo := SoloResults(games[j].roster, games[j].pools, play, j);
      SoloHistory(games[..j], play, p) + (if p in solo then [solo[p]] else [])
  }

  /** `results_by_pools[q]` after the games: one entry per game in which q had a member. */
  function PoolHistory(games: seq<GameRecord>, play: GamePlay, q: PoolId): seq<seq<int>>
  {
    if |games| == 0 then []
    else
      var j := |games| - 1;
      var last := PoolResults(games[j].roster, games[j].pools, play, j);
      PoolHistory(games[..j], play, q) + (if q in last then [last[q]] else [])
  }

  /** As written, every entry of a pool's history is a single result. */
  lemma {:induction false} PoolHistorySingletons(games: seq<GameRecord>, play: GamePlay, q: PoolId)
    ensures |PoolHistory(games, play, q)| <= |games|
    ensures forall k :: 0 <= k < |PoolHistory(games, play, q)| ==> |PoolHistory(games, play, q)[k]| == 1
  {
    if |games| > 0 {
      PoolHistorySingletons(games[..|games| - 1], play, q);
    }
  }

  /** A standalone player that plays every game without a pool gets one result per game,
      in game order. */
  lemma {:induction false} SoloHistoryFull(games: seq<GameRecord>, play: GamePlay, p: Player)
    requires forall j :: 0 <= j < |games| ==>
               p in games[j].roster && p in games[j].pools && games[j].pools[p] == None
    ensures SoloHistory(games, play, p) == seq(|games|, j requires 0 <= j < |games| => play.result(j, p))
  {
    if |games| > 0 {
      SoloHistoryFull(games[..|games| - 1], play, p);
    }
  }

  /** A standalone player whom no pool returns keeps its None entry. */
  lemma StandaloneStays(items: seq<Player>, pools: seq<PoolId>, maxCount: PoolId -> int,
                        draw: (nat, PoolId, nat) -> Player, game: nat, maxPlayers: int, g: GameRecord, p: Player)
    requires Drafted(items, pools, maxCount, draw, game, maxPlayers, g)
    requires p in items && forall q, k :: draw(game, q, k) != p
    ensures p in g.roster && p in g.pools && g.pools[p] == None
  {
    var i0 :| 0 <= i0 < |items| && items[i0] == p;
    assert g.log[..|items|][i0] == (p, None);
    assert g.log[i0].0 == g.roster[i0];
    var v := LastValue(g.log, p);
    var i :| 0 <= i < |g.log| && g.log[i] == (p, v.value) && forall j :: i < j < |g.log| ==> g.log[j].0 != p;
    EntryKind(items, pools, draw, game, g.log, i);
  }

  /** Only standalone players are ever mapped to None, and only pools of the list appear
      as values. */
  lemma DraftedKeys(items: seq<Player>, pools: seq<PoolId>, maxCount: PoolId -> int,
                    draw: (nat, PoolId, nat) -> Player, game: nat, maxPlayers: int, g: GameRecord, play: GamePlay)
    requires Drafted(items, pools, maxCount, draw, game, maxPlayers, g)
    ensures forall p :: p in SoloResults(g.roster, g.pools, play, game) ==> p in items
    ensures forall q :: q in PoolsIn(g.roster, g.pools) ==> q in pools
  {
    forall p | p in g.pools && g.pools[p] == None ensures p in items {
      assert LastValue(g.log, p) == Some(None);
      var i :| 0 <= i < |g.log| && g.log[i] == (p, None);
      EntryKind(items, pools, draw, game, g.log, i);
    }
    forall q | q in PoolsIn(g.roster, g.pools) ensures q in pools {
      var p :| p in g.roster && p in g.pools && g.pools[p] == Some(q);
      assert LastValue(g.log, p) == Some(Some(q));
      var i :| 0 <= i < |g.log| && g.log[i] == (p, Some(q));
      EntryKind(items, pools, draw, game, g.log, i);
    }
  }

  /** One more roster player adds its result under its own key when it has no pool. */
  lemma SoloStep(prefix: seq<Player>, p: Player, pbp: map<Player, Option<PoolId>>, play: GamePlay, j: nat)
    requires p in pbp
    ensures SoloResults(prefix + [p], pbp, play, j) ==
              if pbp[p].None? then SoloResults(prefix, pbp, play, j)[p := play.result(j, p)]
              else SoloResults(prefix, pbp, play, j)
  {
    var s := prefix + [p];
    assert forall x :: x in s <==> x in prefix || x == p;
  }

  /** One more roster player drawn from a pool restarts that pool's result list with its
      own result. */
  lemma PoolStep(prefix: seq<Player>, p: Player, pbp: map<Player, Option<PoolId>>, play: GamePlay, j: nat)
    requires p in pbp
    ensures PoolResults(prefix + [p], pbp, play, j) ==
              if pbp[p].Some? then PoolResults(prefix, pbp, play, j)[pbp[p].value := [play.result(j, p)]]
              else PoolResults(prefix, pbp, play, j)
  {
    PoolsInStep(prefix, p, pbp);
    forall q ensures LastOfPool(prefix + [p], pbp, q) == if pbp[p] == Some(q) then Some(p) else LastOfPool(prefix, pbp, q) {
      assert (prefix + [p])[..|prefix|] == prefix;
    }
  }

  /** One more roster player adds its pool, if any, to the pools of the roster. */
  lemma PoolsInStep(prefix: seq<Player>, p: Player, pbp: map<Player, Option<PoolId>>)
    requires p in pbp
    ensures PoolsIn(prefix + [p], pbp) == if pbp[p].Some? then PoolsIn(prefix, pbp) + {pbp[p].value} else PoolsIn(prefix, pbp)
  {
    var s := prefix + [p];
    assert forall x :: x in s <==> x in prefix || x == p;
  }

  /** One more roster player adds its pool to the train order the first time it appears. */
  lemma TrainOrderStep(prefix: seq<Player>, p: Player, pbp: map<Player, Option<PoolId>>)
    requires p in pbp
    ensures TrainOrder(prefix + [p], pbp) ==
              if pbp[p].Some? && pbp[p].value !in TrainOrder(prefix, pbp) then TrainOrder(prefix, pbp) + [pbp[p].value]
              else TrainOrder(prefix, pbp)
  {
    var s := prefix + [p];
    assert s[..|s| - 1] == prefix;
  }

  /** One more roster player adds itself to its pool's map, and the pools not yet in the
      train order have empty maps. */
  lemma TrainMapStep(prefix: seq<Player>, p: Player, pbp: map<Player, Option<PoolId>>, play: GamePlay, j: nat)
    requires p in pbp
    ensures forall q :: TrainMap(prefix + [p], pbp, play, j, q) ==
              if pbp[p] == Some(q) then TrainMap(prefix, pbp, play, j, q)[p := play.result(j, p)]
              else TrainMap(prefix, pbp, play, j, q)
    ensures forall q :: q !in TrainOrder(prefix, pbp) ==> TrainMap(prefix, pbp, play, j, q) == map[]
  {
    var s := prefix + [p];
    assert forall x :: x in s <==> x in prefix || x == p;
    assert s[..|s| - 1] == prefix;
    forall q | q !in TrainOrder(prefix, pbp) ensures TrainMap(prefix, pbp, play, j, q) == map[] {
      assert q !in PoolsIn(prefix, pbp);
    }
  }

  /** The histories and the train schedule after one more game. */
  lemma HistoryStep(games: seq<GameRecord>, g: GameRecord, play: GamePlay)
    ensures forall p :: SoloHistory(games + [g], play, p) ==
              SoloHistory(games, play, p) +
              (var solo := SoloResults(g.roster, g.pools, play, |games|); if p in solo then [solo[p]] else [])
    ensures forall q :: PoolHistory(games + [g], play, q) ==
              PoolHistory(games, play, q) +
              (var last := PoolResults(g.roster, g.pools, play, |games|); if q in last then [last[q]] else [])
    ensures TrainSchedule(games + [g], play) == TrainSchedule(games, play) + TrainCalls(g.roster, g.pools, play, |games|)
  {
    assert (games + [g])[..|games|] == games;
  }

  /** The state of `_run` after the games recorded in `games`: each game drafted its
      roster as `_prepare_player_list` does, every standalone player's results and every
      pool's result lists are the histories of those games, the move requests are the
      rounds' mover lists in order, and in train mode the pools were trained game by game. */
  ghost predicate Ran(items: seq<Player>, pools: seq<PoolId>, play: GamePlay,
                      isTrain: bool, games: seq<GameRecord>, out: RunLog)
  {
    out.byPlayers == (map p | p in items :: SoloHistory(games, play, p)) &&
    out.byPools == (map q | q in pools :: PoolHistory(games, play, q)) &&
    out.moveCalls == MoveSchedule(play, |games|) &&
    out.trainCalls == (if isTrain then TrainSchedule(games, play) else [])
  }

  /** Game number j of `games` drafted its roster as `Drafted` says, for every j. */
  ghost predicate AllDrafted(items: seq<Player>, pools: seq<PoolId>, maxCount: PoolId -> int,
                             draw: (nat, PoolId, nat) -> Player, maxPlayers: int, games: seq<GameRecord>)
  {
    |games| == 0 ||
    (AllDrafted(items, pools, maxCount, draw, maxPlayers, games[..|games| - 1]) &&
     Drafted(items, pools, maxCount, draw, |games| - 1, maxPlayers, games[|games| - 1]))
  }

  lemma AllDraftedStep(items: seq<Player>, pools: seq<PoolId>, maxCount: PoolId -> int,
                       draw: (nat, PoolId, nat) -> Player, maxPlayers: int, games: seq<GameRecord>, g: GameRecord)
    requires AllDrafted(items, pools, maxCount, draw, maxPlayers, games)
    requires Drafted(items, pools, maxCount, draw, |games|, maxPlayers, g)
    ensures AllDrafted(items, pools, maxCount, draw, maxPlayers, games + [g])
  {
    assert (games + [g])[..|games|] == games;
  }

  lemma RanStart(items: seq<Player>, pools: seq<PoolId>, play: GamePlay, isTrain: bool)
    ensures Ran(items, pools, play, isTrain, [],
                RunLog(map p | p in items :: [], map q | q in pools :: [], [], []))
  {
  }

  lemma SoloMapStep(items: seq<Player>, games: seq<GameRecord>, g: GameRecord, play: GamePlay,
                    before: map<Player, seq<int>>, after: map<Player, seq<int>>)
    requires before == map p | p in items :: SoloHistory(games, play, p)
    requires var solo := SoloResults(g.roster, g.pools, play, |games|);
             after.Keys == before.Keys &&
             forall p :: p in after ==> after[p] == before[p] + (if p in solo then [solo[p]] else [])
    ensures after == map p | p in items :: SoloHistory(games + [g], play, p)
  {
    HistoryStep(games, g, play);
  }

  lemma PoolMapStep(pools: seq<PoolId>, games: seq<GameRecord>, g: GameRecord, play: GamePlay,
                    before: map<PoolId, seq<seq<int>>>, after: map<PoolId, seq<seq<int>>>)
    requires before == map q | q in pools :: PoolHistory(games, play, q)
    requires var last := PoolResults(g.roster, g.pools, play, |games|);
             after.Keys == before.Keys &&
             forall q :: q in after ==> after[q] == before[q] + (if q in last then [last[q]] else [])
    ensures after == map q | q in pools :: PoolHistory(games + [g], play, q)
  {
    HistoryStep(games, g, play);
  }

  /** One more game, its results appended per key, keeps `Ran`. */
  lemma RanStep(items: seq<Player>, pools: seq<PoolId>, play: GamePlay, isTrain: bool, games: seq<GameRecord>, out: RunLog, g: GameRecord,
                byPlayers: map<Player, seq<int>>, byPools: map<PoolId, seq<seq<int>>>)
    requires Ran(items, pools, play, isTrain, games, out)
    requires var solo := SoloResults(g.roster, g.pools, play, |games|);
             byPlayers.Keys == out.byPlayers.Keys &&
             forall p :: p in byPlayers ==> byPlayers[p] == out.byPlayers[p] + (if p in solo then [solo[p]] else [])
    requires var last := PoolResults(g.roster, g.pools, play, |games|);
             byPools.Keys == out.byPools.Keys &&
             forall q :: q in byPools ==> byPools[q] == out.byPools[q] + (if q in last then [last[q]] else [])
    ensures Ran(items, pools, play, isTrain, games + [g],
                RunLog(byPlayers, byPools, out.moveCalls + Moves(play, |games|),
                       if isTrain then out.trainCalls + TrainCalls(g.roster, g.pools, play, |games|)
                       else out.trainCalls))
  {
    HistoryStep(games, g, play);
    var games' := games + [g];
    assert games'[..|games|] == games;
    assert out.moveCalls + Moves(play, |games|) == MoveSchedule(play, |games'|);
    assert (if isTrain then out.trainCalls + TrainCalls(g.roster, g.pools, play, |games|) else out.trainCalls) ==
           (if isTrain then TrainSchedule(games', play) else []);
    SoloMapStep(items, games, g, play, out.byPlayers, byPlayers);
    PoolMapStep(pools, games, g, play, out.byPools, byPools);
  }

  class Engine {
    /** `_min_players` and `_max_players`. */
    const minPlayers: int
    const maxPlayers: int
    var trainPlayers: PySeq<Player>
    var trainPools: PySeq<PoolId>
    var testPlayers: PySeq<Player>
    var testPools: PySeq<PoolId>
    /** `_pools_by_player`, rebuilt for every roster. */
    var poolsByPlayer: map<Player, Option<PoolId>>

    constructor (minPlayers: int, maxPlayers: int)
      ensures this.minPlayers == minPlayers && this.maxPlayers == maxPlayers
      ensures trainPlayers == List([]) && trainPools == List([])
      ensures testPlayers == List([]) && testPools == List([])
      ensures poolsByPlayer == map[]
    {
      this.minPlayers := minPlayers;
      this.maxPlayers := maxPlayers;
      trainPlayers := List([]);
      trainPools := List([]);
      testPlayers := List([]);
      testPools := List([]);
      poolsByPlayer := map[];
    }

    /** `Engine.__init__`: the limits come from the game's info; a shape without a player
        count raises ValueError. */
    static method Create(info: GameInfo) returns (r: Result<Engine>)
      ensures PlayerLimits(info, ValueError).Err? ==> r == Err(ValueError)
      ensures PlayerLimits(info, ValueError).Ok? ==>
                r.Ok? && fresh(r.value) &&
                (r.value.minPlayers, r.value.maxPlayers) == PlayerLimits(info, ValueError).value &&
                r.value.trainPlayers == List([]) && r.value.trainPools == List([]) &&
                r.value.testPlayers == List([]) && r.value.testPools == List([])
    {
      var limits := PlayerLimits(info, ValueError);
      if limits.Err? {
        return Err(ValueError);
      }
      var e := new Engine(limits.value.0, limits.value.1);
      r := Ok(e);
    }

    /** `set_training_players`: validate, then store both lists. */
    method SetTrainingPlayers(players: PySeq<Player>, pools: PySeq<PoolId>, maxCount: PoolId -> int)
      returns (r: Result<()>)
      modifies this`trainPlayers, this`trainPools
      ensures r.Ok? <==> Admissible(|players.items|, pools.items, maxCount, minPlayers, maxPlayers)
      ensures r.Err? ==> r.error == ValueError && unchanged(this`trainPlayers, this`trainPools)
      ensures r.Ok? ==> trainPlayers == players && trainPools == pools
    {
      r := Validate(|players.items|, pools.items, maxCount, minPlayers, maxPlayers);
      if r.Ok? {
        trainPlayers, trainPools := players, pools;
      }
    }

    /** `set_testing_players`: validate, then store both lists. */
    method SetTestingPlayers(players: PySeq<Player>, pools: PySeq<PoolId>, maxCount: PoolId -> int)
      returns (r: Result<()>)
      modifies this`testPlayers, this`testPools
      ensures r.Ok? <==> Admissible(|players.items|, pools.items, maxCount, minPlayers, maxPlayers)
      ensures r.Err? ==> r.error == ValueError && unchanged(this`testPlayers, this`testPools)
      ensures r.Ok? ==> testPlayers == players && testPools == pools
    {
      r := Validate(|players.items|, pools.items, maxCount, minPlayers, maxPlayers);
      if r.Ok? {
        testPlayers, testPools := players, pools;
      }
    }

    /** `_prepare_player_list`. The roster is the standalone players, each mapped to None,
        followed by rounds of draws: round k asks every pool still active for one player
        and maps the player to its pool; a pool stays active for the next round while its
        `max_count()` exceeds k. Drawing stops the moment the roster holds `_max_players`
        players. `[] + players_list` raises TypeError when the list is the default tuple. */
    method PrepareRoster(playersList: PySeq<Player>, pools: seq<PoolId>, maxCount: PoolId -> int,
                         draw: (nat, PoolId, nat) -> Player, game: nat)
      returns (r: Result<seq<Player>>, ghost log: seq<Entry>)
      modifies this`poolsByPlayer
      ensures playersList.Tuple? ==> r == Err(TypeError) && poolsByPlayer == old(poolsByPlayer)
      ensures playersList.List? ==>
                r.Ok? && Drafted(playersList.items, pools, maxCount, draw, game, maxPlayers,
                                 GameRecord(r.value, poolsByPlayer, log))
    {
      if playersList.Tuple? {
        return Err(TypeError), [];
      }
      var items := playersList.items;
      var roster := items;
      log := StandaloneWrites(items);
      var active := set q | q in pools;
      var perPool := 1;
      forall q ensures Draws(log, q) == 0 {
        StandaloneDraws(items, q);
      }
      StandaloneFair(items, pools, maxCount);
      var bound := MaxQuota(pools, maxCount);
      if active != {} {
        var w :| w in active;
        assert Quota(maxCount, w) <= bound;
      }
      while active != {}
        invariant perPool >= 1
        invariant Building(items, pools, draw, game, log, roster, poolsByPlayer)
        invariant RoundCounts(log, pools, maxCount, active, {}, perPool) && Fair(log, pools, maxCount)
        invariant forall q :: q in active ==> q in pools && perPool <= Quota(maxCount, q)
        invariant |log| < maxPlayers || maxPlayers <= |items|
        invariant active != {} ==> perPool <= bound
        decreases if active == {} then 0 else bound - perPool + 1
      {
        var next, full;
        roster, log, next, full := DrawRound(items, pools, maxCount, draw, game, perPool, active, roster, log);
        if full {
          return Ok(roster), log;
        }
        if next != {} {
          var w :| w in next;
          assert perPool + 1 <= Quota(maxCount, w) <= bound;
        }
        active := next;
        perPool := perPool + 1;
      }
      RoundWithinQuota(log, pools, maxCount, {}, {}, perPool);
      r := Ok(roster);
    }

    /** Lines 122-125: `_pools_by_player` restarts with every standalone player mapped to None. */
    method StandaloneWrites(items: seq<Player>) returns (ghost log: seq<Entry>)
      modifies this`poolsByPlayer
      ensures log == Standalone(items) && Tracks(poolsByPlayer, log)
    {
      poolsByPlayer := map[];
      log := [];
      for i := 0 to |items|
        invariant log == Standalone(items[..i]) && Tracks(poolsByPlayer, log)
      {
        TracksWrite(poolsByPlayer, log, items[i], None);
        poolsByPlayer := poolsByPlayer[items[i] := None];
        log := log + [(items[i], None)];
        assert items[..i + 1] == items[..i] + [items[i]];
      }
      assert items[..|items|] == items;
    }

    /** One round of lines 131-145: every pool of `active`, in some order, is asked for a
        player, which joins the roster mapped to that pool; `full` reports the early
        return when the roster reaches `_max_players`; `next` holds the pools whose
        `max_count()` exceeds this round's number. */
    method DrawRound(items: seq<Player>, pools: seq<PoolId>, maxCount: PoolId -> int,
                     draw: (nat, PoolId, nat) -> Player, game: nat, perPool: nat, active: set<PoolId>,
                     roster0: seq<Player>, ghost log0: seq<Entry>)
      returns (roster: seq<Player>, ghost log: seq<Entry>, next: set<PoolId>, full: bool)
      requires perPool >= 1 && active != {}
      requires Building(items, pools, draw, game, log0, roster0, poolsByPlayer)
      requires RoundCounts(log0, pools, maxCount, active, {}, perPool) && Fair(log0, pools, maxCount)
      requires forall q :: q in active ==> q in pools && perPool <= Quota(maxCount, q)
      requires |log0| < maxPlayers || maxPlayers <= |items|
      modifies this`poolsByPlayer
      ensures Building(items, pools, draw, game, log, roster, poolsByPlayer)
      ensures Fair(log, pools, maxCount)
      ensures |log| < maxPlayers || maxPlayers <= |items| || (full && |log| == maxPlayers)
      ensures full ==> |log| == maxPlayers && WithinQuota(log, pools, maxCount)
      ensures !full ==>
                next <= active &&
                RoundCounts(log, pools, maxCount, next, {}, perPool + 1) &&
                forall q :: q in next ==> perPool + 1 <= Quota(maxCount, q)
    {
      roster, log := roster0, log0;
      next := {};
      var remaining := active;
      while remaining != {}
        invariant Building(items, pools, draw, game, log, roster, poolsByPlayer)
        invariant InRound(log, pools, maxCount, active, remaining, next, perPool)
        invariant |log| < maxPlayers || maxPlayers <= |items|
        decreases remaining
      {
        var q :| q in remaining;
        ghost var log0 := log;
        roster, log := DrawOne(items, pools, maxCount, draw, game, perPool, active, remaining, q, roster, log);
        InRoundStep(log0, log, pools, maxCount, active, remaining, next, perPool, q);
        remaining := remaining - {q};
        if |roster| == maxPlayers {
          RoundWithinQuota(log, pools, maxCount, active, active - remaining, perPool);
          return roster, log, next, true;
        }
        if maxCount(q) > perPool {
          next := next + {q};
        }
      }
      RoundEnd(log, pools, maxCount, active, next, perPool);
      full := false;
    }

    /** Lines 134-136 for pool q: its next player joins the roster, mapped to q. */
    method DrawOne(items: seq<Player>, pools: seq<PoolId>, maxCount: PoolId -> int,
                   draw: (nat, PoolId, nat) -> Player, game: nat, perPool: nat, active: set<PoolId>,
                   remaining: set<PoolId>, q: PoolId, roster0: seq<Player>, ghost log0: seq<Entry>)
      returns (roster: seq<Player>, ghost log: seq<Entry>)
      requires perPool >= 1 && remaining <= active && q in remaining && q in pools
      requires Building(items, pools, draw, game, log0, roster0, poolsByPlayer)
      requires RoundCounts(log0, pools, maxCount, active, active - remaining, perPool) && Fair(log0, pools, maxCount)
      modifies this`poolsByPlayer
      ensures log == log0 + [(draw(game, q, perPool - 1), Some(q))]
      ensures Building(items, pools, draw, game, log, roster, poolsByPlayer)
      ensures RoundCounts(log, pools, maxCount, active, active - (remaining - {q}), perPool)
      ensures Fair(log, pools, maxCount)
    {
      var p := draw(game, q, perPool - 1);
      ScheduledAppend(items, pools, draw, game, log0, q);
      TracksWrite(poolsByPlayer, log0, p, Some(q));
      RoundStep(log0, pools, maxCount, active, remaining, perPool, q, p);
      RoundBalanced(log0 + [(p, Some(q))], pools, maxCount, active, active - (remaining - {q}), perPool);
      FairAppend(log0, pools, maxCount, (p, Some(q)));
      poolsByPlayer := poolsByPlayer[p := Some(q)];
      roster := roster0 + [p];
      log := log0 + [(p, Some(q))];
    }

    /** Lines 70-80: the results of one game, standalone players by player and pools by
        pool; `_pools_by_player` says which is which. */
    method GatherResults(roster: seq<Player>, play: GamePlay, j: nat)
      returns (solo: map<Player, int>, last: map<PoolId, seq<int>>)
      requires forall k :: 0 <= k < |roster| ==> roster[k] in poolsByPlayer
      ensures solo == SoloResults(roster, poolsByPlayer, play, j)
      ensures last == PoolResults(roster, poolsByPlayer, play, j)
    {
      solo, last := map[], map[];
      for k := 0 to |roster|
        invariant solo == SoloResults(roster[..k], poolsByPlayer, play, j)
        invariant last == PoolResults(roster[..k], poolsByPlayer, play, j)
      {
        var p := roster[k];
        SoloStep(roster[..k], p, poolsByPlayer, play, j);
        PoolStep(roster[..k], p, poolsByPlayer, play, j);
        assert roster[..k + 1] == roster[..k] + [p];
        var pool := poolsByPlayer[p];
        if pool.None? {
          solo := solo[p := play.result(j, p)];
        } else {
          // `pool not in result_by_player` always holds: that dict is keyed by players.
          last := last[pool.value := [play.result(j, p)]];
        }
      }
      assert roster[..|roster|] == roster;
    }

    /** Lines 91-99: the results of one game grouped by pool, pools in order of their
        first roster member. */
    method TrainingMaps(roster: seq<Player>, play: GamePlay, j: nat)
      returns (order: seq<PoolId>, maps: map<PoolId, map<Player, int>>)
      requires forall k :: 0 <= k < |roster| ==> roster[k] in poolsByPlayer
      ensures order == TrainOrder(roster, poolsByPlayer)
      ensures forall q :: q in order ==> q in maps && maps[q] == TrainMap(roster, poolsByPlayer, play, j, q)
    {
      order, maps := [], map[];
      for k := 0 to |roster|
        invariant Grouped(roster[..k], poolsByPlayer, play, j, order, maps)
      {
        var p := roster[k];
        GroupedStep(roster[..k], p, poolsByPlayer, play, j, order, maps);
        var pool := poolsByPlayer[p];
        if pool.Some? {
          var q := pool.value;
          if q in order {
            maps := maps[q := maps[q][p := play.result(j, p)]];
          } else {
            maps := maps[q := map[p := play.result(j, p)]];
            order := order + [q];
          }
        }
        assert roster[..k + 1] == roster[..k] + [p];
      }
      assert roster[..|roster|] == roster;
    }

    /** `_run`: `iterations` games with the training lists (`isTrain`) or the testing
        lists. Each game gets a fresh roster, one `set_players_moves` call per round for
        the round's current players, and its results appended per standalone player and
        per pool; in train mode every pool with members in the game is then trained once,
        on exactly its members' results. A default tuple as player list raises TypeError
        in the first game. */
    method Run(iterations: nat, isTrain: bool, maxCount: PoolId -> int,
               draw: (nat, PoolId, nat) -> Player, play: GamePlay)
      returns (r: Result<RunLog>, ghost games: seq<GameRecord>)
      modifies this`poolsByPlayer
      ensures var players := if isTrain then trainPlayers else testPlayers;
              iterations > 0 && players.Tuple? ==> r == Err(TypeError)
      ensures var players := if isTrain then trainPlayers else testPlayers;
              var pools := (if isTrain then trainPools else testPools).items;
              iterations == 0 || players.List? ==>
                r.Ok? && |games| == iterations &&
                AllDrafted(players.items, pools, maxCount, draw, maxPlayers, games) &&
                Ran(players.items, pools, play, isTrain, games, r.value)
    {
      var players := if isTrain then trainPlayers else testPlayers;
      var pools := (if isTrain then trainPools else testPools).items;
      var byPlayers: map<Player, seq<int>> := map p | p in players.items :: [];
      var byPools: map<PoolId, seq<seq<int>>> := map q | q in pools :: [];
      var moveCalls: seq<seq<Player>> := [];
      var trainCalls: seq<(PoolId, map<Player, int>)> := [];
      games := [];
      RanStart(players.items, pools, play, isTrain);
      for i := 0 to iterations
        invariant Ran(players.items, pools, play, isTrain, games,
                      RunLog(byPlayers, byPools, moveCalls, trainCalls))
        invariant i == |games|
        invariant AllDrafted(players.items, pools, maxCount, draw, maxPlayers, games)
        invariant i > 0 ==> players.List?
      {
        var ok, g, moves, solo, last, calls := PlayGame(players, pools, maxCount, draw, play, i);
        if !ok {
          return Err(TypeError), games;
        }
        var byPlayers' := AppendEach(byPlayers, solo);
        var byPools' := AppendEach(byPools, last);
        RanStep(players.items, pools, play, isTrain, games,
                RunLog(byPlayers, byPools, moveCalls, trainCalls), g, byPlayers', byPools');
        moveCalls := moveCalls + moves;
        byPlayers, byPools := byPlayers', byPools';
        if isTrain {
          trainCalls := trainCalls + calls;
        }
        AllDraftedStep(players.items, pools, maxCount, draw, maxPlayers, games, g);
        games := games + [g];
      }
      r := Ok(RunLog(byPlayers, byPools, moveCalls, trainCalls));
    }

    /** One iteration of `_run` (lines 49-103, the training calls excepted): the roster,
        the move requests, the gathered results, and the training maps. */
    method PlayGame(players: PySeq<Player>, pools: seq<PoolId>, maxCount: PoolId -> int,
                    draw: (nat, PoolId, nat) -> Player, play: GamePlay, i: nat)
      returns (ok: bool, ghost g: GameRecord, moves: seq<seq<Player>>, solo: map<Player, int>,
               last: map<PoolId, seq<int>>, calls: seq<(PoolId, map<Player, int>)>)
      modifies this`poolsByPlayer
      ensures ok <==> players.List?
      ensures ok ==>
                Drafted(players.items, pools, maxCount, draw, i, maxPlayers, g) &&
                moves == Moves(play, i) &&
                solo == SoloResults(g.roster, g.pools, play, i) && (forall p :: p in solo ==> p in players.items) &&
                last == PoolResults(g.roster, g.pools, play, i) && (forall q :: q in last ==> q in pools) &&
                calls == TrainCalls(g.roster, g.pools, play, i)
    {
      var roster, log := PrepareRoster(players, pools, maxCount, draw, i);
      if roster.Err? {
        return false, GameRecord([], map[], []), [], map[], map[], [];
      }
      ok := true;
      g := GameRecord(roster.value, poolsByPlayer, log);
      RosterMapped(g);
      DraftedKeys(players.items, pools, maxCount, draw, i, maxPlayers, g, play);
      moves := PlayRounds(play, i);
      solo, last := GatherResults(roster.value, play, i);
      var order, maps := TrainingMaps(roster.value, play, i);
      calls := seq(|order|, k requires 0 <= k < |order| => (order[k], maps[order[k]]));
    }
  }

  /** What a run reports: `results_by_players`, `results_by_pools`, and the calls it made
      on the game (`set_players_moves`, by mover list) and on the pools
      (`train_on_game_over`). */
  datatype RunLog = RunLog(byPlayers: map<Player, seq<int>>, byPools: map<PoolId, seq<seq<int>>>,
                           moveCalls: seq<seq<Player>>, trainCalls: seq<(PoolId, map<Player, int>)>)

  /** Lines 59-64: while the game is not over, the current players are asked for moves,
      all of them in one `set_players_moves` call. */
  method PlayRounds(play: GamePlay, j: nat) returns (calls: seq<seq<Player>>)
    ensures calls == Moves(play, j)
  {
    calls := [];
    for k := 0 to play.rounds(j)
      invariant calls == Moves(play, j)[..k]
    {
      calls := calls + [play.movers(j, k)];
    }
  }

  /** Lines 82-85: append each fresh value to its key's list. */
  method AppendEach<K, V>(acc: map<K, seq<V>>, added: map<K, V>) returns (r: map<K, seq<V>>)
    requires added.Keys <= acc.Keys
    ensures r.Keys == acc.Keys
    ensures forall k :: k in r ==> r[k] == acc[k] + (if k in added then [added[k]] else [])
  {
    r := acc;
    var todo := added.Keys;
    while todo != {}
      invariant todo <= added.Keys && r.Keys == acc.Keys
      invariant forall k :: k in r ==> r[k] == acc[k] + (if k in added && k !in todo then [added[k]] else [])
      decreases todo
    {
      var k :| k in todo;
      r := r[k := r[k] + [added[k]]];
      todo := todo - {k};
    }
  }
}