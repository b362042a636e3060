/** The historical revision of the tournament engine (enigne.py at the repository root).
    Validation is the current revision's, but the roster scheduler's loop guard is
    inverted, the training setter stores into the wrong attributes, and the pool dispatch
    after a training game unpacks pool objects as pairs. The model follows the code as
    written and proves where each of these leads. */
module LegacyEngine {
  import opened Common
  import opened Roster

  /** How a call ends: it returns a value, raises, or never returns. `Diverges` is
      reported when a loop is still running after the `fuel` iterations a method is given
      to observe it; the lemmas and contracts below show that this happens for every fuel. */
  datatype Outcome<T> = Returned(value: T) | Raised(error: PyError) | Diverges

  class Engine {
    /** `_min_players` and `_max_players`. */
    const minPlayers: int
    const maxPlayers: int
    /** `train_players`, `train_player_pools`, `test_players`, `test_player_pools`. */
    var trainPlayers: PySeq<Player>
    var trainPools: PySeq<PoolId>
    var testPlayers: PySeq<Player>
    var testPools: PySeq<PoolId>
    /** `players` and `player_pools`, attributes that exist only once `set_training_players`
        has stored into them (None = not set). */
    var players: Option<PySeq<Player>>
    var playerPools: Option<PySeq<PoolId>>
    /** `_pool_players`: the players drawn from each pool for the current roster. */
    var poolPlayers: map<PoolId, seq<Player>>

    /** The fields as `__init__` leaves them: every list the default tuple `()`. */
    ghost predicate Fresh()
      reads this
    {
      trainPlayers == Tuple([]) && trainPools == Tuple([]) &&
      testPlayers == Tuple([]) && testPools == Tuple([]) &&
      players.None? && playerPools.None?
    }

    constructor (minPlayers: int, maxPlayers: int)
      ensures this.minPlayers == minPlayers && this.maxPlayers == maxPlayers
      ensures Fresh() && poolPlayers == map[]
    {
      this.minPlayers := minPlayers;
      this.maxPlayers := maxPlayers;
      trainPlayers := Tuple([]);
      trainPools := Tuple([]);
      testPlayers := Tuple([]);
      testPools := Tuple([]);
      players := None;
      playerPools := None;
      poolPlayers := map[];
    }

    /** `Engine.__init__`: an exact player count sets both limits, a min/max pair sets
        them apart, and any other game-info shape raises AttributeError. */
    static method Create(info: GameInfo) returns (r: Result<Engine>)
      ensures PlayerLimits(info, AttributeError).Err? ==> r == Err(AttributeError)
      ensures PlayerLimits(info, AttributeError).Ok? ==>
                r.Ok? && fresh(r.value) && r.value.Fresh() &&
                (r.value.minPlayers, r.value.maxPlayers) == PlayerLimits(info, AttributeError).value
    {
      var limits := PlayerLimits(info, AttributeError);
      if limits.Err? {
        return Err(AttributeError);
      }
      var e := new Engine(limits.value.0, limits.value.1);
      r := Ok(e);
    }

    /** `set_training_players`: validates like the current revision, then stores into
        `players` and `player_pools`, so the lists `train` reads keep their defaults. */
    method SetTrainingPlayers(players: PySeq<Player>, pools: PySeq<PoolId>, maxCount: PoolId -> int)
      returns (r: Result<()>)
      modifies this`players, this`playerPools
      ensures r.Ok? <==> Admissible(|players.items|, pools.items, maxCount, minPlayers, maxPlayers)
      ensures r.Err? ==> r.error == ValueError && unchanged(this`players, this`playerPools)
      ensures r.Ok? ==> this.players == Some(players) && playerPools == Some(pools)
    {
      r := Validate(|players.items|, pools.items, maxCount, minPlayers, maxPlayers);
      if r.Ok? {
        this.players, playerPools := Some(players), Some(pools);
      }
    }

    /** `set_testing_players`: validate, then store into the lists `test` reads. */
    method SetTestingPlayers(players: PySeq<Player>, pools: PySeq<PoolId>, maxCount: PoolId -> int)
      returns (r: Result<()>)
      modifies this`testPlayers, this`testPools
      ensures r.Ok? <==> Admissible(|players.items|, pools.items, maxCount, minPlayers, maxPlayers)
      ensures r.Err? ==> r.error == ValueError && unchanged(this`testPlayers, this`testPools)
      ensures r.Ok? ==> testPlayers == players && testPools == pools
    {
      r := Validate(|players.items|, pools.items, maxCount, minPlayers, maxPlayers);
      if r.Ok? {
        testPlayers, testPools := players, pools;
      }
    }

    /** `_prepare_player_list`. `[] + players_list` raises TypeError for a tuple; then every
        pool gets an empty allocation list. The loop runs while the set of pools is EMPTY:
        with pools it is never entered and the roster is the standalone players, no pool is
        asked for a player; without pools the set stays empty and the loop never ends. */
    method PrepareRoster(playersList: PySeq<Player>, pools: PySeq<PoolId>, fuel: nat)
      returns (r: Outcome<seq<Player>>)
      modifies this`poolPlayers
      ensures playersList.Tuple? ==> r == Raised(TypeError) && poolPlayers == old(poolPlayers)
      ensures playersList.List? ==> poolPlayers == map q | q in pools.items :: []
      ensures playersList.List? && |pools.items| > 0 ==> r == Returned(playersList.items)
      ensures playersList.List? && |pools.items| == 0 ==> r == Diverges
      ensures r.Returned? ==> poolPlayers != map[]
    {
      if playersList.Tuple? {
        return Raised(TypeError);
      }
      var roster := playersList.items;
      poolPlayers := map[];
      for i := 0 to |pools.items|
        invariant poolPlayers == map q | q in pools.items[..i] :: []
      {
        poolPlayers := poolPlayers[pools.items[i] := []];
        assert forall q :: q in pools.items[..i + 1] <==> q in pools.items[..i] || q == pools.items[i];
      }
      assert pools.items[..|pools.items|] == pools.items;
      var nonEmpty := set q | q in pools.items;
      assert |pools.items| > 0 ==> pools.items[0] in nonEmpty;
      var steps := 0;
      while nonEmpty == {} && steps < fuel
        invariant nonEmpty == {} <==> |pools.items| == 0
        invariant steps <= fuel
      {
        // Line 130 iterates over `nonEmpty`, which the guard has just found empty: no pool
        // is asked, and the new set stays empty.
        var newNonEmpty: set<PoolId> := {};
        nonEmpty := newNonEmpty;
        steps := steps + 1;
      }
      if nonEmpty == {} {
        return Diverges;
      }
      assert pools.items[0] in poolPlayers;
      r := Returned(roster);
    }

    /** `train`: game i prepares its roster from `train_players` and `train_player_pools`,
        shuffles it, plays `rounds(i)` rounds, each one `set_players_moves` call keyed by
        every roster member, then dispatches the pools' results by iterating
        `_pool_players` as pairs, which raises TypeError as soon as it holds a pool. The
        players' `game_over` calls of line 65 are taken to succeed, as they do for player
        objects that define `game_over`.
        `moves` lists the mover sets of the `set_players_moves` calls made. */
    method Train(iterations: nat, rounds: nat -> nat, fuel: nat)
      returns (r: Outcome<()>, moves: seq<seq<Player>>)
      modifies this`poolPlayers
      ensures iterations == 0 ==> r == Returned(()) && moves == []
      ensures iterations > 0 && trainPlayers.Tuple? ==> r == Raised(TypeError) && moves == []
      ensures iterations > 0 && trainPlayers.List? && |trainPools.items| == 0 ==> r == Diverges && moves == []
      ensures iterations > 0 && trainPlayers.List? && |trainPools.items| > 0 ==>
                r == Raised(TypeError) && |moves| == rounds(0) &&
                forall k :: 0 <= k < |moves| ==> multiset(moves[k]) == multiset(trainPlayers.items)
    {
      moves := [];
      for i := 0 to iterations
        invariant i == 0 && moves == []
      {
        var roster := PrepareRoster(trainPlayers, trainPools, fuel);
        if roster.Raised? {
          return Raised(roster.error), moves;
        }
        if roster.Diverges? {
          return Diverges, moves;
        }
        moves := PlayGame(roster.value, rounds(i));
        // Line 67 unpacks each key of `_pool_players`, a pool object, into two names.
        if poolPlayers != map[] {
          return Raised(TypeError), moves;
        }
        // Not reached: a roster only comes back when pools are present, and their keys
        // make line 67 raise, so the `on_iteration_complete` test (lines 70-72) never runs.
        assert false;
      }
      r := Returned(());
    }

    /** `test`: one game with the testing lists; the callbacks' results are ignored.
        Returns the mover sets of its `set_players_moves` calls. */
    method Test(rounds: nat, fuel: nat) returns (r: Outcome<seq<seq<Player>>>)
      modifies this`poolPlayers
      ensures testPlayers.Tuple? ==> r == Raised(TypeError)
      ensures testPlayers.List? && |testPools.items| == 0 ==> r == Diverges
      ensures testPlayers.List? && |testPools.items| > 0 ==>
                r.Returned? && |r.value| == rounds &&
                forall k :: 0 <= k < rounds ==> multiset(r.value[k]) == multiset(testPlayers.items)
    {
      var roster := PrepareRoster(testPlayers, testPools, fuel);
      if roster.Raised? {
        return Raised(roster.error);
      }
      if roster.Diverges? {
        return Diverges;
      }
      var moves := PlayGame(roster.value, rounds);
      r := Returned(moves);
    }
  }

  /** Lines 49-61 (and 87-99): the roster is shuffled into some order, and every round
      asks all of its members for a move in one `set_players_moves` call. */
  method PlayGame(roster: seq<Player>, rounds: nat) returns (moves: seq<seq<Player>>)
    ensures |moves| == rounds
    ensures forall k :: 0 <= k < rounds ==> moves[k] == moves[0] && multiset(moves[k]) == multiset(roster)
  {
    assert multiset(roster) == multiset(roster);
    var shuffled: seq<Player> :| multiset(shuffled) == multiset(roster);
    moves := [];
    while |moves| < rounds
      invariant |moves| <= rounds
      invariant forall k :: 0 <= k < |moves| ==> moves[k] == shuffled
    {
      moves := moves + [shuffled];
    }
  }
}
