/** What both revisions of the tournament engine (engine/enigne.py and the older enigne.py)
    share: the shapes of a game's info object, and the validation of a roster
    specification (standalone players plus player pools) against the game's limits. */
module Roster {
  import opened Common

  /** A player object, identified by a handle. */
  type Player = nat

  /** A player pool object. Pools and players are different objects, so a pool is never
      equal to a player. */
  datatype PoolId = PoolId(handle: nat)

  /** A Python sequence argument: the setters' default `()` is a tuple, callers pass lists.
      Both have a length and can be iterated; only a list can be added to `[]`. */
  datatype PySeq<T> = Tuple(items: seq<T>) | List(items: seq<T>)

  /** The attributes `get_game_info()` provides: either `players_number`, or the pair
      `min_players_number` / `max_players_number` (None = attribute missing). */
  datatype GameInfo = GameInfo(playersNumber: Option<int>, minPlayersNumber: Option<int>,
                               maxPlayersNumber: Option<int>)

  /** `(min_players, max_players)` as `Engine.__init__` reads them: an exact count sets both,
      otherwise both bounds must be present; anything else raises `missing` (ValueError in
      the current revision, AttributeError in the old one). */
  function PlayerLimits(info: GameInfo, missing: PyError): (r: Result<(int, int)>)
    ensures r.Err? <==> info.playersNumber.None? && (info.minPlayersNumber.None? || info.maxPlayersNumber.None?)
    ensures r.Err? ==> r.error == missing
    ensures info.playersNumber.Some? ==> r.Ok? && r.value.0 == r.value.1 == info.playersNumber.value
    ensures info.playersNumber.None? && r.Ok? ==>
              r.value == (info.minPlayersNumber.value, info.maxPlayersNumber.value)
  {
    if info.playersNumber.Some? then Ok((info.playersNumber.value, info.playersNumber.value))
    else if info.minPlayersNumber.Some? && info.maxPlayersNumber.Some? then
      Ok((info.minPlayersNumber.value, info.maxPlayersNumber.value))
    else Err(missing)
  }

  /** `sum([pool.max_count() for pool in player_pools])`. */
  function SumCounts(pools: seq<PoolId>, maxCount: PoolId -> int): int
  {
    if |pools| == 0 then 0 else SumCounts(pools[..|pools| - 1], maxCount) + maxCount(pools[|pools| - 1])
  }

  /** The four conditions `_validate_player_list` checks, in its order: the specification
      is not empty, one slot per standalone player and per pool fits under the maximum, the
      pools can supply enough players to reach the minimum, and every pool allows at least
      one player. */
  ghost predicate Admissible(nPlayers: nat, pools: seq<PoolId>, maxCount: PoolId -> int,
                             minPlayers: int, maxPlayers: int)
  {
    nPlayers + |pools| != 0 &&
    nPlayers + |pools| <= maxPlayers &&
    nPlayers + SumCounts(pools, maxCount) >= minPlayers &&
    forall i :: 0 <= i < |pools| ==> maxCount(pools[i]) >= 1
  }

  /** `_validate_player_list`: ValueError exactly when the specification is not admissible. */
  method Validate(nPlayers: nat, pools: seq<PoolId>, maxCount: PoolId -> int,
                  minPlayers: int, maxPlayers: int) returns (r: Result<()>)
    ensures r.Ok? <==> Admissible(nPlayers, pools, maxCount, minPlayers, maxPlayers)
    ensures r.Err? ==> r.error == ValueError
  {
    if nPlayers + |pools| == 0 {
      return Err(ValueError);
    }
    if nPlayers + |pools| > maxPlayers {
      return Err(ValueError);
    }
    var total := 0;
    for i := 0 to |pools|
      invariant total == SumCounts(pools[..i], maxCount)
    {
      assert pools[..i + 1][..i] == pools[..i];
      total := total + maxCount(pools[i]);
    }
    assert pools[..|pools|] == pools;
    if nPlayers + total < minPlayers {
      return Err(ValueError);
    }
    for i := 0 to |pools|
      invariant forall j :: 0 <= j < i ==> maxCount(pools[j]) >= 1
    {
      if maxCount(pools[i]) < 1 {
        return Err(ValueError);
      }
    }
    r := Ok(());
  }
}
