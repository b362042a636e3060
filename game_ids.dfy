/** Turn-order bookkeeping of the base `Game` class (game.py): every new game hands out the
    ids 0..n-1 in roster order, and the id map is never cleared between games. */
module GameIds {
  import opened Common

  type Player = nat

  /** One `set_player_id` call: the player and the id it was given. */
  type Assignment = (Player, nat)

  /** The assignments one call of `prepare_new_game` makes: position i gets id i. */
  function TurnOrder(roster: seq<Player>): (r: seq<Assignment>)
    ensures |r| == |roster|
    ensures forall i :: 0 <= i < |r| ==> r[i] == (roster[i], i)
  {
    seq(|roster|, i requires 0 <= i < |roster| => (roster[i], i))
  }

  /** After a game whose roster has no repeated player, each member's latest id is its
      position in the roster, whatever earlier games assigned. */
  lemma {:induction false} TurnOrderIds(log: seq<Assignment>, roster: seq<Player>, i: nat)
    requires Distinct(roster) && i < |roster|
    ensures LastValue(log + TurnOrder(roster), roster[i]) == Some(i)
  {
    var full := log + TurnOrder(roster);
    var k := |log| + i;
    assert full[k] == (roster[i], i);
    forall j | k < j < |full| ensures full[j].0 != roster[i] {
      assert full[j] == (roster[j - |log|], j - |log|);
    }
    LastIsAt(full, roster[i], k);
  }

  /** A roster member's latest id is a position of the roster at or after its own,
      holding that same member. */
  lemma LatestIdInRoster(log: seq<Assignment>, roster: seq<Player>, i: nat)
    requires i < |roster|
    ensures var r := LastValue(log + TurnOrder(roster), roster[i]);
            r.Some? && i <= r.value < |roster| && roster[r.value] == roster[i]
  {
    var full := log + TurnOrder(roster);
    assert full[|log| + i] == (roster[i], i);
    var r := LastValue(full, roster[i]);
    var j :| 0 <= j < |full| && full[j] == (roster[i], r.value) &&
             forall k :: j < k < |full| ==> full[k].0 != roster[i];
    assert j >= |log| + i;
    assert full[j] == (roster[j - |log|], j - |log|);
  }

  /** The id map after a game: each member holds a roster position of itself at or after
      its own, and everyone outside the roster keeps the id it had. */
  lemma PreparedIds(before: map<Player, nat>, log: seq<Assignment>, roster: seq<Player>, after: map<Player, nat>)
    requires Tracks(before, log) && Tracks(after, log + TurnOrder(roster))
    ensures forall i :: 0 <= i < |roster| ==>
              roster[i] in after && i <= after[roster[i]] < |roster| && roster[after[roster[i]]] == roster[i]
    ensures forall p :: p !in roster ==>
              (p in after <==> p in before) && (p in after ==> after[p] == before[p])
  {
    forall i | 0 <= i < |roster|
      ensures roster[i] in after && i <= after[roster[i]] < |roster| && roster[after[roster[i]]] == roster[i]
    {
      LatestIdInRoster(log, roster, i);
      assert LastValue(log + TurnOrder(roster), roster[i]).Some?;
    }
    forall p | p !in roster
      ensures (p in after <==> p in before) && (p in after ==> after[p] == before[p])
    {
      LastValueSkip(log, TurnOrder(roster), p);
      assert LastValue(log + TurnOrder(roster), p) == LastValue(log, p);
    }
  }

  class Game {
    /** `_player_ids`: player -> turn-order id, kept across games. */
    var playerIds: map<Player, nat>
    /** `_players`: the roster of the current game (None before the first game). */
    var players: Option<seq<Player>>
    /** Every `set_player_id` call made so far, oldest first. */
    var idLog: seq<Assignment>

    /** The id map always holds, for every player, the latest id it was given. */
    ghost predicate Valid()
      reads this
    {
      Tracks(playerIds, idLog)
    }

    constructor ()
      ensures Valid()
      ensures playerIds == map[] && players == None && idLog == []
    {
      playerIds := map[];
      players := None;
      idLog := [];
    }

    /** `prepare_new_game`: store the roster and give its members the ids 0..n-1 in order. */
    method PrepareNewGame(roster: seq<Player>)
      requires Valid()
      modifies this
      ensures Valid()
      ensures players == Some(roster)
      ensures idLog == old(idLog) + TurnOrder(roster)
      ensures forall i :: 0 <= i < |roster| ==>
                roster[i] in playerIds && i <= playerIds[roster[i]] < |roster| &&
                roster[playerIds[roster[i]]] == roster[i]
      ensures forall p :: p !in roster ==>
                (p in playerIds <==> p in old(playerIds)) &&
                (p in playerIds ==> playerIds[p] == old(playerIds)[p])
    {
      players := Some(roster);
      var id := 0;
      while id < |roster|
        invariant 0 <= id <= |roster|
        invariant Valid() && players == Some(roster)
        invariant idLog == old(idLog) + TurnOrder(roster[..id])
      {
        var p := roster[id];
        TracksWrite(playerIds, idLog, p, id);
        playerIds := playerIds[p := id];
        idLog := idLog + [(p, id)];
        assert roster[..id + 1] == roster[..id] + [p];
        assert TurnOrder(roster[..id + 1]) == TurnOrder(roster[..id]) + [(p, id)];
        id := id + 1;
      }
      assert roster[..id] == roster;
      PreparedIds(old(playerIds), old(idLog), roster, playerIds);
    }

    /** `get_player_id`: the latest id given to `p`; a player never seen raises KeyError. */
    function GetPlayerId(p: Player): (r: Result<nat>)
      reads this
      requires Valid()
      ensures r.Err? <==> forall i :: 0 <= i < |idLog| ==> idLog[i].0 != p
      ensures r.Err? ==> r.error == KeyError
      ensures r.Ok? ==> LastValue(idLog, p) == Some(r.value)
    {
      if p in playerIds then Ok(playerIds[p]) else Err(KeyError)
    }
  }
}
