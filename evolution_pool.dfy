/** The generational tournament pool (`EvolutionWithMutationPlayerPool`,
    engine/algorithms/tensorflow/evolution_mutation.py). In 1-on-1 mode a round is a
    bracket: a contender drawn without replacement meets every member already in the score
    table, one duel per game; in simultaneous mode every game has `tournament_size` members
    drawn with replacement and its best result wins. Round winners accumulate until there
    are as many as members, then the generation is replaced. */
module EvolutionPool {
  import opened Common
  import opened EvolutionReplacement

  /** The score table `_current_tournament`: keys in insertion order and their points. */
  datatype Table = Table(keys: seq<Member>, score: map<Member, int>)

  ghost predicate TableOk(t: Table) {
    Distinct(t.keys) && forall m :: m in t.score <==> m in t.keys
  }

  /** `players_results[m]`, None where the dictionary has no key `m` (KeyError). */
  function Lookup(results: seq<(Member, int)>, m: Member): (r: Option<int>)
    ensures r.None? <==> m !in Firsts(results)
    ensures r.Some? ==> (m, r.value) in results
  {
    if |results| == 0 then None
    else if results[0].0 == m then Some(results[0].1)
    else
      assert Firsts(results) == [results[0].0] + Firsts(results[1..]);
      Lookup(results[1..], m)
  }

  /** Python's `max(..., key=...)`: the position of the first maximal value. */
  function FirstMax(vals: seq<int>): (i: nat)
    requires |vals| > 0
    ensures i < |vals|
    ensures forall j :: 0 <= j < |vals| ==> vals[j] <= vals[i]
    ensures forall j :: 0 <= j < i ==> vals[j] < vals[i]
  {
    if |vals| == 1 then 0
    else
      var i := FirstMax(vals[..|vals| - 1]);
      if vals[|vals| - 1] > vals[i] then |vals| - 1 else i
  }

  function ResultValues(results: seq<(Member, int)>): (r: seq<int>)
    ensures |r| == |results| && forall i :: 0 <= i < |r| ==> r[i] == results[i].1
  {
    seq(|results|, i requires 0 <= i < |results| => results[i].1)
  }

  function Scores(t: Table): (r: seq<int>)
    requires TableOk(t)
    ensures |r| == |t.keys| && forall i :: 0 <= i < |r| ==> r[i] == t.score[t.keys[i]]
  {
    seq(|t.keys|, i requires 0 <= i < |t.keys| => t.score[t.keys[i]])
  }

  /** The table after a duel, and whether the update went through: a strict winner gets 3
      points, a draw gives 1 to each side (the contender first), a loser gets nothing. An
      opponent missing from the table raises KeyError when its score is touched. */
  datatype Scored = Scored(table: Table, ok: bool)

  function Duel(t: Table, contender: Member, opponent: Member, res1: int, res2: int): (r: Scored)
    requires TableOk(t) && contender in t.keys
    ensures TableOk(r.table) && r.table.keys == t.keys
    ensures r.ok <==> opponent in t.keys || res1 > res2
    ensures forall m :: m in t.keys && m != contender && m != opponent ==> r.table.score[m] == t.score[m]
    ensures contender != opponent ==>
              r.table.score[contender] == t.score[contender] + (if res1 > res2 then 3 else if res1 == res2 then 1 else 0)
    ensures contender != opponent && opponent in t.keys ==>
              r.table.score[opponent] == t.score[opponent] + (if res2 > res1 then 3 else if res1 == res2 then 1 else 0)
  {
    if res1 > res2 then Scored(Table(t.keys, t.score[contender := t.score[contender] + 3]), true)
    else if res2 > res1 then
      if opponent in t.score then Scored(Table(t.keys, t.score[opponent := t.score[opponent] + 3]), true)
      else Scored(t, false)
    else
      var s1 := t.score[contender := t.score[contender] + 1];
      if opponent in s1 then Scored(Table(t.keys, s1[opponent := s1[opponent] + 1]), true)
      else Scored(Table(t.keys, s1), false)
  }

  /** The table a duel is scored in: a new round's table holds the result keys at 0 points;
      the contender is added at 0 points unless it is already there. */
  function OpenTable(table: Option<Table>, results: seq<(Member, int)>, contender: Member): (t: Table)
    requires table.Some? ==> TableOk(table.value)
    requires Distinct(Firsts(results))
    ensures TableOk(t) && contender in t.keys
    ensures var base := if table.Some? then table.value.keys else Firsts(results);
            t.keys == base + (if contender in base then [] else [contender])
    ensures table.None? ==> forall m :: m in t.keys ==> t.score[m] == 0
    ensures table.Some? ==> forall m :: m in table.value.keys ==> t.score[m] == table.value.score[m]
    ensures contender !in (if table.Some? then table.value.keys else Firsts(results)) ==> t.score[contender] == 0
  {
    var base := if table.Some? then table.value
                else Table(Firsts(results), map m | m in Firsts(results) :: 0);
    if contender in base.keys then base
    else Table(base.keys + [contender], base.score[contender := 0])
  }

  /** `list.remove(x)`: drop the first occurrence. */
  function RemoveFirst(s: seq<Member>, x: Member): (r: seq<Member>)
    requires x in s
    ensures |r| == |s| - 1
    ensures multiset(r) == multiset(s) - multiset{x}
  {
    assert s == [s[0]] + s[1..];
    if s[0] == x then s[1..]
    else [s[0]] + RemoveFirst(s[1..], x)
  }

  /** One 1-on-1 game scored into the table (lines 92-106 of `train_on_game_over`): the
      table is opened for the contender, and a result missing for either player leaves the
      table so and fails with KeyError. */
  function ScoreGame(table: Option<Table>, results: seq<(Member, int)>, c: Member, o: Member): (s: Scored)
    requires table.Some? ==> TableOk(table.value)
    requires Distinct(Firsts(results))
    ensures TableOk(s.table) && s.table.keys == OpenTable(table, results, c).keys
    ensures s.ok ==> c in Firsts(results) && o in Firsts(results)
  {
    var t := OpenTable(table, results, c);
    var res1, res2 := Lookup(results, c), Lookup(results, o);
    if res1.None? || res2.None? then Scored(t, false)
    else Duel(t, c, o, res1.value, res2.value)
  }

  /** The state of the current tournament round. */
  datatype RoundState = RoundState(table: Option<Table>, opponent: Option<Member>, contender: Option<Member>,
                                   left: seq<Member>, unselected: seq<Member>)

  class Pool {
    /** `_players`: the members 0..n-1. */
    const population: seq<Member>
    const tournamentSize: int
    /** `_tournament_1_on_1`. */
    const oneOnOne: bool
    /** `_winners` (None and [] are both the empty list here). */
    var winners: seq<Member>
    /** `_current_tournament`. */
    var table: Option<Table>
    /** `_current_tournament_player`: the member the contender meets next. */
    var opponent: Option<Member>
    /** `_current_tournament_added_player`: the contender of the current round. */
    var contender: Option<Member>
    /** `_left_players`: table members the contender has still to meet. */
    var left: seq<Member>
    /** `_unselected_for_tournament`. */
    var unselected: seq<Member>
    /** `_in_game`: how many players this game has taken. */
    var inGame: int
    /** Every setter run so far, oldest first. */
    var copies: seq<Copy>

    /** The pool's invariant: between calls there are fewer winners than members. */
    ghost predicate Valid()
      reads this
    {
      Core() && (|population| > 0 ==> |winners| < |population|)
    }

    /** What holds also in the middle of `train_on_game_over`. */
    ghost predicate Core()
      reads this
    {
      Distinct(population) &&
      |winners| <= |population| &&
      (table.Some? ==> TableOk(table.value)) &&
      inGame >= 0 &&
      multiset(unselected) <= multiset(population) &&
      (contender.Some? ==> contender.value in population)
    }

    constructor (poolSize: nat, tournamentSize: int, oneOnOne: bool)
      ensures Valid()
      ensures population == seq(poolSize, i => i) && this.tournamentSize == tournamentSize && this.oneOnOne == oneOnOne
      ensures winners == [] && table == None && opponent == None && contender == None
      ensures left == [] && unselected == population && inGame == 0 && copies == []
    {
      population := seq(poolSize, i => i);
      this.tournamentSize := tournamentSize;
      this.oneOnOne := oneOnOne;
      winners := [];
      table := None;
      opponent := None;
      contender := None;
      left := [];
      unselected := seq(poolSize, i => i);
      inGame := 0;
      copies := [];
    }

    /** `max_count`: two players in 1-on-1 mode, else `tournament_size`. */
    function MaxCount(): (n: int)
      reads this
      ensures oneOnOne ==> n == 2
      ensures !oneOnOne ==> n == tournamentSize
    {
      if oneOnOne then 2 else tournamentSize
    }

    /** `prepare_new_game`. */
    method PrepareNewGame()
      requires Valid()
      modifies this`inGame
      ensures Valid() && inGame == 0
    {
      inGame := 0;
    }

    /** `_reset_tournament`: a fresh round over the whole population. */
    method ResetTournament()
      requires Valid()
      modifies this`table, this`opponent, this`contender, this`left, this`unselected
      ensures Valid()
      ensures table == None && opponent == None && contender == None
      ensures left == [] && unselected == population
    {
      table := None;
      opponent := None;
      contender := None;
      left := [];
      unselected := population;
    }

    /** Draw a member of `unselected` at random and remove it; IndexError when empty. */
    method DrawUnselected() returns (r: Result<Member>)
      requires Valid()
      modifies this`unselected
      ensures Valid()
      ensures old(unselected) == [] ==> r == Err(IndexError) && unselected == []
      ensures old(unselected) != [] ==>
                r.Ok? && r.value in old(unselected) && unselected == RemoveFirst(old(unselected), r.value)
    {
      if |unselected| == 0 {
        return Err(IndexError);
      }
      var i :| 0 <= i < |unselected|;
      var m := unselected[i];
      unselected := RemoveFirst(unselected, m);
      r := Ok(m);
    }

    /** `get_player`. Every call counts one more player for this game. Simultaneous mode:
        any member, drawn with replacement. 1-on-1 mode: the first player of a game is the
        round's contender, drawn from the unselected members when the round has none yet;
        later players are the contender's current opponent, drawn likewise when there is
        none. Drawing from an empty list raises IndexError. */
    method GetPlayer() returns (r: Result<Member>)
      requires Valid()
      modifies this`inGame, this`unselected, this`contender, this`opponent
      ensures Valid()
      ensures inGame == old(inGame) + 1
      ensures !oneOnOne ==>
                unchanged(this`unselected, this`contender, this`opponent) &&
                (population == [] ==> r == Err(IndexError)) &&
                (population != [] ==> r.Ok? && r.value in population)
      ensures oneOnOne ==>
                var slot := if inGame == 1 then old(contender) else old(opponent);
                var now := if inGame == 1 then contender else opponent;
                (inGame == 1 ==> opponent == old(opponent)) &&
                (inGame != 1 ==> contender == old(contender)) &&
                (slot.Some? ==> r == Ok(slot.value) && now == slot && unselected == old(unselected)) &&
                (slot.None? && old(unselected) == [] ==> r == Err(IndexError) && now == slot && unselected == []) &&
                (slot.None? && old(unselected) != [] ==>
                   r.Ok? && r.value in old(unselected) && now == Some(r.value) &&
                   unselected == RemoveFirst(old(unselected), r.value))
    {
      inGame := inGame + 1;
      if !oneOnOne {
        if |population| == 0 {
          return Err(IndexError);
        }
        var i :| 0 <= i < |population|;
        return Ok(population[i]);
      }
      if inGame == 1 {
        r := Contender();
      } else {
        r := Opponent();
      }
    }

    /** The first player of a 1-on-1 game: the round's contender, drawn when missing. */
    method Contender() returns (r: Result<Member>)
      requires Valid()
      modifies this`unselected, this`contender
      ensures Valid()
      ensures old(contender).Some? ==> r == Ok(old(contender).value) && unchanged(this`unselected, this`contender)
      ensures old(contender).None? ==>
                (old(unselected) == [] ==> r == Err(IndexError) && unchanged(this`unselected, this`contender)) &&
                (old(unselected) != [] ==> r.Ok? && r.value in old(unselected) && contender == Some(r.value) &&
                                            unselected == RemoveFirst(old(unselected), r.value))
    {
      if contender.None? {
        r := DrawUnselected();
        if r.Err? {
          return;
        }
        contender := Some(r.value);
      }
      r := Ok(contender.value);
    }

    /** A later player of a 1-on-1 game: the contender's opponent, drawn when missing. */
    method Opponent() returns (r: Result<Member>)
      requires Valid()
      modifies this`unselected, this`opponent
      ensures Valid()
      ensures old(opponent).Some? ==> r == Ok(old(opponent).value) && unchanged(this`unselected, this`opponent)
      ensures old(opponent).None? ==>
                (old(unselected) == [] ==> r == Err(IndexError) && unchanged(this`unselected, this`opponent)) &&
                (old(unselected) != [] ==> r.Ok? && r.value in old(unselected) && opponent == Some(r.value) &&
                                            unselected == RemoveFirst(old(unselected), r.value))
    {
      if opponent.None? {
        r := DrawUnselected();
        if r.Err? {
          return;
        }
        opponent := Some(r.value);
      }
      r := Ok(opponent.value);
    }

    /** `train_on_game_over`. A result count other than `max_count` fails the assertion.
        Simultaneous mode: the first member with the best result wins the game and joins
        the winners (ValueError for an empty result). 1-on-1 mode: the game is scored into
        the round's table and the round advances, as `ScoreGame` and `AdvanceRound` say. In
        both modes, once there are as many winners as members, the generation is replaced
        and the winners are cleared. */
    method TrainOnGameOver(results: seq<(Member, int)>)
      returns (r: Result<()>, ghost roundWinner: Option<Member>, generated: seq<Copy>)
      requires Valid()
      requires Distinct(Firsts(results)) && forall i :: 0 <= i < |results| ==> results[i].0 in population
      requires oneOnOne && |results| == MaxCount() ==> contender.Some? && opponent.Some?
      modifies this`winners, this`table, this`opponent, this`contender, this`left, this`unselected, this`copies
      ensures Valid()
      ensures |results| != MaxCount() ==>
                r == Err(AssertionError) && roundWinner == None &&
                unchanged(this`table, this`opponent, this`contender, this`left, this`unselected)
      ensures |results| == MaxCount() ==> Played(results, r, roundWinner, old(Round()), Round())
      ensures r.Err? ==> generated == [] && winners == old(winners) && copies == old(copies)
      ensures r.Ok? ==>
                var grown := old(winners) + (if roundWinner.Some? then [roundWinner.value] else []);
                (|grown| < |population| ==> winners == grown && generated == []) &&
                (|grown| == |population| ==> winners == [] && Replaced(grown, generated))
      ensures r.Ok? ==> copies == old(copies) + generated
    {
      roundWinner, generated := None, [];
      if |results| != MaxCount() {
        r := Err(AssertionError);
        return;
      }
      if !oneOnOne {
        r, roundWinner := SimultaneousGame(results);
      } else {
        r, roundWinner := DuelGame(results);
      }
      assert Played(results, r, roundWinner, old(Round()), Round());
      if r.Ok? {
        generated := EndOfGame();
      }
    }

    /** What one game does to the round state (lines 84-125 of `train_on_game_over`).
        Simultaneous mode: the first member with the best result wins (ValueError for an
        empty result) and the round state stays. 1-on-1 mode: the game is scored into the
        round's table as `ScoreGame` says, a failed score leaves the rest as it was, and a
        successful one advances the round as `RoundStep` says. */
    ghost predicate Played(results: seq<(Member, int)>, r: Result<()>, roundWinner: Option<Member>,
                           before: RoundState, after: RoundState)
      requires before.table.Some? ==> TableOk(before.table.value)
      requires Distinct(Firsts(results))
    {
      if !oneOnOne then
        (results == [] ==> r == Err(ValueError) && roundWinner == None) &&
        (results != [] ==> r == Ok(()) && roundWinner == Some(results[FirstMax(ResultValues(results))].0)) &&
        after == before
      else
        before.contender.Some? && before.opponent.Some? &&
        var s := ScoreGame(before.table, results, before.contender.value, before.opponent.value);
        (!s.ok ==> r == Err(KeyError) && roundWinner == None && after == before.(table := Some(s.table))) &&
        (s.ok ==> r == Ok(()) && RoundStep(before.(table := Some(s.table)), after, roundWinner))
    }

    /** The round state: everything `train_on_game_over` changes besides the winners. */
    ghost function Round(): RoundState
      reads this`table, this`opponent, this`contender, this`left, this`unselected
    {
      RoundState(table, opponent, contender, left, unselected)
    }

    /** Line 85-89 of `train_on_game_over`: the first best result wins the game. */
    method SimultaneousGame(results: seq<(Member, int)>) returns (r: Result<()>, ghost roundWinner: Option<Member>)
      requires Valid() && !oneOnOne
      requires Distinct(Firsts(results)) && forall i :: 0 <= i < |results| ==> results[i].0 in population
      modifies this`winners
      ensures Core()
      ensures Played(results, r, roundWinner, old(Round()), Round())
      ensures r.Ok? <==> results != []
      ensures r.Err? ==> roundWinner == None
      ensures winners == old(winners) + (if roundWinner.Some? then [roundWinner.value] else [])
    {
      if |results| == 0 {
        return Err(ValueError), None;
      }
      var w := results[FirstMax(ResultValues(results))].0;
      winners := winners + [w];
      roundWinner := Some(w);
      r := Ok(());
    }

    /** Lines 92-125 of `train_on_game_over`: a scored duel, then the round advances. */
    method DuelGame(results: seq<(Member, int)>) returns (r: Result<()>, ghost roundWinner: Option<Member>)
      requires Valid() && oneOnOne
      requires Distinct(Firsts(results))
      requires contender.Some? && opponent.Some?
      modifies this`winners, this`table, this`opponent, this`contender, this`left, this`unselected
      ensures Core()
      ensures Played(results, r, roundWinner, old(Round()), Round())
      ensures r.Err? ==> roundWinner == None && winners == old(winners)
      ensures r.Ok? ==> winners == old(winners) + (if roundWinner.Some? then [roundWinner.value] else [])
    {
      roundWinner := None;
      ghost var s := ScoreGame(table, results, contender.value, opponent.value);
      r := ScoreDuel(results);
      if r.Err? {
        return;
      }
      roundWinner := AdvanceRound();
      assert RoundStep(old(Round()).(table := Some(s.table)), Round(), roundWinner);
    }

    /** Every copy of a generation replacement over `population` with the given winners. */
    ghost predicate Replaced(grown: seq<Member>, generated: seq<Copy>)
      reads this
    {
      multiset(Targets(generated)) == multiset(population) &&
      multiset(Donors(generated)) == multiset(grown) &&
      NoStaleDonor(generated)
    }

    /** Lines 127-128 of `train_on_game_over`: a full list of winners replaces the generation. */
    method EndOfGame() returns (generated: seq<Copy>)
      requires Core()
      modifies this`winners, this`copies
      ensures Valid()
      ensures copies == old(copies) + generated
      ensures |old(winners)| < |population| ==> winners == old(winners) && generated == []
      ensures |old(winners)| == |population| ==> winners == [] && Replaced(old(winners), generated)
    {
      generated := [];
      if |winners| > 0 && |winners| == |population| {
        generated := NextGeneration(population, winners);
        copies := copies + generated;
        winners := [];
      } else if |winners| == |population| {
        assert population == [];
      }
    }

    /** Lines 92-106 of `train_on_game_over` (1-on-1 mode), as `ScoreGame` says. */
    method ScoreDuel(results: seq<(Member, int)>) returns (r: Result<()>)
      requires Core()
      requires Distinct(Firsts(results))
      requires contender.Some? && opponent.Some?
      modifies this`table
      ensures Core()
      ensures var s := ScoreGame(old(table), results, contender.value, opponent.value);
              table == Some(s.table) && r == (if s.ok then Ok(()) else Err(KeyError))
    {
      var s := ScoreGame(table, results, contender.value, opponent.value);
      table := Some(s.table);
      r := if s.ok then Ok(()) else Err(KeyError);
    }

    /** Lines 108-125 of `train_on_game_over` (1-on-1 mode): while members are left, the
        next one becomes the opponent; with none left and fewer than `tournament_size` in
        the table, the contender's turn ends and the next contender will meet every table
        member, last added first; otherwise the round is over: the first member with the
        highest score is appended to the winners and the round state is reset. */
    method AdvanceRound() returns (ghost roundWinner: Option<Member>)
      requires Core() && table.Some? && table.value.keys != []
      requires |winners| < |population|
      modifies this`winners, this`table, this`opponent, this`contender, this`left, this`unselected
      ensures Core()
      ensures RoundStep(old(Round()), Round(), roundWinner)
      ensures winners == old(winners) + (if roundWinner.Some? then [roundWinner.value] else [])
    {
      var t := table.value;
      roundWinner := None;
      if |left| > 0 {
        opponent := Some(left[|left| - 1]);
        left := left[..|left| - 1];
      } else if tournamentSize > |t.keys| {
        left := t.keys[..|t.keys| - 1];
        opponent := Some(t.keys[|t.keys| - 1]);
        contender := None;
      } else {
        var w := t.keys[FirstMax(Scores(t))];
        winners := winners + [w];
        roundWinner := Some(w);
        table := None;
        opponent := None;
        contender := None;
        left := [];
        unselected := population;
      }
    }

    /** The round state after a scored duel, as described at `AdvanceRound`. */
    ghost predicate RoundStep(before: RoundState, after: RoundState, roundWinner: Option<Member>)
      requires before.table.Some? && TableOk(before.table.value)
    {
      var t := before.table.value;
      (before.left != [] ==>
         roundWinner == None &&
         after == before.(opponent := Some(before.left[|before.left| - 1]), left := before.left[..|before.left| - 1])) &&
      (before.left == [] && tournamentSize > |t.keys| ==>
         roundWinner == None && t.keys != [] &&
         after == before.(opponent := Some(t.keys[|t.keys| - 1]), left := t.keys[..|t.keys| - 1], contender := None)) &&
      (before.left == [] && tournamentSize <= |t.keys| ==>
         t.keys != [] && roundWinner == Some(t.keys[FirstMax(Scores(t))]) &&
         after == RoundState(None, None, None, [], population))
    }
  }
}
