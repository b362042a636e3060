/** `DraughtsView` of engine/games/draughts.py: a board with its point of view, the two
    players, the terminal flag, the winner, and the count of positions seen so far. A view
    is built empty, or derived from another one by changes, an optional turn of the board
    and the end-of-move analysis; `begin` sets up the pieces. */
module DraughtsView {
  import opened Common
  import opened DraughtsBoard

  /** A position as `_encode_state` returns it: the side to move and the 50 field codes. */
  type State = (Owner, seq<int>)

  /** What the end-of-move analysis (lines 63-85) gathers: whether `pov` has a movable
      piece, whether `other` has one, and the two lone-king checkers (a king counts 1, a
      man 2). */
  datatype Survey = Survey(povHasMoves: bool, otherHasMoves: bool, povChecker: int, otherChecker: int)

  /** A Size x Size table, one entry per field. */
  ghost predicate Grid(mob: seq<seq<bool>>)
  {
    |mob| == Size && forall c :: 0 <= c < Size ==> |mob[c]| == Size
  }

  /** Whether the piece on each field could move (`_can_piece_move`). */
  function Mobility(b: Board): (m: seq<seq<bool>>)
    requires Square(b)
    ensures Grid(m)
    ensures forall c, r :: 0 <= c < Size && 0 <= r < Size ==> m[c][r] == CanPieceMove(b, c, r)
  {
    seq(Size, c requires 0 <= c < Size => seq(Size, r requires 0 <= r < Size => CanPieceMove(b, c, r)))
  }

  /** Field (col, row) of the survey, with `mob` telling which pieces could move. As line
      79 is written, an opponent piece is only looked at while no opponent piece has been
      found movable, so the opponent's checker stops counting at its first movable piece. */
  function SurveyStep(b: Board, mob: seq<seq<bool>>, pov: Owner, other: Owner, col: int, row: int, s: Survey): Survey
    requires Square(b) && Grid(mob) && 0 <= col < Size && 0 <= row < Size
  {
    var f := b[col][row];
    var w := if f.isKing then 1 else 2;
    if f.player == pov then
      s.(povChecker := s.povChecker + w,
         povHasMoves := if !s.povHasMoves then mob[col][row] else s.povHasMoves)
    else if !s.otherHasMoves && f.player == other then
      s.(otherChecker := s.otherChecker + w, otherHasMoves := mob[col][row])
    else s
  }

  /** The survey over the fields before (col, row) in column order. */
  function SurveyOf(b: Board, mob: seq<seq<bool>>, pov: Owner, other: Owner, col: int, row: int): Survey
    requires Square(b) && Grid(mob) && Cursor(col, row)
    decreases col, row
  {
    if row > 0 then SurveyStep(b, mob, pov, other, col, row - 1, SurveyOf(b, mob, pov, other, col, row - 1))
    else if col > 0 then SurveyOf(b, mob, pov, other, col - 1, Size)
    else Survey(false, false, 0, 0)
  }

  /** The lone-king weight of the fields before (col, row) held by `owner`: a king 1, a
      man 2. */
  function Pieces(b: Board, owner: Owner, col: int, row: int): (t: int)
    requires Square(b) && Cursor(col, row)
    ensures t >= 0
    decreases col, row
  {
    if row > 0 then
      var f := b[col][row - 1];
      Pieces(b, owner, col, row - 1) + (if f.player == owner then (if f.isKing then 1 else 2) else 0)
    else if col > 0 then Pieces(b, owner, col - 1, Size)
    else 0
  }

  /** Some field before (col, row) holds a piece of `owner` that `mob` says could move. */
  ghost predicate MovableAmong(b: Board, mob: seq<seq<bool>>, owner: Owner, col: int, row: int)
    requires Square(b) && Grid(mob)
  {
    exists c, r :: 0 <= c < Size && 0 <= r < Size && Before(c, r, col, row) && b[c][r].player == owner && mob[c][r]
  }

  /** The survey finds a movable piece of `pov` exactly when one of its pieces can move. */
  lemma {:induction false} SurveyPovMoves(b: Board, mob: seq<seq<bool>>, pov: Owner, other: Owner, col: int, row: int)
    requires Square(b) && Grid(mob) && Cursor(col, row)
    ensures SurveyOf(b, mob, pov, other, col, row).povHasMoves <==> MovableAmong(b, mob, pov, col, row)
    decreases col, row
  {
    if row > 0 {
      SurveyPovMoves(b, mob, pov, other, col, row - 1);
      if b[col][row - 1].player == pov && mob[col][row - 1] {
        assert Before(col, row - 1, col, row);
      }
    } else if col > 0 {
      SurveyPovMoves(b, mob, pov, other, col - 1, Size);
    }
  }

  /** `pov`'s lone-king checker weighs all of its pieces. */
  lemma {:induction false} SurveyPovChecker(b: Board, mob: seq<seq<bool>>, pov: Owner, other: Owner, col: int, row: int)
    requires Square(b) && Grid(mob) && Cursor(col, row)
    ensures SurveyOf(b, mob, pov, other, col, row).povChecker == Pieces(b, pov, col, row)
    decreases col, row
  {
    if row > 0 {
      SurveyPovChecker(b, mob, pov, other, col, row - 1);
    } else if col > 0 {
      SurveyPovChecker(b, mob, pov, other, col - 1, Size);
    }
  }

  /** When the opponent is not `pov`, the survey finds a movable opponent piece exactly
      when one of its pieces can move. */
  lemma {:induction false} SurveyOtherMoves(b: Board, mob: seq<seq<bool>>, pov: Owner, other: Owner, col: int, row: int)
    requires Square(b) && Grid(mob) && Cursor(col, row) && other != pov
    ensures SurveyOf(b, mob, pov, other, col, row).otherHasMoves <==> MovableAmong(b, mob, other, col, row)
    decreases col, row
  {
    if row > 0 {
      SurveyOtherMoves(b, mob, pov, other, col, row - 1);
      if b[col][row - 1].player == other && mob[col][row - 1] {
        assert Before(col, row - 1, col, row);
      }
    } else if col > 0 {
      SurveyOtherMoves(b, mob, pov, other, col - 1, Size);
    }
  }

  /** When the opponent is not `pov`, its checker weighs at most all of its pieces, and all
      of them when none of them can move; it stops at the first movable one (line 79). */
  lemma {:induction false} SurveyOtherChecker(b: Board, mob: seq<seq<bool>>, pov: Owner, other: Owner, col: int, row: int)
    requires Square(b) && Grid(mob) && Cursor(col, row) && other != pov
    ensures SurveyOf(b, mob, pov, other, col, row).otherChecker <= Pieces(b, other, col, row)
    ensures !SurveyOf(b, mob, pov, other, col, row).otherHasMoves ==>
              SurveyOf(b, mob, pov, other, col, row).otherChecker == Pieces(b, other, col, row)
    ensures SurveyOf(b, mob, pov, other, col, row).otherHasMoves ==> SurveyOf(b, mob, pov, other, col, row).otherChecker >= 1
    decreases col, row
  {
    if row > 0 {
      SurveyOtherChecker(b, mob, pov, other, col, row - 1);
    } else if col > 0 {
      SurveyOtherChecker(b, mob, pov, other, col - 1, Size);
    }
  }

  /** Lines 87-104: the end-of-move verdict on a board. A side without a movable piece
      loses (`pov` first), one lone king each is a draw, and otherwise the position's count
      goes up by one and its third occurrence is a draw; in that last case the view keeps
      its terminal flag and winner unless the count reaches 3. */
  function Verdict(b: Board, pov: Owner, other: Owner, isTerminal: bool, winner: Owner,
                   seen: map<State, int>): (bool, Owner, map<State, int>)
    requires Square(b)
  {
    Conclusion(b, pov, other, SurveyOf(b, Mobility(b), pov, other, Size, 0), isTerminal, winner, seen)
  }

  /** Lines 87-104 once the survey s of lines 63-85 is known. */
  function Conclusion(b: Board, pov: Owner, other: Owner, s: Survey, isTerminal: bool, winner: Owner,
                      seen: map<State, int>): (bool, Owner, map<State, int>)
    requires Square(b)
  {
    if !s.povHasMoves then (true, other, seen)
    else if !s.otherHasMoves then (true, pov, seen)
    else if s.povChecker == 1 && s.otherChecker == 1 then (true, None, seen)
    else
      var state := (pov, Encoding(b, pov));
      var count := (if state in seen then seen[state] else 0) + 1;
      var seen' := seen[state := count];
      if count >= 3 then (true, None, seen') else (isTerminal, winner, seen')
  }

  /** When both sides can move and it is not one lone king each, the verdict counts the
      position once more, keeps every other count, and is a draw from the third
      occurrence on; before that the view keeps its terminal flag and winner. */
  lemma VerdictCounts(b: Board, pov: Owner, other: Owner, isTerminal: bool, winner: Owner, seen: map<State, int>)
    requires Square(b)
    ensures var s := SurveyOf(b, Mobility(b), pov, other, Size, 0);
            var state := (pov, Encoding(b, pov));
            var v := Verdict(b, pov, other, isTerminal, winner, seen);
            s.povHasMoves && s.otherHasMoves && !(s.povChecker == 1 && s.otherChecker == 1) ==>
              v.2.Keys == seen.Keys + {state} &&
              v.2[state] == (if state in seen then seen[state] else 0) + 1 &&
              (forall t :: t in seen && t != state ==> v.2[t] == seen[t]) &&
              (v.2[state] >= 3 ==> v.0 && v.1.None?) &&
              (v.2[state] < 3 ==> v.0 == isTerminal && v.1 == winner)
  {
  }

  /** The verdict in terms of the board: the side to move loses when none of its pieces can
      move, its opponent loses when none of theirs can, and one lone king each is a draw. */
  lemma VerdictOutcomes(b: Board, pov: Owner, other: Owner, isTerminal: bool, winner: Owner, seen: map<State, int>)
    requires Square(b) && other != pov
    ensures !MovableAmong(b, Mobility(b), pov, Size, 0) ==>
              Verdict(b, pov, other, isTerminal, winner, seen) == (true, other, seen)
    ensures MovableAmong(b, Mobility(b), pov, Size, 0) && !MovableAmong(b, Mobility(b), other, Size, 0) ==>
              Verdict(b, pov, other, isTerminal, winner, seen) == (true, pov, seen)
    ensures MovableAmong(b, Mobility(b), pov, Size, 0) && MovableAmong(b, Mobility(b), other, Size, 0) &&
            Pieces(b, pov, Size, 0) == 1 && Pieces(b, other, Size, 0) == 1 ==>
              Verdict(b, pov, other, isTerminal, winner, seen) == (true, None, seen)
  {
    var mob := Mobility(b);
    SurveyPovMoves(b, mob, pov, other, Size, 0);
    SurveyPovChecker(b, mob, pov, other, Size, 0);
    SurveyOtherMoves(b, mob, pov, other, Size, 0);
    SurveyOtherChecker(b, mob, pov, other, Size, 0);
  }

  /** Lines 50-53 with the new `pov` and `other`: a winner equal to the new `pov` is first
      renamed to `other` and then, now equal to `other`, back to `pov`; a winner equal to
      the new `other` becomes the new `pov`. */
  function TurnedWinner(winner: Owner, pov: Owner, other: Owner): (w: Owner)
    ensures winner == pov ==> w == pov
    ensures winner != pov && winner == other ==> w == pov
    ensures winner != pov && winner != other ==> w == winner
  {
    var w1 := if winner == pov then other else winner;
    if w1 == other then pov else w1
  }

  /** Lines 43-45: the changes written one after the other; an index outside the board
      raises IndexError. */
  function Applied(b: Board, changes: seq<(Coord, Field)>): (r: Result<Board>)
    requires Square(b)
    ensures r.Ok? ==> Square(r.value)
    ensures r.Err? ==> r.error == IndexError
    ensures r.Ok? <==> forall i :: 0 <= i < |changes| ==> Indexable(changes[i].0)
    decreases |changes|
  {
    if |changes| == 0 then Ok(b)
    else
      var n := |changes| - 1;
      var prefix := Applied(b, changes[..n]);
      assert forall i :: 0 <= i < n ==> changes[..n][i] == changes[i];
      if prefix.Err? then prefix
      else Put(prefix.value, changes[n].0, changes[n].1)
  }

  /** A field of the board `begin` leaves: dark fields of rows below 4 get the white
      player, dark fields of rows above 5 the black one, the rest stay as they were. */
  function Begun(f: Field, row: int, white: Owner, black: Owner): Field
  {
    if f.isDark && row < Size / 2 - 1 then f.(player := white)
    else if f.isDark && row > Size / 2 then f.(player := black)
    else f
  }

  /** View v is what `DraughtsView(base, changes, changePov, nextMove)` makes of `base`:
      the changes written, the board turned to the other side and the roles swapped when
      `changePov` (with the winner turned as lines 50-53 do), and the end-of-move verdict
      when `nextMove`; the players' colours are copied. */
  ghost predicate Derived(base: DraughtsView, changes: seq<(Coord, Field)>, changePov: bool, nextMove: bool,
                          v: DraughtsView)
    reads base, v
    requires base.Valid() && Applied(base.fields, changes).Ok?
  {
    var written := Applied(base.fields, changes).value;
    var b := if changePov then Flip(written) else written;
    var pov := if changePov then base.other else base.pov;
    var other := if changePov then base.pov else base.other;
    var w := if changePov then TurnedWinner(base.winner, pov, other) else base.winner;
    v.fields == b && v.pov == pov && v.other == other &&
    v.black == base.black && v.white == base.white &&
    (v.isTerminal, v.winner, v.previousStates) ==
      if nextMove then Verdict(b, pov, other, base.isTerminal, w, base.previousStates)
      else (base.isTerminal, w, base.previousStates)
  }

  class DraughtsView {
    var fields: Board
    var pov: Owner
    var other: Owner
    var previousStates: map<State, int>
    var isTerminal: bool
    var winner: Owner
    var black: Owner
    var white: Owner

    ghost predicate Valid()
      reads this
    {
      Square(fields)
    }

    /** `DraughtsView()`: the empty board, no players, nothing seen, not terminal. */
    constructor ()
      ensures Valid() && fields == EmptyBoard()
      ensures pov.None? && other.None? && black.None? && white.None? && winner.None?
      ensures previousStates == map[] && !isTerminal
    {
      fields := EmptyBoard();
      pov, other, black, white, winner := None, None, None, None, None;
      previousStates := map[];
      isTerminal := false;
    }

    /** Every attribute given: the object a derived view ends up as. */
    constructor Of(fields: Board, pov: Owner, other: Owner, previousStates: map<State, int>,
                   isTerminal: bool, winner: Owner, black: Owner, white: Owner)
      requires Square(fields)
      ensures Valid()
      ensures this.fields == fields && this.pov == pov && this.other == other
      ensures this.previousStates == previousStates && this.isTerminal == isTerminal
      ensures this.winner == winner && this.black == black && this.white == white
    {
      this.fields, this.pov, this.other := fields, pov, other;
      this.previousStates, this.isTerminal, this.winner := previousStates, isTerminal, winner;
      this.black, this.white := black, white;
    }

    /** `DraughtsView(base_view, changes, change_pov, next_move)`: copy the base, write the
        changes, turn the board to the other side when `changePov`, and run the
        end-of-move verdict when `nextMove`. */
    static method Derive(base: DraughtsView, changes: seq<(Coord, Field)>, changePov: bool, nextMove: bool)
      returns (r: Result<DraughtsView>)
      requires base.Valid()
      ensures r.Err? <==> Applied(base.fields, changes).Err?
      ensures r.Err? ==> r.error == IndexError
      ensures r.Ok? ==> fresh(r.value) && r.value.Valid() && Derived(base, changes, changePov, nextMove, r.value)
    {
      var written := ApplyChanges(base.fields, changes);
      if written.Err? {
        return Err(IndexError);
      }
      var b := written.value;
      var pov, other, winner := base.pov, base.other, base.winner;
      if changePov {
        pov, other := base.other, base.pov;
        if winner == pov {
          winner := other;
        }
        if winner == other {
          winner := pov;
        }
        b := Flip(b);
      }
      var isTerminal, seen := base.isTerminal, base.previousStates;
      if nextMove {
        isTerminal, winner, seen := Settle(b, pov, other, isTerminal, winner, seen);
      }
      var v := new DraughtsView.Of(b, pov, other, seen, isTerminal, winner, base.black, base.white);
      r := Ok(v);
    }

    /** `begin(white_player, black_player)`: the pieces of both sides on the dark fields of
        their four home rows (rows 4 and 5 untouched), white to move. */
    method Begin(whitePlayer: Owner, blackPlayer: Owner)
      requires Valid()
      modifies this
      ensures Valid()
      ensures forall c, w :: 0 <= c < Size && 0 <= w < Size ==>
                fields[c][w] == Begun(old(fields[c][w]), w, whitePlayer, blackPlayer)
      ensures pov == white == whitePlayer && other == black == blackPlayer
      ensures previousStates == old(previousStates) && isTerminal == old(isTerminal) && winner == old(winner)
    {
      ghost var b0 := fields;
      for c := 0 to Size
        invariant Square(fields)
        invariant forall c', w :: 0 <= c' < c && 0 <= w < Size ==> fields[c'][w] == Begun(b0[c'][w], w, whitePlayer, blackPlayer)
        invariant forall c', w :: c <= c' < Size && 0 <= w < Size ==> fields[c'][w] == b0[c'][w]
        invariant previousStates == old(previousStates) && isTerminal == old(isTerminal) && winner == old(winner)
      {
        var col := fields[c];
        for w := 0 to Size
          invariant |col| == Size
          invariant forall w' :: 0 <= w' < w ==> col[w'] == Begun(b0[c][w'], w', whitePlayer, blackPlayer)
          invariant forall w' :: w <= w' < Size ==> col[w'] == b0[c][w']
        {
          var f := col[w];
          if f.isDark {
            if w < Size / 2 - 1 {
              col := col[w := f.(player := whitePlayer)];
            } else if w > Size / 2 {
              col := col[w := f.(player := blackPlayer)];
            }
          }
        }
        fields := fields[c := col];
      }
      pov, white := whitePlayer, whitePlayer;
      other, black := blackPlayer, blackPlayer;
    }
  }

  /** Lines 43-45: the changes written one after the other. */
  method ApplyChanges(b0: Board, changes: seq<(Coord, Field)>) returns (r: Result<Board>)
    requires Square(b0)
    ensures r == Applied(b0, changes)
  {
    var b := b0;
    for i := 0 to |changes|
      invariant Square(b) && Applied(b0, changes[..i]) == Ok(b)
    {
      assert changes[..i + 1][..i] == changes[..i];
      var put := Put(b, changes[i].0, changes[i].1);
      if put.Err? {
        AppliedFails(b0, changes, i + 1);
        return Err(IndexError);
      }
      b := put.value;
    }
    assert changes[..|changes|] == changes;
    r := Ok(b);
  }

  /** Lines 63-104: the end-of-move analysis of a board, as `Verdict` states it. */
  method Settle(b: Board, pov: Owner, other: Owner, isTerminal: bool, winner: Owner, seen: map<State, int>)
    returns (isTerminal': bool, winner': Owner, seen': map<State, int>)
    requires Square(b)
    ensures (isTerminal', winner', seen') == Verdict(b, pov, other, isTerminal, winner, seen)
  {
    var survey := SurveyBoard(b, pov, other);
    isTerminal', winner', seen' := Conclude(b, pov, other, survey, isTerminal, winner, seen);
  }

  /** Lines 87-104, after the survey. */
  method Conclude(b: Board, pov: Owner, other: Owner, survey: Survey, isTerminal: bool, winner: Owner,
                  seen: map<State, int>)
    returns (isTerminal': bool, winner': Owner, seen': map<State, int>)
    requires Square(b)
    ensures (isTerminal', winner', seen') == Conclusion(b, pov, other, survey, isTerminal, winner, seen)
  {
    isTerminal', winner', seen' := isTerminal, winner, seen;
    if !survey.povHasMoves {
      isTerminal', winner' := true, other;
    } else if !survey.otherHasMoves {
      isTerminal', winner' := true, pov;
    } else if survey.povChecker == 1 && survey.otherChecker == 1 {
      isTerminal', winner' := true, None;
    } else {
      var state := EncodeState(b, pov);
      if state in seen' {
        seen' := seen'[state := seen'[state] + 1];
      } else {
        seen' := seen'[state := 1];
      }
      if seen'[state] >= 3 {
        isTerminal', winner' := true, None;
      }
    }
  }

  /** Where the first `upTo` changes stop being writable, so does the whole list. */
  lemma {:induction false} AppliedFails(b: Board, changes: seq<(Coord, Field)>, upTo: int)
    requires Square(b) && 0 <= upTo <= |changes|
    requires Applied(b, changes[..upTo]).Err?
    ensures Applied(b, changes).Err?
  {
    var i :| 0 <= i < upTo && !Indexable(changes[..upTo][i].0);
    assert changes[i] == changes[..upTo][i];
  }

  /** A fresh view after `begin`: white men on the dark fields of rows 0-3, black men on
      those of rows 6-9, and every other field empty. */
  lemma BegunEmptyBoard(whitePlayer: Owner, blackPlayer: Owner)
    ensures forall c, w :: 0 <= c < Size && 0 <= w < Size ==>
              var f := Begun(EmptyBoard()[c][w], w, whitePlayer, blackPlayer);
              f.isDark == ((c + w) % 2 == 0) && !f.isKing &&
              f.player == (if f.isDark && w < 4 then whitePlayer
                           else if f.isDark && w > 5 then blackPlayer
                           else None)
  {
  }

  /** Lines 63-85: the survey, field by field in column order. */
  method SurveyBoard(b: Board, pov: Owner, other: Owner) returns (s: Survey)
    requires Square(b)
    ensures s == SurveyOf(b, Mobility(b), pov, other, Size, 0)
  {
    s := Survey(false, false, 0, 0);
    for col := 0 to Size
      invariant s == SurveyOf(b, Mobility(b), pov, other, col, 0)
    {
      s := SurveyColumn(b, pov, other, col, s);
    }
  }

  /** The inner loop of lines 63-85: the fields of one column, row by row. */
  method SurveyColumn(b: Board, pov: Owner, other: Owner, col: int, s0: Survey) returns (s: Survey)
    requires Square(b) && 0 <= col < Size
    requires s0 == SurveyOf(b, Mobility(b), pov, other, col, 0)
    ensures s == SurveyOf(b, Mobility(b), pov, other, col + 1, 0)
  {
    s := s0;
    for row := 0 to Size
      invariant s == SurveyOf(b, Mobility(b), pov, other, col, row)
    {
      var f := b[col][row];
      if f.player == pov {
        s := s.(povChecker := s.povChecker + if f.isKing then 1 else 2);
        if !s.povHasMoves {
          s := s.(povHasMoves := CanPieceMove(b, col, row));
        }
      } else if !s.otherHasMoves && f.player == other {
        s := s.(otherChecker := s.otherChecker + if f.isKing then 1 else 2);
        if !s.otherHasMoves {
          s := s.(otherHasMoves := CanPieceMove(b, col, row));
        }
      }
    }
  }

  /** `_encode_state`, its loops building the code list. */
  method EncodeState(b: Board, pov: Owner) returns (state: State)
    requires Square(b)
    ensures state == (pov, Encoding(b, pov))
  {
    var codes: seq<int> := [];
    for col := 0 to Size
      invariant |codes| == col * 5
      invariant forall k :: 0 <= k < |codes| ==> codes[k] == Code(b[k / 5][Offset(b, k / 5) + k % 5], pov)
    {
      var offset := if b[col][0].isDark then 0 else 1;
      for inRow := 0 to Size / 2
        invariant |codes| == col * 5 + inRow
        invariant forall k :: 0 <= k < |codes| ==> codes[k] == Code(b[k / 5][Offset(b, k / 5) + k % 5], pov)
      {
        var f := b[col][offset + inRow];
        var k := |codes|;
        assert k / 5 == col && k % 5 == inRow;
        if f.player.Some? {
          codes := codes + [(if f.isKing then 1 else 2) + (if f.player == pov then 0 else 2)];
        } else {
          codes := codes + [0];
        }
      }
    }
    assert |codes| == Size * Size / 2 == |Encoding(b, pov)|;
    assert forall k :: 0 <= k < |codes| ==> codes[k] == Encoding(b, pov)[k];
    assert codes == Encoding(b, pov);
    state := (pov, codes);
  }
}
