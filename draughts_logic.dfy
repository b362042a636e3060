/** `DraughtsLogic` of engine/games/draughts.py: the moves of the side to move (a piece's
    moves along the four diagonals, captures continued from each landing field, and only
    the pieces with the longest capture sequence kept), a move applied to a view, and the
    material evaluation. */
module DraughtsLogic {
  import opened Common
  import opened DraughtsBoard
  import DV = DraughtsView

  /** A move as `list_moves` returns it: the fields the piece stands on, one after another. */
  type Move = seq<Coord>

  /** What `_list_moves` reads of the view: the board, `pov`, `other`, and the field
      (col, row) of the piece whose moves are listed. */
  datatype Piece = Piece(b: Board, pov: Owner, other: Owner, col: int, row: int)

  ghost predicate PieceOk(x: Piece)
  {
    Square(x.b) && 0 <= x.col < Size && 0 <= x.row < Size
  }

  /** Every field of the move lies on the board. */
  predicate OnBoard(m: Move)
  {
    forall k :: 0 <= k < |m| ==> InBoard(m[k])
  }

  /** `d * n` for a direction d of -1 or 1, written without the product. */
  function Scale(d: int, n: int): int
  {
    if d < 0 then -n else n
  }

  /** Before the reach of a direction, a step stays on the board. */
  lemma StepOnBoard(cur: Coord, dc: int, dr: int, dist: int)
    requires InBoard(cur) && dc in {-1, 1} && dr in {-1, 1} && 1 <= dist < Reach(cur, dc, dr)
    ensures InBoard((Scale(dc, dist) + cur.0, Scale(dr, dist) + cur.1))
  {
  }

  /** The fields not yet captured: what shrinks with every capture of a sequence. */
  function Uncaptured(captures: seq<Coord>): set<Coord>
  {
    set c, r | 0 <= c < Size && 0 <= r < Size && (c, r) !in captures :: (c, r)
  }

  lemma UncapturedShrinks(captures: seq<Coord>, p: Coord)
    requires InBoard(p) && p !in captures
    ensures Uncaptured(captures + [p]) < Uncaptured(captures)
  {
    assert p in Uncaptured(captures);
    assert p !in Uncaptured(captures + [p]);
  }

  /** Lines 230-232: how many steps fit on the board from `cur` in direction (dc, dr),
      plus one. */
  function Reach(cur: Coord, dc: int, dr: int): int
  {
    var toEndX := if dc < 0 then cur.0 + 1 else Size - cur.0;
    var toEndY := if dr < 0 then cur.1 + 1 else Size - cur.1;
    if toEndX < toEndY then toEndX else toEndY
  }

  /** `[(c, r)] + f` for every f. */
  function Prefixed(p: Coord, ms: seq<Move>): (r: seq<Move>)
    ensures |r| == |ms|
    ensures forall i :: 0 <= i < |ms| ==> r[i] == [p] + ms[i]
  {
    if |ms| == 0 then [] else Prefixed(p, ms[..|ms| - 1]) + [[p] + ms[|ms| - 1]]
  }

  /** `len(max(ms, key=len))`. */
  function MaxLen(ms: seq<Move>): int
    requires |ms| > 0
  {
    if |ms| == 1 then |ms[0]|
    else
      var rest := MaxLen(ms[..|ms| - 1]);
      if |ms[|ms| - 1]| > rest then |ms[|ms| - 1]| else rest
  }

  /** No move is longer than `MaxLen`, and some move has its length. */
  lemma {:induction false} MaxLenIsMax(ms: seq<Move>)
    requires |ms| > 0
    ensures forall m :: m in ms ==> |m| <= MaxLen(ms)
    ensures exists i :: 0 <= i < |ms| && |ms[i]| == MaxLen(ms)
  {
    if |ms| > 1 {
      MaxLenIsMax(ms[..|ms| - 1]);
      assert forall m :: m in ms ==> m in ms[..|ms| - 1] || m == ms[|ms| - 1];
      var i :| 0 <= i < |ms| - 1 && |ms[..|ms| - 1][i]| == MaxLen(ms[..|ms| - 1]);
      assert ms[i] == ms[..|ms| - 1][i];
      if |ms[|ms| - 1]| > MaxLen(ms[..|ms| - 1]) {
        assert |ms[|ms| - 1]| == MaxLen(ms);
      } else {
        assert |ms[i]| == MaxLen(ms);
      }
    }
  }

  /** Line 274: the moves of length n, in order. */
  function OfLength(ms: seq<Move>, n: int): seq<Move>
  {
    if |ms| == 0 then []
    else
      var rest := OfLength(ms[..|ms| - 1], n);
      if |ms[|ms| - 1]| == n then rest + [ms[|ms| - 1]] else rest
  }

  /** `OfLength` keeps exactly the moves of length n. */
  lemma {:induction false} OfLengthKeeps(ms: seq<Move>, n: int)
    ensures forall m :: m in OfLength(ms, n) ==> m in ms && |m| == n
    ensures forall m :: m in ms && |m| == n ==> m in OfLength(ms, n)
  {
    if |ms| > 0 {
      OfLengthKeeps(ms[..|ms| - 1], n);
      assert forall m :: m in ms ==> m in ms[..|ms| - 1] || m == ms[|ms| - 1];
    }
  }

  /** What one direction's scan has gathered: `dir_moves` and `dir_moves_have_captures`. */
  datatype Scan = Scan(moves: seq<Move>, captured: bool)

  /** Every gathered move is a non-empty sequence of fields on the board, and a
      direction without captures has only one-field moves. */
  ghost predicate ScanOk(s: Scan)
  {
    forall m :: m in s.moves ==> |m| >= 1 && OnBoard(m) && (!s.captured ==> |m| == 1)
  }

  /** All of the piece's moves have `len` fields, all on the board. */
  ghost predicate MovesOk(ms: seq<Move>, len: int)
  {
    forall m :: m in ms ==> |m| == len && OnBoard(m)
  }

  function Max1(n: int): int
  {
    if n > 1 then n else 1
  }

  /** The directions in the order of the loops at lines 229 and 231. */
  function Dir(i: int): (d: (int, int))
    requires 0 <= i < 4
    ensures d.0 in {-1, 1} && d.1 in {-1, 1}
  {
    if i == 0 then (-1, -1) else if i == 1 then (-1, 1) else if i == 2 then (1, -1) else (1, 1)
  }

  /** Lines 225-282: the moves of the piece on (x.col, x.row), continued from `cur` after
      the pieces in `captures` have been jumped, and the length of its longest capture
      sequence (0 without a capture). */
  function PieceMoves(x: Piece, cur: Coord, captures: seq<Coord>): (r: (seq<Move>, int))
    requires PieceOk(x) && InBoard(cur)
    decreases Uncaptured(captures), 2, 0, 0
  {
    DirsFrom(x, cur, captures, 0, [], 0)
  }

  /** The directions from the i-th on, after `moves` with longest capture `longest`. */
  function DirsFrom(x: Piece, cur: Coord, captures: seq<Coord>, i: int, moves: seq<Move>, longest: int)
    : (r: (seq<Move>, int))
    requires PieceOk(x) && InBoard(cur) && 0 <= i <= 4
    decreases Uncaptured(captures), 1, 4 - i, 0
  {
    if i == 4 then (moves, longest)
    else
      var d := Dir(i);
      var s := ScanDir(x, cur, captures, d.0, d.1, 1, None, Scan([], false));
      var merged := Merge(moves, longest, s);
      DirsFrom(x, cur, captures, i + 1, merged.0, merged.1)
  }

  /** Lines 271-280: a direction's moves, cut to the longest when they capture more than
      one piece, replace the moves so far when they capture more, join them when they
      capture as many, and are dropped when they capture fewer. */
  function Merge(moves: seq<Move>, longest: int, s: Scan): (r: (seq<Move>, int))
  {
    if |s.moves| == 0 then (moves, longest)
    else
      var mLength := if s.captured then MaxLen(s.moves) else 0;
      var dirMoves := if mLength > 1 then OfLength(s.moves, mLength) else s.moves;
      if mLength > longest then (dirMoves, mLength)
      else if mLength == longest then (moves + dirMoves, longest)
      else (moves, longest)
  }

  /** What a scan works on: a piece and a field on the board, a diagonal direction, and
      the opponent piece jumped in this direction, if any, on the board and not jumped
      before. */
  ghost predicate ScanArgs(x: Piece, cur: Coord, captures: seq<Coord>, dc: int, dr: int, capture: Option<Coord>)
  {
    PieceOk(x) && InBoard(cur) && dc in {-1, 1} && dr in {-1, 1} &&
    (capture.Some? ==> InBoard(capture.value) && capture.value !in captures)
  }

  /** Lines 237-239: the scan of one direction from distance `dist` on, with `capture` the
      opponent piece jumped in this direction so far. It ends at the board's edge, and a man
      goes at most two fields, two only over a piece. */
  function ScanDir(x: Piece, cur: Coord, captures: seq<Coord>, dc: int, dr: int, dist: int,
                   capture: Option<Coord>, acc: Scan): Scan
    requires ScanArgs(x, cur, captures, dc, dr, capture) && dist >= 1
    decreases Uncaptured(captures), 0, Reach(cur, dc, dr) - dist, 2
  {
    if dist >= Reach(cur, dc, dr) then acc
    else if !x.b[x.col][x.row].isKing && (dist > 2 || (dist == 2 && capture.None?)) then acc
    else ScanField(x, cur, captures, dc, dr, dist, capture, acc)
  }

  /** Lines 240-255: the field at distance `dist`. The scan stops at an own piece (other
      than the moving piece's own field), at an opponent piece already jumped or a second
      one in this direction, and remembers the first. */
  function ScanField(x: Piece, cur: Coord, captures: seq<Coord>, dc: int, dr: int, dist: int,
                     capture: Option<Coord>, acc: Scan): Scan
    requires ScanArgs(x, cur, captures, dc, dr, capture) && 1 <= dist < Reach(cur, dc, dr)
    decreases Uncaptured(captures), 0, Reach(cur, dc, dr) - dist, 1
  {
    var c, r := Scale(dc, dist) + cur.0, Scale(dr, dist) + cur.1;
    StepOnBoard(cur, dc, dr, dist);
    var f := x.b[c][r];
    if f.player == x.pov && (c, r) != (x.col, x.row) then acc
    else if f.player == x.other then
      if (c, r) in captures || capture.Some? then acc
      else ScanDir(x, cur, captures, dc, dr, dist + 1, Some((c, r)), acc)
    else ScanEmpty(x, cur, captures, dc, dr, dist, capture, acc)
  }

  /** Lines 256-269: field (c, r) at distance `dist` is empty (or the moving piece's own).
      Without a capture before, it is a plain move (a man's only forwards, and it stops
      there); after a capture it is a landing field from which the capture sequence goes
      on; otherwise the scan passes over it. */
  function ScanEmpty(x: Piece, cur: Coord, captures: seq<Coord>, dc: int, dr: int, dist: int,
                     capture: Option<Coord>, acc: Scan): Scan
    requires ScanArgs(x, cur, captures, dc, dr, capture) && 1 <= dist < Reach(cur, dc, dr)
    decreases Uncaptured(captures), 0, Reach(cur, dc, dr) - dist, 0
  {
    var isKing := x.b[x.col][x.row].isKing;
    var c, r := Scale(dc, dist) + cur.0, Scale(dr, dist) + cur.1;
    StepOnBoard(cur, dc, dr, dist);
    if |captures| == 0 && capture.None? && (isKing || dr > 0) then
      var acc' := acc.(moves := acc.moves + [[(c, r)]]);
      if !isKing then acc' else ScanDir(x, cur, captures, dc, dr, dist + 1, capture, acc')
    else if capture.Some? then
      UncapturedShrinks(captures, capture.value);
      var further := PieceMoves(x, (c, r), captures + [capture.value]).0;
      var start := if !acc.captured then Scan([], true) else acc;
      ScanDir(x, cur, captures, dc, dr, dist + 1, capture, Landed(start, (c, r), further))
    else ScanDir(x, cur, captures, dc, dr, dist + 1, capture, acc)
  }

  /** Lines 266-269: a landing field ends a capture sequence when no capture follows from
      it, and is prepended to each continuation otherwise. */
  function Landed(start: Scan, p: Coord, further: seq<Move>): Scan
  {
    if |further| == 0 then start.(moves := start.moves + [[p]])
    else start.(moves := start.moves + Prefixed(p, further))
  }

  /** A one-field move to a field on the board keeps the scan on the board. */
  lemma QuietOk(acc: Scan, p: Coord)
    requires ScanOk(acc) && InBoard(p)
    ensures ScanOk(acc.(moves := acc.moves + [[p]]))
  {
    assert OnBoard([p]);
  }

  /** A landing field on the board keeps the gathered capture moves on the board. */
  lemma LandedOk(start: Scan, p: Coord, further: seq<Move>)
    requires start.captured && ScanOk(start) && InBoard(p)
    requires forall m :: m in further ==> OnBoard(m)
    ensures ScanOk(Landed(start, p, further)) && Landed(start, p, further).captured
  {
    if |further| > 0 {
      var ext := Prefixed(p, further);
      forall m | m in ext ensures |m| >= 1 && OnBoard(m) {
        var i :| 0 <= i < |ext| && ext[i] == m;
        assert m == [p] + further[i] && further[i] in further;
        forall k | 0 <= k < |m| ensures InBoard(m[k]) {
          if k > 0 {
            assert OnBoard(further[i]);
            assert InBoard(further[i][k - 1]);
            assert m[k] == further[i][k - 1];
          }
        }
      }
    }
  }

  /** Merging a direction keeps every move of the piece at max(1, longest) fields on the
      board, never lowers the longest capture, and keeps the moves so far when it does not
      raise it. */
  lemma MergeOk(moves: seq<Move>, longest: int, s: Scan)
    requires longest >= 0 && MovesOk(moves, Max1(longest)) && ScanOk(s)
    ensures Merge(moves, longest, s).1 >= longest
    ensures MovesOk(Merge(moves, longest, s).0, Max1(Merge(moves, longest, s).1))
    ensures Merge(moves, longest, s).1 == longest ==> moves <= Merge(moves, longest, s).0
  {
    if |s.moves| > 0 {
      var mLength := if s.captured then MaxLen(s.moves) else 0;
      var dirMoves := if mLength > 1 then OfLength(s.moves, mLength) else s.moves;
      if s.captured {
        MaxLenIsMax(s.moves);
      }
      OfLengthKeeps(s.moves, mLength);
      assert MovesOk(dirMoves, Max1(mLength));
    }
  }

  /** Every move `_list_moves` returns for a piece has max(1, longest) fields, all on the
      board: one landing field for a plain move, one per jumped piece for a capture. */
  lemma {:induction false} PieceMovesOk(x: Piece, cur: Coord, captures: seq<Coord>)
    requires PieceOk(x) && InBoard(cur)
    ensures PieceMoves(x, cur, captures).1 >= 0
    ensures MovesOk(PieceMoves(x, cur, captures).0, Max1(PieceMoves(x, cur, captures).1))
    decreases Uncaptured(captures), 2, 0, 0
  {
    DirsFromOk(x, cur, captures, 0, [], 0);
  }

  lemma {:induction false} DirsFromOk(x: Piece, cur: Coord, captures: seq<Coord>, i: int, moves: seq<Move>, longest: int)
    requires PieceOk(x) && InBoard(cur) && 0 <= i <= 4
    requires longest >= 0 && MovesOk(moves, Max1(longest))
    ensures DirsFrom(x, cur, captures, i, moves, longest).1 >= 0
    ensures MovesOk(DirsFrom(x, cur, captures, i, moves, longest).0, Max1(DirsFrom(x, cur, captures, i, moves, longest).1))
    decreases Uncaptured(captures), 1, 4 - i, 0
  {
    if i < 4 {
      var d := Dir(i);
      var merged := Merge(moves, longest, ScanDir(x, cur, captures, d.0, d.1, 1, None, Scan([], false)));
      DirOk(x, cur, captures, d.0, d.1, moves, longest);
      DirsFromOk(x, cur, captures, i + 1, merged.0, merged.1);
    }
  }

  /** One direction's scan, merged, keeps the piece's moves well formed. */
  lemma {:induction false} DirOk(x: Piece, cur: Coord, captures: seq<Coord>, dc: int, dr: int, moves: seq<Move>, longest: int)
    requires ScanArgs(x, cur, captures, dc, dr, None)
    requires longest >= 0 && MovesOk(moves, Max1(longest))
    ensures var merged := Merge(moves, longest, ScanDir(x, cur, captures, dc, dr, 1, None, Scan([], false)));
            merged.1 >= 0 && MovesOk(merged.0, Max1(merged.1))
    decreases Uncaptured(captures), 0, Reach(cur, dc, dr), 3
  {
    ScanDirOk(x, cur, captures, dc, dr, 1, None, Scan([], false));
    MergeOk(moves, longest, ScanDir(x, cur, captures, dc, dr, 1, None, Scan([], false)));
  }

  /** A scan only gathers non-empty moves on the board, and one-field moves as long as it
      has not captured. */
  lemma {:induction false} ScanDirOk(x: Piece, cur: Coord, captures: seq<Coord>, dc: int, dr: int, dist: int,
                                     capture: Option<Coord>, acc: Scan)
    requires ScanArgs(x, cur, captures, dc, dr, capture) && dist >= 1 && ScanOk(acc)
    ensures ScanOk(ScanDir(x, cur, captures, dc, dr, dist, capture, acc))
    decreases Uncaptured(captures), 0, Reach(cur, dc, dr) - dist, 2
  {
    if dist < Reach(cur, dc, dr) && !(!x.b[x.col][x.row].isKing && (dist > 2 || (dist == 2 && capture.None?))) {
      ScanFieldOk(x, cur, captures, dc, dr, dist, capture, acc);
    }
  }

  lemma {:induction false} ScanFieldOk(x: Piece, cur: Coord, captures: seq<Coord>, dc: int, dr: int, dist: int,
                                       capture: Option<Coord>, acc: Scan)
    requires ScanArgs(x, cur, captures, dc, dr, capture) && 1 <= dist < Reach(cur, dc, dr) && ScanOk(acc)
    ensures ScanOk(ScanField(x, cur, captures, dc, dr, dist, capture, acc))
    decreases Uncaptured(captures), 0, Reach(cur, dc, dr) - dist, 1
  {
    var c, r := Scale(dc, dist) + cur.0, Scale(dr, dist) + cur.1;
    StepOnBoard(cur, dc, dr, dist);
    var f := x.b[c][r];
    if f.player == x.pov && (c, r) != (x.col, x.row) {
    } else if f.player == x.other {
      if !((c, r) in captures || capture.Some?) {
        ScanDirOk(x, cur, captures, dc, dr, dist + 1, Some((c, r)), acc);
      }
    } else {
      ScanEmptyOk(x, cur, captures, dc, dr, dist, capture, acc);
    }
  }

  lemma {:induction false} ScanEmptyOk(x: Piece, cur: Coord, captures: seq<Coord>, dc: int, dr: int, dist: int,
                                       capture: Option<Coord>, acc: Scan)
    requires ScanArgs(x, cur, captures, dc, dr, capture) && 1 <= dist < Reach(cur, dc, dr) && ScanOk(acc)
    ensures ScanOk(ScanEmpty(x, cur, captures, dc, dr, dist, capture, acc))
    decreases Uncaptured(captures), 0, Reach(cur, dc, dr) - dist, 0, 1
  {
    var isKing := x.b[x.col][x.row].isKing;
    var c, r := Scale(dc, dist) + cur.0, Scale(dr, dist) + cur.1;
    StepOnBoard(cur, dc, dr, dist);
    if |captures| == 0 && capture.None? && (isKing || dr > 0) {
      var acc' := acc.(moves := acc.moves + [[(c, r)]]);
      QuietOk(acc, (c, r));
      if isKing {
        ScanDirOk(x, cur, captures, dc, dr, dist + 1, capture, acc');
      }
    } else if capture.Some? {
      var start := if !acc.captured then Scan([], true) else acc;
      LandingOk(x, cur, captures, dc, dr, dist, capture, start, (c, r));
    } else {
      ScanDirOk(x, cur, captures, dc, dr, dist + 1, capture, acc);
    }
  }

  /** The capture sequences continued from a landing field p keep the scan on the board. */
  lemma {:induction false} LandingOk(x: Piece, cur: Coord, captures: seq<Coord>, dc: int, dr: int, dist: int,
                                     capture: Option<Coord>, start: Scan, p: Coord)
    requires ScanArgs(x, cur, captures, dc, dr, capture) && 1 <= dist < Reach(cur, dc, dr)
    requires capture.Some? && InBoard(p) && start.captured && ScanOk(start)
    ensures ScanOk(ScanDir(x, cur, captures, dc, dr, dist + 1, capture,
                           Landed(start, p, PieceMoves(x, p, captures + [capture.value]).0)))
    decreases Uncaptured(captures), 0, Reach(cur, dc, dr) - dist, 0, 0
  {
    UncapturedShrinks(captures, capture.value);
    var further := PieceMoves(x, p, captures + [capture.value]).0;
    PieceMovesOk(x, p, captures + [capture.value]);
    LandedOk(start, p, further);
    ScanDirOk(x, cur, captures, dc, dr, dist + 1, capture, Landed(start, p, further));
  }

  /** `_list_moves`, with its loops over the four directions. */
  method ListPieceMoves(x: Piece, cur: Coord, captures: seq<Coord>) returns (moves: seq<Move>, longest: int)
    requires PieceOk(x) && InBoard(cur)
    ensures (moves, longest) == PieceMoves(x, cur, captures)
    decreases Uncaptured(captures), 2
  {
    moves, longest := [], 0;
    for a := 0 to 2
      invariant DirsFrom(x, cur, captures, 2 * a, moves, longest) == PieceMoves(x, cur, captures)
    {
      var dc := if a == 0 then -1 else 1;
      for e := 0 to 2
          invariant DirsFrom(x, cur, captures, 2 * a + e, moves, longest) == PieceMoves(x, cur, captures)
      {
        var dr := if e == 0 then -1 else 1;
        assert Dir(2 * a + e) == (dc, dr);
        var scan := ScanDirection(x, cur, captures, dc, dr);
        var dirMoves := scan.moves;
        if |dirMoves| > 0 {
          var mLength := if scan.captured then MaxLen(dirMoves) else 0;
          if mLength > 1 {
            dirMoves := OfLength(dirMoves, mLength);
          }
          if mLength > longest {
            moves, longest := dirMoves, mLength;
          } else if mLength == longest {
            moves := moves + dirMoves;
          }
        }
      }
    }
  }

  /** Lines 230-269: the scan of one direction, continuing each capture sequence from its
      landing fields by recursion. */
  method ScanDirection(x: Piece, cur: Coord, captures: seq<Coord>, dc: int, dr: int) returns (scan: Scan)
    requires PieceOk(x) && InBoard(cur) && dc in {-1, 1} && dr in {-1, 1}
    ensures scan == ScanDir(x, cur, captures, dc, dr, 1, None, Scan([], false))
    decreases Uncaptured(captures), 1
  {
    var piece := x.b[x.col][x.row];
    var toEndX := if dc < 0 then cur.0 + 1 else Size - cur.0;
    var toEndY := if dr < 0 then cur.1 + 1 else Size - cur.1;
    var reach := if toEndX < toEndY then toEndX else toEndY;
    ghost var target := ScanDir(x, cur, captures, dc, dr, 1, None, Scan([], false));
    var dirMoves: seq<Move> := [];
    var have := false;
    var capture: Option<Coord> := None;
    var dist := 1;
    while dist < reach
      invariant dist >= 1
      invariant ScanArgs(x, cur, captures, dc, dr, capture)
      invariant ScanDir(x, cur, captures, dc, dr, dist, capture, Scan(dirMoves, have)) == target
      decreases reach - dist
    {
      if !piece.isKing && (dist > 2 || (dist == 2 && capture.None?)) {
        break;
      }
      var stop;
      stop, capture, dirMoves, have := ScanAt(x, cur, captures, dc, dr, dist, capture, dirMoves, have);
      if stop {
        break;
      }
      dist := dist + 1;
    }
    scan := Scan(dirMoves, have);
  }

  /** Lines 240-269, the body of the scan loop at distance `dist`: `stop` when the loop
      breaks there. */
  method ScanAt(x: Piece, cur: Coord, captures: seq<Coord>, dc: int, dr: int, dist: int,
                capture: Option<Coord>, dirMoves: seq<Move>, have: bool)
    returns (stop: bool, capture': Option<Coord>, dirMoves': seq<Move>, have': bool)
    requires ScanArgs(x, cur, captures, dc, dr, capture) && 1 <= dist < Reach(cur, dc, dr)
    ensures ScanArgs(x, cur, captures, dc, dr, capture')
    ensures stop ==> ScanField(x, cur, captures, dc, dr, dist, capture, Scan(dirMoves, have)) == Scan(dirMoves', have')
    ensures !stop ==> ScanField(x, cur, captures, dc, dr, dist, capture, Scan(dirMoves, have)) ==
                      ScanDir(x, cur, captures, dc, dr, dist + 1, capture', Scan(dirMoves', have'))
    decreases Uncaptured(captures), 0, 1
  {
    stop, capture', dirMoves', have' := false, capture, dirMoves, have;
    ghost var acc := Scan(dirMoves, have);
    var isKing := x.b[x.col][x.row].isKing;
    var c, r := Scale(dc, dist) + cur.0, Scale(dr, dist) + cur.1;
    StepOnBoard(cur, dc, dr, dist);
    var f := x.b[c][r];
    if f.player == x.pov && (c, r) != (x.col, x.row) {
      assert ScanField(x, cur, captures, dc, dr, dist, capture, acc) == acc;
      return true, capture', dirMoves', have';
    }
    if f.player == x.other {
      if (c, r) in captures {
        assert ScanField(x, cur, captures, dc, dr, dist, capture, acc) == acc;
        return true, capture', dirMoves', have';
      } else if capture.None? {
        assert ScanField(x, cur, captures, dc, dr, dist, capture, acc) ==
               ScanDir(x, cur, captures, dc, dr, dist + 1, Some((c, r)), acc);
        return false, Some((c, r)), dirMoves', have';
      } else {
        assert ScanField(x, cur, captures, dc, dr, dist, capture, acc) == acc;
        return true, capture', dirMoves', have';
      }
    }
    assert ScanField(x, cur, captures, dc, dr, dist, capture, acc) ==
           ScanEmpty(x, cur, captures, dc, dr, dist, capture, acc);
    stop, dirMoves', have' := LandOrMove(x, cur, captures, dc, dr, dist, capture, dirMoves, have);
  }

  /** Lines 256-269 in the scan loop: a plain move or a landing field on an empty field. */
  method LandOrMove(x: Piece, cur: Coord, captures: seq<Coord>, dc: int, dr: int, dist: int,
                    capture: Option<Coord>, dirMoves: seq<Move>, have: bool)
    returns (stop: bool, dirMoves': seq<Move>, have': bool)
    requires ScanArgs(x, cur, captures, dc, dr, capture) && 1 <= dist < Reach(cur, dc, dr)
    ensures stop ==> ScanEmpty(x, cur, captures, dc, dr, dist, capture, Scan(dirMoves, have)) == Scan(dirMoves', have')
    ensures !stop ==> ScanEmpty(x, cur, captures, dc, dr, dist, capture, Scan(dirMoves, have)) ==
                      ScanDir(x, cur, captures, dc, dr, dist + 1, capture, Scan(dirMoves', have'))
    decreases Uncaptured(captures), 0, 0
  {
    stop, dirMoves', have' := false, dirMoves, have;
    var isKing := x.b[x.col][x.row].isKing;
    var c, r := Scale(dc, dist) + cur.0, Scale(dr, dist) + cur.1;
    StepOnBoard(cur, dc, dr, dist);
    if |captures| == 0 && capture.None? && (isKing || dr > 0) {
      dirMoves' := dirMoves' + [[(c, r)]];
      if !isKing {
        stop := true;
      }
    } else if capture.Some? {
      if !have' {
        have' := true;
        dirMoves' := [];
      }
      ghost var start := Scan(dirMoves', have');
      UncapturedShrinks(captures, capture.value);
      var further, furtherLongest := ListPieceMoves(x, (c, r), captures + [capture.value]);
      if |further| == 0 {
        dirMoves' := dirMoves' + [[(c, r)]];
      } else {
        dirMoves' := dirMoves' + Prefixed((c, r), further);
      }
      assert Scan(dirMoves', have') == Landed(start, (c, r), further);
    }
  }

  /** What `_list_moves` gives for the piece on each field (col, row): its moves and the
      length of its longest capture. */
  type Listing = seq<seq<(seq<Move>, int)>>

  ghost predicate Shaped(t: Listing)
  {
    |t| == Size && forall c :: 0 <= c < Size ==> |t[c]| == Size
  }

  /** t holds `_list_moves` for the piece of `pov` on the fields (col, r), row <= r. */
  ghost predicate ListsColumn(b: Board, pov: Owner, other: Owner, t: Listing, col: int, row: int)
    requires Square(b) && Shaped(t) && 0 <= col < Size && 0 <= row <= Size
    decreases Size - row
  {
    row == Size ||
    (t[col][row] == PieceMoves(Piece(b, pov, other, col, row), (col, row), []) &&
     ListsColumn(b, pov, other, t, col, row + 1))
  }

  /** t holds `_list_moves` for the piece of `pov` on the fields of columns col and on. */
  ghost predicate ListsFrom(b: Board, pov: Owner, other: Owner, t: Listing, col: int)
    requires Square(b) && Shaped(t) && 0 <= col <= Size
    decreases Size - col
  {
    col == Size || (ListsColumn(b, pov, other, t, col, 0) && ListsFrom(b, pov, other, t, col + 1))
  }

  /** `_list_moves` for the piece of `pov` on every field. */
  function ListingOf(b: Board, pov: Owner, other: Owner): (t: Listing)
    requires Square(b)
    ensures Shaped(t)
    ensures forall c, r :: 0 <= c < Size && 0 <= r < Size ==>
              t[c][r] == PieceMoves(Piece(b, pov, other, c, r), (c, r), [])
  {
    seq(Size, (c: int) requires 0 <= c < Size =>
      seq(Size, (r: int) requires 0 <= r < Size => PieceMoves(Piece(b, pov, other, c, r), (c, r), [])))
  }

  lemma {:induction false} ListingOfColumn(b: Board, pov: Owner, other: Owner, col: int, row: int)
    requires Square(b) && 0 <= col < Size && 0 <= row <= Size
    ensures ListsColumn(b, pov, other, ListingOf(b, pov, other), col, row)
    decreases Size - row
  {
    if row < Size {
      ListingOfColumn(b, pov, other, col, row + 1);
    }
  }

  lemma {:induction false} ListingOfLists(b: Board, pov: Owner, other: Owner, col: int)
    requires Square(b) && 0 <= col <= Size
    ensures ListsFrom(b, pov, other, ListingOf(b, pov, other), col)
    decreases Size - col
  {
    if col < Size {
      ListingOfColumn(b, pov, other, col, 0);
      ListingOfLists(b, pov, other, col + 1);
    }
  }

  /** Each field's moves have max(1, longest) fields, all on the board. */
  ghost predicate ListingOk(t: Listing)
  {
    Shaped(t) &&
    forall c, r :: 0 <= c < Size && 0 <= r < Size ==>
      t[c][r].1 >= 0 && MovesOk(t[c][r].0, Max1(t[c][r].1))
  }

  lemma ListingOfOk(b: Board, pov: Owner, other: Owner)
    requires Square(b)
    ensures ListingOk(ListingOf(b, pov, other))
  {
    var t: Listing := ListingOf(b, pov, other);
    forall c: int, r: int | 0 <= c < Size && 0 <= r < Size
      ensures t[c][r].1 >= 0 && MovesOk(t[c][r].0, Max1(t[c][r].1))
    {
      PieceMovesOk(Piece(b, pov, other, c, r), (c, r), []);
    }
  }

  /** Lines 207-223 over the fields before (col, row) in column order, with t the
      `_list_moves` of each field: every piece of `pov` adds its moves, prefixed with its
      field, when its longest capture equals the longest so far, replaces the moves when it
      is longer, and is passed over when it is shorter. Also returns the longest capture so
      far (`moves_captures`). */
  function BoardMoves(b: Board, pov: Owner, t: Listing, col: int, row: int): (seq<Move>, int)
    requires Square(b) && Shaped(t) && Cursor(col, row)
    decreases col, row
  {
    if row > 0 then ListStep(b, pov, t, (col, row - 1), BoardMoves(b, pov, t, col, row - 1))
    else if col > 0 then BoardMoves(b, pov, t, col - 1, Size)
    else ([], 0)
  }

  /** Lines 213-221 for the piece on field p, after the moves `prev` gathered so far. */
  function ListStep(b: Board, pov: Owner, t: Listing, p: Coord, prev: (seq<Move>, int)): (seq<Move>, int)
    requires Square(b) && Shaped(t) && InBoard(p)
  {
    if b[p.0][p.1].player != pov then prev
    else
      var pm := t[p.0][p.1];
      var found := Prefixed(p, pm.0);
      if pm.1 == prev.1 then (prev.0 + found, prev.1)
      else if pm.1 > prev.1 then (found, pm.1)
      else prev
  }

  /** Every move in `ms` starts on a field of `pov` whose piece reaches the longest capture
      `longest`, and is that field and max(1, longest) more, all on the board. */
  ghost predicate ListedOk(b: Board, pov: Owner, t: Listing, ms: seq<Move>, longest: int)
    requires Square(b) && Shaped(t)
  {
    forall m: Move :: m in ms ==>
      |m| == 1 + Max1(longest) && OnBoard(m) &&
      b[m[0].0][m[0].1].player == pov && t[m[0].0][m[0].1].1 == longest
  }

  /** The moves of the piece on field p, each prefixed with p, are listed moves. */
  lemma PrefixedListed(b: Board, pov: Owner, t: Listing, p: Coord)
    requires Square(b) && ListingOk(t) && InBoard(p) && b[p.0][p.1].player == pov
    ensures ListedOk(b, pov, t, Prefixed(p, t[p.0][p.1].0), t[p.0][p.1].1)
  {
    var pm := t[p.0][p.1];
    var found := Prefixed(p, pm.0);
    forall m | m in found
      ensures |m| == 1 + Max1(pm.1) && OnBoard(m) && m[0] == p
    {
      var i :| 0 <= i < |found| && found[i] == m;
      assert m == [p] + pm.0[i] && pm.0[i] in pm.0;
      forall k | 0 <= k < |m| ensures InBoard(m[k]) {
        if k > 0 {
          assert InBoard(pm.0[i][k - 1]);
          assert m[k] == pm.0[i][k - 1];
        }
      }
    }
  }

  /** One field's step keeps every listed move well formed. */
  lemma ListStepShape(b: Board, pov: Owner, t: Listing, p: Coord, prev: (seq<Move>, int))
    requires Square(b) && ListingOk(t) && InBoard(p) && ListedOk(b, pov, t, prev.0, prev.1)
    ensures ListedOk(b, pov, t, ListStep(b, pov, t, p, prev).0, ListStep(b, pov, t, p, prev).1)
  {
    if b[p.0][p.1].player == pov {
      PrefixedListed(b, pov, t, p);
    }
  }

  /** Every listed move starts on a field of `pov` whose piece reaches the longest capture,
      and is that field and max(1, longest) more, all on the board. */
  lemma {:induction false} ListedShape(b: Board, pov: Owner, t: Listing, col: int, row: int)
    requires Square(b) && ListingOk(t) && Cursor(col, row)
    ensures ListedOk(b, pov, t, BoardMoves(b, pov, t, col, row).0, BoardMoves(b, pov, t, col, row).1)
    decreases col, row
  {
    if row > 0 {
      ListedShape(b, pov, t, col, row - 1);
      ListStepShape(b, pov, t, (col, row - 1), BoardMoves(b, pov, t, col, row - 1));
    } else if col > 0 {
      ListedShape(b, pov, t, col - 1, Size);
    }
  }

  /** The longest capture found is never negative and no piece of `pov` on a field before
      (col, row) captures more. */
  lemma {:induction false} ListedLongest(b: Board, pov: Owner, t: Listing, col: int, row: int)
    requires Square(b) && Shaped(t) && Cursor(col, row)
    ensures BoardMoves(b, pov, t, col, row).1 >= 0
    ensures forall c, r :: 0 <= c < Size && 0 <= r < Size && Before(c, r, col, row) && b[c][r].player == pov ==>
              t[c][r].1 <= BoardMoves(b, pov, t, col, row).1
    decreases col, row
  {
    if row > 0 {
      ListedLongest(b, pov, t, col, row - 1);
    } else if col > 0 {
      ListedLongest(b, pov, t, col - 1, Size);
    }
  }

  /** Every move of a piece of `pov` before (col, row) that reaches the longest capture is
      listed, prefixed with its field. */
  lemma {:induction false} ListedComplete(b: Board, pov: Owner, t: Listing, col: int, row: int)
    requires Square(b) && Shaped(t) && Cursor(col, row)
    ensures forall c, r, m: Move ::
              0 <= c < Size && 0 <= r < Size && Before(c, r, col, row) && b[c][r].player == pov &&
              t[c][r].1 == BoardMoves(b, pov, t, col, row).1 && m in t[c][r].0 ==>
              [(c, r)] + m in BoardMoves(b, pov, t, col, row).0
    decreases col, row
  {
    if row > 0 {
      ListedComplete(b, pov, t, col, row - 1);
      ListedLongest(b, pov, t, col, row - 1);
      var p := (col, row - 1);
      if b[col][row - 1].player == pov {
        var pm := t[col][row - 1];
        var found := Prefixed(p, pm.0);
        forall m: Move | m in pm.0 ensures [p] + m in found {
          var i :| 0 <= i < |pm.0| && pm.0[i] == m;
          assert found[i] == [p] + m;
        }
      }
    } else if col > 0 {
      ListedComplete(b, pov, t, col - 1, Size);
    }
  }

  /** Lines 211-221 for column `col`: the fields of the column, one after another. */
  method ListColumn(b: Board, pov: Owner, other: Owner, ghost t: Listing, col: int, moves0: seq<Move>, captures0: int)
    returns (moves: seq<Move>, movesCaptures: int)
    requires Square(b) && Shaped(t) && 0 <= col < Size && ListsColumn(b, pov, other, t, col, 0)
    requires (moves0, captures0) == BoardMoves(b, pov, t, col, 0)
    ensures (moves, movesCaptures) == BoardMoves(b, pov, t, col + 1, 0)
  {
    moves, movesCaptures := moves0, captures0;
    for row := 0 to Size
      invariant (moves, movesCaptures) == BoardMoves(b, pov, t, col, row)
      invariant ListsColumn(b, pov, other, t, col, row)
    {
      ListsColumnNext(b, pov, other, t, col, row);
      moves, movesCaptures := ListField(b, pov, other, t, col, row, moves, movesCaptures);
    }
  }

  lemma ListsFromNext(b: Board, pov: Owner, other: Owner, t: Listing, col: int)
    requires Square(b) && Shaped(t) && 0 <= col < Size && ListsFrom(b, pov, other, t, col)
    ensures ListsColumn(b, pov, other, t, col, 0) && ListsFrom(b, pov, other, t, col + 1)
  {
  }

  lemma ListsColumnNext(b: Board, pov: Owner, other: Owner, t: Listing, col: int, row: int)
    requires Square(b) && Shaped(t) && 0 <= col < Size && 0 <= row < Size && ListsColumn(b, pov, other, t, col, row)
    ensures ListsColumn(b, pov, other, t, col, row + 1)
  {
  }

  /** Lines 213-221: the moves of the piece of `pov` on (col, row), if any, joined to the
      moves gathered so far when they capture as many, replacing them when they capture more. */
  method ListField(b: Board, pov: Owner, other: Owner, ghost t: Listing, col: int, row: int,
                   moves0: seq<Move>, captures0: int)
    returns (moves: seq<Move>, movesCaptures: int)
    requires Square(b) && Shaped(t) && 0 <= col < Size && 0 <= row < Size && ListsColumn(b, pov, other, t, col, row)
    ensures (moves, movesCaptures) == ListStep(b, pov, t, (col, row), (moves0, captures0))
  {
    moves, movesCaptures := moves0, captures0;
    if b[col][row].player == pov {
      var pieceMoves, captures := ListPieceMoves(Piece(b, pov, other, col, row), (col, row), []);
      var found := Prefixed((col, row), pieceMoves);
      if captures == movesCaptures {
        moves := moves + found;
      } else if captures > movesCaptures {
        moves, movesCaptures := found, captures;
      }
    }
  }

  /** Lines 207-223 on board b with `pov` to move and t the `_list_moves` of every field. */
  method ListBoard(b: Board, pov: Owner, other: Owner, ghost t: Listing) returns (moves: seq<Move>)
    requires Square(b) && Shaped(t) && ListsFrom(b, pov, other, t, 0)
    ensures moves == BoardMoves(b, pov, t, Size, 0).0
  {
    moves := [];
    var movesCaptures := 0;
    for col := 0 to Size
      invariant (moves, movesCaptures) == BoardMoves(b, pov, t, col, 0)
      invariant ListsFrom(b, pov, other, t, col)
    {
      ListsFromNext(b, pov, other, t, col);
      moves, movesCaptures := ListColumn(b, pov, other, t, col, moves, movesCaptures);
    }
  }

  /** `list_moves`: the moves of the side to move, field by field in column order, keeping
      only those of the pieces with the longest capture sequence. */
  method ListMoves(view: DV.DraughtsView) returns (moves: seq<Move>)
    requires view.Valid()
    ensures moves == BoardMoves(view.fields, view.pov, ListingOf(view.fields, view.pov, view.other), Size, 0).0
  {
    ListingOfLists(view.fields, view.pov, view.other, 0);
    moves := ListBoard(view.fields, view.pov, view.other, ListingOf(view.fields, view.pov, view.other));
  }

  // ----- apply_move -----

  /** Where the walk along a move has got to (`coord`, `is_king`, `removed_pieces_coord`). */
  datatype Walk = Walk(coord: Coord, isKing: bool, removed: seq<Coord>)

  function Abs(x: int): nat
  {
    if x < 0 then -x else x
  }

  /** `x // abs(x)` for x != 0. */
  function Sign(x: int): int
  {
    if x < 0 then -1 else 1
  }

  /** The field a capture leaves behind: dark and empty (`Field(True)`). */
  const Cleared: Field := Field(true, None, false)

  /** Lines 320-327 from step `steps` on: a king's sweep over the fields (cs * steps,
      rs * steps), 1 <= steps < n. An opponent piece there is jumped; a second one, or
      one jumped before, fails the assertions. As written, the fields are counted from
      (0, 0) and not from the king's field. */
  function KingSweep(b: Board, other: Owner, removed: seq<Coord>, cs: int, rs: int, steps: int, n: int, was: bool)
    : Result<(seq<Coord>, bool)>
    requires Square(b)
    decreases n - steps
  {
    if steps >= n then Ok((removed, was))
    else
      var skipped := (Scale(cs, steps), Scale(rs, steps));
      var f := Get(b, skipped);
      if f.Err? then Err(f.error)
      else if f.value.player == other then
        if skipped in removed || was then Err(AssertionError)
        else KingSweep(b, other, removed + [skipped], cs, rs, steps + 1, n, true)
      else KingSweep(b, other, removed, cs, rs, steps + 1, n, was)
  }

  /** Lines 295-331: one field `part` of a move with `moveLen` fields, after the walk `w`.
      The step is diagonal and lands on an empty field; a man goes one row forwards (only
      in a move of two fields) or jumps two rows over an opponent piece; a king sweeps the
      fields of lines 320-327 and, without a capture, only makes a move of two fields. */
  function Step(b: Board, pov: Owner, other: Owner, moveLen: int, w: Walk, part: Coord): Result<Walk>
    requires Square(b)
  {
    var cd, rd := part.0 - w.coord.0, part.1 - w.coord.1;
    if !(Abs(cd) == Abs(rd) && cd != 0) then Err(AssertionError)
    else
      var f := Get(b, part);
      if f.Err? then Err(f.error)
      else if !(f.value.player.None? || part == w.coord) then Err(AssertionError)
      else if !w.isKing then
        if (rd <= 0 && rd != -2) || (rd > 0 && rd > 2) then Err(AssertionError)
        else if Abs(rd) == 2 then
          var skipped := (w.coord.0 + cd / 2, w.coord.1 + rd / 2);
          var s := Get(b, skipped);
          if s.Err? then Err(s.error)
          else if s.value.player != other || skipped in w.removed then Err(AssertionError)
          else Ok(Walk(part, false, w.removed + [skipped]))
        else if moveLen != 2 then Err(AssertionError)
        else Ok(Walk(part, false, w.removed))
      else
        var sweep := KingSweep(b, other, w.removed, Sign(cd), Sign(rd), 1, Abs(cd), false);
        if sweep.Err? then Err(sweep.error)
        else if !sweep.value.1 && moveLen != 2 then Err(AssertionError)
        else Ok(Walk(part, true, sweep.value.0))
  }

  /** Lines 294-331: the walk over move[i..]. */
  function WalkFrom(b: Board, pov: Owner, other: Owner, move: Move, i: int, w: Walk): Result<Walk>
    requires Square(b) && 1 <= i <= |move|
    decreases |move| - i
  {
    if i == |move| then Ok(w)
    else
      var next := Step(b, pov, other, |move|, w, move[i]);
      if next.Err? then Err(next.error)
      else WalkFrom(b, pov, other, move, i + 1, next.value)
  }

  /** Lines 341-342: the removed pieces' fields, cleared. */
  function ClearAll(removed: seq<Coord>): (r: seq<(Coord, Field)>)
    ensures |r| == |removed|
    ensures forall j :: 0 <= j < |r| ==> r[j] == (removed[j], Cleared)
  {
    if |removed| == 0 then [] else ClearAll(removed[..|removed| - 1]) + [(removed[|removed| - 1], Cleared)]
  }

  /** Lines 288-344: the changes `apply_move` writes, or the error it raises: an
      IndexError for an empty move or a field outside Python's indices, an AssertionError
      when the first field is not the mover's or a rule of lines 298-330 is broken. The
      first field is cleared, so are the jumped pieces, and the piece lands on the last
      field, promoted on row 9. */
  function MoveChanges(b: Board, pov: Owner, other: Owner, move: Move): (r: Result<seq<(Coord, Field)>>)
    requires Square(b)
    ensures |move| == 0 ==> r == Err(IndexError)
    ensures |move| > 0 && Get(b, move[0]).Err? ==> r == Err(IndexError)
    ensures |move| > 0 && Get(b, move[0]).Ok? && Get(b, move[0]).value.player != pov ==> r == Err(AssertionError)
  {
    if |move| == 0 then Err(IndexError)
    else
      var start := Get(b, move[0]);
      if start.Err? then Err(start.error)
      else if start.value.player != pov then Err(AssertionError)
      else
        var w := WalkFrom(b, pov, other, move, 1, Walk(move[0], start.value.isKing, []));
        if w.Err? then Err(w.error)
        else Ok(Changed(move[0], pov, w.value))
  }

  /** Lines 332-344: the first field cleared, then the jumped pieces, then the piece on the
      walk's last field, a king when it was one or reached row 9. */
  function Changed(first: Coord, pov: Owner, w: Walk): seq<(Coord, Field)>
  {
    [(first, Cleared)] + ClearAll(w.removed) + [(w.coord, Field(true, pov, w.isKing || w.coord.1 == Size - 1))]
  }

  /** Every field in `removed` holds an opponent piece, and none appears twice. */
  ghost predicate Captured(b: Board, other: Owner, removed: seq<Coord>)
    requires Square(b)
  {
    Distinct(removed) &&
    forall c :: c in removed ==> Get(b, c).Ok? && Get(b, c).value.player == other
  }

  /** Jumping one more opponent piece, not jumped before, keeps the jumped pieces captured. */
  lemma CapturedGrows(b: Board, other: Owner, removed: seq<Coord>, c: Coord)
    requires Square(b) && Captured(b, other, removed) && c !in removed
    requires Get(b, c).Ok? && Get(b, c).value.player == other
    ensures Captured(b, other, removed + [c])
  {
  }

  /** A king's sweep, as written, jumps at most one piece, on a field (cs * s, rs * s) for
      some 1 <= s < n, that holds an opponent piece and was not jumped before. */
  lemma {:induction false} KingSweepFields(b: Board, other: Owner, removed: seq<Coord>, cs: int, rs: int,
                                           steps: int, n: int, was: bool)
    requires Square(b) && cs in {-1, 1} && rs in {-1, 1} && steps >= 1 && Captured(b, other, removed)
    ensures var r := KingSweep(b, other, removed, cs, rs, steps, n, was);
            r.Ok? ==> Captured(b, other, r.value.0) && removed <= r.value.0 &&
                      |r.value.0| <= |removed| + (if was then 0 else 1) &&
                      (r.value.1 <==> was || |r.value.0| > |removed|) &&
                      forall j :: |removed| <= j < |r.value.0| ==>
                        Abs(r.value.0[j].0) == Abs(r.value.0[j].1) && steps <= Abs(r.value.0[j].0) < n &&
                        Sign(r.value.0[j].0) == cs && Sign(r.value.0[j].1) == rs
    decreases n - steps
  {
    if steps < n {
      var skipped := (Scale(cs, steps), Scale(rs, steps));
      var f := Get(b, skipped);
      if f.Ok? {
        if f.value.player == other {
          if !(skipped in removed || was) {
            CapturedGrows(b, other, removed, skipped);
            KingSweepFields(b, other, removed + [skipped], cs, rs, steps + 1, n, true);
          }
        } else {
          KingSweepFields(b, other, removed, cs, rs, steps + 1, n, was);
        }
      }
    }
  }

  /** One step of a move: diagonal, onto an empty field, jumping only opponent pieces not
      jumped before; a man goes one row forwards only in a move of two fields and otherwise
      jumps two rows forwards or backwards over the field in between. */
  ghost predicate StepObeys(b: Board, other: Owner, moveLen: int, w: Walk, part: Coord, r: Walk)
    requires Square(b)
  {
    var cd, rd := part.0 - w.coord.0, part.1 - w.coord.1;
    r.coord == part && r.isKing == w.isKing &&
    Abs(cd) == Abs(rd) && cd != 0 &&
    Get(b, part).Ok? && Get(b, part).value.player.None? &&
    Captured(b, other, r.removed) && w.removed <= r.removed &&
    (!w.isKing ==> (rd == 1 && moveLen == 2 && r.removed == w.removed) ||
                   (Abs(rd) == 2 && r.removed == w.removed + [(w.coord.0 + cd / 2, w.coord.1 + rd / 2)]))
  }

  /** Every step `apply_move` accepts obeys the rules. */
  lemma StepRules(b: Board, pov: Owner, other: Owner, moveLen: int, w: Walk, part: Coord)
    requires Square(b) && Captured(b, other, w.removed)
    ensures var r := Step(b, pov, other, moveLen, w, part);
            r.Ok? ==> StepObeys(b, other, moveLen, w, part, r.value)
  {
    if w.isKing {
      KingStepRules(b, pov, other, moveLen, w, part);
    } else {
      ManStepRules(b, pov, other, moveLen, w, part);
    }
  }

  lemma KingStepRules(b: Board, pov: Owner, other: Owner, moveLen: int, w: Walk, part: Coord)
    requires Square(b) && Captured(b, other, w.removed) && w.isKing
    ensures var r := Step(b, pov, other, moveLen, w, part);
            r.Ok? ==> StepObeys(b, other, moveLen, w, part, r.value)
  {
    var cd, rd := part.0 - w.coord.0, part.1 - w.coord.1;
    if Abs(cd) == Abs(rd) && cd != 0 {
      KingSweepFields(b, other, w.removed, Sign(cd), Sign(rd), 1, Abs(cd), false);
    }
  }

  lemma ManStepRules(b: Board, pov: Owner, other: Owner, moveLen: int, w: Walk, part: Coord)
    requires Square(b) && Captured(b, other, w.removed) && !w.isKing
    ensures var r := Step(b, pov, other, moveLen, w, part);
            r.Ok? ==> StepObeys(b, other, moveLen, w, part, r.value)
  {
    var cd, rd := part.0 - w.coord.0, part.1 - w.coord.1;
    if Abs(rd) == 2 {
      var skipped := (w.coord.0 + cd / 2, w.coord.1 + rd / 2);
      var f := Get(b, skipped);
      if f.Ok? && f.value.player == other && skipped !in w.removed {
        CapturedGrows(b, other, w.removed, skipped);
      }
    }
  }

  /** Step j of a move (from move[j - 1] to move[j]) is diagonal and lands on an empty
      field; for a man it goes one row forwards, only in a move of two fields, or jumps two
      rows. */
  ghost predicate LegalStep(b: Board, move: Move, j: int, king: bool)
    requires Square(b) && 1 <= j < |move|
  {
    var cd, rd := move[j].0 - move[j - 1].0, move[j].1 - move[j - 1].1;
    Abs(cd) == Abs(rd) && cd != 0 &&
    Get(b, move[j]).Ok? && Get(b, move[j]).value.player.None? &&
    (!king ==> rd in {1, 2, -2} && (rd == 1 ==> |move| == 2))
  }

  /** Every step of a walked move is diagonal, lands on an empty field, and keeps the
      piece's rank; the jumped pieces are opponent pieces, none twice; the walk ends on the
      move's last field. */
  lemma {:induction false} WalkRules(b: Board, pov: Owner, other: Owner, move: Move, i: int, w: Walk)
    requires Square(b) && 1 <= i <= |move| && w.coord == move[i - 1] && Captured(b, other, w.removed)
    ensures var r := WalkFrom(b, pov, other, move, i, w);
            r.Ok? ==>
              r.value.coord == move[|move| - 1] && r.value.isKing == w.isKing &&
              Captured(b, other, r.value.removed) && w.removed <= r.value.removed &&
              forall j :: i <= j < |move| ==> LegalStep(b, move, j, w.isKing)
    decreases |move| - i
  {
    if i < |move| {
      StepWalk(b, pov, other, move, i, w);
      var next := Step(b, pov, other, |move|, w, move[i]);
      if next.Ok? {
        WalkRules(b, pov, other, move, i + 1, next.value);
      }
    }
  }

  /** Step i of a walk is legal and keeps the piece's rank and the jumped pieces. */
  lemma StepWalk(b: Board, pov: Owner, other: Owner, move: Move, i: int, w: Walk)
    requires Square(b) && 1 <= i < |move| && w.coord == move[i - 1] && Captured(b, other, w.removed)
    ensures var r := Step(b, pov, other, |move|, w, move[i]);
            r.Ok? ==>
              r.value.coord == move[i] && r.value.isKing == w.isKing &&
              Captured(b, other, r.value.removed) && w.removed <= r.value.removed &&
              LegalStep(b, move, i, w.isKing)
  {
    StepRules(b, pov, other, |move|, w, move[i]);
  }

  /** The fields the changes write, in order. */
  function Written(changes: seq<(Coord, Field)>): (r: seq<Coord>)
    ensures |r| == |changes| && forall j :: 0 <= j < |r| ==> r[j] == changes[j].0
  {
    seq(|changes|, j requires 0 <= j < |changes| => changes[j].0)
  }

  /** What `apply_move` writes when it does not raise: the mover's own piece leaves the
      first field and stands on the last field, a king when it was one or reached row 9. */
  lemma MovedEnds(b: Board, pov: Owner, other: Owner, move: Move)
    requires Square(b)
    ensures var r := MoveChanges(b, pov, other, move);
            r.Ok? ==>
              |move| >= 1 && Get(b, move[0]).Ok? && Get(b, move[0]).value.player == pov &&
              |r.value| >= 2 && r.value[0] == (move[0], Cleared) &&
              r.value[|r.value| - 1] ==
                (move[|move| - 1], Field(true, pov, Get(b, move[0]).value.isKing || move[|move| - 1].1 == Size - 1))
  {
    if |move| > 0 && Get(b, move[0]).Ok? && Get(b, move[0]).value.player == pov {
      WalkRules(b, pov, other, move, 1, Walk(move[0], Get(b, move[0]).value.isKing, []));
    }
  }

  /** The changes of a walk that jumped opponent pieces clear exactly those, between the
      first and the last field. */
  lemma ChangedCaptures(b: Board, other: Owner, first: Coord, pov: Owner, w: Walk)
    requires Square(b) && Captured(b, other, w.removed)
    ensures var r := Changed(first, pov, w);
            |r| >= 2 && Captured(b, other, Written(r)[1..|r| - 1]) &&
            forall j :: 0 < j < |r| - 1 ==> r[j].1 == Cleared
  {
    var r := Changed(first, pov, w);
    assert forall j :: 0 < j < |r| - 1 ==> r[j] == (w.removed[j - 1], Cleared);
    assert Written(r)[1..|r| - 1] == w.removed;
  }

  /** Every field `apply_move` clears between the first and the last held an opponent
      piece, and none is cleared twice. */
  lemma MovedCaptures(b: Board, pov: Owner, other: Owner, move: Move)
    requires Square(b)
    ensures var r := MoveChanges(b, pov, other, move);
            r.Ok? ==>
              |r.value| >= 2 && Captured(b, other, Written(r.value)[1..|r.value| - 1]) &&
              forall j :: 0 < j < |r.value| - 1 ==> r.value[j].1 == Cleared
  {
    if |move| > 0 && Get(b, move[0]).Ok? && Get(b, move[0]).value.player == pov {
      var w0 := Walk(move[0], Get(b, move[0]).value.isKing, []);
      WalkCaptured(b, pov, other, move, w0);
      var w := WalkFrom(b, pov, other, move, 1, w0);
      if w.Ok? {
        ChangedCaptures(b, other, move[0], pov, w.value);
      }
    }
  }

  /** The pieces a whole move jumps are opponent pieces, none twice. */
  lemma WalkCaptured(b: Board, pov: Owner, other: Owner, move: Move, w0: Walk)
    requires Square(b) && |move| > 0 && w0.coord == move[0] && w0.removed == []
    ensures var r := WalkFrom(b, pov, other, move, 1, w0);
            r.Ok? ==> Captured(b, other, r.value.removed)
  {
    WalkRules(b, pov, other, move, 1, w0);
  }

  /** All fields `apply_move` writes lie within Python's indices, so the next view can be
      derived from its changes. */
  lemma MovedApplicable(b: Board, pov: Owner, other: Owner, move: Move)
    requires Square(b)
    ensures MoveChanges(b, pov, other, move).Ok? ==> DV.Applied(b, MoveChanges(b, pov, other, move).value).Ok?
  {
    if |move| > 0 && Get(b, move[0]).Ok? && Get(b, move[0]).value.player == pov {
      var w0 := Walk(move[0], Get(b, move[0]).value.isKing, []);
      WalkCaptured(b, pov, other, move, w0);
      WalkLands(b, pov, other, move, w0);
      var w := WalkFrom(b, pov, other, move, 1, w0);
      if w.Ok? {
        ChangedApplicable(move[0], pov, w.value);
      }
    }
  }

  /** A whole move ends on a field within Python's indices. */
  lemma WalkLands(b: Board, pov: Owner, other: Owner, move: Move, w0: Walk)
    requires Square(b) && |move| > 0 && w0.coord == move[0] && w0.removed == [] && Indexable(move[0])
    ensures var r := WalkFrom(b, pov, other, move, 1, w0);
            r.Ok? ==> Indexable(r.value.coord)
  {
    WalkRules(b, pov, other, move, 1, w0);
    if |move| > 1 && WalkFrom(b, pov, other, move, 1, w0).Ok? {
      assert LegalStep(b, move, |move| - 1, w0.isKing);
    }
  }

  /** The changes of a walk write only fields within Python's indices when its first,
      jumped and last fields are. */
  lemma ChangedApplicable(first: Coord, pov: Owner, w: Walk)
    requires Indexable(first) && Indexable(w.coord) && forall c :: c in w.removed ==> Indexable(c)
    ensures var r := Changed(first, pov, w);
            forall j :: 0 <= j < |r| ==> Indexable(r[j].0)
  {
    var r := Changed(first, pov, w);
    forall j | 0 <= j < |r| ensures Indexable(r[j].0) {
      if 0 < j < |r| - 1 {
        assert r[j].0 == w.removed[j - 1] && w.removed[j - 1] in w.removed;
      }
    }
  }

  /** Every step of a move `apply_move` accepts is legal for the piece that makes it. */
  lemma MovedSteps(b: Board, pov: Owner, other: Owner, move: Move)
    requires Square(b)
    ensures MoveChanges(b, pov, other, move).Ok? ==>
              |move| >= 1 && Get(b, move[0]).Ok? &&
              forall j :: 1 <= j < |move| ==> LegalStep(b, move, j, Get(b, move[0]).value.isKing)
  {
    if |move| > 0 && Get(b, move[0]).Ok? && Get(b, move[0]).value.player == pov {
      WalkRules(b, pov, other, move, 1, Walk(move[0], Get(b, move[0]).value.isKing, []));
    }
  }

  /** Lines 320-327. */
  method SweepKing(b: Board, other: Owner, removed: seq<Coord>, cs: int, rs: int, n: int)
    returns (r: Result<(seq<Coord>, bool)>)
    requires Square(b) && n >= 1
    ensures r == KingSweep(b, other, removed, cs, rs, 1, n, false)
  {
    var rem, was := removed, false;
    for steps := 1 to n
      invariant KingSweep(b, other, rem, cs, rs, steps, n, was) == KingSweep(b, other, removed, cs, rs, 1, n, false)
    {
      var skipped := (Scale(cs, steps), Scale(rs, steps));
      var f := Get(b, skipped);
      if f.Err? {
        return Err(f.error);
      }
      if f.value.player == other {
        if skipped in rem {
          return Err(AssertionError);
        }
        if was {
          return Err(AssertionError);
        }
        rem := rem + [skipped];
        was := true;
      }
    }
    return Ok((rem, was));
  }

  /** Lines 295-331, the body of the loop over the move's fields. */
  method WalkStep(b: Board, pov: Owner, other: Owner, moveLen: int, w: Walk, part: Coord) returns (r: Result<Walk>)
    requires Square(b)
    ensures r == Step(b, pov, other, moveLen, w, part)
  {
    var colDiff, rowDiff := part.0 - w.coord.0, part.1 - w.coord.1;
    if !(Abs(colDiff) == Abs(rowDiff) && colDiff != 0) {
      return Err(AssertionError);
    }
    var f := Get(b, part);
    if f.Err? {
      return Err(f.error);
    }
    if !(f.value.player.None? || part == w.coord) {
      return Err(AssertionError);
    }
    var removed := w.removed;
    if !w.isKing {
      if rowDiff <= 0 {
        if rowDiff != -2 {
          return Err(AssertionError);
        }
      } else if rowDiff > 2 {
        return Err(AssertionError);
      }
      if Abs(rowDiff) == 2 {
        var skipped := (w.coord.0 + colDiff / 2, w.coord.1 + rowDiff / 2);
        var s := Get(b, skipped);
        if s.Err? {
          return Err(s.error);
        }
        if s.value.player != other || skipped in removed {
          return Err(AssertionError);
        }
        removed := removed + [skipped];
      } else if moveLen != 2 {
        return Err(AssertionError);
      }
    } else {
      var sweep := SweepKing(b, other, removed, Sign(colDiff), Sign(rowDiff), Abs(colDiff));
      if sweep.Err? {
        return Err(sweep.error);
      }
      if !sweep.value.1 && moveLen != 2 {
        return Err(AssertionError);
      }
      removed := sweep.value.0;
    }
    return Ok(Walk(part, w.isKing, removed));
  }

  /** `apply_move`: walk the move, then derive the next view from the changes, turned to
      the opponent, with the end-of-move verdict. */
  method ApplyMove(view: DV.DraughtsView, move: Move) returns (r: Result<DV.DraughtsView>)
    requires view.Valid()
    ensures r.Err? <==> MoveChanges(view.fields, view.pov, view.other, move).Err?
    ensures r.Err? ==> r.error == MoveChanges(view.fields, view.pov, view.other, move).error
    ensures r.Ok? ==> fresh(r.value) && r.value.Valid() &&
                      MoveChanges(view.fields, view.pov, view.other, move).Ok? &&
                      DV.Applied(view.fields, MoveChanges(view.fields, view.pov, view.other, move).value).Ok? &&
                      DV.Derived(view, MoveChanges(view.fields, view.pov, view.other, move).value, true, true, r.value)
  {
    var b, pov, other := view.fields, view.pov, view.other;
    if |move| == 0 {
      return Err(IndexError);
    }
    var start := Get(b, move[0]);
    if start.Err? {
      return Err(start.error);
    }
    if start.value.player != pov {
      return Err(AssertionError);
    }
    var coord, isKing, removed := move[0], start.value.isKing, [];
    ghost var w0 := Walk(move[0], start.value.isKing, []);
    for i := 1 to |move|
      invariant WalkFrom(b, pov, other, move, i, Walk(coord, isKing, removed)) == WalkFrom(b, pov, other, move, 1, w0)
    {
      var next := WalkStep(b, pov, other, |move|, Walk(coord, isKing, removed), move[i]);
      if next.Err? {
        return Err(next.error);
      }
      coord, isKing, removed := next.value.coord, next.value.isKing, next.value.removed;
    }
    if coord.1 == Size - 1 {
      isKing := true;
    }
    var changes := [(move[0], Cleared)];
    for j := 0 to |removed|
      invariant changes == [(move[0], Cleared)] + ClearAll(removed[..j])
    {
      assert removed[..j + 1][..j] == removed[..j];
      changes := changes + [(removed[j], Cleared)];
    }
    assert removed[..|removed|] == removed;
    changes := changes + [(coord, Field(true, pov, isKing))];
    MovedApplicable(b, pov, other, move);
    r := DV.DraughtsView.Derive(view, changes, true, true);
  }

  // ----- evaluate_view -----

  /** Lines 349-356 for column `col`. */
  method ColumnMaterial(b: Board, viewpoint: Owner, col: int, current0: int, other0: int)
    returns (current: int, other: int)
    requires Square(b) && 0 <= col < Size
    requires (current0, other0) == Material(b, viewpoint, col, 0)
    ensures (current, other) == Material(b, viewpoint, col + 1, 0)
  {
    current, other := current0, other0;
    for row := 0 to Size
      invariant (current, other) == Material(b, viewpoint, col, row)
    {
      var f := b[col][row];
      if f.player == viewpoint {
        current := current + if f.isKing then 7 else 2;
      } else if f.player.Some? {
        other := other + if f.isKing then 7 else 2;
      }
    }
  }

  /** `evaluate_view` in doubled units (a man 2, a king 7, a win 2000). */
  method EvaluateView(view: DV.DraughtsView, viewpoint: Owner) returns (v: int)
    requires view.Valid()
    ensures v == Evaluation(view.fields, view.winner, viewpoint)
  {
    var b := view.fields;
    var current, other := 0, 0;
    for col := 0 to Size
      invariant (current, other) == Material(b, viewpoint, col, 0)
    {
      current, other := ColumnMaterial(b, viewpoint, col, current, other);
    }
    if view.winner.None? {
      v := current - other;
    } else if view.winner == viewpoint {
      v := current + 2000;
    } else {
      v := -(other + 2000);
    }
  }
}
