/** The fixed-depth MinMax player (algorithms/minmax_player.py) over an abstract
    finite-turn game logic, as written: the recursion applies every grandchild move to
    the player's own view rather than to the successor, `evaluate_view` is called with
    the view alone, values are compared the Python way (None against a number raises
    TypeError), and `get_next_move` discards the move it picks. */
module MinMax {
  import opened Common

  /** A node value: a number from `evaluate_view`, or None from a node with no moves. */
  type Value = Option<int>

  /** The game logic the player is given, with views V, moves M and players P:
      `get_current_player`, `list_moves`, `is_view_terminal`, `apply_move`, and
      `evaluateOne`, what `evaluate_view(view)` returns when called with the view alone:
      None for a logic whose `evaluate_view` also needs its viewpoint argument, as the
      interface declares it, in which case that call raises TypeError. */
  datatype Logic<!V, !M, P> = Logic(currentPlayer: V -> P, listMoves: V -> seq<M>, isTerminal: V -> bool,
                                    applyMove: (V, M) -> V, evaluateOne: Option<V -> int>)

  /** The player's own state: `self.id`, `self.view` and `self.depth`. */
  datatype Searcher<V, P> = Searcher(id: P, view: V, depth: int)

  /** Python's `a < b` on two node values: numbers compare, None raises TypeError. */
  function Less(a: Value, b: Value): (r: Result<bool>)
    ensures r.Err? <==> a.None? || b.None?
    ensures r.Ok? ==> r == Ok(a.value < b.value)
  {
    if a.Some? && b.Some? then Ok(a.value < b.value) else Err(TypeError)
  }

  /** Line 48: the value of a view the search stops at. */
  function Leaf<V, M, P>(logic: Logic<V, M, P>, view: V): (r: Result<Value>)
    ensures logic.evaluateOne.None? <==> r == Err(TypeError)
    ensures logic.evaluateOne.Some? ==> r == Ok(Some(logic.evaluateOne.value(view)))
  {
    if logic.evaluateOne.Some? then Ok(Some(logic.evaluateOne.value(view))) else Err(TypeError)
  }

  /** Lines 56-58: whether `value` replaces `best`; the maximising side keeps the larger
      value, the minimising side the smaller one, and the first value always replaces
      the initial None. */
  function Improves(best: Value, value: Value, maximizing: bool): (r: Result<bool>)
    ensures best.None? ==> r == Ok(true)
    ensures best.Some? && value.Some? ==>
              r == Ok(if maximizing then best.value < value.value else value.value < best.value)
    ensures best.Some? && value.None? ==> r == Err(TypeError)
  {
    if best.None? then Ok(true)
    else if maximizing then Less(best, value)
    else Less(value, best)
  }

  /** `_evaluate(move, view, current_depth)`: the value of playing `move` from `view`. The
      successor is scored when the depth bound is reached or it is terminal; otherwise its
      moves are folded over, each applied to the player's own view at the next depth, as
      line 54 does. */
  function NodeValue<V, M, P(==)>(logic: Logic<V, M, P>, me: Searcher<V, P>, move: M, view: V, depth: int)
    : (r: Result<Value>)
    requires 1 <= depth <= me.depth
    ensures var next := logic.applyMove(view, move);
            depth < me.depth && !logic.isTerminal(next) && logic.listMoves(next) == [] ==> r == Ok(None)
    decreases me.depth - depth, 0
  {
    var next := logic.applyMove(view, move);
    if depth == me.depth || logic.isTerminal(next) then Leaf(logic, next)
    else Fold(logic, me, logic.listMoves(next), logic.currentPlayer(next) == me.id, depth + 1, None)
  }

  /** Lines 52-61 from the current best on: the children `moves` at `depth`, in order. */
  function Fold<V, M, P(==)>(logic: Logic<V, M, P>, me: Searcher<V, P>, moves: seq<M>, maximizing: bool,
                             depth: int, best: Value): (r: Result<Value>)
    requires 2 <= depth <= me.depth
    decreases me.depth - depth, |moves| + 1
  {
    if |moves| == 0 then Ok(best)
    else
      var value := NodeValue(logic, me, moves[0], me.view, depth);
      if value.Err? then Err(value.error)
      else
        var better := Improves(best, value.value, maximizing);
        if better.Err? then Err(better.error)
        else Fold(logic, me, moves[1..], maximizing, depth, if better.value then value.value else best)
  }

  /** The better of a current best and a new value in the fold's direction: the new
      value only when strictly better, as `Improves` decides. */
  function Better(best: int, x: int, maximizing: bool): int
  {
    if maximizing then (if best < x then x else best) else (if x < best then x else best)
  }

  /** The largest (maximizing) or smallest element of a non-empty list. */
  function Extreme(xs: seq<int>, maximizing: bool): (m: int)
    requires |xs| > 0
    ensures m in xs
    ensures forall i :: 0 <= i < |xs| ==> if maximizing then xs[i] <= m else m <= xs[i]
  {
    if |xs| == 1 then xs[0]
    else
      var n := |xs| - 1;
      var rest := Extreme(xs[..n], maximizing);
      assert forall i :: 0 <= i < n ==> xs[i] == xs[..n][i];
      Better(rest, xs[n], maximizing)
  }

  /** The extreme of one more element is the better of the old extreme and that element. */
  lemma ExtremeStep(xs: seq<int>, k: nat, maximizing: bool)
    requires 1 <= k < |xs|
    ensures Extreme(xs[..k + 1], maximizing) == Better(Extreme(xs[..k], maximizing), xs[k], maximizing)
  {
    assert xs[..k + 1][..k] == xs[..k];
  }

  /** Child k scored with a number moves a numeric best to the better of the two. */
  lemma FoldNumber<V, M, P>(logic: Logic<V, M, P>, me: Searcher<V, P>, moves: seq<M>, k: nat,
                            maximizing: bool, depth: int, best: int, x: int)
    requires 2 <= depth <= me.depth && k < |moves|
    requires NodeValue(logic, me, moves[k], me.view, depth) == Ok(Some(x))
    ensures Fold(logic, me, moves[k..], maximizing, depth, Some(best)) ==
              Fold(logic, me, moves[k + 1..], maximizing, depth, Some(Better(best, x, maximizing)))
  {
    assert moves[k..][0] == moves[k] && moves[k..][1..] == moves[k + 1..];
  }

  /** When every child is scored with a number, the fold that has seen the first k
      children (k >= 1) holds the extreme of their values and ends with the extreme of
      all of them. */
  lemma {:induction false} FoldFrom<V, M, P>(logic: Logic<V, M, P>, me: Searcher<V, P>, moves: seq<M>,
                                             maximizing: bool, depth: int, xs: seq<int>, k: nat, best: int)
    requires 2 <= depth <= me.depth && |xs| == |moves| && 1 <= k <= |moves|
    requires forall i :: 0 <= i < |moves| ==> NodeValue(logic, me, moves[i], me.view, depth) == Ok(Some(xs[i]))
    requires best == Extreme(xs[..k], maximizing)
    ensures Fold(logic, me, moves[k..], maximizing, depth, Some(best)) == Ok(Some(Extreme(xs, maximizing)))
    decreases |moves| - k
  {
    if k == |moves| {
      assert xs[..k] == xs;
    } else {
      ExtremeStep(xs, k, maximizing);
      FoldNumber(logic, me, moves, k, maximizing, depth, best, xs[k]);
      FoldFrom(logic, me, moves, maximizing, depth, xs, k + 1, Better(best, xs[k], maximizing));
    }
  }

  /** An inner node whose children all score a number is worth their maximum when the
      player to move is this player, and their minimum otherwise. */
  lemma InnerNodeIsExtreme<V, M, P>(logic: Logic<V, M, P>, me: Searcher<V, P>, move: M, view: V,
                                        depth: int, xs: seq<int>)
    requires 1 <= depth < me.depth
    requires var next := logic.applyMove(view, move);
             !logic.isTerminal(next) && |xs| == |logic.listMoves(next)| > 0 &&
             forall i :: 0 <= i < |xs| ==>
               NodeValue(logic, me, logic.listMoves(next)[i], me.view, depth + 1) == Ok(Some(xs[i]))
    ensures var next := logic.applyMove(view, move);
            var r := NodeValue(logic, me, move, view, depth);
            r.Ok? && r.value.Some? && r.value.value in xs &&
            forall i :: 0 <= i < |xs| ==>
              if logic.currentPlayer(next) == me.id then xs[i] <= r.value.value else r.value.value <= xs[i]
  {
    var next := logic.applyMove(view, move);
    var moves := logic.listMoves(next);
    var maximizing := logic.currentPlayer(next) == me.id;
    assert Improves(None, Some(xs[0]), maximizing) == Ok(true);
    assert xs[..1] == [xs[0]];
    FoldFrom(logic, me, moves, maximizing, depth + 1, xs, 1, xs[0]);
  }

  /** With a logic whose `evaluate_view` needs its viewpoint, as the interface declares,
      no node is ever scored with a number: every reached leaf raises TypeError, and only
      nodes whose move lists run dry come back, as None. */
  lemma {:induction false} InterfaceLogicNeverScores<V, M, P>(logic: Logic<V, M, P>, me: Searcher<V, P>,
                                                                  move: M, view: V, depth: int)
    requires logic.evaluateOne.None? && 1 <= depth <= me.depth
    ensures NodeValue(logic, me, move, view, depth) in {Err(TypeError), Ok(None)}
    decreases me.depth - depth, 0
  {
    var next := logic.applyMove(view, move);
    if !(depth == me.depth || logic.isTerminal(next)) {
      FoldNeverScores(logic, me, logic.listMoves(next), logic.currentPlayer(next) == me.id, depth + 1);
    }
  }

  lemma {:induction false} FoldNeverScores<V, M, P>(logic: Logic<V, M, P>, me: Searcher<V, P>, moves: seq<M>,
                                                        maximizing: bool, depth: int)
    requires logic.evaluateOne.None? && 2 <= depth <= me.depth
    ensures Fold(logic, me, moves, maximizing, depth, None) in {Err(TypeError), Ok(None)}
    decreases me.depth - depth, |moves| + 1
  {
    if |moves| > 0 {
      InterfaceLogicNeverScores(logic, me, moves[0], me.view, depth);
      FoldNeverScores(logic, me, moves[1..], maximizing, depth);
    }
  }

  /** `_evaluate`, with its loop over the successor's moves. */
  method Evaluate<V, M, P(==)>(logic: Logic<V, M, P>, me: Searcher<V, P>, move: M, view: V, depth: int)
    returns (r: Result<Value>)
    requires 1 <= depth <= me.depth
    ensures r == NodeValue(logic, me, move, view, depth)
    decreases me.depth - depth
  {
    var next := logic.applyMove(view, move);
    if depth == me.depth || logic.isTerminal(next) {
      return Leaf(logic, next);
    }
    var maximizing := logic.currentPlayer(next) == me.id;
    var moves := logic.listMoves(next);
    var best: Value := None;
    for i := 0 to |moves|
      invariant NodeValue(logic, me, move, view, depth) == Fold(logic, me, moves[i..], maximizing, depth + 1, best)
    {
      assert moves[i..][1..] == moves[i + 1..];
      var value := Evaluate(logic, me, moves[i], me.view, depth + 1);
      if value.Err? {
        return Err(value.error);
      }
      var better := Improves(best, value.value, maximizing);
      if better.Err? {
        return Err(better.error);
      }
      if better.value {
        best := value.value;
      }
    }
    r := Ok(best);
  }

  /** Lines 36-40: the best value so far and the moves that reach it, updated by one
      more move's value; a None value after a number raises TypeError. */
  function RankStep<M>(best: Value, bestMoves: seq<M>, move: M, value: Value): (r: Result<(Value, seq<M>)>)
  {
    if best.None? then Ok((value, [move]))
    else
      var less := Less(best, value);
      if less.Err? then Err(less.error)
      else if less.value then Ok((value, [move]))
      else if best == value then Ok((best, bestMoves + [move]))
      else Ok((best, bestMoves))
  }

  /** Lines 33-40 from the current best on: the root moves `moves`, in order. */
  function RankFold<V, M, P(==)>(logic: Logic<V, M, P>, me: Searcher<V, P>, moves: seq<M>,
                                 best: Value, bestMoves: seq<M>): (r: Result<(Value, seq<M>)>)
    requires me.depth >= 1
    decreases |moves|
  {
    if |moves| == 0 then Ok((best, bestMoves))
    else
      var value := NodeValue(logic, me, moves[0], me.view, 1);
      if value.Err? then Err(value.error)
      else
        var step := RankStep(best, bestMoves, moves[0], value.value);
        if step.Err? then Err(step.error)
        else RankFold(logic, me, moves[1..], step.value.0, step.value.1)
  }

  /** The moves whose value is m, in listing order. */
  function Achieving<M>(moves: seq<M>, xs: seq<int>, m: int): (r: seq<M>)
    requires |moves| == |xs|
    ensures forall y :: y in r ==> exists i :: 0 <= i < |moves| && moves[i] == y && xs[i] == m
  {
    if |moves| == 0 then []
    else
      var n := |moves| - 1;
      Achieving(moves[..n], xs[..n], m) + (if xs[n] == m then [moves[n]] else [])
  }

  lemma AchievingNone<M>(moves: seq<M>, xs: seq<int>, m: int)
    requires |moves| == |xs| && forall i :: 0 <= i < |xs| ==> xs[i] < m
    ensures Achieving(moves, xs, m) == []
  {
    if |moves| > 0 {
      var n := |moves| - 1;
      AchievingNone(moves[..n], xs[..n], m);
    }
  }

  /** After the first k root moves (k >= 1) the ranking holds the largest value so far
      and exactly the moves reaching it, in listing order. */
  lemma {:induction false} RankFrom<V, M, P>(logic: Logic<V, M, P>, me: Searcher<V, P>, moves: seq<M>,
                                                xs: seq<int>, k: nat)
    requires me.depth >= 1 && |xs| == |moves| && 1 <= k <= |moves|
    requires forall i :: 0 <= i < |moves| ==> NodeValue(logic, me, moves[i], me.view, 1) == Ok(Some(xs[i]))
    ensures var m := Extreme(xs[..k], true);
            RankFold(logic, me, moves[k..], Some(m), Achieving(moves[..k], xs[..k], m)) ==
              Ok((Some(Extreme(xs, true)), Achieving(moves, xs, Extreme(xs, true))))
    decreases |moves| - k
  {
    if k == |moves| {
      assert moves[..k] == moves && xs[..k] == xs;
    } else {
      assert moves[k..][1..] == moves[k + 1..];
      RankPrefixStep(moves, xs, k);
      RankFrom(logic, me, moves, xs, k + 1);
    }
  }

  /** One more root move takes the ranking of the first k moves to that of the first k+1. */
  lemma RankPrefixStep<M>(moves: seq<M>, xs: seq<int>, k: nat)
    requires |xs| == |moves| && 1 <= k < |moves|
    ensures var m := Extreme(xs[..k], true);
            var m' := Extreme(xs[..k + 1], true);
            RankStep(Some(m), Achieving(moves[..k], xs[..k], m), moves[k], Some(xs[k])) ==
              Ok((Some(m'), Achieving(moves[..k + 1], xs[..k + 1], m')))
  {
    var m := Extreme(xs[..k], true);
    var x := xs[k];
    var m' := Extreme(xs[..k + 1], true);
    assert xs[..k + 1][..k] == xs[..k] && moves[..k + 1][..k] == moves[..k];
    assert m' == Better(m, x, true);
    assert Achieving(moves[..k + 1], xs[..k + 1], m') ==
             Achieving(moves[..k], xs[..k], m') + (if x == m' then [moves[k]] else []);
    assert Less(Some(m), Some(x)) == Ok(m < x);
    if m < x {
      AchievingNone(moves[..k], xs[..k], x);
      assert Achieving(moves[..k + 1], xs[..k + 1], m') == [moves[k]];
    } else if m == x {
      assert Achieving(moves[..k + 1], xs[..k + 1], m') == Achieving(moves[..k], xs[..k], m) + [moves[k]];
    } else {
      assert Achieving(moves[..k + 1], xs[..k + 1], m') == Achieving(moves[..k], xs[..k], m);
    }
  }

  /** When every root move scores a number, `best_moves` ends as exactly the moves with
      the maximal value, in listing order, and `best_value` as that maximum. */
  lemma BestMovesAreArgmax<V, M, P>(logic: Logic<V, M, P>, me: Searcher<V, P>, xs: seq<int>)
    requires me.depth >= 1
    requires var moves := logic.listMoves(me.view);
             |xs| == |moves| > 0 &&
             forall i :: 0 <= i < |moves| ==> NodeValue(logic, me, moves[i], me.view, 1) == Ok(Some(xs[i]))
    ensures var moves := logic.listMoves(me.view);
            RankFold(logic, me, moves, None, []) == Ok((Some(Extreme(xs, true)), Achieving(moves, xs, Extreme(xs, true))))
  {
    var moves := logic.listMoves(me.view);
    RankFirst(logic, me, moves, xs[0]);
    AchievingFirst(moves, xs);
    RankFrom(logic, me, moves, xs, 1);
  }

  /** The first root move scored with a number opens the ranking with itself. */
  lemma RankFirst<V, M, P>(logic: Logic<V, M, P>, me: Searcher<V, P>, moves: seq<M>, x: int)
    requires me.depth >= 1 && |moves| > 0
    requires NodeValue(logic, me, moves[0], me.view, 1) == Ok(Some(x))
    ensures RankFold(logic, me, moves, None, []) == RankFold(logic, me, moves[1..], Some(x), [moves[0]])
  {
  }

  /** The ranking of the first move alone: its value and itself. */
  lemma AchievingFirst<M>(moves: seq<M>, xs: seq<int>)
    requires |moves| == |xs| > 0
    ensures Extreme(xs[..1], true) == xs[0] && Achieving(moves[..1], xs[..1], xs[0]) == [moves[0]]
  {
    assert xs[..1] == [xs[0]] && moves[..1] == [moves[0]];
    assert moves[..1][..0] == [] && xs[..1][..0] == [];
  }

  /** The loop of `get_next_move` (lines 30-40) over the root moves, each evaluated at
      depth 1 from the player's view. */
  method RankMoves<V, M, P(==)>(logic: Logic<V, M, P>, me: Searcher<V, P>) returns (r: Result<(Value, seq<M>)>)
    requires me.depth >= 1
    ensures r == RankFold(logic, me, logic.listMoves(me.view), None, [])
  {
    var moves := logic.listMoves(me.view);
    var best: Value := None;
    var bestMoves: seq<M> := [];
    for i := 0 to |moves|
      invariant RankFold(logic, me, moves, None, []) == RankFold(logic, me, moves[i..], best, bestMoves)
    {
      assert moves[i..][1..] == moves[i + 1..];
      var value := Evaluate(logic, me, moves[i], me.view, 1);
      if value.Err? {
        return Err(value.error);
      }
      var step := RankStep(best, bestMoves, moves[i], value.value);
      if step.Err? {
        return Err(step.error);
      }
      best, bestMoves := step.value.0, step.value.1;
    }
    r := Ok((best, bestMoves));
  }

  /** `get_next_move`: ranks the moves, then picks one of the best at random and drops it,
      so the call returns None (Ok(())); with no legal move `best_moves` is still None and
      `random.choice(None)` raises TypeError. `depth` must be positive, as documented. */
  method GetNextMove<V, M, P(==)>(logic: Logic<V, M, P>, me: Searcher<V, P>) returns (r: Result<()>)
    requires me.depth >= 1
    ensures var ranked := RankFold(logic, me, logic.listMoves(me.view), None, []);
            r == if ranked.Err? then Err(ranked.error)
                 else if |logic.listMoves(me.view)| == 0 then Err(TypeError)
                 else Ok(())
  {
    var ranked := RankMoves(logic, me);
    if ranked.Err? {
      return Err(ranked.error);
    }
    if |logic.listMoves(me.view)| == 0 {
      return Err(TypeError);
    }
    RankedNonEmpty(logic, me, logic.listMoves(me.view), None, []);
    var k :| 0 <= k < |ranked.value.1|;
    var chosen := ranked.value.1[k];
    r := Ok(());
  }

  /** A ranking over at least one move that succeeds holds at least one move. */
  lemma {:induction false} RankedNonEmpty<V, M, P>(logic: Logic<V, M, P>, me: Searcher<V, P>, moves: seq<M>,
                                                      best: Value, bestMoves: seq<M>)
    requires me.depth >= 1 && (|moves| > 0 || |bestMoves| > 0) && (best.Some? ==> |bestMoves| > 0)
    ensures RankFold(logic, me, moves, best, bestMoves).Ok? ==> |RankFold(logic, me, moves, best, bestMoves).value.1| > 0
    decreases |moves|
  {
    if |moves| > 0 {
      var value := NodeValue(logic, me, moves[0], me.view, 1);
      if value.Ok? {
        var step := RankStep(best, bestMoves, moves[0], value.value);
        if step.Ok? {
          RankedNonEmpty(logic, me, moves[1..], step.value.0, step.value.1);
        }
      }
    }
  }
}
