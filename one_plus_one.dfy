/** The 1+1 self-adaptive pool (engine/algorithms/tensorflow/one_plus_one_pool.py): two
    parameter slots, one of them the current best, the other a noisy copy of it that
    challenges the best every game; the noise strength sigma follows a success rule. */
module OnePlusOnePool {
  import opened Common

  /** The two players the pool owns: `_first_player` and `_second_player`. */
  datatype Slot = First | Second

  function Other(s: Slot): (r: Slot)
    ensures r != s
  {
    if s == First then Second else First
  }

  /** A run of one of the two noise setters: `to` is overwritten by the parameters of `from`
      plus Gaussian noise of strength sigma = proportion^sigmaExp. The noise itself is not
      modelled. */
  datatype Copy = CopyWithNoise(from: Slot, to: Slot, sigmaExp: int)

  /** The success-rule counters: `_sigma_scaling_t`, `_new_player_wins`, and sigma as an
      exponent of `_sigma_proportion`. */
  datatype Scaling = Scaling(t: int, wins: int, sigmaExp: int)

  /** Does `wins / interval` exceed the target proportion num / den? (den > 0, interval > 0) */
  predicate AboveTarget(wins: int, interval: int, num: int, den: int) {
    wins * den > num * interval
  }

  /** The counters after one two-player game: a challenger win is counted, then
      `_scale_sigma` advances the clock and, when it reaches the interval, multiplies sigma
      by the proportion if the win proportion is above target and divides it otherwise
      (equality included), and restarts both counters. */
  function ScaleStep(s: Scaling, won: bool, interval: int, num: int, den: int): (r: Scaling)
    requires den > 0
    ensures s.t + 1 != interval ==>
              r == Scaling(s.t + 1, if won then s.wins + 1 else s.wins, s.sigmaExp)
    ensures s.t + 1 == interval ==> r.t == 0 && r.wins == 0
    ensures s.t + 1 == interval ==>
              var w := if won then s.wins + 1 else s.wins;
              r.sigmaExp == if AboveTarget(w, interval, num, den) then s.sigmaExp + 1 else s.sigmaExp - 1
  {
    var w := if won then s.wins + 1 else s.wins;
    if s.t + 1 == interval then
      Scaling(0, 0, if w * den > num * interval then s.sigmaExp + 1 else s.sigmaExp - 1)
    else
      Scaling(s.t + 1, w, s.sigmaExp)
  }

  /** The counters after a series of two-player games, `outcomes[i]` telling whether the
      challenger won game i. */
  function ScaleRun(s: Scaling, outcomes: seq<bool>, interval: int, num: int, den: int): Scaling
    requires den > 0
  {
    if |outcomes| == 0 then s
    else ScaleStep(ScaleRun(s, outcomes[..|outcomes| - 1], interval, num, den),
                   outcomes[|outcomes| - 1], interval, num, den)
  }

  /** Number of challenger wins in a series. */
  function Wins(outcomes: seq<bool>): (n: nat)
    ensures n <= |outcomes|
  {
    if |outcomes| == 0 then 0
    else Wins(outcomes[..|outcomes| - 1]) + (if outcomes[|outcomes| - 1] then 1 else 0)
  }

  /** Within an interval the clock counts the games and the win counter counts the
      challenger's wins. */
  lemma {:induction false} ScaleRunPrefix(s: Scaling, outcomes: seq<bool>, interval: int, num: int, den: int)
    requires den > 0 && s.t == 0 && s.wins == 0 && |outcomes| < interval
    ensures ScaleRun(s, outcomes, interval, num, den) == Scaling(|outcomes|, Wins(outcomes), s.sigmaExp)
  {
    if |outcomes| > 0 {
      ScaleRunPrefix(s, outcomes[..|outcomes| - 1], interval, num, den);
    }
  }

  /** A full interval of games starting from fresh counters changes sigma by exactly one
      factor of the proportion: up when wins/interval is above the target, down otherwise
      (equality included), and leaves both counters at zero. */
  lemma {:induction false} IntervalScalesOnce(s: Scaling, outcomes: seq<bool>, interval: int, num: int, den: int)
    requires den > 0 && s.t == 0 && s.wins == 0 && |outcomes| == interval >= 1
    ensures var r := ScaleRun(s, outcomes, interval, num, den);
            r.t == 0 && r.wins == 0 &&
            r.sigmaExp == if AboveTarget(Wins(outcomes), interval, num, den) then s.sigmaExp + 1 else s.sigmaExp - 1
  {
    ScaleRunPrefix(s, outcomes[..|outcomes| - 1], interval, num, den);
  }

  /** The counters stay in range whatever the outcomes: 0 <= wins <= t < interval. */
  lemma {:induction false} ScaleRunBounds(s: Scaling, outcomes: seq<bool>, interval: int, num: int, den: int)
    requires den > 0 && interval >= 1 && 0 <= s.wins <= s.t < interval
    ensures var r := ScaleRun(s, outcomes, interval, num, den);
            0 <= r.wins <= r.t < interval
  {
    if |outcomes| > 0 {
      ScaleRunBounds(s, outcomes[..|outcomes| - 1], interval, num, den);
    }
  }

  /** A result map missing one slot has at most one entry. */
  lemma MissingSlot(results: map<Slot, int>, s: Slot)
    requires s !in results
    ensures |results| <= 1
  {
    var o := Other(s);
    forall k | k in results.Keys ensures k == o {
      assert k != s;
    }
    if o in results {
      assert results.Keys == {o};
    } else {
      assert results.Keys == {};
    }
  }

  /** A result map with two entries has an entry for each slot. */
  lemma BothSlotsPresent(results: map<Slot, int>)
    requires |results| == 2
    ensures First in results && Second in results
  {
    if First !in results {
      MissingSlot(results, First);
      assert false;
    }
    if Second !in results {
      MissingSlot(results, Second);
      assert false;
    }
  }

  class Pool {
    /** How many players were handed out in the current game (0, 1 or 2). */
    var activePlayers: nat
    /** `_best_player`. */
    var best: Slot
    var scaling: Scaling
    /** `_sigma_scaling_interval`. */
    const interval: int
    /** `_win_proportion`, as the fraction targetNum / targetDen. */
    const targetNum: int
    const targetDen: int
    /** Every setter run so far, oldest first. */
    var copies: seq<Copy>

    ghost predicate Valid()
      reads this
    {
      activePlayers <= 2 && targetDen > 0 &&
      0 <= scaling.wins <= scaling.t && (interval >= 1 ==> scaling.t < interval)
    }

    /** The first player starts as best, sigma is 1 (exponent 0), the counters are 0. */
    constructor (interval: int, targetNum: int, targetDen: int)
      requires targetDen > 0
      ensures Valid()
      ensures this.interval == interval && this.targetNum == targetNum && this.targetDen == targetDen
      ensures best == First && activePlayers == 0 && scaling == Scaling(0, 0, 0) && copies == []
    {
      this.interval := interval;
      this.targetNum := targetNum;
      this.targetDen := targetDen;
      best := First;
      activePlayers := 0;
      scaling := Scaling(0, 0, 0);
      copies := [];
    }

    /** `max_count`: a game never takes more than the best and its challenger. */
    function MaxCount(): (n: nat)
      ensures n == 2
    {
      2
    }

    /** `prepare_new_game`: the slot counter restarts. */
    method PrepareNewGame()
      requires Valid()
      modifies this`activePlayers
      ensures Valid() && activePlayers == 0
    {
      activePlayers := 0;
    }

    /** `get_player`: the best first, then the other slot; a third request raises ValueError
        and changes nothing. */
    method GetPlayer() returns (r: Result<Slot>)
      requires Valid()
      modifies this`activePlayers
      ensures Valid()
      ensures old(activePlayers) == 2 ==> r == Err(ValueError) && activePlayers == 2
      ensures old(activePlayers) == 0 ==> r == Ok(best) && activePlayers == 1
      ensures old(activePlayers) == 1 ==> r == Ok(Other(best)) && activePlayers == 2
    {
      if activePlayers == 2 {
        return Err(ValueError);
      }
      if activePlayers == 0 {
        activePlayers := 1;
        return Ok(best);
      }
      activePlayers := 2;
      r := Ok(Other(best));
    }

    /** `train_on_game_over`: the number of results must equal the number of players handed
        out (else AssertionError); nothing happens unless both were. Then the challenger
        replaces the best when its result is at least the best's (ties go to the challenger),
        the non-best slot is overwritten by a noisy copy of the new best at the current
        sigma, and the success rule advances. */
    method TrainOnGameOver(results: map<Slot, int>) returns (r: Result<()>)
      requires Valid()
      modifies this`best, this`scaling, this`copies
      ensures Valid()
      ensures |results| != old(activePlayers) ==>
                r == Err(AssertionError) && unchanged(this)
      ensures |results| == old(activePlayers) != 2 ==> r == Ok(()) && unchanged(this)
      ensures |results| == old(activePlayers) == 2 ==>
                First in results && Second in results &&
                var challenger := Other(old(best));
                var won := results[old(best)] <= results[challenger];
                r == Ok(()) &&
                best == (if won then challenger else old(best)) &&
                copies == old(copies) + [CopyWithNoise(best, Other(best), old(scaling).sigmaExp)] &&
                scaling == ScaleStep(old(scaling), won, interval, targetNum, targetDen)
    {
      if |results| != activePlayers {
        return Err(AssertionError);
      }
      if activePlayers != 2 {
        return Ok(());
      }
      BothSlotsPresent(results);
      var challenger := Other(best);
      var won := results[best] <= results[challenger];
      if won {
        best := challenger;
      }
      copies := copies + [CopyWithNoise(best, Other(best), scaling.sigmaExp)];
      ScaleSigma(won);
      r := Ok(());
    }

    /** `_scale_sigma`, together with the win count it reads. */
    method ScaleSigma(won: bool)
      requires Valid()
      modifies this`scaling
      ensures Valid()
      ensures scaling == ScaleStep(old(scaling), won, interval, targetNum, targetDen)
    {
      var wins := if won then scaling.wins + 1 else scaling.wins;
      var t := scaling.t + 1;
      if t == interval {
        var exp := if wins * targetDen > targetNum * interval then scaling.sigmaExp + 1
                   else scaling.sigmaExp - 1;
        scaling := Scaling(0, 0, exp);
      } else {
        scaling := Scaling(t, wins, scaling.sigmaExp);
      }
    }
  }
}
