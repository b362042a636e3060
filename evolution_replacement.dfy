/** Generation replacement of the generational tournament pool
    (`_next_generation`, engine/algorithms/tensorflow/evolution_mutation.py): the winners
    list, a multiset of population members, is spent overwriting every member once. */
module EvolutionReplacement {
  import opened Common

  /** A population member; a pool of size n owns the members 0..n-1. */
  type Member = nat

  /** A run of the setter `_setters[from][to]`: `to` is overwritten by the parameters of
      `from` plus Gaussian noise (the noise itself is not modelled). */
  datatype Copy = CopyWithNoise(from: Member, to: Member)

  function Targets(copies: seq<Copy>): (r: seq<Member>)
    ensures |r| == |copies| && forall i :: 0 <= i < |r| ==> r[i] == copies[i].to
  {
    seq(|copies|, i requires 0 <= i < |copies| => copies[i].to)
  }

  function Donors(copies: seq<Copy>): (r: seq<Member>)
    ensures |r| == |copies| && forall i :: 0 <= i < |r| ==> r[i] == copies[i].from
  {
    seq(|copies|, i requires 0 <= i < |copies| => copies[i].from)
  }

  /** No copy reads a member that an earlier copy has already overwritten. */
  predicate NoStaleDonor(copies: seq<Copy>) {
    forall i, j :: 0 <= j < i < |copies| ==> copies[i].from != copies[j].to
  }

  /** `[w for w in winners if w is not p]`. */
  function RemoveAll(s: seq<Member>, p: Member): (r: seq<Member>)
    ensures multiset(r) == multiset(s)[p := 0]
    ensures forall x :: x in r <==> x in s && x != p
  {
    if |s| == 0 then []
    else
      var rest := RemoveAll(s[..|s| - 1], p);
      assert s == s[..|s| - 1] + [s[|s| - 1]];
      if s[|s| - 1] == p then rest else rest + [s[|s| - 1]]
  }

  /** Distinct members that each occur at least twice in `w` need twice as many slots. */
  lemma {:induction false} DistinctTwice(d: seq<Member>, w: multiset<Member>)
    requires Distinct(d)
    requires forall x :: x in d ==> w[x] >= 2
    ensures |w| >= 2 * |d|
  {
    if |d| > 0 {
      var x := d[|d| - 1];
      var d' := d[..|d| - 1];
      var w' := w - multiset{x, x};
      assert |w'| == |w| - 2;
      forall y | y in d' ensures w'[y] >= 2 {
        assert y != x;
      }
      DistinctTwice(d', w');
    }
  }

  /** Shape of a pass: what is still to visit and what was deferred are disjoint lists
      without repetitions. */
  ghost predicate PassShape(todo: seq<Member>, next: seq<Member>) {
    Distinct(todo) && Distinct(next) && forall x :: x in next ==> x !in todo
  }

  /** Bookkeeping of a pass: every member is overwritten, still to visit or deferred, exactly
      once; every winner occurrence is spent as a donor or still pending. */
  ghost predicate PassCounts(population: seq<Member>, winners0: seq<Member>, todo: seq<Member>,
                             next: seq<Member>, winners: seq<Member>, copies: seq<Copy>)
  {
    multiset(Targets(copies)) + multiset(todo) + multiset(next) == multiset(population) &&
    multiset(Donors(copies)) + multiset(winners) == multiset(winners0)
  }

  /** Freshness of a pass: no donor was overwritten before it was read, and an overwritten
      member is neither a pending winner nor still to be generated. */
  ghost predicate PassFresh(todo: seq<Member>, next: seq<Member>, winners: seq<Member>, copies: seq<Copy>) {
    NoStaleDonor(copies) &&
    forall x :: x in Targets(copies) ==> x !in winners && x !in todo && x !in next
  }

  /** What one replacement pass keeps true. */
  ghost predicate PassFrame(population: seq<Member>, winners0: seq<Member>, todo: seq<Member>,
                            next: seq<Member>, winners: seq<Member>, copies: seq<Copy>)
  {
    PassShape(todo, next) &&
    PassCounts(population, winners0, todo, next, winners, copies) &&
    PassFresh(todo, next, winners, copies)
  }

  lemma DistinctCons(p: Member, todo: seq<Member>)
    requires Distinct([p] + todo)
    ensures Distinct(todo) && p !in todo
  {
    forall i, j | 0 <= i < j < |todo| ensures todo[i] != todo[j] {
      assert ([p] + todo)[i + 1] == todo[i] && ([p] + todo)[j + 1] == todo[j];
    }
    forall i | 0 <= i < |todo| ensures todo[i] != p {
      assert ([p] + todo)[0] == p && ([p] + todo)[i + 1] == todo[i];
    }
  }

  lemma DistinctSnoc(next: seq<Member>, p: Member)
    requires Distinct(next) && p !in next
    ensures Distinct(next + [p])
  {
  }

  /** Visiting `p` and overwriting it keeps the shape. */
  lemma ShapeVisit(p: Member, todo: seq<Member>, next: seq<Member>)
    requires PassShape([p] + todo, next)
    ensures PassShape(todo, next) && p !in todo && p !in next
  {
    DistinctCons(p, todo);
  }

  /** Visiting `p` and deferring it keeps the shape. */
  lemma ShapeDefer(p: Member, todo: seq<Member>, next: seq<Member>)
    requires PassShape([p] + todo, next)
    ensures PassShape(todo, next + [p])
  {
    DistinctCons(p, todo);
    DistinctSnoc(next, p);
  }

  /** Overwriting `p` from `w` spends one occurrence of `w`. */
  lemma CountsCopy(population: seq<Member>, winners0: seq<Member>, p: Member, w: Member,
                   todo: seq<Member>, next: seq<Member>, winners: seq<Member>, winners': seq<Member>,
                   copies: seq<Copy>)
    requires PassCounts(population, winners0, [p] + todo, next, winners, copies)
    requires multiset(winners) == multiset(winners') + multiset{w}
    ensures PassCounts(population, winners0, todo, next, winners', copies + [CopyWithNoise(w, p)])
  {
    var copies' := copies + [CopyWithNoise(w, p)];
    assert Targets(copies') == Targets(copies) + [p];
    assert Donors(copies') == Donors(copies) + [w];
  }

  /** Overwriting `p` from `w`, a pending winner that was never overwritten, keeps
      freshness, provided `p` then leaves both the pending winners and the members to visit. */
  lemma FreshCopy(p: Member, w: Member, todo: seq<Member>, next: seq<Member>,
                  winners: seq<Member>, winners': seq<Member>, copies: seq<Copy>)
    requires PassFresh([p] + todo, next, winners, copies)
    requires w in winners
    requires forall x :: x in winners' ==> x in winners
    requires p !in winners' && p !in todo && p !in next
    ensures PassFresh(todo, next, winners', copies + [CopyWithNoise(w, p)])
  {
    var copies' := copies + [CopyWithNoise(w, p)];
    assert Targets(copies') == Targets(copies) + [p];
    forall j | 0 <= j < |copies| ensures copies[j].to != w {
      assert copies[j].to in Targets(copies);
    }
  }

  /** A member that is not among the winners takes the most recent winner as donor. */
  lemma PopStep(population: seq<Member>, winners0: seq<Member>, p: Member, todo: seq<Member>,
                next: seq<Member>, winners: seq<Member>, copies: seq<Copy>)
    requires PassFrame(population, winners0, [p] + todo, next, winners, copies)
    requires p !in winners && |winners| > 0
    ensures PassFrame(population, winners0, todo, next, winners[..|winners| - 1],
                      copies + [CopyWithNoise(winners[|winners| - 1], p)])
  {
    var w := winners[|winners| - 1];
    var rest := winners[..|winners| - 1];
    assert winners == rest + [w];
    ShapeVisit(p, todo, next);
    CountsCopy(population, winners0, p, w, todo, next, winners, rest, copies);
    FreshCopy(p, w, todo, next, winners, rest, copies);
  }

  /** A member that won exactly once is mutated from itself and leaves the winners. */
  lemma SelfStep(population: seq<Member>, winners0: seq<Member>, p: Member, todo: seq<Member>,
                 next: seq<Member>, winners: seq<Member>, copies: seq<Copy>)
    requires PassFrame(population, winners0, [p] + todo, next, winners, copies)
    requires multiset(winners)[p] == 1
    ensures PassFrame(population, winners0, todo, next, RemoveAll(winners, p),
                      copies + [CopyWithNoise(p, p)])
  {
    var rest := RemoveAll(winners, p);
    assert multiset(winners) == multiset(rest) + multiset{p};
    ShapeVisit(p, todo, next);
    CountsCopy(population, winners0, p, p, todo, next, winners, rest, copies);
    FreshCopy(p, p, todo, next, winners, rest, copies);
  }

  /** A member that won twice or more waits for the next pass. */
  lemma DeferStep(population: seq<Member>, winners0: seq<Member>, p: Member, todo: seq<Member>,
                  next: seq<Member>, winners: seq<Member>, copies: seq<Copy>)
    requires PassFrame(population, winners0, [p] + todo, next, winners, copies)
    ensures PassFrame(population, winners0, todo, next + [p], winners, copies)
  {
    ShapeDefer(p, todo, next);
    assert multiset([p] + todo) + multiset(next) == multiset(todo) + multiset(next + [p]);
  }

  /** Every deferred member still occurs at least twice among the pending winners. */
  ghost predicate AllRepeated(next: seq<Member>, winners: seq<Member>) {
    forall x :: x in next ==> multiset(winners)[x] >= 2
  }

  /** One iteration of the inner loop of `_next_generation`: visit member `p`. */
  method Visit(ghost population: seq<Member>, ghost winners0: seq<Member>, p: Member,
               ghost todo: seq<Member>, nextIn: seq<Member>, winnersIn: seq<Member>, copiesIn: seq<Copy>)
    returns (next: seq<Member>, winners: seq<Member>, copies: seq<Copy>)
    requires PassFrame(population, winners0, [p] + todo, nextIn, winnersIn, copiesIn)
    requires |winnersIn| == 1 + |todo| + |nextIn|
    ensures PassFrame(population, winners0, todo, next, winners, copies)
    ensures |winners| == |todo| + |next|
    ensures |next| <= |nextIn| + 1
    ensures |next| == |nextIn| + 1 ==>
              winners == winnersIn && (AllRepeated(nextIn, winnersIn) ==> AllRepeated(next, winners))
  {
    next, winners, copies := nextIn, winnersIn, copiesIn;
    if p !in winners {
      PopStep(population, winners0, p, todo, next, winners, copies);
      copies := copies + [CopyWithNoise(winners[|winners| - 1], p)];
      winners := winners[..|winners| - 1];
    } else if multiset(winners)[p] == 1 {
      SelfStep(population, winners0, p, todo, next, winners, copies);
      copies := copies + [CopyWithNoise(p, p)];
      winners := RemoveAll(winners, p);
      assert |multiset(winners)| == |multiset(winnersIn)| - 1;
    } else {
      DeferStep(population, winners0, p, todo, next, winners, copies);
      next := next + [p];
    }
  }

  /** One pass of `_next_generation` over `toGenerate`, returning the deferred members. */
  method ReplacementPass(ghost population: seq<Member>, ghost winners0: seq<Member>,
                         toGenerate: seq<Member>, winnersIn: seq<Member>, copiesIn: seq<Copy>)
    returns (next: seq<Member>, winners: seq<Member>, copies: seq<Copy>)
    requires PassFrame(population, winners0, toGenerate, [], winnersIn, copiesIn)
    requires |winnersIn| == |toGenerate| > 0
    ensures PassFrame(population, winners0, next, [], winners, copies)
    ensures |winners| == |next| < |toGenerate|
  {
    next, winners, copies := [], winnersIn, copiesIn;
    var rest := toGenerate;
    while rest != []
      invariant |winners| == |rest| + |next|
      invariant PassFrame(population, winners0, rest, next, winners, copies)
      invariant |next| + |rest| <= |toGenerate|
      invariant |next| + |rest| == |toGenerate| ==> winners == winnersIn && AllRepeated(next, winners)
      decreases |rest|
    {
      assert rest == [rest[0]] + rest[1..];
      next, winners, copies := Visit(population, winners0, rest[0], rest[1..], next, winners, copies);
      rest := rest[1..];
    }
    PassEnd(population, winners0, |toGenerate|, winnersIn, next, winners, copies);
  }

  /** At the end of a pass the deferred members become the members to generate, and they
      are fewer than before: had every member been deferred, each would have won twice. */
  lemma PassEnd(population: seq<Member>, winners0: seq<Member>, n: int, winnersIn: seq<Member>,
                next: seq<Member>, winners: seq<Member>, copies: seq<Copy>)
    requires PassFrame(population, winners0, [], next, winners, copies)
    requires |winnersIn| == n > 0 && |winners| == |next| <= n
    requires |next| == n ==> winners == winnersIn && AllRepeated(next, winners)
    ensures PassFrame(population, winners0, next, [], winners, copies)
    ensures |next| < n
  {
    if |next| == n {
      DistinctTwice(next, multiset(winners));
      assert false;
    }
  }

  /** Generation replacement. Passes are repeated over the members still to generate while
      winners remain: a member that is not among the winners takes the most recent winner
      as donor (which is removed), a member that won exactly once is mutated from itself
      (and leaves the winners), and a member that won twice or more is deferred to the next
      pass. Starting with as many winners as members, this overwrites every member exactly
      once, copies each winner exactly as often as it won, and never reads a member after
      overwriting it. */
  method NextGeneration(population: seq<Member>, winners0: seq<Member>) returns (copies: seq<Copy>)
    requires Distinct(population)
    requires |winners0| == |population|
    ensures multiset(Targets(copies)) == multiset(population)
    ensures multiset(Donors(copies)) == multiset(winners0)
    ensures NoStaleDonor(copies)
  {
    var winners := winners0;
    var toGenerate := population;
    copies := [];
    while |winners| > 0
      invariant |winners| == |toGenerate|
      invariant PassFrame(population, winners0, toGenerate, [], winners, copies)
      decreases |winners|
    {
      toGenerate, winners, copies := ReplacementPass(population, winners0, toGenerate, winners, copies);
    }
  }
}
