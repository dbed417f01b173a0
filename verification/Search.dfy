/** The n-ply search over the moves of a roll (gnubg/eval.c): filter, score deeper,
    sort, and bring the move asked about to the depth of the best. The static
    evaluation of a position at a depth is a parameter. */
module Search {
  import opened Boards
  import opened MoveGenerator
  import opened LegalPlays
  import opened Common
  import Sorting

  datatype Scored = Failed | Score(rScore: real, rScore2: real)

  /** The scores of a position at a depth, or an interrupted evaluation. */
  type Scorer = (Board, nat) -> Scored

  ghost predicate NeverFails(score: Scorer) {
    forall b, ply :: score(b, ply).Score?
  }

  /** A move with its last evaluation; nPlies is -1 before the first. */
  datatype Entry = Entry(move: Move, rScore: real, rScore2: real, nPlies: int)

  datatype Filter = Filter(Accept: int, Extra: nat, Threshold: real)

  const MAX_FILTER_PLIES := 4
  const NULL_FILTER := Filter(-1, 0, 0.0)

  // ------------------------------------------------------------------ sorting

  /** CompareMoves ranks `e` no later than `f`. */
  predicate NoWorse(e: Entry, f: Entry) {
    e.rScore > f.rScore || (e.rScore == f.rScore && e.rScore2 >= f.rScore2)
  }

  ghost predicate Sorted(s: seq<Entry>) {
    Sorting.Sorted(NoWorse, s)
  }

  ghost function Bare(s: seq<Entry>): seq<Move> {
    seq(|s|, i requires 0 <= i < |s| => s[i].move)
  }

  ghost function Without(s: seq<Entry>, i: nat): seq<Entry>
    requires i < |s|
  {
    s[..i] + s[i + 1..]
  }

  lemma TakeOut(s: seq<Entry>, i: nat)
    requires i < |s|
    ensures multiset(s) == multiset{s[i]} + multiset(Without(s, i)) && |Without(s, i)| == |s| - 1
    ensures multiset(Bare(s)) == multiset{s[i].move} + multiset(Bare(Without(s, i)))
  {
    var u := Without(s, i);
    assert s == s[..i] + [s[i]] + s[i + 1..];
    assert Bare(s) == Bare(s[..i]) + [s[i].move] + Bare(s[i + 1..]);
    assert Bare(u) == Bare(s[..i]) + Bare(s[i + 1..]);
  }

  /** Rearranging entries rearranges their moves. */
  lemma {:induction false} BarePermutes(s: seq<Entry>, t: seq<Entry>)
    requires multiset(s) == multiset(t)
    ensures multiset(Bare(s)) == multiset(Bare(t)) && |s| == |t|
  {
    assert |s| == |multiset(s)| == |multiset(t)| == |t|;
    if s == [] {
      assert Bare(s) == Bare(t);
    } else {
      hide *;
      assert s[0] in multiset(t);
      var i :| 0 <= i < |t| && t[i] == s[0];
      TakeOut(s, 0);
      TakeOut(t, i);
      Cancel(s[0], multiset(Without(s, 0)), multiset(Without(t, i)));
      BarePermutes(Without(s, 0), Without(t, i));
    }
  }

  lemma Cancel(e: Entry, x: multiset<Entry>, y: multiset<Entry>)
    requires multiset{e} + x == multiset{e} + y
    ensures x == y
  {
    assert x == multiset{e} + x - multiset{e};
    assert y == multiset{e} + y - multiset{e};
  }

  ghost predicate Rearranged(s: seq<Entry>, t: seq<Entry>) {
    multiset(s) == multiset(t)
  }

  lemma PrefixRearranged(s: seq<Entry>, t: seq<Entry>, n: nat)
    requires |s| == |t| && n <= |s| && multiset(s[..n]) == multiset(t[..n]) && s[n..] == t[n..]
    ensures Rearranged(s, t)
  {
    assert s == s[..n] + s[n..] && t == t[..n] + t[n..];
  }

  /** qsort of the first n moves. */
  method SortPrefix(a: array<Entry>, n: nat)
    requires n <= a.Length
    modifies a
    ensures Sorted(a[..n]) && multiset(a[..n]) == multiset(old(a[..n])) && a[n..] == old(a[n..])
    ensures Rearranged(a[..], old(a[..]))
  {
    var s := Sorting.Sort(NoWorse, a[..n]);
    Sorting.SortSorts(NoWorse, a[..n]);
    hide *;
    ghost var before := a[..];
    WritePrefix(a, s);
    PrefixRearranged(a[..], before, n);
  }

  method WritePrefix(a: array<Entry>, s: seq<Entry>)
    requires |s| <= a.Length
    modifies a
    ensures a[..|s|] == s && a[|s|..] == old(a[|s|..])
  {
    var k := 0;
    while k < |s|
      invariant 0 <= k <= |s|
      invariant forall j :: 0 <= j < k ==> a[j] == s[j]
      invariant forall j :: |s| <= j < a.Length ==> a[j] == old(a[j])
    {
      a[k] := s[k];
      k := k + 1;
    }
  }

  // ------------------------------------------------------------------ scoring

  function Evaluated(e: Entry, ply: nat, score: Scorer): Entry {
    match score(e.move.key, ply)
    case Failed => e
    case Score(x, y) => Entry(e.move, x, y, ply)
  }

  /** The stored scores are those of the stored depth. */
  ghost predicate IsScored(e: Entry, score: Scorer) {
    e.nPlies >= 0 && score(e.move.key, e.nPlies) == Score(e.rScore, e.rScore2)
  }

  lemma EvaluatedIsScored(e: Entry, ply: nat, score: Scorer)
    ensures Evaluated(e, ply, score).move == e.move
    ensures IsScored(e, score) ==> IsScored(Evaluated(e, ply, score), score)
    ensures score(e.move.key, ply).Score? ==> Evaluated(e, ply, score).nPlies == ply
  {
  }

  method ScoreMove(a: array<Entry>, i: nat, score: Scorer, ply: nat) returns (r: int)
    requires i < a.Length
    modifies a
    ensures a[..] == old(a[..])[i := Evaluated(old(a[i]), ply, score)]
    ensures r == (if score(old(a[i]).move.key, ply).Score? then 0 else -1)
  {
    var s := score(a[i].move.key, ply);
    if s.Failed? {
      assert old(a[..])[i := a[i]] == a[..];
      return -1;
    }
    a[i] := Entry(a[i].move, s.rScore, s.rScore2, ply);
    return 0;
  }

  method ScoreMoves(a: array<Entry>, cMoves: nat, score: Scorer, ply: nat) returns (r: int)
    requires cMoves <= a.Length
    modifies a
    ensures r == 0 || (r == -1 && !NeverFails(score))
    ensures r == 0 ==> forall i :: 0 <= i < cMoves ==>
              a[i] == Evaluated(old(a[i]), ply, score) && score(a[i].move.key, ply).Score?
    ensures r == 0 ==> a[cMoves..] == old(a[cMoves..])
  {
    var i := 0;
    while i < cMoves
      invariant 0 <= i <= cMoves
      invariant forall k :: 0 <= k < i ==> a[k] == Evaluated(old(a[k]), ply, score) && score(a[k].move.key, ply).Score?
      invariant forall k :: i <= k < a.Length ==> a[k] == old(a[k])
    {
      ghost var before := a[..];
      var e := ScoreMove(a, i, score, ply);
      assert forall k :: 0 <= k < a.Length ==> a[k] == before[i := Evaluated(before[i], ply, score)][k];
      if e < 0 {
        return -1;
      }
      i := i + 1;
    }
    return 0;
  }

  // ------------------------------------------------------------------ filters

  function Min(x: int, y: int): int {
    if x < y then x else y
  }

  /** How many of the k best moves a filter keeps: the first Accept, and up to Extra
      more while they are within Threshold of the best. */
  ghost predicate KeptByFilter(a: seq<Entry>, k: nat, f: Filter, c: nat)
    requires k <= |a| && f.Accept >= 0
  {
    var base := Min(f.Accept, k);
    var limit := Min(k, base + f.Extra);
    && base <= c <= limit
    && (forall i :: base <= i < c ==> a[i].rScore >= a[0].rScore - f.Threshold)
    && (c < limit ==> a[c].rScore < a[0].rScore - f.Threshold)
  }

  method KeepBest(a: array<Entry>, k: nat, f: Filter) returns (c: nat)
    requires k <= a.Length && f.Accept >= 0
    ensures KeptByFilter(a[..], k, f, c)
  {
    c := Min(f.Accept, k);
    var limit := Min(k, c + f.Extra);
    while c < limit
      invariant Min(f.Accept, k) <= c <= limit
      invariant forall i :: Min(f.Accept, k) <= i < c ==> a[i].rScore >= a[0].rScore - f.Threshold
    {
      if a[c].rScore < a[0].rScore - f.Threshold {
        break;
      }
      c := c + 1;
    }
  }

  /** Of a ranked list a level keeps exactly the first Accept moves, and of the next Extra
      moves those within Threshold of the best. */
  lemma KeptExactly(a: seq<Entry>, k: nat, f: Filter, c: nat)
    requires k <= |a| && f.Accept >= 0 && KeptByFilter(a, k, f, c) && Sorted(a[..k])
    ensures forall i :: 0 <= i < k ==>
              (i < c <==> i < f.Accept || (i < f.Accept + f.Extra && a[i].rScore >= a[0].rScore - f.Threshold))
    ensures c <= k
  {
    forall i | 0 <= i < k
      ensures i < c <==> i < f.Accept || (i < f.Accept + f.Extra && a[i].rScore >= a[0].rScore - f.Threshold)
    {
      if c < i {
        assert NoWorse(a[..k][c], a[..k][i]);
      }
    }
  }

  /** The level is skipped, or keeps at least one move. */
  predicate KeepsSome(f: Filter) {
    f.Accept < 0 || f.Accept >= 1 || (f.Extra >= 1 && f.Threshold >= 0.0)
  }

  /** A level keeps a move of every nonempty list if KeepsSome holds, and of none if not. */
  lemma KeepsSomeExactly(a: seq<Entry>, k: nat, f: Filter, c: nat)
    requires 1 <= k <= |a| && f.Accept >= 0 && KeptByFilter(a, k, f, c)
    ensures c >= 1 <==> KeepsSome(f)
  {
    if c >= 1 && f.Accept == 0 {
      assert a[0].rScore >= a[0].rScore - f.Threshold;
    }
  }

  /** In particular an accepted count of 0 with no extra moves does not switch a level
      off: it drops every move. */
  lemma ZeroDropsAll(a: seq<Entry>, k: nat, t: real, c: nat)
    requires k <= |a|
    ensures KeptByFilter(a, k, Filter(0, 0, t), c) <==> c == 0
  {
  }

  // -------------------------------------------------------------- filter rows

  const NULL_ROW: seq<Filter> := [NULL_FILTER, NULL_FILTER, NULL_FILTER, NULL_FILTER]

  type Row = r: seq<Filter> | |r| == MAX_FILTER_PLIES witness NULL_ROW

  type Rows = r: seq<Row> | |r| == MAX_FILTER_PLIES witness [NULL_ROW, NULL_ROW, NULL_ROW, NULL_ROW]

  function RowFor(aamf: Rows, nPlies: nat): Row {
    if 0 < nPlies <= MAX_FILTER_PLIES then aamf[nPlies - 1] else aamf[MAX_FILTER_PLIES - 1]
  }

  function FilterAt(row: Row, ply: nat): Filter {
    if ply < MAX_FILTER_PLIES then row[ply] else NULL_FILTER
  }

  /** Every level from `from` to below `n` is skipped or keeps a move. */
  ghost predicate LevelsKeep(row: Row, from: nat, n: nat) {
    forall ply :: from <= ply < n ==> KeepsSome(FilterAt(row, ply))
  }

  /** No level below `n` with an accepted count of 0 comes after another level in use. */
  ghost predicate ZeroComesFirst(row: Row, n: nat) {
    forall p, q :: 0 <= p < q < n && FilterAt(row, p).Accept >= 0 ==> FilterAt(row, q).Accept != 0
  }

  /** The predefined filters (movefilters.inc): Tiny to Huge differ in four numbers. */
  function Predefined(extra: nat, threshold: real, extra2: nat, threshold2: real): Rows {
    var first, skip, zero := Filter(0, extra, threshold), NULL_FILTER, Filter(0, 0, 0.0);
    var third := Filter(0, extra2, threshold2);
    [[first, zero, zero, zero], [first, skip, zero, zero], [first, skip, third, zero], [first, skip, third, skip]]
  }

  /** The levels of a predefined row that are read keep a move, the others need not. */
  lemma PredefinedKeep(e: nat, t: real, e2: nat, t2: real, nPlies: nat)
    requires e >= 1 && t >= 0.0 && e2 >= 1 && t2 >= 0.0
    ensures LevelsKeep(RowFor(Predefined(e, t, e2, t2), nPlies), 0, nPlies)
    ensures nPlies <= 2 ==> ZeroComesFirst(RowFor(Predefined(e, t, e2, t2), nPlies), nPlies)
    ensures 1 <= nPlies <= 3 ==> !LevelsKeep(RowFor(Predefined(e, t, e2, t2), nPlies), 0, MAX_FILTER_PLIES)
  {
    var row := RowFor(Predefined(e, t, e2, t2), nPlies);
    assert 1 <= nPlies <= 3 ==> !KeepsSome(FilterAt(row, 3));
  }

  // ---------------------------------------------------- the state of a search

  ghost predicate AllScored(a: seq<Entry>, score: Scorer) {
    forall i :: 0 <= i < |a| ==> IsScored(a[i], score)
  }

  /** The first k moves are at depth `ply`, best first; all others are at less. */
  ghost predicate Ranked(a: seq<Entry>, k: nat, ply: nat, score: Scorer) {
    && 1 <= k <= |a| && AllScored(a, score)
    && Sorted(a[..k]) && (forall i :: 0 <= i < k ==> a[i].nPlies == ply)
    && forall i :: k <= i < |a| ==> a[i].nPlies < ply
  }

  /** The list holds the generated moves, in some order. */
  ghost predicate Holds(a: seq<Entry>, moves: seq<Move>) {
    |a| == |moves| && multiset(Bare(a)) == multiset(moves)
  }

  lemma ScoringKeepsMoves(a: seq<Entry>, b: seq<Entry>, moves: seq<Move>)
    requires Holds(a, moves) && |a| == |b| && forall i :: 0 <= i < |a| ==> b[i].move == a[i].move
    ensures Holds(b, moves)
  {
    assert Bare(a) == Bare(b);
  }

  lemma SortingKeepsMoves(a: seq<Entry>, b: seq<Entry>, moves: seq<Move>)
    requires Holds(a, moves) && Rearranged(b, a)
    ensures Holds(b, moves)
  {
    BarePermutes(b, a);
  }

  /** Either nothing has been scored yet, or some depth below `ply` has been. */
  ghost predicate Searching(a: seq<Entry>, cMoves: nat, ply: nat, score: Scorer) {
    || (cMoves == |a| && cMoves >= 1 && forall i :: 0 <= i < |a| ==> a[i].nPlies == -1)
    || (exists k: nat, m: nat :: Ranked(a, k, m, score) && cMoves <= k && m < ply)
  }

  ghost function AllEvaluated(s: seq<Entry>, ply: nat, score: Scorer): seq<Entry> {
    seq(|s|, i requires 0 <= i < |s| => Evaluated(s[i], ply, score))
  }

  ghost predicate AllAnswer(s: seq<Entry>, ply: nat, score: Scorer) {
    forall i :: 0 <= i < |s| ==> score(s[i].move.key, ply).Score?
  }

  /** `b` is `a` with the first c moves scored at depth `ply` and sorted. */
  ghost predicate RankedAgain(a: seq<Entry>, c: nat, ply: nat, score: Scorer, b: seq<Entry>) {
    && c <= |a| == |b| && AllAnswer(a[..c], ply, score)
    && Sorted(b[..c]) && multiset(b[..c]) == multiset(AllEvaluated(a[..c], ply, score)) && b[c..] == a[c..]
  }

  /** Score the candidates at one depth and sort them. */
  method RankAt(a: array<Entry>, cMoves: nat, score: Scorer, ply: nat) returns (r: int)
    requires cMoves <= a.Length
    modifies a
    ensures r == 0 || (r == -1 && !NeverFails(score))
    ensures r == 0 ==> RankedAgain(old(a[..]), cMoves, ply, score, a[..])
  {
    hide Sorted, Rearranged, NeverFails, Evaluated;
    ghost var first := a[..];
    r := ScoreMoves(a, cMoves, score, ply);
    if r < 0 {
      return;
    }
    assert AllAnswer(first[..cMoves], ply, score) by {
      forall i | 0 <= i < cMoves ensures score(first[..cMoves][i].move.key, ply).Score? {
        EvaluatedIsScored(first[i], ply, score);
      }
    }
    assert a[..cMoves] == AllEvaluated(first[..cMoves], ply, score);
    assert a[cMoves..] == first[cMoves..];
    SortPrefix(a, cMoves);
  }

  lemma RankingKeepsMoves(a: seq<Entry>, c: nat, ply: nat, score: Scorer, b: seq<Entry>, moves: seq<Move>)
    requires RankedAgain(a, c, ply, score, b) && Holds(a, moves)
    ensures Holds(b, moves)
  {
    hide Sorted, Holds;
    var s := AllEvaluated(a[..c], ply, score) + a[c..];
    forall i | 0 <= i < |a| ensures s[i].move == a[i].move {
      EvaluatedIsScored(a[i], ply, score);
    }
    ScoringKeepsMoves(a, s, moves);
    PrefixRearranged(b, s, c);
    SortingKeepsMoves(s, b, moves);
  }

  /** Scoring the candidates at a greater depth and sorting them ranks the list. */
  lemma DeeperIsRanked(a: seq<Entry>, c: nat, ply: nat, score: Scorer, b: seq<Entry>)
    requires Searching(a, c, ply, score) && c >= 1 && RankedAgain(a, c, ply, score, b)
    ensures Ranked(b, c, ply, score)
  {
    hide Sorted;
    var s := AllEvaluated(a[..c], ply, score);
    forall i | 0 <= i < c ensures b[i].nPlies == ply && IsScored(b[i], score) {
      assert b[..c][i] in multiset(s);
      var j :| 0 <= j < c && s[j] == b[i];
      assert score(a[..c][j].move.key, ply).Score?;
    }
    forall i | c <= i < |b| ensures b[i].nPlies < ply && IsScored(b[i], score) {
      assert b[i] == b[c..][i - c] == a[c..][i - c] == a[i];
    }
  }

  // ------------------------------------------------------- the search by plies

  /** What the plies leave: the list, the number of candidates, how many moves the last
      ranking ranked, and its depth. */
  datatype Outcome = Outcome(a: seq<Entry>, c: nat, k: nat, m: nat)

  /** One filter level in use: rank the candidates, keep c2 of them. */
  ghost predicate Level(a: seq<Entry>, c: nat, f: Filter, ply: nat, score: Scorer, b: seq<Entry>, c2: nat) {
    f.Accept >= 0 && RankedAgain(a, c, ply, score, b) && KeptByFilter(b, c, f, c2)
  }

  /** From depth `ply` on, the search of the first c moves of `a` can end in `o`. */
  ghost predicate Run(a: seq<Entry>, c: nat, ply: nat, nPlies: nat, row: Row, score: Scorer, o: Outcome)
    requires ply <= nPlies
    decreases nPlies - ply
  {
    var f := FilterAt(row, ply);
    if ply == nPlies then
      o.c == c && o.k == c && o.m == nPlies && RankedAgain(a, c, nPlies, score, o.a)
    else if f.Accept < 0 then
      Run(a, c, ply + 1, nPlies, row, score, o)
    else
      exists b, c2 :: Level(a, c, f, ply, score, b, c2) &&
        if c2 == 1 && f.Accept != 1 then o == Outcome(b, 1, c, ply) else Run(b, c2, ply + 1, nPlies, row, score, o)
  }

  /** Whatever can follow from here is an outcome of the whole search. */
  ghost predicate LeadsOn(a0: seq<Entry>, a: seq<Entry>, c: nat, ply: nat, nPlies: nat, row: Row, score: Scorer)
    requires ply <= nPlies
  {
    forall o :: Run(a, c, ply, nPlies, row, score, o) ==> Run(a0, |a0|, 0, nPlies, row, score, o)
  }

  lemma LevelLeadsOn(a0: seq<Entry>, a: seq<Entry>, c: nat, ply: nat, nPlies: nat, row: Row, score: Scorer,
                     b: seq<Entry>, c2: nat)
    requires ply < nPlies && LeadsOn(a0, a, c, ply, nPlies, row, score)
    requires Level(a, c, FilterAt(row, ply), ply, score, b, c2)
    ensures if c2 == 1 && FilterAt(row, ply).Accept != 1 then
              Run(a0, |a0|, 0, nPlies, row, score, Outcome(b, 1, c, ply))
            else
              LeadsOn(a0, b, c2, ply + 1, nPlies, row, score)
  {
    hide RankedAgain, KeptByFilter, FilterAt;
    if c2 == 1 && FilterAt(row, ply).Accept != 1 {
      assert Run(a, c, ply, nPlies, row, score, Outcome(b, 1, c, ply));
    } else {
      forall o | Run(b, c2, ply + 1, nPlies, row, score, o) ensures Run(a0, |a0|, 0, nPlies, row, score, o) {
        assert Run(a, c, ply, nPlies, row, score, o);
      }
    }
  }

  lemma SkippingLeadsOn(a0: seq<Entry>, a: seq<Entry>, c: nat, ply: nat, nPlies: nat, row: Row, score: Scorer)
    requires ply < nPlies && LeadsOn(a0, a, c, ply, nPlies, row, score) && FilterAt(row, ply).Accept < 0
    ensures LeadsOn(a0, a, c, ply + 1, nPlies, row, score)
  {
    hide RankedAgain, Level;
    forall o | Run(a, c, ply + 1, nPlies, row, score, o) ensures Run(a0, |a0|, 0, nPlies, row, score, o) {
      assert Run(a, c, ply, nPlies, row, score, o);
    }
  }

  lemma KeptAreFew(a: seq<Entry>, k: nat, f: Filter, c: nat)
    requires k <= |a| && f.Accept >= 0 && KeptByFilter(a, k, f, c)
    ensures c <= k
  {
  }

  method SearchPlies(a: array<Entry>, nPlies: nat, mFilters: Row, score: Scorer)
    returns (r: int, cMoves: nat, nMaxPly: nat, ghost o: Outcome)
    modifies a
    ensures r == 0 || (r == -1 && !NeverFails(score))
    ensures r == 0 ==> o.a == a[..] && o.c == cMoves && o.m == nMaxPly
    ensures r == 0 ==> Run(old(a[..]), a.Length, 0, nPlies, mFilters, score, o)
  {
    hide RankedAgain, KeptByFilter, NeverFails, Run, LeadsOn;
    ghost var a0 := a[..];
    cMoves, nMaxPly, o := a.Length, 0, Outcome([], 0, 0, 0);
    var iPly := 0;
    assert LeadsOn(a0, a[..], cMoves, 0, nPlies, mFilters, score) by {
      StartLeadsOn(a0, nPlies, mFilters, score);
    }
    while iPly < nPlies
      invariant 0 <= iPly <= nPlies && cMoves <= a.Length
      invariant LeadsOn(a0, a[..], cMoves, iPly, nPlies, mFilters, score)
    {
      var mFilter := if iPly < MAX_FILTER_PLIES then mFilters[iPly] else NULL_FILTER;
      assert mFilter == FilterAt(mFilters, iPly);
      if mFilter.Accept >= 0 {
        ghost var before, k := a[..], cMoves;
        r := RankAt(a, cMoves, score, iPly);
        if r < 0 {
          return;
        }
        cMoves := KeepBest(a, cMoves, mFilter);
        KeptAreFew(a[..], k, mFilter, cMoves);
        LevelLeadsOn(a0, before, k, iPly, nPlies, mFilters, score, a[..], cMoves);
        nMaxPly := iPly;
        if cMoves == 1 && mFilter.Accept != 1 {
          o := Outcome(a[..], 1, k, iPly);
          return;
        }
      } else {
        SkippingLeadsOn(a0, a[..], cMoves, iPly, nPlies, mFilters, score);
      }
      iPly := iPly + 1;
    }
    ghost var before := a[..];
    r := RankAt(a, cMoves, score, nPlies);
    nMaxPly := nPlies;
    o := Outcome(a[..], cMoves, cMoves, nPlies);
    if r == 0 {
      TopLeadsOn(a0, before, nPlies, mFilters, score, o);
    }
  }

  lemma StartLeadsOn(a: seq<Entry>, nPlies: nat, row: Row, score: Scorer)
    ensures LeadsOn(a, a, |a|, 0, nPlies, row, score)
  {
  }

  lemma TopLeadsOn(a0: seq<Entry>, a: seq<Entry>, nPlies: nat, row: Row, score: Scorer, o: Outcome)
    requires LeadsOn(a0, a, o.c, nPlies, nPlies, row, score)
    requires o.k == o.c && o.m == nPlies && RankedAgain(a, o.c, nPlies, score, o.a)
    ensures Run(a0, |a0|, 0, nPlies, row, score, o)
  {
    hide RankedAgain;
    assert Run(a, o.c, nPlies, nPlies, row, score, o);
  }

  // ------------------------------------------------ what every run of the plies keeps

  lemma StillSearching(a: seq<Entry>, c: nat, ply: nat, score: Scorer)
    requires Searching(a, c, ply, score)
    ensures Searching(a, c, ply + 1, score)
  {
    hide Ranked;
    if !(c == |a| && c >= 1 && forall i :: 0 <= i < |a| ==> a[i].nPlies == -1) {
      var k: nat, m: nat :| Ranked(a, k, m, score) && c <= k && m < ply;
      assert m < ply + 1;
    }
  }

  /** Ranking no moves changes nothing; ranking some ranks the list. */
  lemma LevelKeepsSearching(a: seq<Entry>, c: nat, ply: nat, score: Scorer, b: seq<Entry>, c2: nat)
    requires Searching(a, c, ply, score) && RankedAgain(a, c, ply, score, b) && c2 <= c
    ensures Searching(b, c2, ply + 1, score)
  {
    hide Ranked, Sorted, AllAnswer, AllEvaluated;
    if c == 0 {
      assert b == b[0..] == a[0..] == a;
      StillSearching(a, 0, ply, score);
    } else {
      DeeperIsRanked(a, c, ply, score, b);
      assert Ranked(b, c, ply, score) && c2 <= c && ply < ply + 1;
    }
  }

  lemma {:induction false} RunKeepsMoves(a: seq<Entry>, c: nat, ply: nat, nPlies: nat, row: Row, score: Scorer, o: Outcome,
                                         moves: seq<Move>)
    requires ply <= nPlies && Run(a, c, ply, nPlies, row, score, o) && Holds(a, moves)
    ensures Holds(o.a, moves)
    decreases nPlies - ply
  {
    hide Holds, RankedAgain, KeptByFilter;
    var f := FilterAt(row, ply);
    if ply == nPlies {
      RankingKeepsMoves(a, c, nPlies, score, o.a, moves);
    } else if f.Accept < 0 {
      RunKeepsMoves(a, c, ply + 1, nPlies, row, score, o, moves);
    } else {
      var b, c2 :| Level(a, c, f, ply, score, b, c2) &&
        if c2 == 1 && f.Accept != 1 then o == Outcome(b, 1, c, ply) else Run(b, c2, ply + 1, nPlies, row, score, o);
      RankingKeepsMoves(a, c, ply, score, b, moves);
      if !(c2 == 1 && f.Accept != 1) {
        RunKeepsMoves(b, c2, ply + 1, nPlies, row, score, o, moves);
      }
    }
  }

  /** Every move is scored, and the moves at the greatest depth come first, best first;
      if candidates are left, they are the ones ranked last. */
  lemma {:induction false} RunRanks(a: seq<Entry>, c: nat, ply: nat, nPlies: nat, row: Row, score: Scorer, o: Outcome)
    returns (k: nat, m: nat)
    requires ply <= nPlies && Run(a, c, ply, nPlies, row, score, o) && Searching(a, c, ply, score)
    ensures Ranked(o.a, k, m, score) && m <= nPlies && o.c <= o.k && (o.c >= 1 ==> k == o.k && m == o.m)
    ensures ply <= o.m <= nPlies && (if o.m == nPlies then o.c == o.k else o.c == 1)
    decreases nPlies - ply
  {
    hide Searching, Ranked, RankedAgain, KeptByFilter;
    var f := FilterAt(row, ply);
    if ply == nPlies {
      k, m := RankedAtLast(a, c, nPlies, score, o.a);
    } else if f.Accept < 0 {
      StillSearching(a, c, ply, score);
      k, m := RunRanks(a, c, ply + 1, nPlies, row, score, o);
    } else {
      var b, c2 :| Level(a, c, f, ply, score, b, c2) &&
        if c2 == 1 && f.Accept != 1 then o == Outcome(b, 1, c, ply) else Run(b, c2, ply + 1, nPlies, row, score, o);
      RankingKeepsLength(a, c, ply, score, b);
      KeptAreFew(b, c, f, c2);
      if c2 == 1 && f.Accept != 1 {
        DeeperIsRanked(a, c, ply, score, b);
        k, m := c, ply;
      } else {
        LevelKeepsSearching(a, c, ply, score, b, c2);
        k, m := RunRanks(b, c2, ply + 1, nPlies, row, score, o);
      }
    }
  }

  lemma RankingKeepsLength(a: seq<Entry>, c: nat, ply: nat, score: Scorer, b: seq<Entry>)
    requires RankedAgain(a, c, ply, score, b)
    ensures c <= |a| == |b|
  {
  }

  lemma RankedAtLast(a: seq<Entry>, c: nat, ply: nat, score: Scorer, b: seq<Entry>) returns (k: nat, m: nat)
    requires Searching(a, c, ply, score) && RankedAgain(a, c, ply, score, b)
    ensures Ranked(b, k, m, score) && m <= ply && (c >= 1 ==> k == c && m == ply)
  {
    hide Ranked, Sorted, AllAnswer, AllEvaluated;
    if c >= 1 {
      DeeperIsRanked(a, c, ply, score, b);
      k, m := c, ply;
    } else {
      assert b == b[0..] == a[0..] == a;
      k, m :| Ranked(a, k, m, score) && c <= k && m < ply;
    }
  }

  /** Candidates are left if and only if every level that was read keeps some. */
  lemma {:induction false} RunKeepsSome(a: seq<Entry>, c: nat, ply: nat, nPlies: nat, row: Row, score: Scorer, o: Outcome)
    requires ply <= nPlies && Run(a, c, ply, nPlies, row, score, o)
    ensures o.c >= 1 <==> c >= 1 && LevelsKeep(row, ply, Min(o.m + 1, nPlies))
    ensures ply <= o.m <= nPlies
    decreases nPlies - ply
  {
    hide RankedAgain, KeptByFilter, FilterAt, KeepsSome;
    var f := FilterAt(row, ply);
    if ply == nPlies {
    } else if f.Accept < 0 {
      RunKeepsSome(a, c, ply + 1, nPlies, row, score, o);
      SkippedKeeps(f);
    } else {
      var b, c2 :| Level(a, c, f, ply, score, b, c2) &&
        if c2 == 1 && f.Accept != 1 then o == Outcome(b, 1, c, ply) else Run(b, c2, ply + 1, nPlies, row, score, o);
      RankingKeepsLength(a, c, ply, score, b);
      KeptAreFew(b, c, f, c2);
      if c >= 1 {
        KeepsSomeExactly(b, c, f, c2);
      }
      if !(c2 == 1 && f.Accept != 1) {
        RunKeepsSome(b, c2, ply + 1, nPlies, row, score, o);
      }
    }
  }

  lemma SkippedKeeps(f: Filter)
    requires f.Accept < 0
    ensures KeepsSome(f)
  {
  }

  /** A search that stopped before the full depth had read a level with an accepted
      count of 0, unless one move was left before it; and unless that level was the
      first in use, the whole list was ranked there. */
  lemma {:induction false} RunStopsAtZero(a: seq<Entry>, c: nat, ply: nat, nPlies: nat, row: Row, score: Scorer, o: Outcome)
    requires ply <= nPlies && Run(a, c, ply, nPlies, row, score, o)
    ensures ply <= o.m && (o.m < nPlies && o.k >= 2 ==> FilterAt(row, o.m).Accept == 0)
    ensures o.m < nPlies && o.k < c ==> exists p :: ply <= p < o.m && FilterAt(row, p).Accept >= 0
    decreases nPlies - ply
  {
    hide RankedAgain, FilterAt;
    var f := FilterAt(row, ply);
    if ply == nPlies {
    } else if f.Accept < 0 {
      RunStopsAtZero(a, c, ply + 1, nPlies, row, score, o);
    } else {
      var b, c2 :| Level(a, c, f, ply, score, b, c2) &&
        if c2 == 1 && f.Accept != 1 then o == Outcome(b, 1, c, ply) else Run(b, c2, ply + 1, nPlies, row, score, o);
      RankingKeepsLength(a, c, ply, score, b);
      if !(c2 == 1 && f.Accept != 1) {
        RunStopsAtZero(b, c2, ply + 1, nPlies, row, score, o);
      }
    }
  }

  // -------------------------------------------- the move asked about comes along

  /** Exactly the first n moves are at the depth of the first; the others are at less. */
  ghost predicate DeepestAre(a: seq<Entry>, n: nat) {
    && 1 <= n <= |a| && (forall i :: 0 <= i < n ==> a[i].nPlies == a[0].nPlies)
    && forall i :: n <= i < |a| ==> a[i].nPlies < a[0].nPlies
  }

  /** No move is at a greater depth than the first, and at its depth none has a higher score,
      nor the same score and a higher second score. */
  ghost predicate Best(a: seq<Entry>) {
    forall i :: 0 <= i < |a| ==>
      && a[i].nPlies <= a[0].nPlies
      && (a[i].nPlies == a[0].nPlies ==>
            a[i].rScore <= a[0].rScore && (a[i].rScore == a[0].rScore ==> a[i].rScore2 <= a[0].rScore2))
  }

  ghost predicate KeyAtTop(a: seq<Entry>, key: Board) {
    forall i :: 0 <= i < |a| && a[i].move.key == key ==> a[i].nPlies == a[0].nPlies
  }

  lemma RankedLeads(a: seq<Entry>, k: nat, m: nat, score: Scorer)
    requires Ranked(a, k, m, score)
    ensures Best(a) && DeepestAre(a, k) && Sorted(a[..k]) && a[0].nPlies == m && AllScored(a, score)
  {
    forall i | 0 <= i < |a| ensures a[i].nPlies == a[0].nPlies ==> NoWorse(a[0], a[i]) {
      if 0 < i < k {
        assert NoWorse(a[..k][0], a[..k][i]);
      }
    }
  }

  /** Move entry i up to position c. */
  ghost function MovedUp(a: seq<Entry>, i: nat, c: nat): seq<Entry>
    requires c <= i < |a|
  {
    a[..c] + [a[i]] + a[c..i] + a[i + 1..]
  }

  method MoveUp(a: array<Entry>, i: nat, c: nat)
    requires 1 <= c <= i < a.Length
    modifies a
    ensures a[..] == MovedUp(old(a[..]), i, c)
  {
    var m := a[i];
    var j := i - 1;
    while j >= c
      invariant c - 1 <= j < i
      invariant forall x :: 0 <= x < a.Length ==>
                  a[x] == if j + 1 < x <= i then old(a[x - 1]) else old(a[x])
    {
      a[j + 1] := a[j];
      j := j - 1;
    }
    a[c] := m;
  }

  const UINT_RANGE := 0x1_0000_0000

  /** The unsigned index of that loop in its t-th turn, counted from 0. */
  function ShiftIndex(i: nat, t: nat): nat {
    (i - 1 - t) % UINT_RANGE
  }

  /** The loop ends, and until then reads only below i. */
  ghost predicate ShiftEnds(i: nat, c: nat) {
    exists t: nat :: ShiftIndex(i, t) < c && forall u: nat :: u < t ==> ShiftIndex(i, u) < i
  }

  /** What MoveUp demands is what the unsigned loop needs: with no candidate left, or from
      index 0, it runs out of the list. */
  lemma ShiftEndsExactly(i: nat, c: nat)
    requires c <= i < UINT_RANGE || (i == 0 && c < UINT_RANGE)
    ensures ShiftEnds(i, c) <==> c >= 1 && i >= 1
  {
    if c >= 1 && i >= 1 {
      assert ShiftIndex(i, i - c) == c - 1;
    } else if i == 0 {
      assert ShiftIndex(i, 0) == UINT_RANGE - 1;
    }
  }

  lemma MovingUpRearranges(a: seq<Entry>, i: nat, c: nat)
    requires c <= i < |a|
    ensures Rearranged(MovedUp(a, i, c), a)
  {
    assert a == a[..c] + a[c..i] + [a[i]] + a[i + 1..];
  }

  /** What moving entry i up to c and sorting the first c + 1 makes of `b`. */
  ghost predicate Regrouped(b: seq<Entry>, i: nat, c: nat, d: seq<Entry>) {
    && c <= i < |b| == |d| && Sorted(d[..c + 1])
    && multiset(d[..c + 1]) == multiset(MovedUp(b, i, c)[..c + 1])
    && d[c + 1..] == MovedUp(b, i, c)[c + 1..]
  }

  method Regroup(a: array<Entry>, i: nat, c: nat)
    requires 1 <= c <= i < a.Length
    modifies a
    ensures Regrouped(old(a[..]), i, c, a[..])
  {
    hide Sorted, Rearranged;
    MoveUp(a, i, c);
    SortPrefix(a, c + 1);
  }

  lemma RegroupingKeepsMoves(b: seq<Entry>, i: nat, c: nat, d: seq<Entry>, moves: seq<Move>)
    requires Regrouped(b, i, c, d) && Holds(b, moves)
    ensures Holds(d, moves)
  {
    hide Holds, Sorted, Rearranged;
    MovingUpRearranges(b, i, c);
    SortingKeepsMoves(b, MovedUp(b, i, c), moves);
    PrefixRearranged(d, MovedUp(b, i, c), c + 1);
    SortingKeepsMoves(MovedUp(b, i, c), d, moves);
  }

  /** Where the entries of a regrouped list come from. */
  lemma RegroupedEntry(b: seq<Entry>, i: nat, c: nat, d: seq<Entry>, j: nat) returns (x: nat)
    requires Regrouped(b, i, c, d) && j < |d|
    ensures x < |b| && d[j] == b[x] && (j <= c ==> x < c || x == i) && (j > c ==> x == if j <= i then j - 1 else j)
  {
    var u := MovedUp(b, i, c);
    if j <= c {
      assert d[..c + 1][j] in multiset(u[..c + 1]);
      var y :| 0 <= y < c + 1 && u[..c + 1][y] == d[j];
      x := if y < c then y else i;
    } else {
      assert d[j] == d[c + 1..][j - c - 1] == u[c + 1..][j - c - 1] == u[j];
      x := if j <= i then j - 1 else j;
    }
  }

  lemma FirstIsBest(b: seq<Entry>, i: nat, c: nat, d: seq<Entry>, x: nat)
    requires Regrouped(b, i, c, d) && (x < c || x == i)
    ensures NoWorse(d[0], b[x])
  {
    var u := MovedUp(b, i, c);
    var y := if x < c then x else c;
    assert u[..c + 1][y] == b[x];
    assert b[x] in multiset(d[..c + 1]);
    var j :| 0 <= j < c + 1 && d[..c + 1][j] == b[x];
    assert j > 0 ==> NoWorse(d[..c + 1][0], d[..c + 1][j]);
  }

  lemma RegroupedKeepsScores(b: seq<Entry>, i: nat, c: nat, d: seq<Entry>, score: Scorer)
    requires Regrouped(b, i, c, d) && AllScored(b, score)
    ensures AllScored(d, score)
  {
    forall j | 0 <= j < |d| ensures IsScored(d[j], score) {
      var x := RegroupedEntry(b, i, c, d, j);
    }
  }

  /** Entry i joins the first k, all now at depth `top` and best first, the others at
      less; it is sorted in with the first c of them, all or only the best. */
  ghost predicate Joins(b: seq<Entry>, i: nat, c: nat, k: nat, top: nat) {
    && 1 <= c <= k <= i < |b| && (c == k || c == 1) && b[i].nPlies == top && Sorted(b[..k])
    && (forall x :: 0 <= x < k ==> b[x].nPlies == top)
    && forall x :: k <= x < |b| && x != i ==> b[x].nPlies < top
  }

  lemma RegroupedLeads(b: seq<Entry>, i: nat, c: nat, k: nat, top: nat, d: seq<Entry>)
    requires Joins(b, i, c, k, top) && Regrouped(b, i, c, d)
    ensures Best(d) && DeepestAre(d, k + 1) && d[0].nPlies == top
  {
    hide Sorted, MovedUp;
    forall j | 0 <= j < |d|
      ensures d[j].nPlies <= top && (j <= k <==> d[j].nPlies == top) && (d[j].nPlies == top ==> NoWorse(d[0], d[j]))
    {
      var x := RegroupedEntry(b, i, c, d, j);
      if x < c || x == i {
        FirstIsBest(b, i, c, d, x);
      } else if x < k {
        FirstIsBest(b, i, c, d, 0);
        SortedFromFirst(b, k, x);
      }
    }
  }

  lemma SortedFromFirst(b: seq<Entry>, k: nat, x: nat)
    requires k <= |b| && Sorted(b[..k]) && x < k
    ensures NoWorse(b[0], b[x])
  {
    assert x > 0 ==> NoWorse(b[..k][0], b[..k][x]);
  }

  /** The moves at the greatest depth end in order exactly if all were sorted again or the
      move that joined is no worse than the second best. */
  lemma RegroupedOrder(b: seq<Entry>, i: nat, c: nat, k: nat, top: nat, d: seq<Entry>)
    requires Joins(b, i, c, k, top) && Regrouped(b, i, c, d)
    ensures Sorted(d[..k + 1]) <==> (c == k || NoWorse(b[i], b[1]))
  {
    if c < k {
      EarlyStopOrder(b, i, k, d);
    }
  }

  /** When one move was left before the full depth, the key move joins it alone. */
  lemma EarlyStopOrder(b: seq<Entry>, i: nat, k: nat, d: seq<Entry>)
    requires 2 <= k <= i < |b| && Sorted(b[..k]) && Regrouped(b, i, 1, d)
    ensures Sorted(d[..k + 1]) <==> NoWorse(b[i], b[1])
  {
    var u := MovedUp(b, i, 1);
    TwoFirst(b, i, d);
    forall j | 2 <= j <= k ensures d[j] == b[j - 1] {
      assert d[j] == d[2..][j - 2] == u[2..][j - 2] == u[j];
    }
    assert NoWorse(b[..k][0], b[..k][1]);
    if Sorted(d[..k + 1]) {
      assert NoWorse(d[..k + 1][0], d[..k + 1][1]) && NoWorse(d[..k + 1][1], d[..k + 1][2]);
    }
    if NoWorse(b[i], b[1]) {
      forall x, y | 0 <= x < y <= k ensures NoWorse(d[x], d[y]) {
        if y == 1 {
          assert NoWorse(d[..2][0], d[..2][1]);
        } else if x >= 2 {
          assert NoWorse(b[..k][x - 1], b[..k][y - 1]);
        } else if y >= 3 {
          assert NoWorse(b[..k][1], b[..k][y - 1]);
        }
      }
    }
  }

  lemma TwoFirst(b: seq<Entry>, i: nat, d: seq<Entry>)
    requires Regrouped(b, i, 1, d)
    ensures |d| >= 2 && ((d[0] == b[0] && d[1] == b[i]) || (d[0] == b[i] && d[1] == b[0]))
  {
    assert MovedUp(b, i, 1)[..2] == [b[0], b[i]];
    assert d[..2] == [d[0], d[1]];
    assert multiset{d[0], d[1]} == multiset{b[0], b[i]};
    assert d[0] in multiset{b[0], b[i]} && b[0] in multiset{d[0], d[1]} && b[i] in multiset{d[0], d[1]};
  }

  // -- no two entries have the same key

  ghost predicate DistinctEntries(a: seq<Entry>) {
    forall i, j :: 0 <= i < j < |a| ==> a[i].move.key != a[j].move.key
  }

  lemma {:induction false} OnceEach(moves: seq<Move>, m: Move)
    requires DistinctKeys(moves)
    ensures multiset(moves)[m] <= 1 && (multiset(moves)[m] == 1 ==> exists i :: 0 <= i < |moves| && moves[i] == m)
  {
    if moves != [] {
      var n := |moves| - 1;
      OnceEach(moves[..n], m);
      assert moves == moves[..n] + [moves[n]];
    }
  }

  lemma Twice(s: seq<Move>, i: nat, j: nat)
    requires i < j < |s| && s[i] == s[j]
    ensures multiset(s)[s[i]] >= 2
  {
    assert s == s[..i] + [s[i]] + s[i + 1..j] + [s[j]] + s[j + 1..];
  }

  lemma KeysStayDistinct(a: seq<Entry>, moves: seq<Move>)
    requires Holds(a, moves) && DistinctKeys(moves)
    ensures DistinctEntries(a)
  {
    forall i, j | 0 <= i < j < |a| ensures a[i].move.key != a[j].move.key {
      var s := Bare(a);
      assert s[i] in multiset(moves) && s[j] in multiset(moves);
      OnceEach(moves, s[i]);
      OnceEach(moves, s[j]);
      if s[i] == s[j] {
        Twice(s, i, j);
      }
    }
  }

  /** The first place of a key in the list, or the length of the list. */
  ghost function IndexOf(a: seq<Entry>, key: Board): (i: nat)
    ensures i <= |a| && (i < |a| ==> a[i].move.key == key) && forall x :: 0 <= x < i ==> a[x].move.key != key
  {
    if a == [] || a[0].move.key == key then 0 else 1 + IndexOf(a[1..], key)
  }

  // -- what the last stage does

  function Abs(x: real): real {
    if x < 0.0 then -x else x
  }

  /** The key move, at index i, scored at least as deep as the last ranking. */
  ghost function AtDepth(a: seq<Entry>, i: nat, m: nat, score: Scorer): Entry
    requires i < |a|
  {
    if a[i].nPlies < m then Evaluated(a[i], m, score) else a[i]
  }

  /** It then differs by more than rThr from the best, and a greater depth is left. */
  ghost predicate Blunder(a: seq<Entry>, i: nat, rThr: real, m: nat, nPlies: nat, score: Scorer)
    requires i < |a|
  {
    m < nPlies && Abs(AtDepth(a, i, m, score).rScore - a[0].rScore) > rThr
  }

  ghost function BothAtFull(a: seq<Entry>, i: nat, m: nat, nPlies: nat, score: Scorer): seq<Entry>
    requires i < |a|
  {
    a[0 := Evaluated(a[0], nPlies, score)][i := Evaluated(AtDepth(a, i, m, score), nPlies, score)]
  }

  /** What the last stage makes of `o.a` when the key move is at index i. */
  ghost predicate Promoted(o: Outcome, i: nat, rThr: real, nPlies: nat, score: Scorer, d: seq<Entry>)
    requires i < |o.a|
  {
    if Blunder(o.a, i, rThr, o.m, nPlies, score) then
      Regrouped(BothAtFull(o.a, i, o.m, nPlies, score), i, 1, d)
    else if o.a[i].nPlies < o.m && nPlies != 0 then
      Regrouped(o.a[i := AtDepth(o.a, i, o.m, score)], i, o.c, d)
    else
      d == o.a[i := AtDepth(o.a, i, o.m, score)]
  }

  /** The state the plies leave if every level in use keeps a move. */
  ghost predicate Finished(o: Outcome, nPlies: nat, score: Scorer) {
    && Ranked(o.a, o.k, o.m, score) && 1 <= o.c <= o.k && o.m <= nPlies
    && if o.m == nPlies then o.c == o.k else o.c == 1
  }

  lemma FinishedBounds(o: Outcome, nPlies: nat, score: Scorer)
    requires Finished(o, nPlies, score)
    ensures 1 <= o.c <= o.k <= |o.a| && o.m <= nPlies && o.a[0].nPlies == o.m
    ensures forall x :: 0 <= x < |o.a| ==> 0 <= o.a[x].nPlies <= o.m && (x < o.k <==> o.a[x].nPlies == o.m)
  {
    hide Sorted;
    forall x | 0 <= x < |o.a| ensures 0 <= o.a[x].nPlies {
      assert IsScored(o.a[x], score);
    }
  }

  /** Score the move asked about, at index i, as deep as the best one; if the two then
      differ by more than rThr, score both at the full depth. */
  method Promote(a: array<Entry>, i: nat, rThr: real, oldMoves: nat, nMaxPly: nat, nPlies: nat, score: Scorer, ghost o: Outcome)
    requires i < a.Length && rThr >= 0.0
    requires o.a == a[..] && o.c == oldMoves && o.m == nMaxPly && Finished(o, nPlies, score)
    modifies a
    ensures Promoted(o, i, rThr, nPlies, score, a[..])
  {
    hide Finished, Evaluated, Regrouped;
    FinishedBounds(o, nPlies, score);
    var fResort, cOldMoves := false, oldMoves;
    if a[i].nPlies < nMaxPly {
      var r := ScoreMove(a, i, score, nMaxPly);
      fResort := true;
    }
    ghost var b := a[..];
    assert b == o.a[i := AtDepth(o.a, i, o.m, score)];
    if Abs(a[i].rScore - a[0].rScore) > rThr && nMaxPly < nPlies {
      var r := ScoreMove(a, 0, score, nPlies);
      r := ScoreMove(a, i, score, nPlies);
      cOldMoves := 1;
      fResort := true;
      assert a[..] == BothAtFull(o.a, i, o.m, nPlies, score);
    }
    if fResort && nPlies != 0 {
      Regroup(a, i, cOldMoves);
    }
  }

  lemma PromotedKeeps(o: Outcome, i: nat, rThr: real, nPlies: nat, score: Scorer, d: seq<Entry>, moves: seq<Move>)
    requires i < |o.a| && Promoted(o, i, rThr, nPlies, score, d) && Holds(o.a, moves) && AllScored(o.a, score)
    ensures Holds(d, moves) && AllScored(d, score)
  {
    hide Holds, Regrouped, Evaluated;
    var b := if Blunder(o.a, i, rThr, o.m, nPlies, score) then BothAtFull(o.a, i, o.m, nPlies, score)
             else o.a[i := AtDepth(o.a, i, o.m, score)];
    EvaluatedIsScored(o.a[0], nPlies, score);
    EvaluatedIsScored(o.a[i], o.m, score);
    EvaluatedIsScored(AtDepth(o.a, i, o.m, score), nPlies, score);
    ScoringKeepsMoves(o.a, b, moves);
    if Blunder(o.a, i, rThr, o.m, nPlies, score) {
      RegroupedKeepsScores(b, i, 1, d, score);
      RegroupingKeepsMoves(b, i, 1, d, moves);
    } else if o.a[i].nPlies < o.m && nPlies != 0 {
      RegroupedKeepsScores(b, i, o.c, d, score);
      RegroupingKeepsMoves(b, i, o.c, d, moves);
    }
  }

  // -- how the list ends

  /** The evaluations the last stage may make all succeed. */
  ghost predicate Answers(o: Outcome, i: nat, nPlies: nat, score: Scorer)
    requires i < |o.a|
  {
    && score(o.a[i].move.key, o.m).Score? && score(o.a[i].move.key, nPlies).Score?
    && score(o.a[0].move.key, nPlies).Score?
  }

  /** How many moves end at the depth of the first. */
  ghost function Lead(o: Outcome, i: nat, rThr: real, nPlies: nat, score: Scorer): nat
    requires i < |o.a|
  {
    if Blunder(o.a, i, rThr, o.m, nPlies, score) then 2 else if i < o.k then o.k else o.k + 1
  }

  /** The search stopped early, the key move is brought up behind the best, and it is
      worse than the second best. */
  ghost predicate JumpsAhead(o: Outcome, i: nat, rThr: real, nPlies: nat, score: Scorer)
    requires i < |o.a|
  {
    && 2 <= o.k <= i && o.m < nPlies && !Blunder(o.a, i, rThr, o.m, nPlies, score)
    && !NoWorse(AtDepth(o.a, i, o.m, score), o.a[1])
  }

  lemma PromotedOrder(o: Outcome, i: nat, rThr: real, nPlies: nat, score: Scorer, d: seq<Entry>)
    requires i < |o.a| && rThr >= 0.0 && Finished(o, nPlies, score) && Answers(o, i, nPlies, score)
    requires Promoted(o, i, rThr, nPlies, score, d)
    ensures Best(d) && DeepestAre(d, Lead(o, i, rThr, nPlies, score))
    ensures Sorted(d[..Lead(o, i, rThr, nPlies, score)]) <==> !JumpsAhead(o, i, rThr, nPlies, score)
  {
    hide Sorted, Regrouped, Evaluated, Ranked, NoWorse;
    FinishedBounds(o, nPlies, score);
    RankedLeads(o.a, o.k, o.m, score);
    EvaluatedIsScored(o.a[0], nPlies, score);
    EvaluatedIsScored(o.a[i], o.m, score);
    EvaluatedIsScored(AtDepth(o.a, i, o.m, score), nPlies, score);
    if Blunder(o.a, i, rThr, o.m, nPlies, score) {
      var b := BothAtFull(o.a, i, o.m, nPlies, score);
      OneIsSorted(b);
      RegroupedLeads(b, i, 1, 1, nPlies, d);
      RegroupedOrder(b, i, 1, 1, nPlies, d);
    } else if o.a[i].nPlies < o.m {
      var b := o.a[i := AtDepth(o.a, i, o.m, score)];
      assert b[..o.k] == o.a[..o.k];
      RegroupedLeads(b, i, o.c, o.k, o.m, d);
      RegroupedOrder(b, i, o.c, o.k, o.m, d);
    } else {
      assert d == o.a;
    }
  }

  lemma OneIsSorted(b: seq<Entry>)
    requires |b| >= 1
    ensures Sorted(b[..1])
  {
  }

  lemma PromotedKey(o: Outcome, i: nat, rThr: real, nPlies: nat, score: Scorer, d: seq<Entry>)
    requires i < |o.a| && rThr >= 0.0 && Finished(o, nPlies, score) && Answers(o, i, nPlies, score) && DistinctEntries(o.a)
    requires Promoted(o, i, rThr, nPlies, score, d)
    ensures KeyAtTop(d, o.a[i].move.key)
  {
    hide Sorted, Regrouped, Evaluated, Finished, NoWorse;
    FinishedBounds(o, nPlies, score);
    PromotedOrder(o, i, rThr, nPlies, score, d);
    EvaluatedIsScored(o.a[0], nPlies, score);
    EvaluatedIsScored(o.a[i], o.m, score);
    EvaluatedIsScored(AtDepth(o.a, i, o.m, score), nPlies, score);
    forall j | 0 <= j < |d| && d[j].move.key == o.a[i].move.key ensures d[j].nPlies == d[0].nPlies {
      if Blunder(o.a, i, rThr, o.m, nPlies, score) {
        KeyComesFrom(BothAtFull(o.a, i, o.m, nPlies, score), i, 1, d, j);
      } else if o.a[i].nPlies < o.m {
        KeyComesFrom(o.a[i := AtDepth(o.a, i, o.m, score)], i, o.c, d, j);
      }
    }
  }

  /** The chance that is looked at: the score of a move at a depth. */
  function ScoreAt(e: Entry, ply: nat, score: Scorer): real
    requires score(e.move.key, ply).Score?
  {
    score(e.move.key, ply).rScore
  }

  lemma AtDepthScore(a: seq<Entry>, i: nat, m: nat, score: Scorer)
    requires i < |a| && IsScored(a[i], score) && a[i].nPlies <= m && score(a[i].move.key, m).Score?
    ensures AtDepth(a, i, m, score).rScore == ScoreAt(a[i], m, score) && AtDepth(a, i, m, score).move == a[i].move
  {
  }

  /** Both moves are searched to the full depth exactly if the plies went so far or they
      differ by more than rThr where the plies stopped. Otherwise they differ by no more. */
  lemma PromotedDepth(o: Outcome, i: nat, rThr: real, nPlies: nat, score: Scorer, d: seq<Entry>, j: nat)
    requires i < |o.a| && rThr >= 0.0 && Finished(o, nPlies, score) && Answers(o, i, nPlies, score)
    requires DistinctEntries(o.a) && Promoted(o, i, rThr, nPlies, score, d)
    requires j < |d| && d[j].move.key == o.a[i].move.key && score(o.a[0].move.key, o.m).Score?
    ensures |d| > 0 && (d[0].nPlies == nPlies <==>
              o.m == nPlies || Abs(ScoreAt(o.a[i], o.m, score) - ScoreAt(o.a[0], o.m, score)) > rThr)
    ensures d[0].nPlies == nPlies || Abs(d[j].rScore - d[0].rScore) <= rThr
  {
    hide Sorted, Regrouped, Evaluated, Finished, NoWorse, DistinctEntries, Best, DeepestAre;
    FinishedBounds(o, nPlies, score);
    FinishedScores(o, nPlies, score);
    AtDepthScore(o.a, i, o.m, score);
    AtDepthScore(o.a, 0, o.m, score);
    PromotedDepthOf(o, i, rThr, nPlies, score, d);
    if o.m < nPlies && !Blunder(o.a, i, rThr, o.m, nPlies, score) {
      PromotedKeyScore(o, i, rThr, nPlies, score, d, j);
    }
  }

  lemma FinishedScores(o: Outcome, nPlies: nat, score: Scorer)
    requires Finished(o, nPlies, score)
    ensures forall x :: 0 <= x < |o.a| ==> IsScored(o.a[x], score)
  {
  }

  lemma PromotedDepthOf(o: Outcome, i: nat, rThr: real, nPlies: nat, score: Scorer, d: seq<Entry>)
    requires i < |o.a| && rThr >= 0.0 && Finished(o, nPlies, score) && Answers(o, i, nPlies, score)
    requires Promoted(o, i, rThr, nPlies, score, d)
    ensures |d| > 0 && d[0].nPlies == if Blunder(o.a, i, rThr, o.m, nPlies, score) then nPlies else o.m
  {
    hide Sorted, Regrouped, Evaluated, Ranked, NoWorse;
    FinishedBounds(o, nPlies, score);
    RankedLeads(o.a, o.k, o.m, score);
    EvaluatedIsScored(o.a[0], nPlies, score);
    EvaluatedIsScored(o.a[i], o.m, score);
    EvaluatedIsScored(AtDepth(o.a, i, o.m, score), nPlies, score);
    if Blunder(o.a, i, rThr, o.m, nPlies, score) {
      var b := BothAtFull(o.a, i, o.m, nPlies, score);
      OneIsSorted(b);
      RegroupedLeads(b, i, 1, 1, nPlies, d);
    } else if o.a[i].nPlies < o.m {
      var b := o.a[i := AtDepth(o.a, i, o.m, score)];
      assert b[..o.k] == o.a[..o.k];
      RegroupedLeads(b, i, o.c, o.k, o.m, d);
    }
  }

  /** Unless both were scored again, the key move ends with its score and the first move is
      the key move or the best so far. */
  lemma PromotedKeyScore(o: Outcome, i: nat, rThr: real, nPlies: nat, score: Scorer, d: seq<Entry>, j: nat)
    requires i < |o.a| && rThr >= 0.0 && Finished(o, nPlies, score) && DistinctEntries(o.a)
    requires Promoted(o, i, rThr, nPlies, score, d) && !Blunder(o.a, i, rThr, o.m, nPlies, score) && o.m < nPlies
    requires j < |d| && d[j].move.key == o.a[i].move.key
    ensures d[j].rScore == AtDepth(o.a, i, o.m, score).rScore
    ensures d[0].rScore == d[j].rScore || d[0].rScore == o.a[0].rScore
  {
    FinishedBounds(o, nPlies, score);
    EvaluatedIsScored(o.a[i], o.m, score);
    hide Sorted, Evaluated, Finished, NoWorse, Regrouped, IsScored;
    if o.a[i].nPlies < o.m {
      var b := o.a[i := AtDepth(o.a, i, o.m, score)];
      var x := RegroupedEntry(b, i, o.c, d, j);
      assert x == i;
      var y := RegroupedEntry(b, i, o.c, d, 0);
    }
  }

  /** If the search ends short of the full depth, the move asked about is within rThr of the
      first. */
  ghost predicate KeySettled(d: seq<Entry>, key: Board, rThr: real, nPlies: nat) {
    forall j :: 0 <= j < |d| && d[j].move.key == key ==> d[0].nPlies == nPlies || Abs(d[j].rScore - d[0].rScore) <= rThr
  }

  /** The search ends at the full depth exactly if the plies went so far, or the move asked
      about and the best differ by more than rThr at the depth where they stopped. */
  ghost predicate FullDepthIfFar(o: Outcome, d: seq<Entry>, key: Board, rThr: real, nPlies: nat, score: Scorer)
    requires NeverFails(score)
  {
    forall j :: 0 <= j < |d| && d[j].move.key == key && o.a != [] ==>
      (d[0].nPlies == nPlies <==>
         o.m == nPlies || Abs(ScoreAt(d[j], o.m, score) - ScoreAt(o.a[0], o.m, score)) > rThr)
  }

  lemma PromotedIsSettled(o: Outcome, i: nat, rThr: real, nPlies: nat, score: Scorer, d: seq<Entry>)
    requires i < |o.a| && rThr >= 0.0 && Finished(o, nPlies, score) && NeverFails(score)
    requires DistinctEntries(o.a) && Promoted(o, i, rThr, nPlies, score, d)
    ensures KeySettled(d, o.a[i].move.key, rThr, nPlies)
    ensures FullDepthIfFar(o, d, o.a[i].move.key, rThr, nPlies, score)
  {
    hide Finished, Promoted, DistinctEntries;
    forall j | 0 <= j < |d| && d[j].move.key == o.a[i].move.key
      ensures d[0].nPlies == nPlies || Abs(d[j].rScore - d[0].rScore) <= rThr
      ensures d[0].nPlies == nPlies <==>
                o.m == nPlies || Abs(ScoreAt(d[j], o.m, score) - ScoreAt(o.a[0], o.m, score)) > rThr
    {
      PromotedDepth(o, i, rThr, nPlies, score, d, j);
    }
  }

  /** In a regrouped list the key move is among the first c + 1. */
  lemma KeyComesFrom(b: seq<Entry>, i: nat, c: nat, d: seq<Entry>, j: nat)
    requires Regrouped(b, i, c, d) && j < |d| && DistinctEntries(b) && d[j].move.key == b[i].move.key
    ensures j <= c
  {
    var x := RegroupedEntry(b, i, c, d, j);
  }

  // -------------------------------------------------------- FindnSaveBestMoves

  /** The last stage: find the key move and bring it along. */
  ghost predicate KeyBrought(o: Outcome, keyMove: Option<Board>, rThr: real, nPlies: nat, score: Scorer, d: seq<Entry>) {
    if keyMove.None? || IndexOf(o.a, keyMove.value) == |o.a| then
      d == o.a
    else
      Promoted(o, IndexOf(o.a, keyMove.value), rThr, nPlies, score, d)
  }

  lemma FirstIsIndex(a: seq<Entry>, key: Board, i: nat)
    requires i <= |a| && (i < |a| ==> a[i].move.key == key) && forall x :: 0 <= x < i ==> a[x].move.key != key
    ensures IndexOf(a, key) == i
  {
  }

  method KeyStage(a: array<Entry>, keyMove: Option<Board>, rThr: real, cOldMoves: nat, nMaxPly: nat, nPlies: nat, score: Scorer,
                  ghost o: Outcome)
    requires o.a == a[..] && o.c == cOldMoves && o.m == nMaxPly
    requires keyMove.Some? ==> rThr >= 0.0 && Finished(o, nPlies, score)
    modifies a
    ensures KeyBrought(o, keyMove, rThr, nPlies, score, a[..])
  {
    hide Finished, Promoted;
    if keyMove == None {
      return;
    }
    var i := 0;
    while i < a.Length && a[i].move.key != keyMove.value
      invariant 0 <= i <= a.Length
      invariant forall x :: 0 <= x < i ==> a[x].move.key != keyMove.value
    {
      i := i + 1;
    }
    FirstIsIndex(a[..], keyMove.value, i);
    if i < a.Length {
      Promote(a, i, rThr, cOldMoves, nMaxPly, nPlies, score, o);
    }
  }

  /** The moves as the generator leaves them. */
  ghost function Unscored(moves: seq<Move>): seq<Entry> {
    seq(|moves|, i requires 0 <= i < |moves| => Entry(moves[i], 0.0, 0.0, -1))
  }

  lemma UnscoredHolds(moves: seq<Move>, score: Scorer)
    ensures Holds(Unscored(moves), moves) && (moves != [] ==> Searching(Unscored(moves), |moves|, 0, score))
  {
    assert Bare(Unscored(moves)) == moves;
  }

  /** The search of a list of moves can end with the list `d`, by way of `o`. */
  ghost predicate Found(moves: seq<Move>, keyMove: Option<Board>, rThr: real, nPlies: nat, row: Row, score: Scorer,
                        o: Outcome, d: seq<Entry>) {
    && Run(Unscored(moves), |moves|, 0, nPlies, row, score, o)
    && KeyBrought(o, keyMove, rThr, nPlies, score, d)
  }

  lemma RunFinishes(moves: seq<Move>, nPlies: nat, row: Row, score: Scorer, o: Outcome) returns (k: nat)
    requires moves != [] && Run(Unscored(moves), |moves|, 0, nPlies, row, score, o)
    ensures Holds(o.a, moves) && AllScored(o.a, score) && Best(o.a) && DeepestAre(o.a, k) && Sorted(o.a[..k])
    ensures LevelsKeep(row, 0, nPlies) ==> Finished(o, nPlies, score) && k == o.k
  {
    hide Run, Holds, AllScored, Best, DeepestAre, Sorted, Ranked, Searching, KeepsSome;
    UnscoredHolds(moves, score);
    RunKeepsMoves(Unscored(moves), |moves|, 0, nPlies, row, score, o, moves);
    var m: nat;
    k, m := RunRanks(Unscored(moves), |moves|, 0, nPlies, row, score, o);
    RankedLeads(o.a, k, m, score);
    RunKeepsSome(Unscored(moves), |moves|, 0, nPlies, row, score, o);
  }

  /** Is the order of the moves at the greatest depth given up for the key move? */
  ghost predicate Disordered(o: Outcome, keyMove: Option<Board>, rThr: real, nPlies: nat, score: Scorer) {
    && keyMove.Some? && IndexOf(o.a, keyMove.value) < |o.a|
    && JumpsAhead(o, IndexOf(o.a, keyMove.value), rThr, nPlies, score)
  }

  /** How every search ends: the moves at the greatest depth come first, the best of them
      first of all, and in order unless the key move jumped ahead. */
  lemma FoundIsOrdered(moves: seq<Move>, keyMove: Option<Board>, rThr: real, nPlies: nat, row: Row, score: Scorer,
                       o: Outcome, d: seq<Entry>) returns (lead: nat)
    requires moves != [] && DistinctKeys(moves) && Found(moves, keyMove, rThr, nPlies, row, score, o, d)
    requires keyMove.Some? ==> rThr >= 0.0 && LevelsKeep(row, 0, nPlies)
    ensures Holds(d, moves) && AllScored(d, score)
    ensures keyMove.None? || NeverFails(score) ==>
              Best(d) && DeepestAre(d, lead) && (Sorted(d[..lead]) <==> !Disordered(o, keyMove, rThr, nPlies, score))
    ensures keyMove.Some? && NeverFails(score) ==> KeyAtTop(d, keyMove.value)
    ensures keyMove.Some? && NeverFails(score) ==> KeySettled(d, keyMove.value, rThr, nPlies)
    ensures keyMove.Some? && NeverFails(score) ==> FullDepthIfFar(o, d, keyMove.value, rThr, nPlies, score)
  {
    hide KeySettled, FullDepthIfFar;
    hide Run, Holds, AllScored, Best, DeepestAre, Sorted, Finished, Promoted, DistinctKeys,
      DistinctEntries, LevelsKeep, JumpsAhead, KeyAtTop;
    var k := RunFinishes(moves, nPlies, row, score, o);
    lead := k;
    if keyMove.Some? {
      var i := IndexOf(o.a, keyMove.value);
      if i < |o.a| {
        PromotedKeeps(o, i, rThr, nPlies, score, d, moves);
        KeysStayDistinct(o.a, moves);
        lead := Lead(o, i, rThr, nPlies, score);
        if NeverFails(score) {
          PromotedOrder(o, i, rThr, nPlies, score, d);
          PromotedKey(o, i, rThr, nPlies, score, d);
          PromotedIsSettled(o, i, rThr, nPlies, score, d);
        }
      } else {
        NotThere(o.a, keyMove.value);
        NoneToSettle(o, keyMove.value, rThr, nPlies, score);
      }
    }
  }

  lemma NoneToSettle(o: Outcome, key: Board, rThr: real, nPlies: nat, score: Scorer)
    requires IndexOf(o.a, key) == |o.a|
    ensures KeySettled(o.a, key, rThr, nPlies) && (NeverFails(score) ==> FullDepthIfFar(o, o.a, key, rThr, nPlies, score))
  {
  }

  lemma NotThere(a: seq<Entry>, key: Board)
    requires IndexOf(a, key) == |a|
    ensures KeyAtTop(a, key)
  {
  }

  /** The filters alone can rule disorder out. */
  lemma OrderFromFilters(moves: seq<Move>, keyMove: Option<Board>, rThr: real, nPlies: nat, row: Row, score: Scorer, o: Outcome)
    requires Run(Unscored(moves), |moves|, 0, nPlies, row, score, o) && ZeroComesFirst(row, nPlies)
    requires |o.a| == |moves|
    ensures !Disordered(o, keyMove, rThr, nPlies, score)
  {
    hide Run, FilterAt, Blunder, AtDepth;
    RunStopsAtZero(Unscored(moves), |moves|, 0, nPlies, row, score, o);
  }

  method CopyMoves(pml: MoveList) returns (a: array<Entry>)
    requires pml.Sized()
    ensures fresh(a) && a[..] == Unscored(pml.State().moves)
  {
    var n := pml.cMoves;
    a := new Entry[n](i requires 0 <= i < n && n <= pml.amMoves.Length reads pml.amMoves => Entry(pml.amMoves[i], 0.0, 0.0, -1));
    assert a[..] == Unscored(pml.State().moves);
  }

  /** What follows the generation of the moves. */
  method SearchMoves(a: array<Entry>, keyMove: Option<Board>, rThr: real, nPlies: nat, aamf: Rows, score: Scorer, ghost moves: seq<Move>)
    returns (r: int, ghost o: Outcome)
    requires moves != [] && a[..] == Unscored(moves)
    requires keyMove.Some? ==> rThr >= 0.0 && LevelsKeep(RowFor(aamf, nPlies), 0, nPlies)
    modifies a
    ensures r == 0 || (r == -1 && !NeverFails(score))
    ensures r == 0 ==> Found(moves, keyMove, rThr, nPlies, RowFor(aamf, nPlies), score, o, a[..])
  {
    hide Run, Finished, LevelsKeep, KeyBrought, NeverFails, Holds, AllScored, Best, DeepestAre, Sorted;
    var mFilters := if 0 < nPlies <= MAX_FILTER_PLIES then aamf[nPlies - 1] else aamf[MAX_FILTER_PLIES - 1];
    var cOldMoves, nMaxPly;
    r, cOldMoves, nMaxPly, o := SearchPlies(a, nPlies, mFilters, score);
    if r == 0 {
      ghost var k := RunFinishes(moves, nPlies, mFilters, score, o);
      KeyStage(a, keyMove, rThr, cOldMoves, nMaxPly, nPlies, score, o);
    }
  }

  // ------------------------------------------------ an early stop that disorders

  /** Scores that fall by 0.01 from move to move, the same at every depth. */
  ghost function Falling(m0: Move, m1: Move): Scorer {
    (b, ply) => if b == m0.key then Score(0.03, 0.0) else if b == m1.key then Score(0.02, 0.0) else Score(0.01, 0.0)
  }

  /** Keep the best two, then the better of them. */
  const TWO_THEN_ONE: Row := [Filter(2, 0, 0.0), Filter(0, 1, 0.0), NULL_FILTER, NULL_FILTER]

  ghost predicate Falls(s: seq<Entry>) {
    forall i, j :: 0 <= i < j < |s| ==> s[i].rScore > s[j].rScore
  }

  lemma FirstOfFalling(s: seq<Entry>, b: seq<Entry>)
    requires Falls(s) && Sorted(b) && multiset(b) == multiset(s) && s != [] && b != []
    ensures b[0] == s[0]
  {
    assert b[0] in multiset(s) && s[0] in multiset(b);
    var j :| 0 <= j < |b| && b[j] == s[0];
    assert j > 0 ==> NoWorse(b[0], b[j]);
  }

  /** Different scores can be sorted in one way only. */
  lemma {:induction false} FallingIsUnique(s: seq<Entry>, b: seq<Entry>)
    requires Falls(s) && Sorted(b) && multiset(b) == multiset(s)
    ensures b == s
  {
    assert |b| == |multiset(b)| == |multiset(s)| == |s|;
    if s != [] {
      FirstOfFalling(s, b);
      assert Falls(s[1..]) && Sorted(b[1..]);
      hide *;
      assert b == [b[0]] + b[1..] && s == [s[0]] + s[1..];
      Cancel(s[0], multiset(b[1..]), multiset(s[1..]));
      FallingIsUnique(s[1..], b[1..]);
    }
  }

  lemma FallingRanks(a: seq<Entry>, c: nat, ply: nat, score: Scorer, b: seq<Entry>)
    requires RankedAgain(a, c, ply, score, b)
    requires forall i, j :: 0 <= i < j < c ==> Evaluated(a[i], ply, score).rScore > Evaluated(a[j], ply, score).rScore
    ensures b == AllEvaluated(a[..c], ply, score) + a[c..]
  {
    FallingIsUnique(AllEvaluated(a[..c], ply, score), b[..c]);
    assert b == b[..c] + b[c..];
  }

  lemma FirstLevel(m0: Move, m1: Move, m2: Move, b: seq<Entry>, c: nat)
    requires m0.key != m1.key && m0.key != m2.key && m1.key != m2.key
    requires Level(Unscored([m0, m1, m2]), 3, Filter(2, 0, 0.0), 0, Falling(m0, m1), b, c)
    ensures b == [Entry(m0, 0.03, 0.0, 0), Entry(m1, 0.02, 0.0, 0), Entry(m2, 0.01, 0.0, 0)] && c == 2
  {
    hide RankedAgain;
    FallingRanks(Unscored([m0, m1, m2]), 3, 0, Falling(m0, m1), b);
  }

  lemma SecondLevel(m0: Move, m1: Move, m2: Move, b: seq<Entry>, d: seq<Entry>, c: nat)
    requires m0.key != m1.key && m0.key != m2.key && m1.key != m2.key
    requires b == [Entry(m0, 0.03, 0.0, 0), Entry(m1, 0.02, 0.0, 0), Entry(m2, 0.01, 0.0, 0)]
    requires Level(b, 2, Filter(0, 1, 0.0), 1, Falling(m0, m1), d, c)
    ensures d == [Entry(m0, 0.03, 0.0, 1), Entry(m1, 0.02, 0.0, 1), Entry(m2, 0.01, 0.0, 0)] && c == 1
  {
    hide RankedAgain;
    FallingRanks(b, 2, 1, Falling(m0, m1), d);
  }

  /** Where the two levels leave three moves with those scores. */
  lemma TwoLevelsStop(m0: Move, m1: Move, m2: Move, o: Outcome)
    requires m0.key != m1.key && m0.key != m2.key && m1.key != m2.key
    requires Run(Unscored([m0, m1, m2]), 3, 0, 2, TWO_THEN_ONE, Falling(m0, m1), o)
    ensures o == Outcome([Entry(m0, 0.03, 0.0, 1), Entry(m1, 0.02, 0.0, 1), Entry(m2, 0.01, 0.0, 0)], 1, 2, 1)
  {
    hide Level, Unscored, Falling;
    var score := Falling(m0, m1);
    var f0, f1 := Filter(2, 0, 0.0), Filter(0, 1, 0.0);
    assert FilterAt(TWO_THEN_ONE, 0) == f0 && FilterAt(TWO_THEN_ONE, 1) == f1;
    var b, c :| Level(Unscored([m0, m1, m2]), 3, f0, 0, score, b, c) &&
      if c == 1 && f0.Accept != 1 then o == Outcome(b, 1, 3, 0) else Run(b, c, 1, 2, TWO_THEN_ONE, score, o);
    FirstLevel(m0, m1, m2, b, c);
    var d, e :| Level(b, 2, f1, 1, score, d, e) &&
      if e == 1 && f1.Accept != 1 then o == Outcome(d, 1, 2, 1) else Run(d, e, 2, 2, TWO_THEN_ONE, score, o);
    SecondLevel(m0, m1, m2, b, d, e);
  }

  /** Any three different moves with those scores, the worst of them asked about: however
      equal moves are sorted, the worst ends ahead of the second best. */
  lemma EarlyStopCanDisorder(m0: Move, m1: Move, m2: Move, o: Outcome, d: seq<Entry>)
    requires m0.key != m1.key && m0.key != m2.key && m1.key != m2.key
    requires Found([m0, m1, m2], Some(m2.key), 0.04, 2, TWO_THEN_ONE, Falling(m0, m1), o, d)
    ensures d == [Entry(m0, 0.03, 0.0, 1), Entry(m2, 0.01, 0.0, 1), Entry(m1, 0.02, 0.0, 1)] && !Sorted(d)
  {
    hide Run;
    var score := Falling(m0, m1);
    TwoLevelsStop(m0, m1, m2, o);
    FirstIsIndex(o.a, m2.key, 2);
    var b := o.a[2 := AtDepth(o.a, 2, 1, score)];
    assert b == [Entry(m0, 0.03, 0.0, 1), Entry(m1, 0.02, 0.0, 1), Entry(m2, 0.01, 0.0, 1)];
    assert Regrouped(b, 2, 1, d);
    TwoFirst(b, 2, d);
    assert NoWorse(d[..2][0], d[..2][1]);
    assert d[2] == d[2..][0] == MovedUp(b, 2, 1)[2..][0] == b[1];
    assert !NoWorse(d[1], d[2]);
  }

  /** The search of such a list: it returns, and returns them in that order. */
  method SearchDisorders(m0: Move, m1: Move, m2: Move, score: Scorer) returns (a: array<Entry>)
    requires m0.key != m1.key && m0.key != m2.key && m1.key != m2.key && score == Falling(m0, m1)
    ensures a[..] == [Entry(m0, 0.03, 0.0, 1), Entry(m2, 0.01, 0.0, 1), Entry(m1, 0.02, 0.0, 1)]
  {
    hide Run, Found;
    a := new Entry[3] [Entry(m0, 0.0, 0.0, -1), Entry(m1, 0.0, 0.0, -1), Entry(m2, 0.0, 0.0, -1)];
    assert a[..] == Unscored([m0, m1, m2]);
    assert FilterAt(TWO_THEN_ONE, 0) == Filter(2, 0, 0.0) && FilterAt(TWO_THEN_ONE, 1) == Filter(0, 1, 0.0);
    var r, o := SearchMoves(a, Some(m2.key), 0.04, 2, [NULL_ROW, TWO_THEN_ONE, NULL_ROW, NULL_ROW], score, [m0, m1, m2]);
    EarlyStopCanDisorder(m0, m1, m2, o, a[..]);
  }

  /** FindnSaveBestMoves: every legal position of the roll, each once and scored, the
      deepest first and the best of those first of all. */
  method FindnSaveBestMoves(buffer: array<Move>, n0: nat, n1: nat, anBoard: Board, keyMove: Option<Board>, rThr: real,
                            nPlies: nat, aamf: Rows, score: Scorer)
    returns (r: int, a: array<Entry>, ghost l: ListState, ghost o: Outcome, ghost lead: nat)
    requires buffer.Length == MAX_INCOMPLETE_MOVES
    requires Unshared(anBoard) && Total(anBoard.us) <= 15 && 1 <= n0 <= 6 && 1 <= n1 <= 6
    requires keyMove.Some? ==> rThr >= 0.0 && LevelsKeep(RowFor(aamf, nPlies), 0, nPlies)
    modifies buffer
    ensures ListExact(anBoard, n0, n1, l, false)
    ensures r == 0 || (r == -1 && !NeverFails(score))
    ensures r == 0 ==> Holds(a[..], l.moves) && AllScored(a[..], score)
    ensures r == 0 && l.moves != [] ==> Found(l.moves, keyMove, rThr, nPlies, RowFor(aamf, nPlies), score, o, a[..])
    ensures r == 0 && l.moves != [] && (keyMove.None? || NeverFails(score)) ==>
              && Best(a[..]) && DeepestAre(a[..], lead)
              && (Sorted(a[..lead]) <==> !Disordered(o, keyMove, rThr, nPlies, score))
              && (ZeroComesFirst(RowFor(aamf, nPlies), nPlies) ==> Sorted(a[..lead]))
    ensures r == 0 && keyMove.Some? && NeverFails(score) ==>
              KeyAtTop(a[..], keyMove.value) && KeySettled(a[..], keyMove.value, rThr, nPlies)
    ensures r == 0 && l.moves != [] && keyMove.Some? && NeverFails(score) ==>
              FullDepthIfFar(o, a[..], keyMove.value, rThr, nPlies, score)
  {
    hide ListExact, Holds, AllScored, NeverFails, KeyAtTop, LevelsKeep, Unshared, Total, Best, DeepestAre, Sorted,
      Disordered, ZeroComesFirst, KeyBrought, Run, KeySettled, FullDepthIfFar;
    var pml := new MoveList(buffer);
    var n := GenerateMoves(pml, anBoard, n0, n1, false);
    l := pml.State();
    a := CopyMoves(pml);
    lead, o := 0, Outcome([], 0, 0, 0);
    if n == 0 {
      NothingToScore(a[..], score);
      UnscoredHolds(l.moves, score);
      return 0, a, l, o, 0;
    }
    r, o := SearchMoves(a, keyMove, rThr, nPlies, aamf, score, l.moves);
    if r < 0 {
      return;
    }
    ListIsDistinct(anBoard, n0, n1, l);
    lead := FoundIsOrdered(l.moves, keyMove, rThr, nPlies, RowFor(aamf, nPlies), score, o, a[..]);
    ghost var k := RunFinishes(l.moves, nPlies, RowFor(aamf, nPlies), score, o);
    HoldsAsMany(o.a, l.moves);
    DeepestIsSome(a[..], lead);
    if ZeroComesFirst(RowFor(aamf, nPlies), nPlies) {
      OrderFromFilters(l.moves, keyMove, rThr, nPlies, RowFor(aamf, nPlies), score, o);
    }
  }

  lemma DeepestIsSome(a: seq<Entry>, n: nat)
    ensures DeepestAre(a, n) ==> 1 <= n <= |a|
  {
  }

  lemma HoldsAsMany(a: seq<Entry>, moves: seq<Move>)
    requires Holds(a, moves)
    ensures |a| == |moves|
  {
  }

  lemma NothingToScore(a: seq<Entry>, score: Scorer)
    requires a == []
    ensures AllScored(a, score) && forall key :: KeyAtTop(a, key) && forall rThr, nPlies :: KeySettled(a, key, rThr, nPlies)
  {
  }

  lemma ListIsDistinct(b: Board, n0: nat, n1: nat, l: ListState)
    requires ListExact(b, n0, n1, l, false)
    ensures DistinctKeys(l.moves)
  {
  }
}
