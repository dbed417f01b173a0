/** The table of the heuristic bear-off database (gnubg/bearoff.c): for every
    home-board position the chance, in units of 1/65535, of being off in each number
    of rolls. It is filled row by row from rows of lower number. */
module BearoffTable {
  import opened Boards
  import opened Plays
  import opened Bearoff
  import opened BearoffIndex

  newtype byte = x: int | 0 <= x < 256

  const SIZE := 54264 * 64

  /** A roll, larger number first, and the row of the position played to. */
  datatype Reply = Reply(n0: nat, n1: nat, best: nat)

  function ReplyWeight(r: Reply): nat {
    if r.n0 == r.n1 then 1 else 2
  }

  /** The 16-bit entry i of row n, low byte first. */
  function Entry(t: seq<byte>, n: nat, i: nat): (e: nat)
    requires 64 * n + 2 * i + 1 < |t|
    ensures e <= 65535
  {
    t[64 * n + 2 * i] as int + 256 * t[64 * n + 2 * i + 1] as int
  }

  ghost predicate HasRows(t: seq<byte>, rs: seq<Reply>) {
    forall k :: 0 <= k < |rs| ==> 64 * rs[k].best + 64 <= |t|
  }

  /** The replies' entries i, weighted by the 36 rolls of two dice. */
  ghost function Weighted(t: seq<byte>, rs: seq<Reply>, i: nat): nat
    requires HasRows(t, rs) && i < 32
  {
    if rs == [] then 0
    else
      var last := rs[|rs| - 1];
      Weighted(t, rs[..|rs| - 1], i) + ReplyWeight(last) * Entry(t, last.best, i)
  }

  ghost function Weights(rs: seq<Reply>): nat {
    if rs == [] then 0 else Weights(rs[..|rs| - 1]) + ReplyWeight(rs[|rs| - 1])
  }

  /** One more roll to be off, rounded to the nearest unit. */
  ghost function Shifted(t: seq<byte>, rs: seq<Reply>, i: nat): nat
    requires HasRows(t, rs) && i < 32
  {
    ((if i == 0 then 0 else Weighted(t, rs, i - 1)) + 18) / 36
  }

  /** The rolls before (n0, n1) in the order of the loops. */
  ghost function RollsBefore(n0: nat, n1: nat): seq<(nat, nat)>
    requires 1 <= n0 && 1 <= n1 <= n0 + 1
    decreases n0, n1
  {
    if n1 > 1 then RollsBefore(n0, n1 - 1) + [(n0, n1 - 1)]
    else if n0 > 1 then RollsBefore(n0 - 1, n0)
    else []
  }

  ghost predicate RollsAre(rs: seq<Reply>, rolls: seq<(nat, nat)>) {
    |rs| == |rolls| && forall k :: 0 <= k < |rs| ==> (rs[k].n0, rs[k].n1) == rolls[k]
  }

  /** Row `best` is the position the heuristic player plays to, which the rules allow the
      roll to end in. */
  ghost predicate HeuristicReply(n: nat, r: Reply, them: Side) {
    && r.best < n
    && PlaysTo(Position(6, n), DiceOf(r.n0, r.n1), 0, Position(6, r.best))
    && LegalEnd(OnBoard(Position(6, n), them), r.n0, r.n1, OnBoard(Position(6, r.best), them))
  }

  /** Row n is filled in from the heuristic replies to the 21 rolls. */
  ghost predicate RowFrom(t: seq<byte>, n: nat, rs: seq<Reply>, them: Side) {
    && 64 * n + 64 <= |t| && HasRows(t, rs)
    && RollsAre(rs, RollsBefore(6, 7))
    && (forall k :: 0 <= k < |rs| ==> HeuristicReply(n, rs[k], them))
    && forall i :: 0 <= i < 32 ==> t[64 * n + 2 * i] as int + 256 * t[64 * n + 2 * i + 1] as int == Shifted(t, rs, i)
  }

  // ------------------------------------------------------------- no overflow

  lemma {:induction false} WeightedIsSmall(t: seq<byte>, rs: seq<Reply>, i: nat)
    requires HasRows(t, rs) && i < 32
    ensures Weighted(t, rs, i) <= 65535 * Weights(rs)
  {
    if rs != [] {
      WeightedIsSmall(t, rs[..|rs| - 1], i);
    }
  }

  lemma {:induction false} WeightsOf(rs: seq<Reply>, n0: nat, n1: nat)
    requires 1 <= n0 && 1 <= n1 <= n0 + 1 && RollsAre(rs, RollsBefore(n0, n1))
    ensures Weights(rs) == (n0 - 1) * (n0 - 1) + 2 * (n1 - 1) - (if n1 == n0 + 1 then 1 else 0)
    decreases n0, n1
  {
    if n1 > 1 {
      var k := |rs| - 1;
      assert RollsBefore(n0, n1)[..k] == RollsBefore(n0, n1 - 1);
      WeightsOf(rs[..k], n0, n1 - 1);
    } else if n0 > 1 {
      WeightsOf(rs, n0 - 1, n0);
      assert (n0 - 2) * (n0 - 2) + 2 * (n0 - 1) - 1 == (n0 - 1) * (n0 - 1);
    }
  }

  /** The 21 rolls weigh 36. */
  lemma AllRollsWeigh36(rs: seq<Reply>, n0: nat, n1: nat)
    requires n0 == 6 && n1 == 7 && RollsAre(rs, RollsBefore(n0, n1))
    ensures Weights(rs) == 36
  {
    WeightsOf(rs, n0, n1);
  }

  /** A row never needs more than 16 bits. */
  lemma ShiftedFits(t: seq<byte>, rs: seq<Reply>, i: nat)
    requires HasRows(t, rs) && i < 32 && Weights(rs) == 36
    ensures Shifted(t, rs, i) <= 65535
  {
    if i > 0 {
      WeightedIsSmall(t, rs, i - 1);
    }
  }

  // ----------------------------------------------------------------- the mass

  /** The units in the first k entries of a row. */
  ghost function RowMass(t: seq<byte>, n: nat, k: nat): nat
    requires 64 * n + 64 <= |t| && k <= 32
  {
    if k == 0 then 0 else RowMass(t, n, k - 1) + Entry(t, n, k - 1)
  }

  ghost function WeightedMass(t: seq<byte>, rs: seq<Reply>, k: nat): nat
    requires HasRows(t, rs) && k <= 32
  {
    if rs == [] then 0
    else
      var last := rs[|rs| - 1];
      WeightedMass(t, rs[..|rs| - 1], k) + ReplyWeight(last) * RowMass(t, last.best, k)
  }

  lemma {:induction false} NoMass(t: seq<byte>, rs: seq<Reply>)
    requires HasRows(t, rs)
    ensures WeightedMass(t, rs, 0) == 0
  {
    if rs != [] {
      NoMass(t, rs[..|rs| - 1]);
    }
  }

  lemma {:induction false} NextMass(t: seq<byte>, rs: seq<Reply>, k: nat)
    requires HasRows(t, rs) && k < 32
    ensures WeightedMass(t, rs, k + 1) == WeightedMass(t, rs, k) + Weighted(t, rs, k)
  {
    if rs != [] {
      var last := rs[|rs| - 1];
      NextMass(t, rs[..|rs| - 1], k);
      assert RowMass(t, last.best, k + 1) == RowMass(t, last.best, k) + Entry(t, last.best, k);
    }
  }

  lemma {:induction false} MassUpTo(t: seq<byte>, n: nat, rs: seq<Reply>, k: nat)
    requires 64 * n + 64 <= |t| && HasRows(t, rs) && k < 32
    requires forall i :: 0 <= i < 32 ==> Entry(t, n, i) == Shifted(t, rs, i)
    ensures -17 * k <= 36 * RowMass(t, n, k + 1) - WeightedMass(t, rs, k) <= 18 * k
  {
    assert Entry(t, n, k) == Shifted(t, rs, k);
    if k == 0 {
      NoMass(t, rs);
      assert RowMass(t, n, 1) == RowMass(t, n, 0) + Entry(t, n, 0);
    } else {
      MassUpTo(t, n, rs, k - 1);
      NextMass(t, rs, k - 1);
    }
  }

  /** Rounding adds at most 16 units to the average of the successors' rows, and
      loses at most 16 besides the units the last column drops. */
  lemma MassIsKept(t: seq<byte>, n: nat, rs: seq<Reply>, them: Side)
    requires RowFrom(t, n, rs, them)
    ensures 36 * RowMass(t, n, 32) <= WeightedMass(t, rs, 32) + 36 * 16
    ensures 36 * RowMass(t, n, 32) >= WeightedMass(t, rs, 32) - Weighted(t, rs, 31) - 36 * 16
  {
    MassUpTo(t, n, rs, 31);
    NextMass(t, rs, 31);
  }

  // --------------------------------------------------------------- filling in

  /** The bytes of the rows below n. */
  ghost predicate SameBelow(t: seq<byte>, t': seq<byte>, n: nat) {
    |t| == |t'| && 64 * n <= |t| && forall k :: 0 <= k < 64 * n ==> t[k] == t'[k]
  }

  lemma {:induction false} WeightedStays(t: seq<byte>, t': seq<byte>, rs: seq<Reply>, n: nat, i: nat)
    requires SameBelow(t, t', n) && HasRows(t, rs) && i < 32
    requires forall k :: 0 <= k < |rs| ==> rs[k].best < n
    ensures HasRows(t', rs) && Weighted(t', rs, i) == Weighted(t, rs, i)
  {
    if rs != [] {
      WeightedStays(t, t', rs[..|rs| - 1], n, i);
    }
  }

  /** A finished row stays finished while later rows are written. */
  lemma RowStays(t: seq<byte>, t': seq<byte>, m: nat, n: nat, rs: seq<Reply>, them: Side)
    requires RowFrom(t, m, rs, them) && m < n && SameBelow(t, t', n)
    ensures RowFrom(t', m, rs, them)
  {
    hide LegalEnd, Position, Weighted;
    assert forall k :: 0 <= k < |rs| ==> HeuristicReply(m, rs[k], them);
    assert forall k :: 0 <= k < |rs| ==> rs[k].best < n;
    WeightedStays(t, t', rs, n, 0);
    forall i | 0 <= i < 32 ensures Entry(t', m, i) == Shifted(t', rs, i) {
      EntryStays(t, t', m, n, i);
      assert Entry(t, m, i) == Shifted(t, rs, i);
      if i > 0 {
        WeightedStays(t, t', rs, n, i - 1);
      }
    }
  }

  lemma EntryStays(t: seq<byte>, t': seq<byte>, m: nat, n: nat, i: nat)
    requires m < n && i < 32 && SameBelow(t, t', n)
    ensures 64 * m + 2 * i + 1 < |t| && Entry(t', m, i) == Entry(t, m, i)
  {
  }

  /** The reply to one roll. */
  method ReplyTo(nId: nat, n0: nat, n1: nat, ghost them: Side) returns (iBest: nat)
    requires 1 <= nId < POSITIONS && 1 <= n1 <= n0 <= 6 && Race(them)
    ensures HeuristicReply(nId, Reply(n0, n1, iBest), them)
  {
    hide *;
    var home := Position(6, nId);
    var anBoard := new nat[6](i requires 0 <= i < 6 => home[i]);
    assert anBoard[..] == home;
    NotEmpty(nId);
    HeuristicBearoff(anBoard, n0, n1, them);
    iBest := Rank(anBoard[..]);
    RankHasPosition(anBoard[..]);
    LegalIsReachable(OnBoard(home, them), n0, n1, OnBoard(anBoard[..], them));
    EveryPlayLowers(home, them, n0, n1, OnBoard(anBoard[..], them));
    HomeOfOnBoard(anBoard[..], them);
    PositionHasRank(6, nId);
    ReplyIsLegal(nId, n0, n1, iBest, them);
  }

  lemma ReplyIsLegal(n: nat, n0: nat, n1: nat, best: nat, them: Side)
    requires best < n && LegalEnd(OnBoard(Position(6, n), them), n0, n1, OnBoard(Position(6, best), them))
    requires PlaysTo(Position(6, n), DiceOf(n0, n1), 0, Position(6, best))
    ensures HeuristicReply(n, Reply(n0, n1, best), them)
  {
  }

  /** The heuristic reply to a roll is one row. */
  lemma ReplyIsUnique(n: nat, r: Reply, s: Reply, them: Side)
    requires HeuristicReply(n, r, them) && HeuristicReply(n, s, them) && r.n0 == s.n0 && r.n1 == s.n1
    ensures r.best == s.best
  {
    hide PlaysTo, Position, LegalEnd;
    PlaysToIsUnique(Position(6, n), DiceOf(r.n0, r.n1), 0, Position(6, r.best), Position(6, s.best));
    PositionHasRank(6, r.best);
    PositionHasRank(6, s.best);
  }

  lemma NotEmpty(n: nat)
    requires n > 0
    ensures !Empty(Position(6, n))
  {
    hide Position;
    if Empty(Position(6, n)) {
      PositionHasRank(6, n);
      EmptyHasRankZero(Position(6, n));
    }
  }

  lemma {:induction false} EmptyHasRankZero(h: seq<nat>)
    requires forall p :: 0 <= p < |h| ==> h[p] == 0
    ensures Rank(h) == 0
  {
    TotalZero(h);
    if h != [] {
      EmptyHasRankZero(h[1..]);
    }
  }

  lemma LegalIsReachable(b: Board, n0: nat, n1: nat, c: Board)
    requires LegalEnd(b, n0, n1, c)
    ensures Reachable(b, n0, n1, c)
  {
    var p :| IsComplete(b, n0, n1, p) && After(b, p.srcs, p.dice) == c;
    assert IsPlay(b, n0, n1, p);
  }

  ghost predicate Accumulated(t: seq<byte>, aProb: seq<nat>, rs: seq<Reply>) {
    && |aProb| == 32 && HasRows(t, rs)
    && aProb[0] == 0 && forall i :: 1 <= i < 32 ==> aProb[i] == Weighted(t, rs, i - 1)
  }

  lemma FitsUnsigned(t: seq<byte>, rs: seq<Reply>, n0: nat, n1: nat, best: nat, i: nat)
    requires HasRows(t, rs) && i < 32 && Weights(rs) <= 36 && 64 * best + 64 <= |t|
    ensures Weighted(t, rs, i) + ReplyWeight(Reply(n0, n1, best)) * Entry(t, best, i) < 0x1_0000_0000
  {
    WeightedIsSmall(t, rs, i);
  }

  /** Add the row of one reply, shifted by one roll, in 32-bit arithmetic. */
  method AddReply(p: array<byte>, aProb: seq<nat>, n0: nat, n1: nat, iBest: nat, ghost rs: seq<Reply>) returns (sum: seq<nat>)
    requires p.Length == SIZE && iBest < POSITIONS && Accumulated(p[..], aProb, rs) && Weights(rs) <= 36
    ensures Accumulated(p[..], sum, rs + [Reply(n0, n1, iBest)])
  {
    ghost var t, r := p[..], Reply(n0, n1, iBest);
    assert (rs + [r])[..|rs|] == rs;
    sum := aProb;
    var i := 0;
    while i < 31
      invariant 0 <= i <= 31 && |sum| == 32 && sum[0] == 0
      invariant forall k :: 1 <= k < 32 ==>
                  sum[k] == Weighted(t, rs, k - 1) + (if k <= i then ReplyWeight(r) * Entry(t, iBest, k - 1) else 0)
    {
      var e := p[64 * iBest + 2 * i] as int + p[64 * iBest + 2 * i + 1] as int * 256;
      FitsUnsigned(t, rs, n0, n1, iBest, i);
      sum := sum[i + 1 := (sum[i + 1] + if n0 == n1 then e else e * 2) % 0x1_0000_0000];
      i := i + 1;
    }
  }

  /** The replies so far are the heuristic answers to the rolls so far. */
  ghost predicate Answers(n: nat, rs: seq<Reply>, n0: nat, n1: nat, them: Side)
    requires 1 <= n0 && 1 <= n1 <= n0 + 1
  {
    && RollsAre(rs, RollsBefore(n0, n1))
    && forall k :: 0 <= k < |rs| ==> HeuristicReply(n, rs[k], them)
  }

  lemma OneMoreAnswer(n: nat, rs: seq<Reply>, n0: nat, n1: nat, best: nat, them: Side)
    requires 1 <= n1 <= n0 && Answers(n, rs, n0, n1, them) && HeuristicReply(n, Reply(n0, n1, best), them)
    ensures best < n && Answers(n, rs + [Reply(n0, n1, best)], n0, n1 + 1, them)
  {
  }

  lemma NextNumber(n: nat, rs: seq<Reply>, n0: nat, them: Side)
    requires 1 <= n0 && Answers(n, rs, n0, n0 + 1, them)
    ensures Answers(n, rs, n0 + 1, 1, them)
  {
  }

  lemma NoAnswers(n: nat, them: Side)
    ensures Answers(n, [], 1, 1, them) && Weights([]) == 0
  {
    assert RollsBefore(1, 1) == [];
  }

  lemma WeightsStaySmall(n: nat, rs: seq<Reply>, n0: nat, n1: nat, them: Side)
    requires 1 <= n0 <= 6 && 1 <= n1 <= n0 + 1 && Answers(n, rs, n0, n1, them)
    ensures Weights(rs) <= 36
  {
    AnswersRolls(n, rs, n0, n1, them);
    hide *;
    WeightsOf(rs, n0, n1);
    SquaresAreSmall(n0 - 1);
  }

  lemma AnswersRolls(n: nat, rs: seq<Reply>, n0: nat, n1: nat, them: Side)
    requires 1 <= n0 && 1 <= n1 <= n0 + 1 && Answers(n, rs, n0, n1, them)
    ensures RollsAre(rs, RollsBefore(n0, n1))
  {
  }

  lemma SquaresAreSmall(k: nat)
    ensures k < 5 ==> k * k <= 16
    ensures k == 5 ==> k * k == 25
  {
  }

  /** The sums over the replies to all 21 rolls. */
  method SumReplies(p: array<byte>, nId: nat, ghost them: Side) returns (aProb: seq<nat>, ghost rs: seq<Reply>)
    requires p.Length == SIZE && 1 <= nId < POSITIONS && Race(them)
    ensures Answers(nId, rs, 6, 7, them) && Accumulated(p[..], aProb, rs)
  {
    hide *;
    aProb, rs := seq(32, _ => 0), [];
    NothingAccumulated(p[..], aProb);
    NoAnswers(nId, them);
    var n0 := 1;
    while n0 <= 6
      invariant 1 <= n0 <= 7 && Accumulated(p[..], aProb, rs)
      invariant Answers(nId, rs, n0, 1, them)
      invariant n0 == 7 ==> Answers(nId, rs, 6, 7, them)
    {
      var n1 := 1;
      while n1 <= n0
        invariant 1 <= n1 <= n0 + 1 && Accumulated(p[..], aProb, rs) && Answers(nId, rs, n0, n1, them)
      {
        var iBest := ReplyTo(nId, n0, n1, them);
        OneMoreAnswer(nId, rs, n0, n1, iBest, them);
        WeightsStaySmall(nId, rs, n0, n1, them);
        aProb := AddReply(p, aProb, n0, n1, iBest, rs);
        rs := rs + [Reply(n0, n1, iBest)];
        n1 := n1 + 1;
      }
      NextNumber(nId, rs, n0, them);
      n0 := n0 + 1;
    }
  }

  lemma NothingAccumulated(t: seq<byte>, aProb: seq<nat>)
    requires |aProb| == 32 && forall i :: 0 <= i < 32 ==> aProb[i] == 0
    ensures Accumulated(t, aProb, [])
  {
  }

  /** GenerateBearoff fills row nId and nothing else. */
  method GenerateBearoff(p: array<byte>, nId: nat, ghost them: Side) returns (ghost rs: seq<Reply>)
    requires p.Length == SIZE && 1 <= nId < POSITIONS && Race(them)
    modifies p
    ensures forall k :: 0 <= k < SIZE && !(64 * nId <= k < 64 * nId + 64) ==> p[k] == old(p[k])
    ensures RowFrom(p[..], nId, rs, them)
  {
    var aProb;
    aProb, rs := SumReplies(p, nId, them);
    WriteRow(p, nId, aProb, rs, them);
  }

  method WriteRow(p: array<byte>, nId: nat, aProb: seq<nat>, ghost rs: seq<Reply>, ghost them: Side)
    requires p.Length == SIZE && 1 <= nId < POSITIONS && Answers(nId, rs, 6, 7, them) && Accumulated(p[..], aProb, rs)
    modifies p
    ensures forall k :: 0 <= k < SIZE && !(64 * nId <= k < 64 * nId + 64) ==> p[k] == old(p[k])
    ensures RowFrom(p[..], nId, rs, them)
  {
    hide Answers, Shifted, Weighted, RowFrom;
    ghost var t := p[..];
    AnswersWeigh36(nId, rs, 6, 7, them);
    var i := 0;
    while i < 32
      invariant 0 <= i <= 32
      invariant forall k :: 0 <= k < SIZE && !(64 * nId <= k < 64 * nId + 64) ==> p[k] == t[k]
      invariant forall k :: 0 <= k < i ==> Entry(p[..], nId, k) == Shifted(t, rs, k)
    {
      ghost var before := p[..];
      var us := (aProb[i] + 18) / 36 % 0x1_0000;
      EntryIs(t, aProb, rs, i);
      p[64 * nId + 2 * i] := (us % 256) as byte;
      p[64 * nId + 2 * i + 1] := (us / 256) as byte;
      OtherEntriesStay(before, p[..], nId, i);
      i := i + 1;
    }
    RowIsFilled(t, p[..], nId, rs, them);
  }

  lemma EntryIs(t: seq<byte>, aProb: seq<nat>, rs: seq<Reply>, i: nat)
    requires i < 32 && Accumulated(t, aProb, rs) && Weights(rs) == 36
    ensures (aProb[i] + 18) / 36 % 0x1_0000 == Shifted(t, rs, i) <= 65535
  {
    ShiftedFits(t, rs, i);
  }

  lemma OtherEntriesStay(t: seq<byte>, t': seq<byte>, n: nat, i: nat)
    requires |t| == |t'| && i < 32 && 64 * n + 64 <= |t|
    requires forall k :: 0 <= k < |t| && k != 64 * n + 2 * i && k != 64 * n + 2 * i + 1 ==> t'[k] == t[k]
    ensures forall k :: 0 <= k < i ==> Entry(t', n, k) == Entry(t, n, k)
  {
  }

  lemma AnswersWeigh36(n: nat, rs: seq<Reply>, n0: nat, n1: nat, them: Side)
    requires n0 == 6 && n1 == 7 && Answers(n, rs, n0, n1, them)
    ensures Weights(rs) == 36
  {
    AllRollsWeigh36(rs, n0, n1);
  }

  lemma RowIsFilled(t: seq<byte>, t': seq<byte>, n: nat, rs: seq<Reply>, them: Side)
    requires |t| == |t'| == SIZE && n < POSITIONS && HasRows(t, rs) && Answers(n, rs, 6, 7, them)
    requires forall k :: 0 <= k < SIZE && !(64 * n <= k < 64 * n + 64) ==> t'[k] == t[k]
    requires forall k :: 0 <= k < 32 ==> Entry(t', n, k) == Shifted(t, rs, k)
    ensures RowFrom(t', n, rs, them)
  {
    hide LegalEnd, Position, Weighted, RollsBefore;
    assert forall k :: 0 <= k < |rs| ==> HeuristicReply(n, rs[k], them);
    assert forall k :: 0 <= k < |rs| ==> rs[k].best < n;
    forall i | 0 <= i < 32 ensures Shifted(t', rs, i) == Shifted(t, rs, i) {
      if i > 0 {
        WeightedStays(t, t', rs, n, i - 1);
      }
    }
  }

  /** Every finished row has its replies. */
  ghost predicate Filled(t: seq<byte>, n: nat, replies: seq<seq<Reply>>, them: Side) {
    && |t| == SIZE && 1 <= n == |replies|
    && t[0] == 255 && t[1] == 255 && (forall k :: 2 <= k < 64 ==> t[k] == 0)
    && forall m :: 1 <= m < n ==> RowFrom(t, m, replies[m], them)
  }

  /** HeuristicDatabase: the empty board is off in no rolls, and every other row is the
      rounded, shifted average of the rows of the positions the heuristic player plays to. */
  method HeuristicDatabase(ghost them: Side) returns (p: array<byte>, ghost replies: seq<seq<Reply>>)
    requires Race(them)
    ensures Filled(p[..], POSITIONS, replies, them)
  {
    p := new byte[SIZE];
    p[0], p[1] := 255, 255;
    var i := 2;
    while i < 64
      invariant 2 <= i <= 64 && p[0] == 255 && p[1] == 255 && forall k :: 2 <= k < i ==> p[k] == 0
    {
      p[i] := 0;
      i := i + 1;
    }
    replies := [[]];
    i := 1;
    while i < POSITIONS
      invariant 1 <= i <= POSITIONS && Filled(p[..], i, replies, them)
    {
      ghost var before := p[..];
      ghost var rs := GenerateBearoff(p, i, them);
      StillFilled(before, p[..], i, replies, rs, them);
      replies := replies + [rs];
      i := i + 1;
    }
  }

  lemma StillFilled(t: seq<byte>, t': seq<byte>, n: nat, replies: seq<seq<Reply>>, rs: seq<Reply>, them: Side)
    requires Filled(t, n, replies, them) && |t'| == SIZE && n < POSITIONS && RowFrom(t', n, rs, them)
    requires forall k :: 0 <= k < SIZE && !(64 * n <= k < 64 * n + 64) ==> t'[k] == t[k]
    ensures Filled(t', n + 1, replies + [rs], them)
  {
    hide RowFrom;
    forall m | 1 <= m < n ensures RowFrom(t', m, replies[m], them) {
      RowStays(t, t', m, n, replies[m], them);
    }
  }
}
