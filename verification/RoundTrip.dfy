/** From a play to text and back: the sub-moves ParseMove reads from FormatMove's
    text reach the board the play reaches. */
module RoundTrip {
  import opened Boards
  import opened Plays
  import opened Settling
  import opened PairOrder
  import MoveGenerator
  import opened Chains
  import opened MoveFormatter
  import opened MoveParser
  import opened TextScan

  // ----------------------------------------------- a text is a list of chains

  function Copies(c: Chain, k: nat): seq<Chain> {
    if k == 0 then [] else Copies(c, k - 1) + [c]
  }

  /** The chains a text plays, repetitions written out. */
  ghost function Expand(gs: seq<Group>): seq<Chain> {
    if gs == [] then [] else Expand(gs[..|gs| - 1]) + Copies(gs[|gs| - 1].points, gs[|gs| - 1].count)
  }

  /** The scanner's state after reading chains. */
  ghost function Lay(l: seq<Chain>): Scanned {
    if l == [] then START else Grown(Lay(l[..|l| - 1]), l[|l| - 1])
  }

  ghost function PointCount(l: seq<Chain>): nat {
    if l == [] then 0 else PointCount(l[..|l| - 1]) + |l[|l| - 1]|
  }

  ghost function StepsOf(l: seq<Chain>): multiset<Pair> {
    if l == [] then multiset{} else StepsOf(l[..|l| - 1]) + Steps(l[|l| - 1])
  }

  lemma {:induction false} LayIsSettled(l: seq<Chain>)
    requires forall k :: 0 <= k < |l| ==> l[k] != []
    ensures MarksInside(Lay(l)) && |Lay(l).anUser| == PointCount(l)
  {
    if l != [] {
      LayIsSettled(l[..|l| - 1]);
    }
  }

  /** The sums over a list and over the list without its last chain. */
  lemma Snoc(l: seq<Chain>)
    requires l != []
    ensures var n := |l| - 1;
            && StepsOf(l) == StepsOf(l[..n]) + Steps(l[n])
            && PointCount(l) == PointCount(l[..n]) + |l[n]|
            && Lay(l) == Grown(Lay(l[..n]), l[n])
  {
  }

  lemma {:induction false} LayCopies(l: seq<Chain>, c: Chain, k: nat)
    ensures Lay(l + Copies(c, k)) == GrownTimes(Lay(l), c, k)
    ensures PointCount(l + Copies(c, k)) == PointCount(l) + k * |c|
    ensures StepsOf(l + Copies(c, k)) == StepsOf(l) + Times(Steps(c), k)
  {
    hide *;
    if k == 0 {
      NoCopies(l, c);
    } else {
      LayCopies(l, c, k - 1);
      CopiesAdd(Lay(l), Steps(c), c, k);
      SnocCopy(l, Copies(c, k - 1), c);
      Reassociate(StepsOf(l), Times(Steps(c), k - 1), Steps(c));
    }
  }

  lemma NoCopies(l: seq<Chain>, c: Chain)
    ensures l + Copies(c, 0) == l && GrownTimes(Lay(l), c, 0) == Lay(l) && Times(Steps(c), 0) == multiset{}
  {
    hide Lay, Steps;
    assert l + [] == l;
  }

  lemma SnocCopy(l: seq<Chain>, d: seq<Chain>, c: Chain)
    ensures var r := l + d;
            && StepsOf(l + (d + [c])) == StepsOf(r) + Steps(c)
            && PointCount(l + (d + [c])) == PointCount(r) + |c|
            && Lay(l + (d + [c])) == Grown(Lay(r), c)
  {
    hide *;
    var r := l + d;
    assert l + (d + [c]) == r + [c];
    Snoc(r + [c]);
    assert (r + [c])[..|r|] == r;
  }

  lemma CopiesAdd(st: Scanned, ms: multiset<Pair>, c: Chain, k: nat)
    ensures k == 0 ==> GrownTimes(st, c, k) == st && Times(ms, k) == multiset{}
    ensures k > 0 ==>
              && GrownTimes(st, c, k) == Grown(GrownTimes(st, c, k - 1), c)
              && Times(ms, k) == Times(ms, k - 1) + ms
              && Copies(c, k) == Copies(c, k - 1) + [c]
              && k * |c| == (k - 1) * |c| + |c|
  {
  }

  /** The expansion has the sub-moves of the groups. */
  lemma {:induction false} ExpandSteps(gs: seq<Group>)
    ensures StepsOf(Expand(gs)) == GroupSteps(gs)
  {
    if gs == [] {
      assert PointsOf(gs) == [] && CountsOf(gs) == [];
    } else {
      var n := |gs| - 1;
      ExpandSteps(gs[..n]);
      LayCopies(Expand(gs[..n]), gs[n].points, gs[n].count);
      hide Steps, Times, StepsOf;
      assert PointsOf(gs) == PointsOf(gs[..n]) + [gs[n].points];
      assert CountsOf(gs) == CountsOf(gs[..n]) + [gs[n].count];
      RowStepsSnoc(PointsOf(gs[..n]), CountsOf(gs[..n]), gs[n].points, gs[n].count, 0);
    }
  }

  lemma {:induction false} ExpandAll(gs: seq<Group>, p: Chain -> bool)
    requires forall i :: 0 <= i < |gs| ==> p(gs[i].points)
    ensures forall k :: 0 <= k < |Expand(gs)| ==> p(Expand(gs)[k])
  {
    if gs != [] {
      ExpandAll(gs[..|gs| - 1], p);
      CopiesAre(gs[|gs| - 1].points, gs[|gs| - 1].count);
    }
  }

  lemma {:induction false} CopiesAre(c: Chain, k: nat)
    ensures forall i :: 0 <= i < |Copies(c, k)| ==> Copies(c, k)[i] == c
  {
    if k > 0 {
      CopiesAre(c, k - 1);
    }
  }

  /** Four sub-moves are at most eight points. */
  lemma {:induction false} PointsAtMostTwice(l: seq<Chain>)
    requires forall k :: 0 <= k < |l| ==> |l[k]| >= 2
    ensures PointCount(l) == |StepsOf(l)| + |l| && PointCount(l) <= 2 * |StepsOf(l)|
  {
    if l != [] {
      PointsAtMostTwice(l[..|l| - 1]);
      StepsCount(l[|l| - 1]);
    }
  }

  // ------------------------------------------------------- scanning the text

  lemma {:induction false} ScanGroups(s: string, gs: seq<Group>, rest: string)
    requires (forall i :: 0 <= i < |gs| ==> GroupOk(gs[i])) && s == MoveText(gs) + rest
    requires rest == "" || !IsDigit(rest[0])
    requires PointCount(Expand(gs)) <= 8
    ensures Scan(s, 0, START) == Scan(s, |MoveText(gs)|, Lay(Expand(gs)))
  {
    if gs == [] {
      ScanNoGroups(gs, s);
    } else {
      hide *;
      var n := |gs| - 1;
      ExpandLast(gs);
      if n > 0 {
        MoveTextLast(gs);
        var t := GroupText(gs[n]);
        SplitInFour(MoveText(gs[..n]), " ", t, rest);
        GapFirst(t, rest);
        ScanGroups(s, gs[..n], " " + t + rest);
      } else {
        ScanNoGroups(gs[..n], s);
      }
      ScanLastGroup(s, gs, rest);
    }
  }

  lemma ScanLastGroup(s: string, gs: seq<Group>, rest: string)
    requires gs != [] && (forall i :: 0 <= i < |gs| ==> GroupOk(gs[i])) && s == MoveText(gs) + rest
    requires rest == "" || !IsDigit(rest[0])
    requires PointCount(Expand(gs)) <= 8 && |MoveText(gs[..|gs| - 1])| <= |s|
    requires Scan(s, 0, START) == Scan(s, |MoveText(gs[..|gs| - 1])|, Lay(Expand(gs[..|gs| - 1])))
    ensures Scan(s, 0, START) == Scan(s, |MoveText(gs)|, Lay(Expand(gs)))
  {
    hide *;
    var n := |gs| - 1;
    ExpandLast(gs);
    MoveTextLast(gs);
    ScanNext(s, MoveText(gs[..n]), if n > 0 then " " else "", gs[n], rest, Lay(Expand(gs[..n])));
  }

  lemma SplitInFour(a: string, b: string, c: string, d: string)
    ensures a + b + c + d == a + (b + c + d)
  {
  }

  lemma GapFirst(t: string, rest: string)
    ensures (" " + t + rest)[0] == ' ' && !IsDigit((" " + t + rest)[0])
  {
  }

  lemma ScanNoGroups(gs: seq<Group>, s: string)
    requires gs == []
    ensures MoveText(gs) == "" && Lay(Expand(gs)) == START
  {
  }

  /** Adding the last group adds its chain, as often as it is counted. */
  lemma ExpandLast(gs: seq<Group>)
    requires gs != [] && forall i :: 0 <= i < |gs| ==> GroupOk(gs[i])
    ensures PointCount(Expand(gs[..|gs| - 1])) <= PointCount(Expand(gs))
    ensures var n, g := |gs| - 1, gs[|gs| - 1];
            && Lay(Expand(gs)) == GrownTimes(Lay(Expand(gs[..n])), g.points, g.count)
            && PointCount(Expand(gs)) == PointCount(Expand(gs[..n])) + g.count * |g.points|
            && MarksInside(Lay(Expand(gs[..n]))) && |Lay(Expand(gs[..n])).anUser| == PointCount(Expand(gs[..n]))
  {
    var n := |gs| - 1;
    ExpandIs(gs);
    ExpandNonempty(gs[..n]);
    GrowsBy(Expand(gs[..n]), Expand(gs), gs[n].points, gs[n].count);
  }

  lemma GrowsBy(l: seq<Chain>, l': seq<Chain>, c: Chain, k: nat)
    requires l' == l + Copies(c, k) && forall i :: 0 <= i < |l| ==> l[i] != []
    ensures Lay(l') == GrownTimes(Lay(l), c, k) && PointCount(l') == PointCount(l) + k * |c|
    ensures PointCount(l) <= PointCount(l') && MarksInside(Lay(l)) && |Lay(l).anUser| == PointCount(l)
  {
    hide *;
    LayCopies(l, c, k);
    LayIsSettled(l);
    NotNegative(k, |c|);
  }

  lemma NotNegative(k: nat, n: nat)
    ensures k * n >= 0
  {
  }

  lemma ExpandIs(gs: seq<Group>)
    requires gs != []
    ensures Expand(gs) == Expand(gs[..|gs| - 1]) + Copies(gs[|gs| - 1].points, gs[|gs| - 1].count)
  {
  }

  lemma ScanNext(s: string, head: string, gap: string, g: Group, rest: string, st: Scanned)
    requires GroupOk(g) && s == head + gap + GroupText(g) + rest && (gap == "" || gap == " ")
    requires rest == "" || !IsDigit(rest[0])
    requires MarksInside(st) && |st.anUser| + g.count * |g.points| <= 8
    ensures Scan(s, |head|, st) == Scan(s, |head + gap + GroupText(g)|, GrownTimes(st, g.points, g.count))
  {
    hide GroupOk, GroupText, Scan, GrownTimes, MarksInside;
    var i, t := |head + gap|, GroupText(g);
    if gap == " " {
      assert s[|head|] == ' ';
      ScanIgnored(s, |head|, st);
    }
    assert s[i..i + |t|] == t;
    assert rest != "" ==> s[i + |t|] == rest[0];
    ScanGroup(s, i, g, st);
  }

  lemma MoveTextLast(gs: seq<Group>)
    requires gs != [] && forall i :: 0 <= i < |gs| ==> GroupOk(gs[i])
    ensures var n := |gs| - 1;
            MoveText(gs) == MoveText(gs[..n]) + (if n > 0 then " " else "") + GroupText(gs[n])
  {
  }

  lemma ExpandNonempty(gs: seq<Group>)
    requires forall i :: 0 <= i < |gs| ==> GroupOk(gs[i])
    ensures forall k :: 0 <= k < |Expand(gs)| ==> Expand(gs)[k] != []
  {
    ExpandAll(gs, c => c != []);
  }

  // ------------------------------------------------- pairing the points up

  /** The cells written for the first k points of a chain: an intermediate point
      is a destination and the next source. */
  function CellsUpTo(c: Chain, k: nat): seq<int>
    requires k <= |c|
  {
    if k == 0 then [] else CellsUpTo(c, k - 1) + (if 2 <= k < |c| then [c[k - 1], c[k - 1]] else [c[k - 1]])
  }

  lemma {:induction false} CellsLength(c: Chain, k: nat)
    requires k <= |c| && |c| >= 2
    ensures |CellsUpTo(c, k)| == if k == 0 then 0 else if k < |c| then 2 * k - 1 else 2 * k - 2
  {
    if k > 0 {
      CellsLength(c, k - 1);
    }
  }

  /** A chain that starts on the board or the bar, and ends on the board or off. */
  ghost predicate Emittable(c: Chain) {
    && |c| >= 2 && 1 <= c[0] <= 25 && 0 <= c[|c| - 1] <= 24
    && forall k :: 1 <= k < |c| - 1 ==> 1 <= c[k] <= 24
  }

  lemma PrintableEmits(b: Board, c: Chain)
    requires Printable(b, c)
    ensures Emittable(c)
  {
    Downhill(b, c, 0, |c| - 1);
  }

  /** The chain `c` stands at `pos` in the scanner's state. */
  ghost predicate LaidAt(st: Scanned, pos: nat, c: Chain) {
    && pos + |c| <= |st.anUser| && st.anUser[pos..pos + |c|] == c
    && forall j :: pos <= j <= pos + |c| ==> (j in st.fl <==> pos < j < pos + |c|)
  }

  lemma {:induction false} EmitPoints(st: Scanned, pos: nat, c: Chain, k: nat, an: seq<int>)
    requires LaidAt(st, pos, c) && Emittable(c) && k <= |c| && |an| % 2 == 0 && |an| + 2 * (|c| - 1) <= 8
    ensures Emit(st, pos, an) == Emit(st, pos + k, an + CellsUpTo(c, k))
  {
    if k == 0 {
      assert an + CellsUpTo(c, 0) == an;
    } else {
      EmitPoints(st, pos, c, k - 1, an);
      EmitPoint(st, pos, c, k, an);
    }
  }

  lemma EmitPoint(st: Scanned, pos: nat, c: Chain, k: nat, an: seq<int>)
    requires LaidAt(st, pos, c) && Emittable(c) && 1 <= k <= |c| && |an| % 2 == 0 && |an| + 2 * (|c| - 1) <= 8
    ensures pos + k <= |st.anUser|
    ensures Emit(st, pos + k - 1, an + CellsUpTo(c, k - 1)) == Emit(st, pos + k, an + CellsUpTo(c, k))
  {
    CellsLength(c, k - 1);
    assert st.anUser[pos..pos + |c|][k - 1] == c[k - 1];
    var sofar := an + CellsUpTo(c, k - 1);
    assert pos + k in st.fl <==> k < |c|;
    hide LaidAt, Emit;
    EmitOne(st, pos + k - 1, sofar, 2 <= k < |c|);
    assert an + CellsUpTo(c, k) == sofar + (if 2 <= k < |c| then [c[k - 1], c[k - 1]] else [c[k - 1]]);
  }

  lemma EmitOne(st: Scanned, j: nat, an: seq<int>, twice: bool)
    requires j < |st.anUser| && 0 <= st.anUser[j] <= 25 && |an| < 8
    requires twice <==> |an| % 2 == 1 && j + 1 in st.fl
    requires |an| % 2 == 0 ==> st.anUser[j] != 0
    requires |an| % 2 == 1 ==> st.anUser[j] != 25
    requires twice ==> st.anUser[j] != 0 && |an| < 7
    ensures Emit(st, j, an) == Emit(st, j + 1, an + (if twice then [st.anUser[j], st.anUser[j]] else [st.anUser[j]]))
  {
  }

  lemma {:induction false} ChainsAreLaid(l: seq<Chain>, k: nat)
    requires k < |l| && forall i :: 0 <= i < |l| ==> l[i] != []
    ensures LaidAt(Lay(l), PointCount(l[..k]), l[k])
  {
    var n := |l| - 1;
    LayIsSettled(l[..n]);
    if k < n {
      ChainsAreLaid(l[..n], k);
      assert l[..n][..k] == l[..k];
      LaidStays(Lay(l[..n]), PointCount(l[..k]), l[k], l[n]);
    }
  }

  lemma LaidStays(st: Scanned, pos: nat, c: Chain, d: Chain)
    requires LaidAt(st, pos, c) && MarksInside(st)
    ensures LaidAt(Grown(st, d), pos, c)
  {
    assert (st.anUser + d)[pos..pos + |c|] == st.anUser[pos..pos + |c|];
  }

  function AllCells(l: seq<Chain>): seq<int> {
    if l == [] then [] else AllCells(l[..|l| - 1]) + CellsUpTo(l[|l| - 1], |l[|l| - 1]|)
  }

  lemma SnocCells(l: seq<Chain>)
    requires l != []
    ensures AllCells(l) == AllCells(l[..|l| - 1]) + CellsUpTo(l[|l| - 1], |l[|l| - 1]|)
  {
  }

  lemma SnocEmptyList()
    ensures AllCells([]) == [] && StepsOf([]) == multiset{} && PointCount([]) == 0 && Lay([]) == START
  {
  }

  lemma {:induction false} AllCellsLength(l: seq<Chain>)
    requires forall k :: 0 <= k < |l| ==> |l[k]| >= 2
    ensures |AllCells(l)| == 2 * |StepsOf(l)|
  {
    SnocEmptyList();
    if l != [] {
      hide *;
      var n := |l| - 1;
      AllCellsLength(l[..n]);
      Snoc(l);
      SnocCells(l);
      CellsLength(l[n], |l[n]|);
      StepsCount(l[n]);
    }
  }

  lemma {:induction false} StepsOfPrefix(l: seq<Chain>, k: nat)
    requires k <= |l|
    ensures |StepsOf(l[..k])| <= |StepsOf(l)| && PointCount(l[..k]) <= PointCount(l)
    ensures k < |l| ==> |StepsOf(l[..k])| + |Steps(l[k])| <= |StepsOf(l)| && PointCount(l[..k]) + |l[k]| == PointCount(l[..k + 1])
  {
    hide *;
    if k == |l| {
      assert l[..k] == l;
    } else {
      var n := |l| - 1;
      Snoc(l);
      StepsOfPrefix(l[..n], k);
      assert l[..n][..k] == l[..k];
      Snoc(l[..k + 1]);
      assert l[..k + 1][..k] == l[..k];
    }
  }

  lemma {:induction false} EmitChains(l: seq<Chain>, k: nat)
    requires k <= |l| && forall i :: 0 <= i < |l| ==> Emittable(l[i])
    requires |StepsOf(l)| <= 4
    ensures PointCount(l[..k]) <= |Lay(l).anUser|
    ensures Emit(Lay(l), 0, []) == Emit(Lay(l), PointCount(l[..k]), AllCells(l[..k]))
  {
    AllNonempty(l);
    hide *;
    LayIsSettled(l);
    StepsOfPrefix(l, k);
    if k == 0 {
      SnocEmptyList();
      assert l[..0] == [];
    } else {
      EmitChains(l, k - 1);
      EmitNext(l, k);
    }
  }

  lemma EmitNext(l: seq<Chain>, k: nat)
    requires 1 <= k <= |l| && (forall i :: 0 <= i < |l| ==> Emittable(l[i])) && |StepsOf(l)| <= 4
    requires PointCount(l[..k - 1]) <= |Lay(l).anUser| && PointCount(l[..k]) <= |Lay(l).anUser|
    ensures Emit(Lay(l), PointCount(l[..k - 1]), AllCells(l[..k - 1])) == Emit(Lay(l), PointCount(l[..k]), AllCells(l[..k]))
  {
    AllNonempty(l);
    hide *;
    var j := k - 1;
    NextCells(l, k);
    NextPoints(l, k);
    ChainsAreLaid(l, j);
    EmitChain(Lay(l), PointCount(l[..j]), l[j], AllCells(l[..j]), PointCount(l[..k]), AllCells(l[..k]));
  }

  lemma NextPoints(l: seq<Chain>, k: nat)
    requires 1 <= k <= |l|
    ensures PointCount(l[..k]) == PointCount(l[..k - 1]) + |l[k - 1]|
  {
    Snoc(l[..k]);
    assert l[..k][..k - 1] == l[..k - 1];
  }

  lemma EmitChain(st: Scanned, pos: nat, c: Chain, an: seq<int>, pos': nat, an': seq<int>)
    requires LaidAt(st, pos, c) && Emittable(c) && |c| >= 2 && |an| % 2 == 0 && |an| + 2 * (|c| - 1) <= 8
    requires pos' == pos + |c| <= |st.anUser| && an' == an + CellsUpTo(c, |c|)
    ensures Emit(st, pos, an) == Emit(st, pos', an')
  {
    hide *;
    EmitPoints(st, pos, c, |c|, an);
  }

  lemma AllNonempty(l: seq<Chain>)
    requires forall i :: 0 <= i < |l| ==> Emittable(l[i])
    ensures forall i :: 0 <= i < |l| ==> |l[i]| >= 2
  {
  }

  lemma NextCells(l: seq<Chain>, k: nat)
    requires 1 <= k <= |l| && (forall i :: 0 <= i < |l| ==> |l[i]| >= 2) && |StepsOf(l)| <= 4
    ensures AllCells(l[..k]) == AllCells(l[..k - 1]) + CellsUpTo(l[k - 1], |l[k - 1]|)
    ensures |AllCells(l[..k - 1])| % 2 == 0 && |AllCells(l[..k - 1])| + 2 * (|l[k - 1]| - 1) <= 8
  {
    hide *;
    assert l[..k][..k - 1] == l[..k - 1] && l[..k][k - 1] == l[k - 1];
    SnocCells(l[..k]);
    AllCellsLength(l[..k - 1]);
    StepsCount(l[k - 1]);
    StepsOfPrefix(l, k - 1);
  }

  // -- the pairs are the sub-moves

  lemma FirstPair(x: seq<int>)
    requires |x| >= 2 && |x| % 2 == 0
    ensures PairUp(x) == [(x[0], x[1])] + PairUp(x[2..])
  {
  }

  lemma {:induction false} PairUpAppends(x: seq<int>, y: seq<int>)
    requires |x| % 2 == 0 && |y| % 2 == 0
    ensures PairUp(x + y) == PairUp(x) + PairUp(y)
  {
    if x == [] {
      assert x + y == y;
    } else {
      PairUpAppends(x[2..], y);
      FirstPair(x);
      FirstPair(x + y);
      hide *;
      assert (x + y)[2..] == x[2..] + y;
    }
  }

  lemma {:induction false} CellsOfPrefix(c: Chain, n: nat, k: nat)
    requires k < n <= |c|
    ensures CellsUpTo(c, k) == CellsUpTo(c[..n], k)
  {
    if k > 0 {
      CellsOfPrefix(c, n, k - 1);
    }
  }

  lemma {:induction false} ChainPairs(c: Chain)
    requires |c| >= 2
    ensures |CellsUpTo(c, |c|)| % 2 == 0 && multiset(PairUp(CellsUpTo(c, |c|))) == Steps(c)
  {
    hide *;
    var n := |c| - 1;
    CellsLength(c, |c|);
    if n == 1 {
      StepsOfPair(c);
      CellsOfTwo(c);
      PairUpTwo(c[0], c[1]);
    } else {
      var d := c[..n];
      ChainPairs(d);
      CellsOfPrefix(c, n, n - 1);
      CellsJoin(c, d, n);
      assert c == d + [c[n]];
      OnePairMore(d, c[n], CellsUpTo(d, n));
    }
  }

  lemma CellsOfTwo(c: Chain)
    requires |c| == 2
    ensures CellsUpTo(c, 2) == [c[0], c[1]]
  {
    assert CellsUpTo(c, 1) == [c[0]];
  }

  lemma OnePairMore(d: Chain, x: int, cells: seq<int>)
    requires |d| >= 1 && |cells| % 2 == 0 && multiset(PairUp(cells)) == Steps(d)
    ensures |cells + [d[|d| - 1], x]| % 2 == 0 && multiset(PairUp(cells + [d[|d| - 1], x])) == Steps(d + [x])
  {
    hide *;
    PairUpTwo(d[|d| - 1], x);
    PairUpAppends(cells, [d[|d| - 1], x]);
    StepsSnoc(d, x);
  }

  lemma PairUpTwo(x: int, y: int)
    ensures PairUp([x, y]) == [(x, y)]
  {
    assert [x, y][2..] == [];
  }

  lemma CellsJoin(c: Chain, d: Chain, n: nat)
    requires n == |c| - 1 >= 2 && d == c[..n] && CellsUpTo(c, n - 1) == CellsUpTo(d, n - 1)
    ensures CellsUpTo(c, |c|) == CellsUpTo(d, n) + [c[n - 1], c[n]]
  {
    var x := CellsUpTo(c, n - 1);
    assert CellsUpTo(c, n) == x + [c[n - 1], c[n - 1]];
    assert CellsUpTo(c, n + 1) == CellsUpTo(c, n) + [c[n]];
    assert CellsUpTo(d, n) == x + [c[n - 1]];
  }

  lemma {:induction false} AllPairs(l: seq<Chain>)
    requires forall k :: 0 <= k < |l| ==> |l[k]| >= 2
    ensures |AllCells(l)| % 2 == 0 && multiset(PairUp(AllCells(l))) == StepsOf(l)
  {
    AllCellsLength(l);
    if l != [] {
      var n := |l| - 1;
      AllPairs(l[..n]);
      ChainPairs(l[n]);
      PairUpAppends(AllCells(l[..n]), CellsUpTo(l[n], |l[n]|));
    }
  }

  // ----------------------------------------------------- parsing the text

  /** ParseMove reads from FormatMove's text the sub-moves the text stands for. */
  lemma TextParses(b: Board, gs: seq<Group>) returns (ms: seq<Pair>)
    requires GoodGroups(b, gs) && |GroupSteps(gs)| <= 4
    ensures Parse(MoveText(gs)) == Good(ms) && InOrder(ms) && multiset(ms) == GroupSteps(gs)
  {
    var l := Expand(gs);
    GoodGroupsOk(b, gs);
    ExpandSteps(gs);
    AllNonempty(l);
    hide *;
    PointsAtMostTwice(l);
    ScanGroups(MoveText(gs) + "", gs, "");
    EmitChains(l, |l|);
    AllPairs(l);
    ms := InCanonicalOrder(PairUp(AllCells(l)));
    CanonicalIsSorted(PairUp(AllCells(l)));
    assert MoveText(gs) + "" == MoveText(gs) && l[..|l|] == l;
    ParseIs(MoveText(gs), l);
  }

  lemma GoodGroupsOk(b: Board, gs: seq<Group>)
    requires GoodGroups(b, gs)
    ensures forall i :: 0 <= i < |gs| ==> GroupOk(gs[i])
    ensures forall k :: 0 <= k < |Expand(gs)| ==> Emittable(Expand(gs)[k])
  {
    hide GroupOk, StarsRight, Printable, DistinctRows, Emittable;
    forall i | 0 <= i < |gs| ensures Emittable(gs[i].points) {
      PrintableEmits(b, gs[i].points);
    }
    ExpandAll(gs, c => Emittable(c));
  }

  lemma ParseIs(s: string, l: seq<Chain>)
    requires (forall k :: 0 <= k < |l| ==> |l[k]| >= 2) && Scan(s, 0, START) == Scan(s, |s|, Lay(l))
    requires PointCount(l) <= |Lay(l).anUser| && Emit(Lay(l), 0, []) == Emit(Lay(l), PointCount(l), AllCells(l))
    requires |AllCells(l)| % 2 == 0
    ensures Parse(s) == Good(InCanonicalOrder(PairUp(AllCells(l))))
  {
    LayIsSettled(l);
    assert Scan(s, |s|, Lay(l)) == Good(Lay(l));
    assert Emit(Lay(l), PointCount(l), AllCells(l)) == Good(AllCells(l));
  }

  // ----------------------------------------------- the board that is reached

  /** The board stays feasible: no point would end with fewer than no chequers. */
  ghost predicate Feasible(b: Board, ms: multiset<Pair>) {
    forall p :: 0 <= p < 25 ==> b.us[p] + Arrivals(ms, p + 1) - Departures(ms, p + 1) >= 0
  }

  /** In canonical order everything that reaches a point does so before anything
      leaves it, so the next source is occupied. */
  lemma NextSourceOccupied(b: Board, ms: seq<Pair>, i: nat, c: Board)
    requires InOrder(ms) && i < |ms| && (forall k :: 0 <= k < |ms| ==> IsPair(ms[k]))
    requires Feasible(b, multiset(ms)) && Settled(b, multiset(ms[..i]), c)
    ensures 1 <= ms[i].0 <= 25 && c.us[ms[i].0 - 1] > 0
  {
    var s, done, left := ms[i].0, multiset(ms[..i]), multiset(ms[i..]);
    assert ms == ms[..i] + ms[i..];
    Adding(done, left, s);
    NoneArrives(ms[i..], s);
    assert IsPair(ms[i]);
    assert ms[i..] == [ms[i]] + ms[i + 1..];
    Adding(multiset{ms[i]}, multiset(ms[i + 1..]), s);
    One(ms[i], s);
    assert c.us[s - 1] == b.us[s - 1] + Arrivals(done, s) - Departures(done, s);
  }

  lemma {:induction false} NoneArrives(ms: seq<Pair>, s: int)
    requires forall k :: 0 <= k < |ms| ==> IsPair(ms[k]) && ms[k].0 <= s
    ensures Arrivals(multiset(ms), s) == 0
  {
    if ms == [] {
      BelowNone(s, 26);
    } else {
      var n := |ms| - 1;
      NoneArrives(ms[..n], s);
      assert ms == ms[..n] + [ms[n]];
      Adding(multiset(ms[..n]), multiset{ms[n]}, s);
      One(ms[n], s);
    }
  }

  /** ApplyMove without the die check plays the sub-moves of a canonical list one
      after the other, and leaves the board they settle. */
  lemma {:induction false} ListApplies(b: Board, ms: seq<Pair>, cells: seq<int>, i: nat, c: Board)
    requires |cells| == 8 && |ms| <= 4 && HoldsPairs(cells, Shifted(ms, -1)) && (|ms| < 4 ==> cells[2 * |ms|] < 0)
    requires InOrder(ms) && (forall k :: 0 <= k < |ms| ==> PairPlayable(b, ms[k])) && Feasible(b, multiset(ms))
    requires i <= |ms| && Settled(b, multiset(ms[..i]), c) && Unshared(c)
    ensures MoveResult(c, cells, i, false).0 == 0
    ensures Settled(b, multiset(ms), MoveResult(c, cells, i, false).1)
    decreases |ms| - i
  {
    if i == |ms| {
      assert ms[..i] == ms;
    } else {
      hide *;
      var d := OneApplies(b, ms, cells, i, c);
      ListApplies(b, ms, cells, i + 1, d);
    }
  }

  lemma OneApplies(b: Board, ms: seq<Pair>, cells: seq<int>, i: nat, c: Board) returns (d: Board)
    requires |cells| == 8 && |ms| <= 4 && HoldsPairs(cells, Shifted(ms, -1)) && i < |ms|
    requires InOrder(ms) && (forall k :: 0 <= k < |ms| ==> PairPlayable(b, ms[k])) && Feasible(b, multiset(ms))
    requires Settled(b, multiset(ms[..i]), c) && Unshared(c)
    ensures MoveResult(c, cells, i, false) == MoveResult(d, cells, i + 1, false)
    ensures Settled(b, multiset(ms[..i + 1]), d) && Unshared(d)
  {
    var src, dest := ms[i].0 - 1, ms[i].1 - 1;
    assert PairPlayable(b, ms[i]);
    CellsHold(ms, cells, i);
    OpenStays(b, ms[..i], c, dest);
    NextSourceOccupied(b, ms, i, c);
    hide Settled, Feasible, InOrder;
    SettleStep(b, multiset(ms[..i]), c, src, dest);
    assert ms[..i + 1] == ms[..i] + [ms[i]];
    d := SubMove(c, src, src - dest);
    MoveResultStep(c, cells, i, src, dest);
  }

  lemma CellsHold(ms: seq<Pair>, cells: seq<int>, i: nat)
    requires |cells| == 8 && HoldsPairs(cells, Shifted(ms, -1)) && i < |ms| <= 4
    ensures cells[2 * i] == ms[i].0 - 1 && cells[2 * i + 1] == ms[i].1 - 1
  {
    assert Shifted(ms, -1)[i] == (ms[i].0 - 1, ms[i].1 - 1);
  }

  lemma OpenStays(b: Board, ms: seq<Pair>, c: Board, dest: int)
    requires Settled(b, multiset(ms), c) && -1 <= dest <= 23 && (dest >= 0 ==> b.them[23 - dest] < 2)
    ensures dest >= 0 ==> c.them[23 - dest] < 2
  {
    if dest >= 0 {
      assert c.them[23 - dest] == if Arrivals(multiset(ms), 24 - (23 - dest)) > 0 then 0 else b.them[23 - dest];
    }
  }

  lemma MoveResultStep(c: Board, cells: seq<int>, i: nat, src: int, dest: int)
    requires |cells| == 8 && i < 4 && cells[2 * i] == src && cells[2 * i + 1] == dest
    requires -1 <= dest < src < 25 && c.us[src] > 0 && (dest >= 0 ==> c.them[23 - dest] < 2)
    ensures MoveResult(c, cells, i, false) == MoveResult(SubMove(c, src, src - dest), cells, i + 1, false)
  {
    assert SubMoveResult(c, src, src - dest, false) == (0, SubMove(c, src, src - dest));
  }

  // ------------------------------------------------------------ the theorem

  /** The cells of a play recorded by the move generator. */
  ghost predicate RecordsPlay(cells: seq<int>, p: Play) {
    && |cells| == 8 && |p.srcs| <= |p.dice| && |p.srcs| <= 4
    && (forall j :: 0 <= j < |p.srcs| ==> cells[2 * j] == p.srcs[j] && cells[2 * j + 1] == Landing(p.srcs[j], p.dice[j]))
    && (|p.srcs| < 4 ==> cells[2 * |p.srcs|] == -1)
  }

  lemma ShownIsPlay(cells: seq<int>, p: Play)
    requires RecordsPlay(cells, p)
    ensures |cells| == 8 && Shown(cells) == PairsOf(p.srcs, p.dice)
  {
    var ms: seq<Pair> := seq(|p.srcs|, i requires 0 <= i < |p.srcs| => (p.srcs[i], Landing(p.srcs[i], p.dice[i])));
    PairsInHeld(cells, ms, 0);
    assert PairsIn(cells, 0) == ms[0..] == ms;
    assert Shown(cells) == PairsOf(p.srcs, p.dice);
  }

  lemma PlayIsShowable(b: Board, p: Play, m: Pair)
    requires |p.srcs| <= |p.dice| && LandsOpen(b, p.srcs, p.dice) && m in PairsOf(p.srcs, p.dice)
    ensures PairPlayable(b, m)
  {
    var i :| 0 <= i < |p.srcs| && PairsOf(p.srcs, p.dice)[i] == m;
    assert m == PairOf(p.srcs[i], p.dice[i]);
  }

  lemma SettledIsFeasible(b: Board, ms: multiset<Pair>, ns: multiset<Pair>, c: Board)
    requires Settled(b, ms, c) && SameEffect(b, ms, ns)
    ensures Feasible(b, ns)
  {
    forall p | 0 <= p < 25 ensures b.us[p] + Arrivals(ns, p + 1) - Departures(ns, p + 1) >= 0 {
      assert Arrivals(ms, p + 1) - Departures(ms, p + 1) == Arrivals(ns, p + 1) - Departures(ns, p + 1);
      assert c.us[p] == b.us[p] + Arrivals(ms, p + 1) - Departures(ms, p + 1);
    }
  }

  lemma {:induction false} StepsArePlayable(b: Board, c: Chain, k: nat, m: Pair)
    requires Printable(b, c) && k < |c| && m in Steps(c[..k + 1])
    ensures PairPlayable(b, m)
  {
    if k > 0 {
      assert c[..k + 1] == c[..k] + [c[k]];
      StepsSnoc(c[..k], c[k]);
      if m == (c[k - 1], c[k]) {
        Downhill(b, c, k - 1, k);
      } else {
        StepsArePlayable(b, c, k - 1, m);
      }
    }
  }

  lemma {:induction false} ListIsPlayable(b: Board, l: seq<Chain>, m: Pair)
    requires (forall i :: 0 <= i < |l| ==> Printable(b, l[i])) && m in StepsOf(l)
    ensures PairPlayable(b, m)
  {
    if l != [] {
      var n := |l| - 1;
      Snoc(l);
      if m in Steps(l[n]) {
        assert l[n][..|l[n]| - 1 + 1] == l[n];
        StepsArePlayable(b, l[n], |l[n]| - 1, m);
      } else {
        ListIsPlayable(b, l[..n], m);
      }
    }
  }

  lemma GroupsArePlayable(b: Board, gs: seq<Group>, ms: seq<Pair>)
    requires GoodGroups(b, gs) && multiset(ms) == GroupSteps(gs)
    ensures forall k :: 0 <= k < |ms| ==> PairPlayable(b, ms[k])
  {
    hide GroupOk, StarsRight, Printable, DistinctRows, GroupSteps, PairPlayable, Steps;
    ExpandAll(gs, c => Printable(b, c));
    ExpandSteps(gs);
    forall k | 0 <= k < |ms| ensures PairPlayable(b, ms[k]) {
      assert ms[k] in multiset(ms);
      ListIsPlayable(b, Expand(gs), ms[k]);
    }
  }

  /** The sub-moves read back take the board where the play takes it. */
  lemma ReadMovesReachThePlay(b: Board, p: Play, gs: seq<Group>, ms: seq<Pair>, cells: seq<int>)
    requires Unshared(b) && Playable(b, p.srcs, p.dice) && |p.srcs| <= |p.dice|
    requires GoodGroups(b, gs) && SameEffect(b, multiset(PairsOf(p.srcs, p.dice)), GroupSteps(gs))
    requires InOrder(ms) && multiset(ms) == GroupSteps(gs) && |ms| <= 4
    requires |cells| == 8 && HoldsPairs(cells, Shifted(ms, -1)) && (|ms| < 4 ==> cells[2 * |ms|] < 0)
    ensures MoveResult(b, cells, 0, false) == (0, After(b, p.srcs, p.dice))
  {
    hide *;
    RunSettles(b, p.srcs, p.dice);
    SettledIsFeasible(b, multiset(PairsOf(p.srcs, p.dice)), multiset(ms), After(b, p.srcs, p.dice));
    GroupsArePlayable(b, gs, ms);
    NothingSettles(b);
    assert multiset(ms[..0]) == multiset{};
    ListApplies(b, ms, cells, 0, b);
    SettledIsUnique(b, multiset(PairsOf(p.srcs, p.dice)), multiset(ms), After(b, p.srcs, p.dice), MoveResult(b, cells, 0, false).1);
  }

  /** parsemove_to_anmove: points from 0 again, unused pairs -1, canonical order. */
  method ParseMoveToAnMove(c: nat, an: array<int>, ghost ms: seq<Pair>)
    requires an.Length == 8 && c == |ms| <= 4 && HoldsPairs(an[..], ms)
    requires InOrder(ms) && forall k :: 0 <= k < |ms| ==> ms[k].0 >= 1
    modifies an
    ensures HoldsPairs(an[..], Shifted(ms, -1)) && (|ms| < 4 ==> an[2 * |ms|] == -1)
  {
    var i := 0;
    while i < 4
      invariant 0 <= i <= 4
      invariant forall k :: 0 <= k < |ms| ==>
                  && an[2 * k] == (if k < i then ms[k].0 - 1 else ms[k].0)
                  && an[2 * k + 1] == (if k < i then ms[k].1 - 1 else ms[k].1)
      invariant forall k :: |ms| <= k < i ==> an[2 * k] == -1
    {
      if i < c {
        an[2 * i] := an[2 * i] - 1;
        an[2 * i + 1] := an[2 * i + 1] - 1;
      } else {
        an[2 * i] := -1;
        an[2 * i + 1] := -1;
      }
      i := i + 1;
    }
    ghost var ns := Shifted(ms, -1);
    assert HoldsPairs(an[..], ns);
    PairsInHeld(an[..], ns, 0);
    assert ns[0..] == ns;
    ShiftKeepsOrder(ms, -1);
    CanonicalMoveOrder(an);
    if |ms| < 4 {
      assert an[2 * |ms|] == an[2 * |ms|..][0];
    }
  }

  lemma ShiftKeepsOrder(ms: seq<Pair>, k: int)
    requires InOrder(ms)
    ensures InCanonicalOrder(Shifted(ms, k)) == Shifted(ms, k)
  {
    assert InOrder(Shifted(ms, k));
    CanonicalIsSorted(Shifted(ms, k));
    SortedIsUnique(InCanonicalOrder(Shifted(ms, k)), Shifted(ms, k));
  }

  /** A move stored by the generator records its play in the form shown here. */
  lemma StoredMoveRecords(b: Board, m: MoveGenerator.Move, p: Play)
    requires MoveGenerator.Records(b, m, p) && |p.srcs| <= 4
    ensures RecordsPlay(m.anMove, p)
  {
  }

  /** FormatMove on a recorded play. */
  method ShowPlay(b: Board, anMove: seq<int>, ghost p: Play) returns (sz: string, ghost gs: seq<Group>)
    requires Unshared(b) && Playable(b, p.srcs, p.dice) && RecordsPlay(anMove, p) && |p.srcs| <= |p.dice|
    ensures GoodGroups(b, gs) && sz == MoveText(gs)
    ensures SameEffect(b, multiset(PairsOf(p.srcs, p.dice)), GroupSteps(gs))
    ensures Shortened(multiset(PairsOf(p.srcs, p.dice)), GroupSteps(gs))
  {
    hide *;
    ShownIsPlay(anMove, p);
    RunSettles(b, p.srcs, p.dice);
    forall m | m in Shown(anMove) ensures PairPlayable(b, m) {
      PlayIsShowable(b, p, m);
    }
    sz, gs := FormatMove(b, anMove);
    ShowsIs(b, multiset(PairsOf(p.srcs, p.dice)), sz, gs);
  }

  /** ParseMove on a shown play, and the cells handed to ApplyMove. */
  method ReadPlay(b: Board, sz: string, ghost p: Play, ghost gs: seq<Group>) returns (r: int, an: array<int>)
    requires Unshared(b) && Playable(b, p.srcs, p.dice) && |p.srcs| <= |p.dice|
    requires GoodGroups(b, gs) && sz == MoveText(gs) && |GroupSteps(gs)| <= 4
    requires SameEffect(b, multiset(PairsOf(p.srcs, p.dice)), GroupSteps(gs))
    ensures 0 <= r <= 4 && fresh(an) && an.Length == 8
    ensures MoveResult(b, an[..], 0, false) == (0, After(b, p.srcs, p.dice))
  {
    hide *;
    ghost var ms := TextParses(b, gs);
    an := new int[8];
    SmallList(ms, GroupSteps(gs));
    r := ParseMove(sz, an);
    GroupsArePlayable(b, gs, ms);
    SourcesPositive(b, ms);
    ParseMoveToAnMove(r, an, ms);
    ReadMovesReachThePlay(b, p, gs, ms, an[..]);
  }

  /** Show a play, read the text back and apply it: the move is understood, applies
      without error, and the board is the one the play reaches. */
  method ShowAndReadBack(b: Board, anMove: seq<int>, ghost p: Play)
    returns (sz: string, r: int, e: int, c: Board, ghost gs: seq<Group>)
    requires Unshared(b) && Playable(b, p.srcs, p.dice) && RecordsPlay(anMove, p)
    ensures 0 <= r <= 4 && e == 0 && c == After(b, p.srcs, p.dice)
    ensures |p.srcs| <= |p.dice| && GoodGroups(b, gs) && sz == MoveText(gs)
    ensures Shortened(multiset(PairsOf(p.srcs, p.dice)), GroupSteps(gs))
  {
    hide *;
    PlayableLength(b, p.srcs, p.dice);
    sz, gs := ShowPlay(b, anMove, p);
    AtMostFour(multiset(PairsOf(p.srcs, p.dice)), GroupSteps(gs));
    var an;
    r, an := ReadPlay(b, sz, p, gs);
    e, c := ApplyToCopy(b, an);
  }

  lemma AtMostFour(ms: multiset<Pair>, ns: multiset<Pair>)
    requires Shortened(ms, ns)
    ensures |ns| <= 4
  {
  }

  method ApplyToCopy(b: Board, an: array<int>) returns (e: int, c: Board)
    requires an.Length == 8
    ensures (e, c) == MoveResult(b, an[..], 0, false)
  {
    hide *;
    var them := new nat[25](i requires 0 <= i < 25 => b.them[i]);
    var us := new nat[25](i requires 0 <= i < 25 => b.us[i]);
    assert them[..] == b.them && us[..] == b.us;
    BoardIs(them, us, b);
    e := ApplyMove(them, us, an[..], false);
    c := Board(them[..], us[..]);
    BoardIs(them, us, c);
  }

  lemma SmallList(ms: seq<Pair>, ns: multiset<Pair>)
    requires multiset(ms) == ns && |ns| <= 4
    ensures |ms| <= 4
  {
    assert |multiset(ms)| == |ms|;
  }

  lemma SourcesPositive(b: Board, ms: seq<Pair>)
    requires forall k :: 0 <= k < |ms| ==> PairPlayable(b, ms[k])
    ensures forall k :: 0 <= k < |ms| ==> ms[k].0 >= 1
  {
    forall k | 0 <= k < |ms| ensures ms[k].0 >= 1 {
      assert PairPlayable(b, ms[k]);
    }
  }

  lemma BoardIs(them: array<nat>, us: array<nat>, b: Board)
    requires them != us && them.Length == us.Length == 25 && them[..] == b.them && us[..] == b.us
    ensures InMemory(them, us) && BoardAt(them, us) == b
  {
  }
}
