/** FormatMovePlain of gnubg/drawboard.c and its inverse ParseMove: one "s/d" for
    each sub-move, points as plain numbers. */
module PlainText {
  import opened Boards
  import opened Settling
  import opened PairOrder
  import opened Chains
  import opened MoveFormatter
  import opened MoveParser
  import opened TextScan
  import opened RoundTrip

  /** FormatPointPlain. */
  function PlainPoint(n: int): string
    requires 0 <= n <= 25
  {
    (if n > 9 then [Digit(n / 10)] else []) + [Digit(n % 10)]
  }

  /** A sub-move that can be written: from a point or the bar to a point or off. */
  predicate Writable(m: Pair) {
    1 <= m.0 <= 25 && 0 <= m.1 <= 24
  }

  function PairText(m: Pair, star: bool, gap: bool): string
    requires Writable(m)
  {
    PlainPoint(m.0) + "/" + PlainPoint(m.1) + (if star then "*" else "") + (if gap then " " else "")
  }

  /** The text of the first k sub-moves; all but the fourth are followed by a space. */
  function PlainText(ms: seq<Pair>, stars: seq<bool>, k: nat): string
    requires k <= |ms| && k <= |stars| && forall i :: 0 <= i < |ms| ==> Writable(ms[i])
  {
    if k == 0 then "" else PlainText(ms, stars, k - 1) + PairText(ms[k - 1], stars[k - 1], k < 4)
  }

  /** The first sub-move to land on a blot carries the mark. */
  ghost predicate FirstHit(b: Board, given: bool, ms: seq<Pair>, i: nat)
    requires i < |ms|
  {
    given && Blot(b, ms[i].1) && forall j :: 0 <= j < i ==> ms[j].1 != ms[i].1
  }

  /** The search for an earlier landing on the same point. */
  method LandsFirst(anMove: seq<int>, i: nat, ghost ms: seq<Pair>) returns (first: bool)
    requires |anMove| == 8 && i < 8 && i % 2 == 0 && i / 2 < |ms|
    requires forall k :: 0 <= k <= i / 2 ==> ms[k].1 == anMove[2 * k + 1] + 1
    ensures first <==> forall k :: 0 <= k < i / 2 ==> ms[k].1 != ms[i / 2].1
  {
    var j := 1;
    assert 2 * (i / 2) == i;
    while j <= i
      invariant 1 <= j <= i + 1 && j % 2 == 1
      invariant forall k :: 0 <= k < j / 2 ==> ms[k].1 != ms[i / 2].1
    {
      assert 2 * (j / 2) + 1 == j && ms[j / 2].1 == anMove[j] + 1;
      if anMove[i + 1] == anMove[j] {
        return false;
      }
      j := j + 2;
    }
    first := true;
  }

  lemma {:induction false} TextOfPrefix(ms: seq<Pair>, stars: seq<bool>, star: bool, k: nat)
    requires k <= |ms| && k <= |stars| && forall i :: 0 <= i < |ms| ==> Writable(ms[i])
    ensures PlainText(ms, stars + [star], k) == PlainText(ms, stars, k)
  {
    if k > 0 {
      TextOfPrefix(ms, stars, star, k - 1);
    }
  }

  lemma NextText(ms: seq<Pair>, stars: seq<bool>, star: bool)
    requires |stars| < |ms| && forall i :: 0 <= i < |ms| ==> Writable(ms[i])
    ensures PlainText(ms, stars + [star], |stars| + 1)
         == PlainText(ms, stars, |stars|) + PairText(ms[|stars|], star, |stars| < 3)
  {
    TextOfPrefix(ms, stars, star, |stars|);
  }

  method AppendPair(sz: string, m: Pair, star: bool, gap: bool) returns (pch: string)
    requires Writable(m)
    ensures pch == sz + PairText(m, star, gap)
  {
    pch := sz + PlainPoint(m.0);
    pch := pch + "/";
    pch := pch + PlainPoint(m.1);
    if star {
      pch := pch + "*";
    }
    if gap {
      pch := pch + " ";
    }
  }

  ghost predicate StarsFirst(b: Board, given: bool, ms: seq<Pair>, stars: seq<bool>) {
    |stars| <= |ms| && forall i :: 0 <= i < |stars| ==> (stars[i] <==> FirstHit(b, given, ms, i))
  }

  /** The text of sub-moves with the given marks, the right ones. */
  ghost predicate ShowsPlainly(b: Board, given: bool, ms: seq<Pair>, sz: string, stars: seq<bool>) {
    && |stars| == |ms| && (forall i :: 0 <= i < |ms| ==> Writable(ms[i]))
    && sz == PlainText(ms, stars, |ms|) && StarsFirst(b, given, ms, stars)
  }

  ghost predicate IsPlainTextOf(b: Board, given: bool, ms: seq<Pair>, sz: string) {
    exists stars :: ShowsPlainly(b, given, ms, sz, stars)
  }

  lemma ShownPlainly(b: Board, given: bool, ms: seq<Pair>, sz: string, stars: seq<bool>)
    requires ShowsPlainly(b, given, ms, sz, stars)
    ensures |stars| == |ms| && (forall i :: 0 <= i < |ms| ==> Writable(ms[i])) && sz == PlainText(ms, stars, |ms|)
  {
  }

  /** The mark of the sub-move in cells i and i + 1. */
  method MarkOf(b: Board, given: bool, anMove: seq<int>, i: nat) returns (star: bool)
    requires |anMove| == 8 && i < 8 && i % 2 == 0 && i / 2 < |Shown(anMove)| && -1 <= anMove[i + 1] <= 23
    ensures star <==> FirstHit(b, given, Shown(anMove), i / 2)
  {
    PairsInBounds(anMove, 0);
    ghost var ms := Shown(anMove);
    assert 2 * (i / 2) == i;
    assert forall j :: 0 <= j <= i / 2 ==> ms[j].1 == anMove[2 * j + 1] + 1;
    star := false;
    if given && anMove[i + 1] >= 0 && b.them[23 - anMove[i + 1]] > 0 {
      star := LandsFirst(anMove, i, ms);
    }
  }

  /** The text of a move: its sub-moves, the first hit on each blot marked. */
  method FormatMovePlain(b: Board, given: bool, anMove: seq<int>) returns (sz: string, ghost stars: seq<bool>)
    requires |anMove| == 8 && forall i :: 0 <= i < |Shown(anMove)| ==> Writable(Shown(anMove)[i])
    ensures IsPlainTextOf(b, given, Shown(anMove), sz)
    ensures ShowsPlainly(b, given, Shown(anMove), sz, stars)
  {
    hide PlainText, PairText, FirstHit;
    ghost var ms := Shown(anMove);
    PairsInBounds(anMove, 0);
    assert |ms| == |PairsIn(anMove, 0)|;
    sz, stars := "", [];
    NoPairs(ms);
    var i: nat := 0;
    while i < 8 && anMove[i] >= 0
      invariant 0 <= i <= 8 && i == 2 * |stars| && |stars| <= |ms|
      invariant sz == PlainText(ms, stars, |stars|) && StarsFirst(b, given, ms, stars)
    {
      ghost var k := |stars|;
      assert i == 2 * k && anMove[2 * k] >= 0;
      assert k < |ms| && ms[k] == (anMove[i] + 1, anMove[i + 1] + 1) && Writable(ms[k]);
      var star := MarkOf(b, given, anMove, i);
      NextText(ms, stars, star);
      sz := AppendPair(sz, (anMove[i] + 1, anMove[i + 1] + 1), star, i < 6);
      stars := stars + [star];
      i := i + 2;
    }
    assert i < 8 ==> anMove[2 * |stars|] < 0;
    assert ShowsPlainly(b, given, ms, sz, stars);
  }

  lemma NoPairs(ms: seq<Pair>)
    requires forall i :: 0 <= i < |ms| ==> Writable(ms[i])
    ensures PlainText(ms, [], 0) == ""
  {
  }

  // ------------------------------------------------------- reading it back

  lemma ScanPlainPoint(s: string, i: nat, n: int, st: Scanned)
    requires 0 <= n <= 25 && Occurs(s, i, PlainPoint(n)) && !IsDigit(At(s, i + |PlainPoint(n)|)) && |st.anUser| < 8
    ensures Scan(s, i, st) == Scan(s, i + |PlainPoint(n)|, WithPoint(st, n))
  {
    OccursAt(s, i, PlainPoint(n), 0);
    DigitIs(if n > 9 then n / 10 else n);
    if n > 9 {
      assert PlainPoint(n) == [Digit(n / 10), Digit(n % 10)];
      TwoDigits(s, i, n / 10, n % 10);
      assert Lex(s, i, st) == Good((i + 2, WithPoint(st, n)));
    } else {
      assert PlainPoint(n) == [Digit(n)];
      OneDigit(s, i, n);
      assert Lex(s, i, st) == Good((i + 1, WithPoint(st, n)));
    }
  }

  /** The mark and the space after a sub-move. */
  function Tail(star: bool, gap: bool): string {
    (if star then "*" else "") + (if gap then " " else "")
  }

  lemma ScanTail(s: string, i: nat, star: bool, gap: bool, st: Scanned)
    requires Occurs(s, i, Tail(star, gap))
    ensures Scan(s, i, st) == Scan(s, i + |Tail(star, gap)|, st)
    ensures Tail(star, gap) != "" ==> !IsDigit(At(s, i))
  {
    var t := Tail(star, gap);
    hide Scan, Occurs, At;
    if star {
      OccursAt(s, i, t, 0);
      ScanIgnored(s, i, st);
    }
    if gap {
      OccursAt(s, i, t, |t| - 1);
      ScanIgnored(s, i + |t| - 1, st);
    }
  }

  lemma PairParts(s: string, i: nat, m: Pair, star: bool, gap: bool)
    requires Writable(m) && Occurs(s, i, PairText(m, star, gap))
    ensures var p, q, r := PlainPoint(m.0), PlainPoint(m.1), Tail(star, gap);
            && |PairText(m, star, gap)| == |p| + 1 + |q| + |r|
            && Occurs(s, i, p) && Occurs(s, i + |p| + 1, q) && Occurs(s, i + |p| + 1 + |q|, r)
            && i + |p| < |s| && s[i + |p|] == '/' && !IsDigit(At(s, i + |p|))
  {
    hide PlainPoint;
    var p, q, r := PlainPoint(m.0), PlainPoint(m.1), Tail(star, gap);
    assert PairText(m, star, gap) == p + ("/" + (q + r));
    hide Occurs;
    OccursParts(s, i, p, "/" + (q + r));
    OccursParts(s, i + |p|, "/", q + r);
    OccursParts(s, i + |p| + 1, q, r);
    OccursAt(s, i + |p|, "/", 0);
  }

  lemma ScanPair(s: string, i: nat, m: Pair, star: bool, gap: bool, st: Scanned)
    requires Writable(m) && Occurs(s, i, PairText(m, star, gap)) && !IsDigit(At(s, i + |PairText(m, star, gap)|))
    requires MarksInside(st) && |st.anUser| + 2 <= 8
    ensures i + |PairText(m, star, gap)| <= |s|
    ensures Scan(s, i, st) == Scan(s, i + |PairText(m, star, gap)|, Grown(st, [m.0, m.1]))
  {
    hide PairText, PlainPoint, Tail, Scan, Occurs, At, MarksInside, Grown, Marked, IsDigit;
    PairParts(s, i, m, star, gap);
    OccursEnd(s, i, PairText(m, star, gap));
    var j := i + |PlainPoint(m.0)| + 1;
    var k := j + |PlainPoint(m.1)|;
    ScanSource(s, i, m.0, st);
    ScanTail(s, k, star, gap, Grown(st, [m.0, m.1]));
    EndOrTail(s, i, m, star, gap, k);
    ScanDestination(s, j, m, st);
  }

  lemma EndOrTail(s: string, i: nat, m: Pair, star: bool, gap: bool, k: nat)
    requires Writable(m) && !IsDigit(At(s, i + |PairText(m, star, gap)|))
    requires k + |Tail(star, gap)| == i + |PairText(m, star, gap)|
    requires Tail(star, gap) != "" ==> !IsDigit(At(s, k))
    ensures !IsDigit(At(s, k))
  {
    hide PairText, Writable, At;
    if Tail(star, gap) == "" {
      assert k == i + |PairText(m, star, gap)|;
    }
  }

  lemma ScanSource(s: string, i: nat, n: int, st: Scanned)
    requires 0 <= n <= 25 && Occurs(s, i, PlainPoint(n)) && !IsDigit(At(s, i + |PlainPoint(n)|)) && |st.anUser| + 2 <= 8
    requires i + |PlainPoint(n)| < |s| && s[i + |PlainPoint(n)|] == '/' && MarksInside(st)
    ensures Scan(s, i, st) == Scan(s, i + |PlainPoint(n)| + 1, Marked(st, n))
  {
    var one := WithPoint(st, n);
    assert |one.anUser| !in one.fl;
    hide Scan, PlainPoint, MarksInside, Occurs, At;
    ScanPlainPoint(s, i, n, st);
    ScanSlash(s, i + |PlainPoint(n)|, one);
  }

  /** A point and the slash after it. */
  function Marked(st: Scanned, n: int): Scanned {
    WithPoint(st, n).(fl := st.fl + {|st.anUser| + 1})
  }

  lemma ScanDestination(s: string, j: nat, m: Pair, st: Scanned)
    requires Writable(m) && Occurs(s, j, PlainPoint(m.1)) && !IsDigit(At(s, j + |PlainPoint(m.1)|))
    requires MarksInside(st) && |st.anUser| + 2 <= 8
    ensures Scan(s, j, Marked(st, m.0)) == Scan(s, j + |PlainPoint(m.1)|, Grown(st, [m.0, m.1]))
  {
    PairGrows(st, m);
    assert |Marked(st, m.0).anUser| == |st.anUser| + 1;
    hide *;
    ScanPlainPoint(s, j, m.1, Marked(st, m.0));
  }

  lemma OccursEnd(s: string, i: nat, t: string)
    requires Occurs(s, i, t)
    ensures i + |t| <= |s|
  {
  }

  lemma PairGrows(st: Scanned, m: Pair)
    requires MarksInside(st)
    ensures WithPoint(Marked(st, m.0), m.1) == Grown(st, [m.0, m.1])
  {
    assert Between(|st.anUser|, |st.anUser| + 2) == {|st.anUser| + 1};
    assert st.anUser + [m.0] + [m.1] == st.anUser + [m.0, m.1];
  }

  ghost function PairChains(ms: seq<Pair>): seq<Chain> {
    seq(|ms|, i requires 0 <= i < |ms| => [ms[i].0, ms[i].1])
  }

  lemma PlainTextStep(ms: seq<Pair>, stars: seq<bool>, k: nat)
    requires 0 < k <= |ms| == |stars| && forall i :: 0 <= i < |ms| ==> Writable(ms[i])
    ensures PlainText(ms, stars, k) == PlainText(ms, stars, k - 1) + PairText(ms[k - 1], stars[k - 1], k < 4)
  {
  }

  lemma LayPairs(ms: seq<Pair>, k: nat)
    requires k < |ms|
    ensures Lay(PairChains(ms)[..k + 1]) == Grown(Lay(PairChains(ms)[..k]), [ms[k].0, ms[k].1])
    ensures |Lay(PairChains(ms)[..k]).anUser| == 2 * k && MarksInside(Lay(PairChains(ms)[..k]))
  {
    var l := PairChains(ms);
    assert l[..k + 1][..k] == l[..k];
    LayIsSettled(l[..k]);
    PairPoints(l[..k]);
  }

  lemma {:induction false} PairPoints(l: seq<Chain>)
    requires forall i :: 0 <= i < |l| ==> |l[i]| == 2
    ensures PointCount(l) == 2 * |l|
  {
    if l != [] {
      PairPoints(l[..|l| - 1]);
    }
  }

  lemma {:induction false} ScanPairs(s: string, ms: seq<Pair>, stars: seq<bool>, k: nat)
    requires k <= |ms| == |stars| <= 4 && forall i :: 0 <= i < |ms| ==> Writable(ms[i])
    requires Occurs(s, 0, PlainText(ms, stars, k))
    requires k == 4 ==> |s| == |PlainText(ms, stars, k)|
    ensures Scan(s, 0, START) == Scan(s, |PlainText(ms, stars, k)|, Lay(PairChains(ms)[..k]))
  {
    hide *;
    ChainsLength(ms);
    if k == 0 {
      NothingWritten(ms, stars);
    } else {
      PlainTextStep(ms, stars, k);
      var head, t := PlainText(ms, stars, k - 1), PairText(ms[k - 1], stars[k - 1], k < 4);
      OccursParts(s, 0, head, t);
      ScanPairs(s, ms, stars, k - 1);
      LayPairs(ms, k - 1);
      ScanOnePair(s, |head|, ms[k - 1], stars[k - 1], k < 4, Lay(PairChains(ms)[..k - 1]));
    }
  }

  lemma NothingWritten(ms: seq<Pair>, stars: seq<bool>)
    requires forall i :: 0 <= i < |ms| ==> Writable(ms[i])
    ensures PlainText(ms, stars, 0) == "" && |PairChains(ms)| == |ms| && Lay(PairChains(ms)[..0]) == START
  {
    assert PairChains(ms)[..0] == [];
  }

  lemma ChainsLength(ms: seq<Pair>)
    ensures |PairChains(ms)| == |ms|
  {
  }

  /** What follows a sub-move's text is a space, or the end. */
  lemma ScanOnePair(s: string, i: nat, m: Pair, star: bool, gap: bool, st: Scanned)
    requires Writable(m) && Occurs(s, i, PairText(m, star, gap))
    requires !gap ==> |s| == i + |PairText(m, star, gap)|
    requires MarksInside(st) && |st.anUser| + 2 <= 8
    ensures Scan(s, i, st) == Scan(s, i + |PairText(m, star, gap)|, Grown(st, [m.0, m.1]))
  {
    if gap {
      var t := PairText(m, star, false);
      assert PairText(m, star, true) == t + " ";
      OccursParts(s, i, t, " ");
      OccursAt(s, i + |t|, " ", 0);
      hide Scan, PairText, Grown, Occurs, MarksInside, PlainPoint;
      ScanPair(s, i, m, star, false, st);
      ScanIgnored(s, i + |t|, Grown(st, [m.0, m.1]));
    } else {
      ScanPair(s, i, m, star, gap, st);
    }
  }

  lemma {:induction false} PairSteps(ms: seq<Pair>)
    ensures StepsOf(PairChains(ms)) == multiset(ms)
  {
    var l := PairChains(ms);
    if ms == [] {
      assert l == [];
    } else {
      var n := |ms| - 1;
      PairSteps(ms[..n]);
      assert l[..n] == PairChains(ms[..n]);
      StepsOfPair(l[n]);
      assert ms == ms[..n] + [ms[n]];
    }
  }

  /** ParseMove reads back exactly the sub-moves written, in canonical order. */
  lemma PlainParses(ms: seq<Pair>, stars: seq<bool>)
    requires |ms| == |stars| <= 4 && forall i :: 0 <= i < |ms| ==> Writable(ms[i])
    ensures Parse(PlainText(ms, stars, |ms|)) == Good(InCanonicalOrder(ms))
  {
    var s, l := PlainText(ms, stars, |ms|), PairChains(ms);
    assert forall i :: 0 <= i < |l| ==> Emittable(l[i]);
    assert forall i :: 0 <= i < |l| ==> |l[i]| >= 2;
    assert Occurs(s, 0, s) && l[..|l|] == l;
    hide *;
    ScanPairs(s, ms, stars, |ms|);
    PairSteps(ms);
    assert |multiset(ms)| == |ms|;
    EmitChains(l, |l|);
    AllPairs(l);
    ParseIs(s, l);
    SamePairsSameOrder(PairUp(AllCells(l)), ms);
  }

  lemma SamePairsSameOrder(ms: seq<Pair>, ns: seq<Pair>)
    requires multiset(ms) == multiset(ns)
    ensures InCanonicalOrder(ms) == InCanonicalOrder(ns)
  {
    CanonicalIsSorted(ms);
    CanonicalIsSorted(ns);
    SortedIsUnique(InCanonicalOrder(ms), InCanonicalOrder(ns));
  }

  /** Writing a move plainly and reading it back. */
  method WriteAndRead(b: Board, given: bool, anMove: seq<int>) returns (r: int, an: array<int>)
    requires |anMove| == 8 && forall i :: 0 <= i < |Shown(anMove)| ==> Writable(Shown(anMove)[i])
    ensures fresh(an) && an.Length == 8 && r == |Shown(anMove)| <= 4
    ensures HoldsPairs(an[..], InCanonicalOrder(Shown(anMove))) && (r < 4 ==> an[2 * r] == -1)
  {
    PairsInBounds(anMove, 0);
    assert |Shown(anMove)| == |PairsIn(anMove, 0)|;
    hide *;
    var sz;
    ghost var stars;
    sz, stars := FormatMovePlain(b, given, anMove);
    ShownPlainly(b, given, Shown(anMove), sz, stars);
    PlainParses(Shown(anMove), stars);
    an := new int[8];
    r := ParseMove(sz, an);
  }
}
