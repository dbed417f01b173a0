/** ParseMove reads the text FormatMove writes, point by point and chain by chain. */
module TextScan {
  import opened Settling
  import opened Chains
  import opened MoveParser
  import opened MoveFormatter
  import opened RepeatCounts

  ghost predicate Occurs(s: string, i: nat, t: string) {
    i + |t| <= |s| && s[i..i + |t|] == t
  }

  lemma OccursParts(s: string, i: nat, t: string, u: string)
    requires Occurs(s, i, t + u)
    ensures Occurs(s, i, t) && Occurs(s, i + |t|, u)
  {
    var w := s[i..i + |t + u|];
    assert s[i..i + |t|] == w[..|t|] && s[i + |t|..i + |t| + |u|] == w[|t|..];
  }

  lemma OccursAt(s: string, i: nat, t: string, k: nat)
    requires Occurs(s, i, t) && k < |t|
    ensures i + k < |s| && s[i + k] == t[k] && At(s, i + k) == t[k]
  {
    assert s[i..i + |t|][k] == s[i + k];
  }

  // -------------------------------------------------------------- the points

  lemma OneDigit(s: string, i: nat, a: nat)
    requires a <= 9 && Occurs(s, i, [Digit(a)]) && !IsDigit(At(s, i + 1))
    ensures Strtol(s, i) == (a, i + 1)
  {
    OccursAt(s, i, [Digit(a)], 0);
    DigitIs(a);
    assert DigitsEnd(s, i + 1) == i + 1;
    assert DigitsEnd(s, i) == i + 1;
    assert Decimal(s, i, i + 1, 0) == a;
  }

  lemma TwoDigits(s: string, i: nat, a: nat, b: nat)
    requires 1 <= a <= 9 && b <= 9 && Occurs(s, i, [Digit(a), Digit(b)]) && !IsDigit(At(s, i + 2))
    ensures Strtol(s, i) == (10 * a + b, i + 2)
  {
    OccursAt(s, i, [Digit(a), Digit(b)], 0);
    OccursAt(s, i, [Digit(a), Digit(b)], 1);
    DigitIs(a);
    DigitIs(b);
    assert DigitsEnd(s, i + 2) == i + 2;
    assert DigitsEnd(s, i + 1) == i + 2;
    assert DigitsEnd(s, i) == i + 2;
    assert Decimal(s, i + 1, i + 2, a) == 10 * a + b;
    assert Decimal(s, i, i + 2, 0) == 10 * a + b;
  }

  lemma DigitIs(n: nat)
    requires n <= 9
    ensures IsDigit(Digit(n)) && DigitValue(Digit(n)) == n && !IsSpace(Digit(n)) && Digit(n) != '\0'
    ensures Digit(n) != '-' && Digit(n) != '+'
  {
  }

  /** A state with one more point. */
  function WithPoint(st: Scanned, n: int): Scanned {
    st.(anUser := st.anUser + [n])
  }

  lemma ScanPoint(s: string, i: nat, n: int, st: Scanned)
    requires 0 <= n <= 25 && Occurs(s, i, PointText(n)) && !IsDigit(At(s, i + |PointText(n)|)) && |st.anUser| < 8
    ensures Scan(s, i, st) == Scan(s, i + |PointText(n)|, WithPoint(st, n))
  {
    var t := PointText(n);
    if n == 0 || n == 25 {
      OccursAt(s, i, t, 0);
      OccursAt(s, i, t, 1);
      OccursAt(s, i, t, 2);
      assert Lex(s, i, st) == Good((i + 3, WithPoint(st, n)));
    } else if n > 9 {
      OccursAt(s, i, t, 0);
      DigitIs(n / 10);
      TwoDigits(s, i, n / 10, n % 10);
      assert Lex(s, i, st) == Good((i + 2, WithPoint(st, n)));
    } else {
      OccursAt(s, i, t, 0);
      DigitIs(n);
      OneDigit(s, i, n);
      assert Lex(s, i, st) == Good((i + 1, WithPoint(st, n)));
    }
  }

  lemma ScanIgnored(s: string, i: nat, st: Scanned)
    requires i < |s| && (s[i] == ' ' || s[i] == '*')
    ensures Scan(s, i, st) == Scan(s, i + 1, st)
  {
    assert Lex(s, i, st) == Good((i + 1, st));
  }

  lemma ScanSlash(s: string, i: nat, st: Scanned)
    requires i < |s| && s[i] == '/' && st.anUser != [] && |st.anUser| !in st.fl
    ensures Scan(s, i, st) == Scan(s, i + 1, st.(fl := st.fl + {|st.anUser|}))
  {
    assert Lex(s, i, st) == Good((i + 1, st.(fl := st.fl + {|st.anUser|})));
  }

  // -------------------------------------------------------------- the chains

  /** Marks stand only between points already read. */
  ghost predicate MarksInside(st: Scanned) {
    forall j :: j in st.fl ==> 0 < j < |st.anUser|
  }

  /** The integers strictly between a and b. */
  function Between(a: int, b: int): (r: set<int>)
    ensures forall j :: j in r <==> a < j < b
    decreases b - a
  {
    if b <= a + 1 then {} else Between(a, b - 1) + {b - 1}
  }

  /** The state after one more chain. */
  ghost function Grown(st: Scanned, c: Chain): Scanned {
    Scanned(st.anUser + c, st.fl + Between(|st.anUser|, |st.anUser| + |c|))
  }

  lemma GrownOnce(st: Scanned, c: Chain, n: int)
    requires MarksInside(st) && c != []
    ensures var g := Grown(st, c);
            |g.anUser| !in g.fl && WithPoint(g.(fl := g.fl + {|g.anUser|}), n) == Grown(st, c + [n])
    ensures MarksInside(Grown(st, c))
  {
  }

  function LinkText(n: int, star: bool): string
    requires 0 <= n <= 25
  {
    "/" + PointText(n) + (if star then "*" else "")
  }

  lemma InRange(c: Chain, k: nat)
    requires PointsInRange(c) && k < |c|
    ensures 0 <= c[k] <= 25 && forall t :: 0 <= t < |c| ==> 0 <= c[t] <= 25
  {
  }

  lemma ChainTextLink(c: Chain, stars: seq<bool>, k: nat)
    requires 1 <= k < |c| == |stars| && PointsInRange(c) && 0 <= c[k] <= 25
    ensures ChainText(c, stars, k) == ChainText(c, stars, k - 1) + LinkText(c[k], stars[k])
    ensures |LinkText(c[k], stars[k])| > 0 && !IsDigit(LinkText(c[k], stars[k])[0])
  {
  }

  lemma {:induction false} ScanChain(s: string, i: nat, c: Chain, stars: seq<bool>, k: nat, st: Scanned)
    requires k < |c| == |stars| && PointsInRange(c) && Occurs(s, i, ChainText(c, stars, k))
    requires !IsDigit(At(s, i + |ChainText(c, stars, k)|)) && |st.anUser| + k + 1 <= 8 && MarksInside(st)
    ensures Scan(s, i, st) == Scan(s, i + |ChainText(c, stars, k)|, Grown(st, c[..k + 1]))
    decreases k
  {
    hide *;
    InRange(c, k);
    if k == 0 {
      ScanFirst(s, i, c, stars, st);
    } else {
      var head, link := ChainText(c, stars, k - 1), LinkText(c[k], stars[k]);
      ChainTextLink(c, stars, k);
      OccursParts(s, i, head, link);
      OccursAt(s, i + |head|, link, 0);
      ScanChain(s, i, c, stars, k - 1, st);
      ScanLink(s, i + |head|, c[..k], c[k], stars[k], st);
      TakeMore(c, k);
    }
  }

  lemma TakeMore(c: Chain, k: nat)
    requires k < |c|
    ensures c[..k + 1] == c[..k] + [c[k]]
  {
  }

  lemma ScanFirst(s: string, i: nat, c: Chain, stars: seq<bool>, st: Scanned)
    requires 0 < |c| == |stars| && PointsInRange(c) && Occurs(s, i, ChainText(c, stars, 0))
    requires !IsDigit(At(s, i + |ChainText(c, stars, 0)|)) && |st.anUser| + 1 <= 8
    ensures Scan(s, i, st) == Scan(s, i + |ChainText(c, stars, 0)|, Grown(st, c[..1]))
  {
    ScanPoint(s, i, c[0], st);
    assert c[..1] == [c[0]];
    assert WithPoint(st, c[0]) == Grown(st, [c[0]]);
  }

  lemma ScanLink(s: string, i: nat, c: Chain, n: int, star: bool, st: Scanned)
    requires c != [] && 0 <= n <= 25 && Occurs(s, i, LinkText(n, star)) && !IsDigit(At(s, i + |LinkText(n, star)|))
    requires |st.anUser| + |c| + 1 <= 8 && MarksInside(st)
    ensures Scan(s, i, Grown(st, c)) == Scan(s, i + |LinkText(n, star)|, Grown(st, c + [n]))
  {
    hide *;
    var p, mark := "/" + PointText(n), if star then "*" else "";
    LinkTextIs(n, star);
    OccursParts(s, i, p, mark);
    if star {
      OccursAt(s, i + |p|, mark, 0);
      ScanSlashPoint(s, i, c, n, st);
      ScanIgnored(s, i + |p|, Grown(st, c + [n]));
    } else {
      ScanSlashPoint(s, i, c, n, st);
    }
  }

  lemma LinkTextIs(n: int, star: bool)
    requires 0 <= n <= 25
    ensures LinkText(n, star) == ("/" + PointText(n)) + (if star then "*" else "") && !IsDigit('*')
  {
  }

  lemma ScanSlashPoint(s: string, i: nat, c: Chain, n: int, st: Scanned)
    requires c != [] && 0 <= n <= 25 && Occurs(s, i, "/" + PointText(n)) && !IsDigit(At(s, i + |"/" + PointText(n)|))
    requires |st.anUser| + |c| + 1 <= 8 && MarksInside(st)
    ensures i + |"/" + PointText(n)| <= |s|
    ensures Scan(s, i, Grown(st, c)) == Scan(s, i + |"/" + PointText(n)|, Grown(st, c + [n]))
  {
    var p, g := PointText(n), Grown(st, c);
    OccursParts(s, i, "/", p);
    OccursAt(s, i, "/", 0);
    GrownOnce(st, c, n);
    hide PointText, Scan;
    ScanSlash(s, i, g);
    ScanPoint(s, i + 1, n, g.(fl := g.fl + {|g.anUser|}));
  }

  // ------------------------------------------------------------- the counts

  ghost function GrownTimes(st: Scanned, c: Chain, k: nat): Scanned {
    if k == 0 then st else Grown(GrownTimes(st, c, k - 1), c)
  }

  lemma {:induction false} GrownTimesLength(st: Scanned, c: Chain, k: nat)
    requires MarksInside(st)
    ensures |GrownTimes(st, c, k).anUser| == |st.anUser| + k * |c| && MarksInside(GrownTimes(st, c, k))
    ensures st.anUser <= GrownTimes(st, c, k).anUser
    ensures forall j :: 0 <= j <= |st.anUser| ==> (j in GrownTimes(st, c, k).fl <==> j in st.fl)
  {
    if k > 0 {
      GrownTimesLength(st, c, k - 1);
      assert k * |c| == (k - 1) * |c| + |c|;
    }
  }

  /** The first copy of the chain stays where it is. */
  lemma {:induction false} FirstCopy(st: Scanned, c: Chain, k: nat)
    requires MarksInside(st) && k >= 1
    ensures var g := GrownTimes(st, c, k);
            && |g.anUser| >= |st.anUser| + |c| && g.anUser[|st.anUser|..|st.anUser| + |c|] == c
            && forall j :: |st.anUser| <= j < |st.anUser| + |c| ==> (j in g.fl <==> j > |st.anUser|)
  {
    GrownTimesLength(st, c, k);
    if k == 1 {
      assert GrownTimes(st, c, 1) == Grown(st, c);
    } else {
      FirstCopy(st, c, k - 1);
      GrownTimesLength(st, c, k - 1);
    }
  }

  lemma {:induction false} RepeatOnceGrows(x: Scanned, c: Chain, start: nat, t: nat)
    requires t <= |c| && start + |c| <= |x.anUser| && x.anUser[start..start + |c|] == c && MarksInside(x)
    requires forall j :: start <= j < start + |c| ==> (j in x.fl <==> j > start)
    ensures RepeatOnce(Grown(x, c[..t]), start + t, start + |c|) == Grown(x, c)
    decreases |c| - t
  {
    if t == |c| {
      assert c[..t] == c;
    } else {
      var g := Grown(x, c[..t]);
      assert g.anUser[start + t] == x.anUser[start..start + |c|][t] == c[t];
      assert c[..t + 1] == c[..t] + [c[t]];
      assert Scanned(g.anUser + [c[t]], if start + t in g.fl then g.fl + {|g.anUser|} else g.fl) == Grown(x, c[..t + 1]);
      RepeatOnceGrows(x, c, start, t + 1);
    }
  }

  lemma CopyFits(st: Scanned, c: Chain, k: nat)
    requires MarksInside(st) && k >= 1
    ensures |GrownTimes(st, c, k).anUser| >= |st.anUser| + |c|
  {
    FirstCopy(st, c, k);
  }

  lemma {:induction false} RepeatGrows(st: Scanned, c: Chain, m: nat, n: nat)
    requires MarksInside(st) && m >= 1
    requires |GrownTimes(st, c, m).anUser| >= |st.anUser| + |c|
    ensures Repeat(GrownTimes(st, c, m), |st.anUser|, |st.anUser| + |c|, n) == GrownTimes(st, c, m + n)
    decreases n
  {
    if n > 0 {
      hide *;
      CopyOnce(st, c, m);
      CopyFits(st, c, m + 1);
      RepeatGrows(st, c, m + 1, n - 1);
      RepeatStep(GrownTimes(st, c, m), |st.anUser|, |st.anUser| + |c|, n);
    }
  }

  lemma RepeatStep(x: Scanned, iBegin: nat, iEnd: nat, n: nat)
    requires iBegin <= iEnd <= |x.anUser| && n > 0
    ensures Repeat(x, iBegin, iEnd, n) == Repeat(RepeatOnce(x, iBegin, iEnd), iBegin, iEnd, n - 1)
  {
  }

  lemma CopyOnce(st: Scanned, c: Chain, m: nat)
    requires MarksInside(st) && m >= 1 && |GrownTimes(st, c, m).anUser| >= |st.anUser| + |c|
    ensures RepeatOnce(GrownTimes(st, c, m), |st.anUser|, |st.anUser| + |c|) == GrownTimes(st, c, m + 1)
  {
    var x := GrownTimes(st, c, m);
    GrownTimesLength(st, c, m);
    FirstCopy(st, c, m);
    hide RepeatOnce;
    assert Grown(x, c[..0]) == x;
    RepeatOnceGrows(x, c, |st.anUser|, 0);
  }

  lemma {:induction false} ChainStartIs(fl: set<int>, start: nat, k: nat)
    requires start <= k && start !in fl && forall j :: start < j <= k ==> j in fl
    ensures ChainStart(fl, k) == start
    decreases k
  {
    if start < k {
      ChainStartIs(fl, start, k - 1);
    }
  }

  lemma CountReads(s: string, i: nat, k: nat)
    requires 2 <= k <= 9 && Occurs(s, i, CountText(k))
    ensures i + 3 <= |s| && s[i] == '(' && At(s, i) != '\0' && Strtol(s, i + 1) == (k, i + 2) && At(s, i + 2) != '\0'
  {
    OccursAt(s, i, CountText(k), 0);
    OccursAt(s, i, CountText(k), 1);
    OccursAt(s, i, CountText(k), 2);
    assert s[i + 1..i + 2] == [Digit(k)];
    OneDigit(s, i + 1, k);
  }

  lemma ScanCounted(s: string, i: nat, st: Scanned, next: nat, st': Scanned)
    requires i < |s| && s[i] == '(' && Count(s, i, st) == Good((next, st')) && i < next <= |s|
    ensures Scan(s, i, st) == Scan(s, next, st')
  {
    hide Count;
    assert Lex(s, i, st) == Good((next, st'));
  }

  lemma CountOf(s: string, i: nat, g: Scanned, k: nat, start: nat)
    requires 2 <= k <= 9 && i + 3 <= |s| && Strtol(s, i + 1) == (k, i + 2) && At(s, i + 2) != '\0'
    requires 2 <= |g.anUser| && |g.anUser| !in g.fl && start < |g.anUser| && ChainStart(g.fl, |g.anUser| - 1) == start
    requires |g.anUser| + (|g.anUser| - start) * (k - 1) <= 8
    ensures Count(s, i, g) == Good((i + 3, Repeat(g, start, |g.anUser|, k - 1)))
  {
    hide Strtol, ChainStart, Repeat;
    SmallSize(|g.anUser|, |g.anUser| - start, k - 1);
  }

  lemma ScanCount(s: string, i: nat, c: Chain, k: nat, st: Scanned)
    requires |c| >= 2 && 2 <= k <= 9 && Occurs(s, i, CountText(k)) && MarksInside(st) && |st.anUser| + k * |c| <= 8
    ensures Scan(s, i, Grown(st, c)) == Scan(s, i + 3, GrownTimes(st, c, k))
  {
    hide *;
    var g, start := Grown(st, c), |st.anUser|;
    GrownMarks(st, c);
    GrownTimesOne(st, c);
    CountReads(s, i, k);
    CountBound(k, |c|, start);
    CountOf(s, i, g, k, start);
    RepeatGrows(st, c, 1, k - 1);
    ScanCounted(s, i, g, i + 3, GrownTimes(st, c, k));
  }

  lemma GrownMarks(st: Scanned, c: Chain)
    requires |c| >= 2 && MarksInside(st)
    ensures var g, start := Grown(st, c), |st.anUser|;
            |g.anUser| == start + |c| && |g.anUser| !in g.fl && ChainStart(g.fl, |g.anUser| - 1) == start
  {
    ChainStartIs(Grown(st, c).fl, |st.anUser|, |st.anUser| + |c| - 1);
  }

  lemma CountBound(k: nat, n: nat, m: nat)
    requires 1 <= k && m + k * n <= 8
    ensures m + n + n * (k - 1) <= 8
  {
    assert k * n == (k - 1) * n + n;
  }

  lemma GroupParts(g: Group)
    requires GroupOk(g)
    ensures |g.points| >= 2 && |g.stars| == |g.points| && PointsInRange(g.points) && 1 <= g.count <= 9
    ensures GroupText(g) == ChainText(g.points, g.stars, |g.points| - 1) + CountText(g.count)
    ensures g.count == 1 ==> GroupText(g) == ChainText(g.points, g.stars, |g.points| - 1)
  {
  }

  lemma GrownTimesOne(st: Scanned, c: Chain)
    ensures GrownTimes(st, c, 1) == Grown(st, c)
  {
    assert GrownTimes(st, c, 0) == st;
  }

  lemma ScanGroup(s: string, i: nat, g: Group, st: Scanned)
    requires GroupOk(g) && Occurs(s, i, GroupText(g)) && !IsDigit(At(s, i + |GroupText(g)|))
    requires MarksInside(st) && |st.anUser| + g.count * |g.points| <= 8
    ensures i + |GroupText(g)| <= |s|
    ensures Scan(s, i, st) == Scan(s, i + |GroupText(g)|, GrownTimes(st, g.points, g.count))
  {
    assert i + |GroupText(g)| <= |s|;
    hide *;
    GroupParts(g);
    CountFits(g.count, |g.points|, |st.anUser|);
    if g.count > 1 {
      RepeatedParts(s, i, g);
      ScanRepeated(s, i, g.points, g.stars, g.count, ChainText(g.points, g.stars, |g.points| - 1), CountText(g.count), st);
    } else {
      ScanWhole(s, i, g.points, g.stars, st);
      GrownTimesOne(st, g.points);
    }
  }

  lemma RepeatedParts(s: string, i: nat, g: Group)
    requires GroupOk(g) && Occurs(s, i, GroupText(g)) && g.count > 1
    ensures |g.stars| == |g.points| >= 2 && (forall k :: 0 <= k < |g.points| ==> 0 <= g.points[k] <= 25) && g.count <= 9
    ensures var t, u := ChainText(g.points, g.stars, |g.points| - 1), CountText(g.count);
            Occurs(s, i, t) && Occurs(s, i + |t|, u) && |u| == 3 && !IsDigit(u[0]) && |GroupText(g)| == |t| + 3
  {
    OccursParts(s, i, ChainText(g.points, g.stars, |g.points| - 1), CountText(g.count));
  }

  lemma ScanRepeated(s: string, i: nat, c: Chain, stars: seq<bool>, k: nat, t: string, u: string, st: Scanned)
    requires 2 <= |c| == |stars| && PointsInRange(c) && 2 <= k <= 9 && t == ChainText(c, stars, |c| - 1) && u == CountText(k)
    requires Occurs(s, i, t) && Occurs(s, i + |t|, u) && |u| == 3 && !IsDigit(u[0])
    requires MarksInside(st) && |st.anUser| + |c| <= 8 && |st.anUser| + k * |c| <= 8
    ensures i + |t| + 3 <= |s| && Scan(s, i, st) == Scan(s, i + |t| + 3, GrownTimes(st, c, k))
  {
    hide *;
    OccursAt(s, i + |t|, u, 0);
    OccursAt(s, i + |t|, u, 2);
    ScanWhole(s, i, c, stars, st);
    ScanCount(s, i + |t|, c, k, st);
  }

  lemma CountFits(k: nat, n: nat, m: nat)
    requires 1 <= k && m + k * n <= 8
    ensures m + n <= 8
  {
    assert k * n == (k - 1) * n + n;
  }

  lemma ScanWhole(s: string, i: nat, c: Chain, stars: seq<bool>, st: Scanned)
    requires 0 < |c| == |stars| && PointsInRange(c) && Occurs(s, i, ChainText(c, stars, |c| - 1))
    requires !IsDigit(At(s, i + |ChainText(c, stars, |c| - 1)|)) && |st.anUser| + |c| <= 8 && MarksInside(st)
    ensures i + |ChainText(c, stars, |c| - 1)| <= |s|
    ensures Scan(s, i, st) == Scan(s, i + |ChainText(c, stars, |c| - 1)|, Grown(st, c))
  {
    ScanChain(s, i, c, stars, |c| - 1, st);
    assert c[..|c| - 1 + 1] == c;
  }
}
