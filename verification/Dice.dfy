/** Dice from random bits and words (gnubg/dice.c): every face comes from equally
    many inputs. */
module Dice {
  import opened Common

  // ------------------------------------------------------------ the bit machine

  /** What the machine does with one bit: stop with a digit, or go to a state. */
  datatype Step = Stop(digit: nat) | Go(state: nat)

  function Next(state: nat, bit: bool): Step
    requires state <= 4
  {
    if state == 0 then Go(if bit then 2 else 1)
    else if state == 1 then (if bit then Go(3) else Stop(0))
    else if state == 2 then (if bit then Stop(2) else Go(4))
    else if state == 3 then (if bit then Stop(1) else Go(1))
    else if bit then Go(2) else Stop(1)
  }

  /** The digit the machine returns on these bits, None if they do not suffice. */
  function Trit(state: nat, bits: seq<bool>): Option<nat>
    requires state <= 4
    decreases |bits|
  {
    if bits == [] then None
    else
      match Next(state, bits[0])
      case Stop(d) => Some(d)
      case Go(s) => Trit(s, bits[1..])
  }

  /** How many bits the digit takes. */
  function TritUsed(state: nat, bits: seq<bool>): (used: nat)
    requires state <= 4
    ensures used <= |bits|
    decreases |bits|
  {
    if bits == [] then 0
    else
      match Next(state, bits[0])
      case Stop(_) => 1
      case Go(s) => 1 + TritUsed(s, bits[1..])
  }

  /** The face a digit and one more bit give. */
  function Face(d: nat, bit: bool): nat {
    d + (if bit then 3 else 0) + 1
  }

  /** The die: the digit, then one more bit that adds three. */
  function Die(state: nat, bits: seq<bool>): Option<nat>
    requires state <= 4
  {
    var used := TritUsed(state, bits);
    match Trit(state, bits)
    case None => None
    case Some(d) => if used == |bits| then None else Some(Face(d, bits[used]))
  }

  function DieUsed(state: nat, bits: seq<bool>): (used: nat)
    requires state <= 4 && Die(state, bits).Some?
    ensures 2 <= used <= |bits|
  {
    TritUsed(state, bits) + 1
  }

  /** Both dice, one after the other. */
  function Roll(bits: seq<bool>): Option<(nat, nat)> {
    match Die(0, bits)
    case None => None
    case Some(f) =>
      match Die(0, bits[DieUsed(0, bits)..])
      case None => None
      case Some(g) => Some((f, g))
  }

  /** The die by the first bit. */
  lemma DieStep(state: nat, bits: seq<bool>)
    requires state <= 4 && bits != []
    ensures Die(state, bits)
         == match Next(state, bits[0])
            case Stop(d) => if |bits| == 1 then None else Some(Face(d, bits[1]))
            case Go(s) => Die(s, bits[1..])
    ensures Die(state, bits).Some? ==>
              DieUsed(state, bits) == if Next(state, bits[0]).Stop? then 2 else 1 + DieUsed(Next(state, bits[0]).state, bits[1..])
  {
  }

  /** BBSGetTrit on a supply of bits: the digit and the bits used. */
  method BBSGetTrit(bits: seq<bool>) returns (r: Option<nat>, used: nat)
    ensures r == Trit(0, bits) && used == TritUsed(0, bits)
    ensures r.None? ==> used == |bits|
  {
    var state := 0;
    used := 0;
    assert bits[0..] == bits;
    while used < |bits|
      invariant 0 <= used <= |bits| && state <= 4
      invariant Trit(state, bits[used..]) == Trit(0, bits)
      invariant used + TritUsed(state, bits[used..]) == TritUsed(0, bits)
    {
      var bit := bits[used];
      assert bits[used..][0] == bit && bits[used..][1..] == bits[used + 1..];
      used := used + 1;
      match state
      case 0 => state := (if bit then 1 else 0) + 1;
      case 1 =>
        if bit {
          state := 3;
        } else {
          return Some(0), used;
        }
      case 2 =>
        if bit {
          return Some(2), used;
        }
        state := 4;
      case 3 =>
        if bit {
          return Some(1), used;
        }
        state := 1;
      case _ =>
        if bit {
          state := 2;
        } else {
          return Some(1), used;
        }
    }
    return None, used;
  }

  /** One die: BBSGetTrit, then the bit that adds three. */
  method BBSDie(bits: seq<bool>) returns (die: Option<nat>, used: nat)
    ensures die == Die(0, bits) && used <= |bits| && (die.Some? ==> used == DieUsed(0, bits))
  {
    var digit;
    digit, used := BBSGetTrit(bits);
    if digit.None? || used == |bits| {
      return None, used;
    }
    var bit := if bits[used] then 1 else 0;
    return Some(digit.value + bit * 3 + 1), used + 1;
  }

  /** The roll of RNG_BBS in RollDice. */
  method RollDice(bits: seq<bool>) returns (anDice: Option<(nat, nat)>)
    ensures anDice == Roll(bits)
  {
    var first, used := BBSDie(bits);
    if first.None? {
      return None;
    }
    var second, more := BBSDie(bits[used..]);
    return if second.None? then None else Some((first.value, second.value));
  }

  // ---------------------------------------------------------------- counting

  /** All bit strings of length n. */
  ghost function Strings(n: nat): set<seq<bool>> {
    if n == 0 then {[]} else Prefixed(false, Strings(n - 1)) + Prefixed(true, Strings(n - 1))
  }

  ghost function Prefixed(b: bool, ss: set<seq<bool>>): set<seq<bool>> {
    set s | s in ss :: [b] + s
  }

  lemma PrefixedIs(b: bool, ss: set<seq<bool>>, s: seq<bool>)
    ensures s in Prefixed(b, ss) <==> s != [] && s[0] == b && s[1..] in ss
  {
    if s in Prefixed(b, ss) {
      var t :| t in ss && s == [b] + t;
      assert s[1..] == t;
    }
    if s != [] && s[0] == b && s[1..] in ss {
      assert s == [b] + s[1..];
    }
  }

  lemma Apart(x: set<seq<bool>>, y: set<seq<bool>>)
    ensures |Prefixed(false, x) + Prefixed(true, y)| == |x| + |y|
  {
    PrefixedCount(false, x);
    PrefixedCount(true, y);
    forall s | s in Prefixed(false, x) ensures s !in Prefixed(true, y) {
      PrefixedIs(false, x, s);
      PrefixedIs(true, y, s);
    }
    assert Prefixed(false, x) !! Prefixed(true, y);
  }

  lemma {:induction false} StringsAre(n: nat, s: seq<bool>)
    ensures s in Strings(n) <==> |s| == n
  {
    if n > 0 {
      PrefixedIs(false, Strings(n - 1), s);
      PrefixedIs(true, Strings(n - 1), s);
      if s != [] {
        StringsAre(n - 1, s[1..]);
      }
    }
  }

  lemma {:induction false} PrefixedCount(b: bool, ss: set<seq<bool>>)
    ensures |Prefixed(b, ss)| == |ss|
    decreases |ss|
  {
    if ss == {} {
      assert Prefixed(b, ss) == {};
    } else {
      var t :| t in ss;
      PrefixedCount(b, ss - {t});
      assert Prefixed(b, ss) == Prefixed(b, ss - {t}) + {[b] + t};
      assert ([b] + t)[1..] == t;
      PrefixedIs(b, ss - {t}, [b] + t);
    }
  }

  /** The strings of length n on which the machine, started in `state`, returns d. */
  ghost function Returning(state: nat, n: nat, d: Option<nat>): set<seq<bool>>
    requires state <= 4
  {
    set s | s in Strings(n) && Trit(state, s) == d
  }

  ghost function Rolling(state: nat, n: nat, f: Option<nat>): set<seq<bool>>
    requires state <= 4
  {
    set s | s in Strings(n) && Die(state, s) == f
  }

  /** The strings of length n that follow a first bit. */
  ghost function After(state: nat, bit: bool, n: nat, d: Option<nat>): set<seq<bool>>
    requires state <= 4
  {
    match Next(state, bit)
    case Stop(e) => if d == Some(e) then Strings(n) else {}
    case Go(s) => Returning(s, n, d)
  }

  lemma ReturningSplits(state: nat, n: nat, d: Option<nat>)
    requires state <= 4 && n > 0
    ensures |Returning(state, n, d)| == |After(state, false, n - 1, d)| + |After(state, true, n - 1, d)|
  {
    hide After, Prefixed, Returning;
    var x, y := After(state, false, n - 1, d), After(state, true, n - 1, d);
    forall s ensures s in Returning(state, n, d) <==> s in Prefixed(false, x) + Prefixed(true, y) {
      SplitOne(state, n, d, s);
    }
    assert Returning(state, n, d) == Prefixed(false, x) + Prefixed(true, y);
    Apart(x, y);
  }

  lemma SplitOne(state: nat, n: nat, d: Option<nat>, s: seq<bool>)
    requires state <= 4 && n > 0
    ensures s in Returning(state, n, d) <==>
              s in Prefixed(false, After(state, false, n - 1, d)) + Prefixed(true, After(state, true, n - 1, d))
  {
    hide Strings, Prefixed;
    StringsAre(n, s);
    PrefixedIs(false, After(state, false, n - 1, d), s);
    PrefixedIs(true, After(state, true, n - 1, d), s);
    if s != [] {
      StringsAre(n - 1, s[1..]);
    }
  }

  lemma {:induction false} StringCount(n: nat)
    ensures |Strings(n)| == Pow2(n)
  {
    if n > 0 {
      hide Prefixed;
      StringCount(n - 1);
      Apart(Strings(n - 1), Strings(n - 1));
    }
  }

  /** Two bits on, from a state that leads back to itself by two bits. */
  lemma {:induction false} TwoBits(state: nat, k: nat)
    requires state == 1 || state == 2
    ensures 3 * |Returning(state, 2 * k, Some(if state == 1 then 0 else 2))| == 2 * Pow2(2 * k) - 2
    ensures 3 * |Returning(state, 2 * k, Some(1))| == Pow2(2 * k) - 1
    ensures |Returning(state, 2 * k, Some(if state == 1 then 2 else 0))| == 0
    ensures |Returning(state, 2 * k, None)| == 1
  {
    if k == 0 {
      NoBits(state);
    } else {
      TwoBits(state, k - 1);
      Twice(state, k, None);
      Twice(state, k, Some(0));
      Twice(state, k, Some(1));
      Twice(state, k, Some(2));
      Doubling(k);
    }
  }

  lemma Doubling(k: nat)
    requires k > 0
    ensures Pow2(2 * k - 1) == 2 * Pow2(2 * k - 2) && Pow2(2 * k) == 4 * Pow2(2 * (k - 1))
  {
    hide Pow2;
    Pow2Step(2 * k - 1);
    Pow2Step(2 * k);
    assert 2 * (k - 1) == 2 * k - 2;
  }

  lemma NoBits(state: nat)
    requires state <= 4
    ensures |Returning(state, 0, None)| == 1
    ensures forall d :: |Returning(state, 0, Some(d))| == 0
  {
    assert Returning(state, 0, None) == {[]};
    forall d ensures |Returning(state, 0, Some(d))| == 0 {
      assert Returning(state, 0, Some(d)) == {};
    }
  }

  /** One bit: half the strings return a digit, the other half go on. */
  lemma OneBit(state: nat, n: nat, d: Option<nat>)
    requires 1 <= state <= 4 && n > 0
    ensures var (e, next) := if state == 1 then (0, 3) else if state == 2 then (2, 4) else if state == 3 then (1, 1) else (1, 2);
            |Returning(state, n, d)| == (if d == Some(e) then Pow2(n - 1) else 0) + |Returning(next, n - 1, d)|
  {
    hide Strings, Returning, Pow2;
    ReturningSplits(state, n, d);
    StringCount(n - 1);
  }

  /** The count over two bits: half the strings return at once, a quarter one bit later,
      a quarter come back. */
  lemma Twice(state: nat, k: nat, d: Option<nat>)
    requires (state == 1 || state == 2) && k > 0
    ensures |Returning(state, 2 * k, d)|
         == (if d == Some(if state == 1 then 0 else 2) then Pow2(2 * k - 1) else 0)
            + (if d == Some(1) then Pow2(2 * k - 2) else 0)
            + |Returning(state, 2 * (k - 1), d)|
  {
    hide *;
    OneBit(state, 2 * k, d);
    OneBit(if state == 1 then 3 else 4, 2 * k - 1, d);
    assert 2 * (k - 1) == 2 * k - 2;
  }

  /** Of the 2^(2k+1) strings of 2k + 1 bits exactly (2^(2k+1) - 2) / 3 return each digit,
      and two are not enough. */
  lemma TritIsFair(k: nat, d: nat)
    requires d <= 2
    ensures |Strings(2 * k + 1)| == Pow2(2 * k + 1)
    ensures 3 * |Returning(0, 2 * k + 1, Some(d))| == Pow2(2 * k + 1) - 2
    ensures |Returning(0, 2 * k + 1, None)| == 2
  {
    hide Strings, Returning;
    StringCount(2 * k + 1);
    ReturningSplits(0, 2 * k + 1, Some(d));
    ReturningSplits(0, 2 * k + 1, None);
    TwoBits(1, k);
    TwoBits(2, k);
  }

  // ---------------------------------------------------------------- the die

  lemma RollingSplits(state: nat, n: nat, f: Option<nat>)
    requires state <= 4 && n > 0
    ensures |Rolling(state, n, f)| == |RollingAfter(state, false, n - 1, f)| + |RollingAfter(state, true, n - 1, f)|
  {
    hide RollingAfter, Prefixed, Rolling;
    var x, y := RollingAfter(state, false, n - 1, f), RollingAfter(state, true, n - 1, f);
    forall s ensures s in Rolling(state, n, f) <==> s in Prefixed(false, x) + Prefixed(true, y) {
      RollOne(state, n, f, s);
    }
    assert Rolling(state, n, f) == Prefixed(false, x) + Prefixed(true, y);
    Apart(x, y);
  }

  /** The strings whose first bit completes a digit to a face. */
  ghost function Completing(e: nat, n: nat, f: Option<nat>): set<seq<bool>> {
    set s | s in Strings(n) && f == if s == [] then None else Some(Face(e, s[0]))
  }

  ghost function RollingAfter(state: nat, bit: bool, n: nat, f: Option<nat>): set<seq<bool>>
    requires state <= 4
  {
    match Next(state, bit)
    case Stop(e) => Completing(e, n, f)
    case Go(s) => Rolling(s, n, f)
  }

  lemma RollOne(state: nat, n: nat, f: Option<nat>, s: seq<bool>)
    requires state <= 4 && n > 0
    ensures s in Rolling(state, n, f) <==>
              s in Prefixed(false, RollingAfter(state, false, n - 1, f)) + Prefixed(true, RollingAfter(state, true, n - 1, f))
  {
    hide Strings, Prefixed;
    StringsAre(n, s);
    PrefixedIs(false, RollingAfter(state, false, n - 1, f), s);
    PrefixedIs(true, RollingAfter(state, true, n - 1, f), s);
    if s != [] {
      DieStep(state, s);
      StringsAre(n - 1, s[1..]);
    }
  }

  /** Half the strings complete a digit to each of its two faces. */
  lemma CompletingCount(e: nat, n: nat, d: nat, bit: bool)
    requires n > 0 && d <= 2 && e <= 2
    ensures |Completing(e, n, Some(Face(d, bit)))| == if e == d then Pow2(n - 1) else 0
  {
    hide Strings, Prefixed;
    StringCount(n - 1);
    PrefixedCount(bit, Strings(n - 1));
    var c := Completing(e, n, Some(Face(d, bit)));
    forall s ensures s in c <==> e == d && s in Prefixed(bit, Strings(n - 1)) {
      StringsAre(n, s);
      PrefixedIs(bit, Strings(n - 1), s);
      if s != [] {
        StringsAre(n - 1, s[1..]);
      }
    }
    if e == d {
      assert c == Prefixed(bit, Strings(n - 1));
    } else {
      assert c == {};
    }
  }

  /** A face comes from exactly as many strings of n + 1 bits as its digit does from n. */
  lemma {:induction false} FacesFollowDigits(state: nat, n: nat, d: nat, bit: bool)
    requires state <= 4 && d <= 2
    ensures |Rolling(state, n + 1, Some(Face(d, bit)))| == |Returning(state, n, Some(d))|
    decreases n
  {
    hide Strings, Returning, Rolling, Completing;
    RollingSplits(state, n + 1, Some(Face(d, bit)));
    if n == 0 {
      NoBits(state);
      NoFace(state, false, d, bit);
      NoFace(state, true, d, bit);
    } else {
      ReturningSplits(state, n, Some(d));
      FollowOne(state, false, n, d, bit);
      FollowOne(state, true, n, d, bit);
    }
  }

  lemma FollowOne(state: nat, first: bool, n: nat, d: nat, bit: bool)
    requires state <= 4 && d <= 2 && n > 0
    ensures |RollingAfter(state, first, n, Some(Face(d, bit)))| == |After(state, first, n - 1, Some(d))|
    decreases n, 0
  {
    hide Strings, Returning, Rolling, Completing;
    match Next(state, first)
    case Stop(e) =>
      CompletingCount(e, n, d, bit);
      StringCount(n - 1);
    case Go(s) =>
      FacesFollowDigits(s, n - 1, d, bit);
  }

  lemma NoFace(state: nat, first: bool, d: nat, bit: bool)
    requires state <= 4 && d <= 2
    ensures |RollingAfter(state, first, 0, Some(Face(d, bit)))| == 0
  {
    assert RollingAfter(state, first, 0, Some(Face(d, bit))) == {};
  }

  /** Every face comes from the same number of strings of 2k + 2 bits. */
  lemma DieIsFair(k: nat, f: nat)
    requires 1 <= f <= 6
    ensures 3 * |Rolling(0, 2 * k + 2, Some(f))| == Pow2(2 * k + 1) - 2
  {
    var d := (f - 1) % 3;
    assert f == Face(d, f > 3);
    TritIsFair(k, d);
    FacesFollowDigits(0, 2 * k + 1, d, f > 3);
  }

  // --------------------------------------------------------------- both dice

  /** The strings of length m + r that begin with one of `x`. */
  ghost function Beginning(x: set<seq<bool>>, m: nat, r: nat): set<seq<bool>> {
    set s | s in Strings(m + r) && |s| >= m && s[..m] in x
  }

  ghost function Rest(b: bool, x: set<seq<bool>>): set<seq<bool>> {
    set s | s in x && s != [] && s[0] == b :: s[1..]
  }

  lemma RestIs(b: bool, x: set<seq<bool>>, t: seq<bool>)
    ensures t in Rest(b, x) <==> [b] + t in x
  {
    if [b] + t in x {
      assert ([b] + t)[1..] == t;
    }
    if t in Rest(b, x) {
      var s :| s in x && s != [] && s[0] == b && t == s[1..];
      assert s == [b] + t;
    }
  }

  lemma SplitsByFirst(x: set<seq<bool>>, m: nat)
    requires m > 0 && forall s :: s in x ==> |s| == m
    ensures |x| == |Rest(false, x)| + |Rest(true, x)|
    ensures forall b, t :: t in Rest(b, x) ==> |t| == m - 1
  {
    hide Prefixed, Rest;
    forall s ensures s in x <==> s in Prefixed(false, Rest(false, x)) + Prefixed(true, Rest(true, x)) {
      PrefixedIs(false, Rest(false, x), s);
      PrefixedIs(true, Rest(true, x), s);
      if s != [] {
        RestIs(s[0], x, s[1..]);
        assert [s[0]] + s[1..] == s;
      }
    }
    assert x == Prefixed(false, Rest(false, x)) + Prefixed(true, Rest(true, x));
    Apart(Rest(false, x), Rest(true, x));
    forall b, t | t in Rest(b, x) ensures |t| == m - 1 {
      RestIs(b, x, t);
      assert |[b] + t| == m;
    }
  }

  lemma BeginningSplits(x: set<seq<bool>>, m: nat, r: nat)
    requires m > 0
    ensures |Beginning(x, m, r)| == |Beginning(Rest(false, x), m - 1, r)| + |Beginning(Rest(true, x), m - 1, r)|
  {
    var y, z := Beginning(Rest(false, x), m - 1, r), Beginning(Rest(true, x), m - 1, r);
    forall s ensures s in Beginning(x, m, r) <==> s in Prefixed(false, y) + Prefixed(true, z) {
      hide Prefixed, Rest, Strings;
      PrefixedIs(false, y, s);
      PrefixedIs(true, z, s);
      StringsAre(m + r, s);
      if s != [] {
        StringsAre(m - 1 + r, s[1..]);
        if |s| >= m {
          RestIs(s[0], x, s[1..][..m - 1]);
          assert [s[0]] + s[1..][..m - 1] == s[..m];
        }
      }
    }
    assert Beginning(x, m, r) == Prefixed(false, y) + Prefixed(true, z);
    Apart(y, z);
  }

  lemma Distribute(x: nat, y: nat, z: nat)
    ensures (x + y) * z == x * z + y * z
  {
  }

  /** Each string can go on in every way. */
  lemma {:induction false} BeginningCount(x: set<seq<bool>>, m: nat, r: nat)
    requires forall s :: s in x ==> |s| == m
    ensures |Beginning(x, m, r)| == |x| * Pow2(r)
    decreases m
  {
    if m == 0 {
      BeginningEmpty(x, r);
    } else {
      hide *;
      SplitsByFirst(x, m);
      BeginningSplits(x, m, r);
      BeginningCount(Rest(false, x), m - 1, r);
      BeginningCount(Rest(true, x), m - 1, r);
      Distribute(|Rest(false, x)|, |Rest(true, x)|, Pow2(r));
    }
  }

  lemma BeginningEmpty(x: set<seq<bool>>, r: nat)
    requires forall s :: s in x ==> |s| == 0
    ensures |Beginning(x, 0, r)| == |x| * Pow2(r)
  {
    hide Strings, Pow2;
    StringCount(r);
    if [] in x {
      assert x == {[]};
      assert Beginning(x, 0, r) == Strings(r);
    } else {
      assert x == {} by {
        forall s ensures s !in x {
          assert s in x ==> s == [];
        }
      }
      assert Beginning(x, 0, r) == {};
    }
  }

  /** From `state`, the first die shows f within n bits, and the second g within the m
      bits that follow it. */
  ghost predicate Shows(state: nat, s: seq<bool>, n: nat, m: nat, f: nat, g: nat)
    requires state <= 4
  {
    && |s| == n + m && Die(state, s[..n]) == Some(f)
    && Die(0, s[DieUsed(state, s[..n])..][..m]) == Some(g)
  }

  ghost function Rolls(state: nat, n: nat, m: nat, f: nat, g: nat): set<seq<bool>>
    requires state <= 4
  {
    set s | s in Strings(n + m) && Shows(state, s, n, m, f, g)
  }

  ghost predicate Ends(e: nat, s: seq<bool>, n: nat, m: nat, f: nat, g: nat) {
    |s| == n + m && n >= 1 && Face(e, s[0]) == f && Die(0, s[1..][..m]) == Some(g)
  }

  /** The strings that complete the digit e to a face and go on to the second die. */
  ghost function Ending(e: nat, n: nat, m: nat, f: nat, g: nat): set<seq<bool>> {
    set s | s in Strings(n + m) && Ends(e, s, n, m, f, g)
  }

  ghost function RollsAfter(state: nat, bit: bool, n: nat, m: nat, f: nat, g: nat): set<seq<bool>>
    requires state <= 4
  {
    match Next(state, bit)
    case Stop(e) => Ending(e, n, m, f, g)
    case Go(s) => Rolls(s, n, m, f, g)
  }

  lemma ShowsAfter(state: nat, s: seq<bool>, n: nat, m: nat, f: nat, g: nat)
    requires state <= 4 && n > 0 && |s| == n + m
    ensures Shows(state, s, n, m, f, g) <==>
              match Next(state, s[0])
              case Stop(e) => Ends(e, s[1..], n - 1, m, f, g)
              case Go(q) => Shows(q, s[1..], n - 1, m, f, g)
  {
    hide Die, DieUsed, Face;
    DieStep(state, s[..n]);
    assert s[..n][0] == s[0] && s[..n][1..] == s[1..][..n - 1];
    match Next(state, s[0])
    case Stop(e) =>
      if n > 1 {
        assert s[2..][..m] == s[1..][1..][..m];
      }
    case Go(q) =>
      if Die(q, s[1..][..n - 1]).Some? {
        var u := DieUsed(q, s[1..][..n - 1]);
        assert s[1 + u..] == s[1..][u..];
      }
  }

  lemma RollsSplit(state: nat, n: nat, m: nat, f: nat, g: nat)
    requires state <= 4 && n > 0
    ensures |Rolls(state, n, m, f, g)| == |RollsAfter(state, false, n - 1, m, f, g)| + |RollsAfter(state, true, n - 1, m, f, g)|
  {
    var x, y := RollsAfter(state, false, n - 1, m, f, g), RollsAfter(state, true, n - 1, m, f, g);
    forall s ensures s in Rolls(state, n, m, f, g) <==> s in Prefixed(false, x) + Prefixed(true, y) {
      hide Prefixed, Strings, Shows, Ends;
      PrefixedIs(false, x, s);
      PrefixedIs(true, y, s);
      StringsAre(n + m, s);
      if s != [] {
        StringsAre(n - 1 + m, s[1..]);
        if |s| == n + m {
          ShowsAfter(state, s, n, m, f, g);
        }
      }
    }
    assert Rolls(state, n, m, f, g) == Prefixed(false, x) + Prefixed(true, y);
    Apart(x, y);
  }

  lemma EndingCount(e: nat, n: nat, m: nat, d: nat, bit: bool, g: nat)
    requires e <= 2 && d <= 2
    ensures |Ending(e, n, m, Face(d, bit), g)| == |Completing(e, n, Some(Face(d, bit)))| * |Rolling(0, m, Some(g))|
  {
    hide Strings, Die, Prefixed, Pow2;
    var f := Face(d, bit);
    if n == 0 {
      assert Ending(e, n, m, f, g) == {};
      forall s ensures s !in Completing(e, n, Some(f)) {
        StringsAre(0, s);
      }
      assert Completing(e, n, Some(f)) == {};
    } else if e != d {
      CompletingCount(e, n, d, bit);
      assert Ending(e, n, m, f, g) == {};
    } else {
      CompletingCount(e, n, d, bit);
      var x := Rolling(0, m, Some(g));
      forall s | s in x ensures |s| == m {
        StringsAre(m, s);
      }
      BeginningCount(x, m, n - 1);
      EndingBegins(e, n, m, bit, g);
      PrefixedCount(bit, Beginning(x, m, n - 1));
    }
  }

  lemma EndingBegins(d: nat, n: nat, m: nat, bit: bool, g: nat)
    requires n > 0 && d <= 2
    ensures Ending(d, n, m, Face(d, bit), g) == Prefixed(bit, Beginning(Rolling(0, m, Some(g)), m, n - 1))
  {
    hide Strings, Die, Prefixed;
    var y := Beginning(Rolling(0, m, Some(g)), m, n - 1);
    forall s ensures s in Ending(d, n, m, Face(d, bit), g) <==> s in Prefixed(bit, y) {
      PrefixedIs(bit, y, s);
      StringsAre(n + m, s);
      if s != [] {
        StringsAre(m + (n - 1), s[1..]);
        if |s| == n + m {
          StringsAre(m, s[1..][..m]);
        }
      }
    }
  }

  /** The two dice are independent. */
  lemma {:induction false} RollsMultiply(state: nat, n: nat, m: nat, d: nat, bit: bool, g: nat)
    requires state <= 4 && d <= 2
    ensures |Rolls(state, n, m, Face(d, bit), g)| == |Rolling(state, n, Some(Face(d, bit)))| * |Rolling(0, m, Some(g))|
    decreases n
  {
    hide *;
    var f := Face(d, bit);
    if n == 0 {
      NoRolls(state, m, f, g);
    } else {
      RollsSplit(state, n, m, f, g);
      RollingSplits(state, n, Some(f));
      MultiplyAfter(state, false, n, m, d, bit, g);
      MultiplyAfter(state, true, n, m, d, bit, g);
      Distribute(|RollingAfter(state, false, n - 1, Some(f))|, |RollingAfter(state, true, n - 1, Some(f))|, |Rolling(0, m, Some(g))|);
    }
  }

  lemma NoRolls(state: nat, m: nat, f: nat, g: nat)
    requires state <= 4
    ensures |Rolls(state, 0, m, f, g)| == 0 == |Rolling(state, 0, Some(f))|
  {
    hide Strings, Die, DieUsed;
    NoDie(state);
    forall s ensures s !in Rolls(state, 0, m, f, g) && s !in Rolling(state, 0, Some(f)) {
      StringsAre(0, s);
      assert |s| == m ==> s[..0] == [];
    }
    assert Rolls(state, 0, m, f, g) == {} && Rolling(state, 0, Some(f)) == {};
  }

  lemma MultiplyAfter(state: nat, first: bool, n: nat, m: nat, d: nat, bit: bool, g: nat)
    requires state <= 4 && d <= 2 && n > 0
    ensures |RollsAfter(state, first, n - 1, m, Face(d, bit), g)|
         == |RollingAfter(state, first, n - 1, Some(Face(d, bit)))| * |Rolling(0, m, Some(g))|
    decreases n, 0
  {
    hide Rolls, Rolling, Ending, Completing, Face;
    match Next(state, first)
    case Stop(e) => EndingCount(e, n - 1, m, d, bit, g);
    case Go(s) => RollsMultiply(s, n - 1, m, d, bit, g);
  }

  /** More bits change nothing. */
  lemma {:induction false} DieStays(state: nat, s: seq<bool>, n: nat)
    requires state <= 4 && n <= |s| && Die(state, s[..n]).Some?
    ensures Die(state, s) == Die(state, s[..n]) && DieUsed(state, s) == DieUsed(state, s[..n])
    decreases n
  {
    hide Die, DieUsed;
    NoDie(state);
    assert s[..n] != [];
    DieStep(state, s);
    DieStep(state, s[..n]);
    assert s[..n][1..] == s[1..][..n - 1];
    match Next(state, s[0])
    case Stop(e) =>
    case Go(q) => DieStays(q, s[1..], n - 1);
  }

  lemma NoDie(state: nat)
    requires state <= 4
    ensures Die(state, []) == None
  {
  }

  lemma FaceOf(f: nat)
    requires 1 <= f <= 6
    ensures f == Face((f - 1) % 3, f > 3)
  {
  }

  /** The 36 rolls are equally likely: each comes from the same number of strings of bits,
      as long as the first die takes at most 2j + 2 of them and the second 2k + 2. */
  lemma RollsAreFair(j: nat, k: nat, f: nat, g: nat)
    requires 1 <= f <= 6 && 1 <= g <= 6
    ensures 9 * |Rolls(0, 2 * j + 2, 2 * k + 2, f, g)| == (Pow2(2 * j + 1) - 2) * (Pow2(2 * k + 1) - 2)
    ensures forall s :: s in Rolls(0, 2 * j + 2, 2 * k + 2, f, g) ==> Roll(s) == Some((f, g))
  {
    forall s | s in Rolls(0, 2 * j + 2, 2 * k + 2, f, g) ensures Roll(s) == Some((f, g)) {
      hide Strings, Shows, Roll;
      ShownIsRolled(s, 2 * j + 2, 2 * k + 2, f, g);
    }
    hide *;
    DieIsFair(j, f);
    DieIsFair(k, g);
    FaceOf(f);
    RollsMultiply(0, 2 * j + 2, 2 * k + 2, (f - 1) % 3, f > 3, g);
    NineTimes(|Rolling(0, 2 * j + 2, Some(f))|, |Rolling(0, 2 * k + 2, Some(g))|);
  }

  lemma NineTimes(x: nat, y: nat)
    ensures 9 * (x * y) == (3 * x) * (3 * y)
  {
  }

  lemma ShownIsRolled(s: seq<bool>, n: nat, m: nat, f: nat, g: nat)
    requires Shows(0, s, n, m, f, g)
    ensures Roll(s) == Some((f, g))
  {
    hide Die, DieUsed;
    DieStays(0, s, n);
    var t := s[DieUsed(0, s)..];
    DieStays(0, t, m);
  }

  // ------------------------------------------------------------- 32-bit words

  const EXP232_Q := 715827882
  const EXP232_L := 4294967292

  predicate Accepted(word: nat) {
    word < EXP232_L
  }

  function FaceOfWord(word: nat): nat {
    1 + word / EXP232_Q
  }

  /** The die drawn from a supply of 32-bit words, and the words used. */
  method DieFromWords(words: seq<nat>) returns (die: Option<nat>, used: nat)
    requires forall k :: 0 <= k < |words| ==> Word(words[k])
    ensures used <= |words|
    ensures die.None? ==> used == |words| && forall k :: 0 <= k < |words| ==> !Accepted(words[k])
    ensures die.Some? ==> && used > 0 && Accepted(words[used - 1]) && die.value == FaceOfWord(words[used - 1])
                          && 1 <= die.value <= 6 && forall k :: 0 <= k < used - 1 ==> !Accepted(words[k])
  {
    used := 0;
    while used < |words| && words[used] >= EXP232_L
      invariant 0 <= used <= |words| && forall k :: 0 <= k < used ==> !Accepted(words[k])
    {
      used := used + 1;
    }
    if used == |words| {
      return None, used;
    }
    return Some(1 + words[used] / EXP232_Q), used + 1;
  }

  /** Anything a generator can return. */
  predicate Word(w: nat) {
    w < 0x1_0000_0000
  }

  ghost function Interval(lo: nat, hi: nat): set<nat> {
    set w: nat | lo <= w < hi && Word(w)
  }

  lemma {:induction false} IntervalCount(lo: nat, hi: nat)
    requires lo <= hi <= 0x1_0000_0000
    ensures |Interval(lo, hi)| == hi - lo
    decreases hi
  {
    if lo == hi {
      assert Interval(lo, hi) == {};
    } else {
      IntervalCount(lo, hi - 1);
      assert Interval(lo, hi) == Interval(lo, hi - 1) + {hi - 1};
    }
  }

  /** The 32-bit words accepted as face f. */
  ghost function WordsFor(f: nat): set<nat> {
    set w: nat | 0 <= w < 0x1_0000_0000 && Accepted(w) && FaceOfWord(w) == f
  }

  /** Every face has exactly 715827882 of the 2^32 words, and four words are rejected. */
  lemma WordsAreFair(f: nat)
    ensures |WordsFor(f)| == if 1 <= f <= 6 then EXP232_Q else 0
    ensures 6 * EXP232_Q == EXP232_L == 0x1_0000_0000 - 4
  {
    if 1 <= f <= 6 {
      var lo, hi := (f - 1) * EXP232_Q, f * EXP232_Q;
      assert forall w :: w in WordsFor(f) <==> w in Interval(lo, hi);
      assert WordsFor(f) == Interval(lo, hi);
      IntervalCount(lo, hi);
    } else {
      assert WordsFor(f) == {};
    }
  }
}
