/** Equities from output vectors (gnubg/eval.c): turning an evaluation round, the
    cubeless utility, and Janowski's live-cube interpolation for money play. */
module MoneyEquity {
  import opened Cubeful

  method InvertEvaluation(ar: array<real>)
    requires ar.Length == NUM_OUTPUTS
    modifies ar
    ensures ar[..] == Invert(old(ar[..]))
  {
    ar[OUTPUT_WIN] := 1.0 - ar[OUTPUT_WIN];
    var r := ar[OUTPUT_WINGAMMON];
    ar[OUTPUT_WINGAMMON] := ar[OUTPUT_LOSEGAMMON];
    ar[OUTPUT_LOSEGAMMON] := r;
    r := ar[OUTPUT_WINBACKGAMMON];
    ar[OUTPUT_WINBACKGAMMON] := ar[OUTPUT_LOSEBACKGAMMON];
    ar[OUTPUT_LOSEBACKGAMMON] := r;
  }

  lemma InvertTwice(o: Outputs)
    ensures Invert(Invert(o)) == o
  {
    assert forall i :: 0 <= i < 5 ==> Invert(Invert(o))[i] == o[i];
  }

  /** The same cube with the other player on move. */
  function Flip(ci: CubeInfo): CubeInfo {
    ci.(fMove := Not(ci.fMove))
  }

  predicate IsCube(ci: CubeInfo) {
    0 <= ci.fMove <= 1 && -1 <= ci.fCubeOwner <= 1
  }

  /** Gammon prices of the two players, then their backgammon prices. */
  type Prices = s: seq<real> | |s| == 4 witness [0.0, 0.0, 0.0, 0.0]

  function Utility(o: Outputs, ci: CubeInfo, arGammonPrice: Prices): real
    requires IsCube(ci)
  {
    if ci.nMatchTo == 0 then
      o[OUTPUT_WIN] * 2.0 - 1.0 + (o[OUTPUT_WINGAMMON] - o[OUTPUT_LOSEGAMMON]) * arGammonPrice[0]
      + (o[OUTPUT_WINBACKGAMMON] - o[OUTPUT_LOSEBACKGAMMON]) * arGammonPrice[1]
    else
      o[OUTPUT_WIN] * 2.0 - 1.0 + o[OUTPUT_WINGAMMON] * arGammonPrice[ci.fMove]
      - o[OUTPUT_LOSEGAMMON] * arGammonPrice[Not(ci.fMove)]
      + o[OUTPUT_WINBACKGAMMON] * arGammonPrice[2 + ci.fMove]
      - o[OUTPUT_LOSEBACKGAMMON] * arGammonPrice[2 + Not(ci.fMove)]
  }

  /** In money play every gammon counts in full. */
  function UtilityME(o: Outputs, ci: CubeInfo, arGammonPrice: Prices): real
    requires IsCube(ci)
  {
    if ci.nMatchTo == 0 then
      o[OUTPUT_WIN] * 2.0 - 1.0 + (o[OUTPUT_WINGAMMON] - o[OUTPUT_LOSEGAMMON])
      + (o[OUTPUT_WINBACKGAMMON] - o[OUTPUT_LOSEBACKGAMMON])
    else Utility(o, ci, arGammonPrice)
  }

  /** What one player gains the other loses, in money and in match play. */
  lemma UtilityIsZeroSum(o: Outputs, ci: CubeInfo, arGammonPrice: Prices)
    requires IsCube(ci)
    ensures Utility(Invert(o), Flip(ci), arGammonPrice) == -Utility(o, ci, arGammonPrice)
    ensures UtilityME(Invert(o), Flip(ci), arGammonPrice) == -UtilityME(o, ci, arGammonPrice)
  {
    var q := Invert(o);
    assert q[0] == 1.0 - o[0] && q[1] == o[3] && q[2] == o[4] && q[3] == o[1] && q[4] == o[2];
    if ci.nMatchTo == 0 {
      Negate(o[1], o[3], arGammonPrice[0]);
      Negate(o[2], o[4], arGammonPrice[1]);
    }
  }

  // -- the expected result

  /** What a plain win, a gammon and a backgammon pay. */
  datatype Payoffs = Payoffs(plain: real, gammon: real, backgammon: real)

  /** The expected payoff over the six results of a game: each chance of an output vector
      includes the better results. */
  function Expected(o: Outputs, win: Payoffs, loss: Payoffs): real {
    var plainWin, gammonWin, backgammonWin := o[OUTPUT_WIN] - o[OUTPUT_WINGAMMON],
                                              o[OUTPUT_WINGAMMON] - o[OUTPUT_WINBACKGAMMON], o[OUTPUT_WINBACKGAMMON];
    var plainLoss, gammonLoss, backgammonLoss := 1.0 - o[OUTPUT_WIN] - o[OUTPUT_LOSEGAMMON],
                                                 o[OUTPUT_LOSEGAMMON] - o[OUTPUT_LOSEBACKGAMMON], o[OUTPUT_LOSEBACKGAMMON];
    plainWin * win.plain + gammonWin * win.gammon + backgammonWin * win.backgammon
    - (plainLoss * loss.plain + gammonLoss * loss.gammon + backgammonLoss * loss.backgammon)
  }

  function Priced(gammon: real, backgammon: real): Payoffs {
    Payoffs(1.0, 1.0 + gammon, 1.0 + gammon + backgammon)
  }

  /** The utility is the expected result, a gammon counting its price more than a plain game
      and a backgammon its own price more than a gammon; in true money equity both prices
      are 1, so that the results are worth 1, 2 and 3 points. */
  lemma UtilityIsExpected(o: Outputs, ci: CubeInfo, arGammonPrice: Prices)
    requires IsCube(ci)
    ensures ci.nMatchTo == 0 ==>
              && Utility(o, ci, arGammonPrice) == Expected(o, Priced(arGammonPrice[0], arGammonPrice[1]),
                                                           Priced(arGammonPrice[0], arGammonPrice[1]))
              && UtilityME(o, ci, arGammonPrice) == Expected(o, Payoffs(1.0, 2.0, 3.0), Payoffs(1.0, 2.0, 3.0))
    ensures ci.nMatchTo != 0 ==>
              Utility(o, ci, arGammonPrice) == UtilityME(o, ci, arGammonPrice)
              == Expected(o, Priced(arGammonPrice[ci.fMove], arGammonPrice[2 + ci.fMove]),
                          Priced(arGammonPrice[1 - ci.fMove], arGammonPrice[3 - ci.fMove]))
  {
    var (g, b) := if ci.nMatchTo == 0 then (arGammonPrice[0], arGammonPrice[1])
                  else (arGammonPrice[ci.fMove], arGammonPrice[2 + ci.fMove]);
    var (h, c) := if ci.nMatchTo == 0 then (g, b) else (arGammonPrice[1 - ci.fMove], arGammonPrice[3 - ci.fMove]);
    WinsPriced(o[0], o[1], o[2], g, b);
    WinsPriced(1.0 - o[0], o[3], o[4], h, c);
    if ci.nMatchTo == 0 {
      Spread(o[1], o[3], g);
      Spread(o[2], o[4], b);
    }
  }

  lemma WinsPriced(w: real, x: real, y: real, g: real, b: real)
    ensures (w - x) * 1.0 + (x - y) * (1.0 + g) + y * (1.0 + g + b) == w + x * g + y * b
  {
    assert (x - y) * (1.0 + g) == (x - y) + (x - y) * g;
    assert (x - y) * g == x * g - y * g;
    assert y * (1.0 + g + b) == y + y * g + y * b;
  }

  lemma Spread(x: real, y: real, p: real)
    ensures (x - y) * p == x * p - y * p
  {
  }

  lemma Negate(x: real, y: real, p: real)
    ensures (y - x) * p == -((x - y) * p)
  {
  }

  /** Chances that fit together: backgammons are gammons, gammons are wins. */
  predicate Coherent(o: Outputs) {
    && 0.0 <= o[OUTPUT_WINBACKGAMMON] <= o[OUTPUT_WINGAMMON] <= o[OUTPUT_WIN] <= 1.0
    && 0.0 <= o[OUTPUT_LOSEBACKGAMMON] <= o[OUTPUT_LOSEGAMMON] <= 1.0 - o[OUTPUT_WIN]
  }

  lemma InvertKeepsCoherent(o: Outputs)
    ensures Coherent(Invert(o)) <==> Coherent(o)
  {
  }

  /** A coherent evaluation is worth at most three points either way. */
  lemma MoneyEquityInRange(o: Outputs, ci: CubeInfo, arGammonPrice: Prices)
    requires IsCube(ci) && Coherent(o) && ci.nMatchTo == 0
    ensures -3.0 <= UtilityME(o, ci, arGammonPrice) <= 3.0
    ensures UtilityME(o, ci, arGammonPrice) == 3.0 <==> o == [1.0, 1.0, 1.0, 0.0, 0.0]
  {
  }

  // -------------------------------------------------------------- a live cube

  function TakePoint(rW: real, rL: real): real
    requires rW + rL + 0.5 != 0.0
  {
    (rL - 0.5) / (rW + rL + 0.5)
  }

  function CashPoint(rW: real, rL: real): real
    requires rW + rL + 0.5 != 0.0
  {
    (rL + 1.0) / (rW + rL + 0.5)
  }

  lemma PointsInOrder(rW: real, rL: real)
    requires rW >= 1.0 && rL >= 1.0
    ensures 0.0 < TakePoint(rW, rL) < CashPoint(rW, rL) < 1.0
  {
    var d := rW + rL + 0.5;
    DividePositive(rL - 0.5, d);
    DividePositive(rL + 1.0, d);
    DivideOrder(rL - 0.5, rL + 1.0, d);
    DivideOrder(rL + 1.0, d, d);
  }

  lemma DividePositive(x: real, d: real)
    requires x > 0.0 && d > 0.0
    ensures x / d > 0.0
  {
  }

  lemma DivideOrder(x: real, y: real, d: real)
    requires x < y && d > 0.0
    ensures x / d < y / d
    ensures d / d == 1.0
  {
  }

  /** The part of a rise h over the width q that falls to p. */
  function Share(h: real, p: real, q: real): real
    requires q != 0.0
  {
    h * p / q
  }

  /** The equity if the cube were perfectly efficient, piecewise linear between the
      points at which the next action is a cash or a pass. */
  function MoneyLive(rW: real, rL: real, p: real, ci: CubeInfo): real
    requires rW >= 1.0 && rL >= 1.0
  {
    PointsInOrder(rW, rL);
    var rTP, rCP := TakePoint(rW, rL), CashPoint(rW, rL);
    if ci.fCubeOwner == -1 then
      if p < rTP then (if ci.fJacoby then -1.0 else -rL + Share(-1.0 + rL, p, rTP))
      else if p < rCP then -1.0 + Share(2.0, p - rTP, rCP - rTP)
      else if ci.fJacoby then 1.0
      else 1.0 + Share(rW - 1.0, p - rCP, 1.0 - rCP)
    else if ci.fCubeOwner == ci.fMove then
      if p < rCP then -rL + Share(1.0 + rL, p, rCP)
      else 1.0 + Share(rW - 1.0, p - rCP, 1.0 - rCP)
    else if p < rTP then -rL + Share(-1.0 + rL, p, rTP)
    else -1.0 + Share(rW + 1.0, p - rTP, 1.0 - rTP)
  }

  // -- the three curves as one: slopes before, between and after the two points

  function Least(x: real, y: real): real {
    if x < y then x else y
  }

  /** The parts of [0, x] before b1, between b1 and b2, and after b2. */
  function Before(x: real, b1: real): real {
    Least(x, b1)
  }

  function Between(x: real, b1: real, b2: real): real {
    if x < b1 then 0.0 else if x < b2 then x - b1 else b2 - b1
  }

  function After(x: real, b2: real): real {
    if x < b2 then 0.0 else x - b2
  }

  function Kinked(y: real, b1: real, b2: real, s1: real, s2: real, s3: real, x: real): real {
    y + s1 * Before(x, b1) + s2 * Between(x, b1, b2) + s3 * After(x, b2)
  }

  /** How fast a live cube gains beyond the points: 0 without gammons, below 1. */
  function Rate(r: real): real
    requires r >= 1.0
  {
    (r - 1.0) / (r - 0.5)
  }

  lemma RateIs(r: real)
    requires r >= 1.0
    ensures 0.0 <= Rate(r) < 1.0 && Rate(r) * (r - 0.5) == r - 1.0
  {
    if r > 1.0 {
      DividePositive(r - 1.0, r - 0.5);
    }
    DivideOrder(r - 1.0, r - 0.5, r - 0.5);
  }

  /** The curve of a cube, in units that make the doubling window 1.5 wide. */
  function Curve(rW: real, rL: real, x: real, ci: CubeInfo): real
    requires rW >= 1.0 && rL >= 1.0
  {
    if ci.fCubeOwner == -1 then Kinked(-rL, rL - 0.5, rL + 1.0, Rate(rL), 4.0 / 3.0, Rate(rW), x)
    else if ci.fCubeOwner == ci.fMove then Kinked(-rL, rL - 0.5, rL + 1.0, 1.0, 1.0, Rate(rW), x)
    else Kinked(-rL, rL - 0.5, rL + 1.0, Rate(rL), 1.0, 1.0, x)
  }

  lemma QuotientIs(x: real, y: real, z: real)
    requires y != 0.0 && x == y * z
    ensures x / y == z
  {
  }

  lemma OrderScales(x: real, y: real, d: real)
    requires d > 0.0
    ensures x < y <==> d * x < d * y
    ensures d * (y - x) == d * y - d * x
  {
  }

  /** A line of height h over the width q from p0, in units of 1/d. */
  lemma Slope(h: real, a: real, r: real, d: real, q: real, p0: real, x0: real, p: real, x: real)
    requires a > 0.0 && d > 0.0 && d * q == a && r * a == h && d * p0 == x0 && d * p == x
    ensures q > 0.0 && Share(h, p - p0, q) == r * (x - x0)
  {
    assert q > 0.0 by {
      OrderScales(0.0, q, d);
    }
    OrderScales(p0, p, d);
    Rearrange(r, d, q, p - p0);
    QuotientIs(h * (p - p0), q, r * (d * (p - p0)));
  }

  lemma Rearrange(r: real, d: real, q: real, p: real)
    ensures q * (r * (d * p)) == (r * (d * q)) * p
  {
    var x, y := d * p, d * q;
    assert q * x == y * p by {
      assert q * (d * p) == (q * d) * p;
      assert q * d == y;
    }
    assert q * (r * x) == r * (q * x);
    assert r * (y * p) == (r * y) * p;
  }

  /** Where p lies, in units of 1/d. */
  ghost predicate Units(rW: real, rL: real, d: real, t: real, c: real) {
    && d == rW + rL + 0.5 && d > 0.0
    && d * t == rL - 0.5 && d * c == rL + 1.0
    && d * (c - t) == 1.5 && d * (1.0 - c) == rW - 0.5 && d * (1.0 - t) == rW + 1.0
  }

  lemma UnitsAre(rW: real, rL: real, d: real)
    requires rW >= 1.0 && rL >= 1.0 && d == rW + rL + 0.5
    ensures Units(rW, rL, d, TakePoint(rW, rL), CashPoint(rW, rL))
  {
    var t, c := TakePoint(rW, rL), CashPoint(rW, rL);
    assert t == (rL - 0.5) / d && c == (rL + 1.0) / d;
    assert d * t == rL - 0.5;
    assert d * c == rL + 1.0;
    OrderScales(t, c, d);
    OrderScales(c, 1.0, d);
    OrderScales(t, 1.0, d);
  }

  /** A rise from the left end, and one from an inner corner. */
  lemma SlopeFromZero(h: real, a: real, r: real, d: real, q: real, p: real, x: real)
    requires a > 0.0 && d > 0.0 && d * q == a && r * a == h && d * p == x
    ensures q > 0.0 && Share(h, p, q) == r * x
  {
    Slope(h, a, r, d, q, 0.0, 0.0, p, x);
  }

  lemma Sides(d: real, p: real, x: real, t: real, y: real)
    requires d > 0.0 && d * p == x && d * t == y
    ensures p < t <==> x < y
  {
    OrderScales(p, t, d);
  }

  lemma UnitsSay(rW: real, rL: real, d: real, t: real, c: real)
    requires Units(rW, rL, d, t, c)
    ensures d > 0.0 && d * t == rL - 0.5 && d * c == rL + 1.0
    ensures d * (c - t) == 1.5 && d * (1.0 - c) == rW - 0.5 && d * (1.0 - t) == rW + 1.0
  {
  }

  /** The interpolations between the corners, as lines in x. */
  lemma Lines(rW: real, rL: real, d: real, t: real, c: real, p: real, x: real)
    requires rW >= 1.0 && rL >= 1.0 && Units(rW, rL, d, t, c) && d * p == x
    ensures t > 0.0 && c - t > 0.0 && c > 0.0 && 1.0 - c > 0.0 && 1.0 - t > 0.0
    ensures Share(-1.0 + rL, p, t) == Rate(rL) * x
    ensures Share(2.0, p - t, c - t) == (4.0 / 3.0) * (x - (rL - 0.5))
    ensures Share(rW - 1.0, p - c, 1.0 - c) == Rate(rW) * (x - (rL + 1.0))
    ensures Share(1.0 + rL, p, c) == 1.0 * x
    ensures Share(rW + 1.0, p - t, 1.0 - t) == 1.0 * (x - (rL - 0.5))
    ensures (p < t <==> x < rL - 0.5) && (p < c <==> x < rL + 1.0)
  {
    hide *;
    UnitsSay(rW, rL, d, t, c);
    var u, v := Rate(rL), Rate(rW);
    RateIs(rL);
    RateIs(rW);
    Sides(d, p, x, t, rL - 0.5);
    Sides(d, p, x, c, rL + 1.0);
    SlopeFromZero(-1.0 + rL, rL - 0.5, u, d, t, p, x);
    Slope(2.0, 1.5, 4.0 / 3.0, d, c - t, t, rL - 0.5, p, x);
    Slope(rW - 1.0, rW - 0.5, v, d, 1.0 - c, c, rL + 1.0, p, x);
    SlopeFromZero(1.0 + rL, rL + 1.0, 1.0, d, c, p, x);
    Slope(rW + 1.0, rW + 1.0, 1.0, d, 1.0 - t, t, rL - 0.5, p, x);
  }

  /** MoneyLive is that curve, unless the Jacoby rule flattens it. */
  lemma MoneyLiveIsCurve(rW: real, rL: real, d: real, p: real, x: real, ci: CubeInfo)
    requires rW >= 1.0 && rL >= 1.0 && d == rW + rL + 0.5 && d * p == x && (ci.fCubeOwner == -1 ==> !ci.fJacoby)
    ensures MoneyLive(rW, rL, p, ci) == Curve(rW, rL, x, ci)
  {
    hide TakePoint, CashPoint, Rate, Curve, Share, Units;
    var t, c := TakePoint(rW, rL), CashPoint(rW, rL);
    UnitsAre(rW, rL, d);
    Lines(rW, rL, d, t, c, p, x);
    CurveIs(rW, rL, x, ci);
  }

  lemma CurveIs(rW: real, rL: real, x: real, ci: CubeInfo)
    requires rW >= 1.0 && rL >= 1.0
    ensures Curve(rW, rL, x, ci) ==
              if ci.fCubeOwner == -1 then
                if x < rL - 0.5 then -rL + Rate(rL) * x
                else if x < rL + 1.0 then -1.0 + (4.0 / 3.0) * (x - (rL - 0.5))
                else 1.0 + Rate(rW) * (x - (rL + 1.0))
              else if ci.fCubeOwner == ci.fMove then
                if x < rL + 1.0 then -rL + x else 1.0 + Rate(rW) * (x - (rL + 1.0))
              else if x < rL - 0.5 then -rL + Rate(rL) * x
              else -1.0 + (x - (rL - 0.5))
  {
    RateIs(rL);
    hide Rate;
  }

  // -- what the curve tells about the equity

  lemma Products(s: real, t: real, x: real)
    requires 0.0 <= s <= t && x >= 0.0
    ensures 0.0 <= s * x <= t * x
  {
  }

  lemma Rises(s: real, k: real, x: real, y: real)
    requires 0.0 <= s <= k && x <= y
    ensures 0.0 <= s * y - s * x <= k * y - k * x
  {
    var w := y - x;
    Products(s, k, w);
    assert s * (x + w) == s * x + s * w && k * (x + w) == k * x + k * w;
  }

  lemma KinkedIsSteady(y: real, b1: real, b2: real, s1: real, s2: real, s3: real, k: real, u: real, v: real)
    requires b1 < b2 && u <= v && 0.0 <= s1 <= k && 0.0 <= s2 <= k && 0.0 <= s3 <= k
    ensures 0.0 <= Kinked(y, b1, b2, s1, s2, s3, v) - Kinked(y, b1, b2, s1, s2, s3, u) <= k * v - k * u
  {
    PartsRise(b1, b2, u, v);
    var p0, p1, p2, q0, q1, q2 := Before(u, b1), Between(u, b1, b2), After(u, b2), Before(v, b1), Between(v, b1, b2), After(v, b2);
    hide Before, Between, After;
    Rises(s1, k, p0, q0);
    Rises(s2, k, p1, q1);
    Rises(s3, k, p2, q2);
    SumOf(k, p0, p1, p2, u);
    SumOf(k, q0, q1, q2, v);
  }

  lemma SumOf(k: real, x: real, y: real, z: real, s: real)
    requires x + y + z == s
    ensures k * x + k * y + k * z == k * s
  {
    assert k * (x + y + z) == k * x + k * y + k * z;
  }

  lemma PartsRise(b1: real, b2: real, u: real, v: real)
    requires b1 < b2 && u <= v
    ensures Before(u, b1) <= Before(v, b1) && Between(u, b1, b2) <= Between(v, b1, b2) && After(u, b2) <= After(v, b2)
    ensures Before(v, b1) + Between(v, b1, b2) + After(v, b2) == v
    ensures Before(u, b1) + Between(u, b1, b2) + After(u, b2) == u
  {
  }

  lemma CurveIsSteady(rW: real, rL: real, x: real, y: real, ci: CubeInfo)
    requires rW >= 1.0 && rL >= 1.0 && x <= y
    ensures 0.0 <= Curve(rW, rL, y, ci) - Curve(rW, rL, x, ci) <= (4.0 / 3.0) * (y - x)
  {
    RateIs(rL);
    RateIs(rW);
    hide Rate, Kinked;
    if ci.fCubeOwner == -1 {
      KinkedIsSteady(-rL, rL - 0.5, rL + 1.0, Rate(rL), 4.0 / 3.0, Rate(rW), 4.0 / 3.0, x, y);
    } else if ci.fCubeOwner == ci.fMove {
      KinkedIsSteady(-rL, rL - 0.5, rL + 1.0, 1.0, 1.0, Rate(rW), 4.0 / 3.0, x, y);
    } else {
      KinkedIsSteady(-rL, rL - 0.5, rL + 1.0, Rate(rL), 1.0, 1.0, 4.0 / 3.0, x, y);
    }
  }

  /** The live equity never falls as the chance of winning rises, and it has no
      jumps: it rises at most (4/3)(rW + rL + 1/2) times as fast. */
  lemma MoneyLiveIsContinuous(rW: real, rL: real, d: real, p: real, q: real, ci: CubeInfo)
    requires rW >= 1.0 && rL >= 1.0 && d == rW + rL + 0.5 && p <= q && (ci.fCubeOwner == -1 ==> !ci.fJacoby)
    ensures 0.0 <= MoneyLive(rW, rL, q, ci) - MoneyLive(rW, rL, p, ci) <= (4.0 / 3.0) * (d * (q - p))
  {
    hide *;
    MoneyLiveIsCurve(rW, rL, d, p, d * p, ci);
    MoneyLiveIsCurve(rW, rL, d, q, d * q, ci);
    OrderScales(q, p, d);
    OrderScales(p, q, d);
    CurveIsSteady(rW, rL, d * p, d * q, ci);
  }

  /** Certain loss costs rL, certain victory earns rW. */
  lemma MoneyLiveEnds(rW: real, rL: real, d: real, ci: CubeInfo)
    requires rW >= 1.0 && rL >= 1.0 && d == rW + rL + 0.5 && (ci.fCubeOwner == -1 ==> !ci.fJacoby)
    ensures MoneyLive(rW, rL, 0.0, ci) == -rL && MoneyLive(rW, rL, 1.0, ci) == rW
  {
    hide *;
    MoneyLiveIsCurve(rW, rL, d, 0.0, 0.0, ci);
    MoneyLiveIsCurve(rW, rL, d, 1.0, d, ci);
    CurveIs(rW, rL, 0.0, ci);
    CurveIs(rW, rL, d, ci);
    RateIs(rL);
    RateIs(rW);
  }

  /** Owning the cube is worth at least as much as a centred cube, and that at least as
      much as a cube the opponent owns. */
  lemma CubeIsWorthOwning(rW: real, rL: real, d: real, p: real, owned: CubeInfo, centred: CubeInfo, unavailable: CubeInfo)
    requires rW >= 1.0 && rL >= 1.0 && d == rW + rL + 0.5 && 0.0 <= p <= 1.0
    requires owned.fCubeOwner == owned.fMove && owned.fCubeOwner != -1
    requires centred.fCubeOwner == -1 && !centred.fJacoby
    requires unavailable.fCubeOwner != unavailable.fMove && unavailable.fCubeOwner != -1
    ensures MoneyLive(rW, rL, p, owned) >= MoneyLive(rW, rL, p, centred) >= MoneyLive(rW, rL, p, unavailable)
  {
    hide *;
    MoneyLiveIsCurve(rW, rL, d, p, d * p, owned);
    MoneyLiveIsCurve(rW, rL, d, p, d * p, centred);
    MoneyLiveIsCurve(rW, rL, d, p, d * p, unavailable);
    Products(p, 1.0, d);
    CurvesInOrder(rW, rL, d * p, owned, centred, unavailable);
  }

  lemma CurvesInOrder(rW: real, rL: real, x: real, owned: CubeInfo, centred: CubeInfo, unavailable: CubeInfo)
    requires rW >= 1.0 && rL >= 1.0 && 0.0 <= x <= rW + rL + 0.5
    requires owned.fCubeOwner == owned.fMove && owned.fCubeOwner != -1
    requires centred.fCubeOwner == -1
    requires unavailable.fCubeOwner != unavailable.fMove && unavailable.fCubeOwner != -1
    ensures Curve(rW, rL, x, owned) >= Curve(rW, rL, x, centred) >= Curve(rW, rL, x, unavailable)
  {
    RateIs(rL);
    RateIs(rW);
    var u, v := 1.0 - Rate(rL), 1.0 - Rate(rW);
    hide Rate;
    var b1, b2 := rL - 0.5, rL + 1.0;
    assert u * b1 == 0.5;
    assert v * (rW - 0.5) == 0.5;
    var lo, hi := Before(x, b1), After(x, b2);
    Products(u, u, lo);
    assert u * lo <= 0.5 by {
      Products(lo, b1, u);
    }
    assert 0.0 <= v * hi <= 0.5 by {
      Products(hi, rW - 0.5, v);
    }
  }

  // ------------------------------------------------------------- zero-sum

  /** Seen from the other side a curve turns upside down. */
  lemma CurveTurns(rW: real, rL: real, d: real, x: real, ci: CubeInfo)
    requires rW >= 1.0 && rL >= 1.0 && d == rW + rL + 0.5 && IsCube(ci)
    ensures Curve(rL, rW, d - x, Flip(ci)) == -Curve(rW, rL, x, ci)
  {
    var y := d - x;
    RateIs(rL);
    RateIs(rW);
    var u, v := Rate(rL), Rate(rW);
    hide Rate;
    assert Before(y, rW - 0.5) == (rW - 0.5) - After(x, rL + 1.0);
    assert After(y, rW + 1.0) == (rL - 0.5) - Before(x, rL - 0.5);
    assert Between(y, rW - 0.5, rW + 1.0) == 1.5 - Between(x, rL - 0.5, rL + 1.0);
    hide Before, Between, After;
    assert v * Before(y, rW - 0.5) == v * (rW - 0.5) - v * After(x, rL + 1.0);
    assert u * After(y, rW + 1.0) == u * (rL - 0.5) - u * Before(x, rL - 0.5);
  }

  lemma PointsTurn(rW: real, rL: real, d: real, p: real)
    requires rW >= 1.0 && rL >= 1.0 && d == rW + rL + 0.5
    ensures TakePoint(rL, rW) == 1.0 - CashPoint(rW, rL) && CashPoint(rL, rW) == 1.0 - TakePoint(rW, rL)
  {
    UnitsAre(rW, rL, d);
    var t, c := TakePoint(rW, rL), CashPoint(rW, rL);
    assert TakePoint(rL, rW) == (rW - 0.5) / d && CashPoint(rL, rW) == (rW + 1.0) / d;
    hide TakePoint, CashPoint;
    QuotientIs(rW - 0.5, d, 1.0 - c);
    QuotientIs(rW + 1.0, d, 1.0 - t);
  }

  /** The take point is where holding the doubled cube is worth a pass, and the cash point
      where the opponent's holding it is. */
  lemma PointsAreIndifferent(rW: real, rL: real, d: real, owned: CubeInfo)
    requires rW >= 1.0 && rL >= 1.0 && d == rW + rL + 0.5 && IsCube(owned) && owned.fCubeOwner == owned.fMove
    ensures 2.0 * MoneyLive(rW, rL, TakePoint(rW, rL), owned) == -1.0
    ensures 2.0 * MoneyLive(rL, rW, 1.0 - CashPoint(rW, rL), owned) == -1.0
  {
    OwnedAtTakePoint(rW, rL, d, owned);
    OwnedAtTakePoint(rL, rW, d, owned);
    PointsTurn(rW, rL, d, 0.0);
  }

  lemma OwnedAtTakePoint(rW: real, rL: real, d: real, owned: CubeInfo)
    requires rW >= 1.0 && rL >= 1.0 && d == rW + rL + 0.5 && IsCube(owned) && owned.fCubeOwner == owned.fMove
    ensures MoneyLive(rW, rL, TakePoint(rW, rL), owned) == -0.5
  {
    PointsInOrder(rW, rL);
    var t, c := TakePoint(rW, rL), CashPoint(rW, rL);
    assert t * d == rL - 0.5 && c * d == rL + 1.0;
    hide TakePoint, CashPoint;
    ShareIs(1.0 + rL, t, c, rL - 0.5, d);
  }

  lemma ShareIs(h: real, p: real, q: real, x: real, d: real)
    requires q > 0.0 && d > 0.0 && p * d == x && q * d == h
    ensures Share(h, p, q) == x
  {
    assert h * p == (q * d) * p == q * (p * d) == x * q;
    QuotientIs(h * p, q, x);
  }

  /** With a centred cube and the Jacoby rule, where one player would cash nothing more than
      one point is at stake; between the points the rule changes nothing. */
  lemma JacobyCapsAtOne(rW: real, rL: real, p: real, ci: CubeInfo)
    requires rW >= 1.0 && rL >= 1.0 && ci.fCubeOwner == -1
    ensures MoneyLive(rW, rL, p, ci.(fJacoby := true))
         == if p < TakePoint(rW, rL) then -1.0
            else if p < CashPoint(rW, rL) then MoneyLive(rW, rL, p, ci.(fJacoby := false)) else 1.0
  {
  }

  /** One player's live equity is the other's with the sign changed. */
  lemma MoneyLiveIsZeroSum(rW: real, rL: real, d: real, p: real, ci: CubeInfo)
    requires rW >= 1.0 && rL >= 1.0 && d == rW + rL + 0.5 && IsCube(ci)
    ensures MoneyLive(rL, rW, 1.0 - p, Flip(ci)) == -MoneyLive(rW, rL, p, ci)
  {
    if ci.fCubeOwner == -1 && ci.fJacoby {
      JacobyIsZeroSum(rW, rL, d, p, ci);
    } else {
      hide MoneyLive, Curve;
      MoneyLiveIsCurve(rW, rL, d, p, d * p, ci);
      assert d * (1.0 - p) == d - d * p;
      MoneyLiveIsCurve(rL, rW, d, 1.0 - p, d - d * p, Flip(ci));
      CurveTurns(rW, rL, d, d * p, ci);
    }
  }

  lemma JacobyIsZeroSum(rW: real, rL: real, d: real, p: real, ci: CubeInfo)
    requires rW >= 1.0 && rL >= 1.0 && d == rW + rL + 0.5 && ci.fCubeOwner == -1 && ci.fJacoby
    ensures MoneyLive(rL, rW, 1.0 - p, Flip(ci)) == -MoneyLive(rW, rL, p, ci)
  {
    PointsTurn(rW, rL, d, p);
    PointsInOrder(rW, rL);
    var t, c := TakePoint(rW, rL), CashPoint(rW, rL);
    Middle(t, c, p);
    hide TakePoint, CashPoint, Share;
  }

  lemma Middle(t: real, c: real, p: real)
    requires t < c
    ensures (1.0 - t) - (1.0 - c) == c - t
    ensures Share(2.0, (1.0 - p) - (1.0 - c), c - t) == 2.0 - Share(2.0, p - t, c - t)
    ensures p == t ==> Share(2.0, p - t, c - t) == 0.0
    ensures p == c ==> Share(2.0, p - t, c - t) == 2.0
  {
    var w := c - t;
    var x := Share(2.0, p - t, w);
    assert w * x == 2.0 * (p - t);
    QuotientIs(2.0 * (c - p), w, 2.0 - x);
    QuotientIs(2.0 * (c - t), w, 2.0);
  }

  const EPSILON: real := 0.0000001
  const OM_EPSILON: real := 0.9999999

  /** Part live, part dead. */
  function Blend(dead: real, live: real, rCubeX: real): real {
    dead * (1.0 - rCubeX) + live * rCubeX
  }

  function Cl2CfMoney(o: Outputs, ci: CubeInfo, arGammonPrice: Prices, rCubeX: real): real
    requires Coherent(o) && IsCube(ci)
  {
    if o[OUTPUT_WIN] <= EPSILON || o[OUTPUT_WIN] >= OM_EPSILON then Utility(o, ci, arGammonPrice)
    else
      var rW := AverageWin(o);
      var rL := AverageWin(Invert(o));
      InvertKeepsCoherent(o);
      Blend(Utility(o, ci, arGammonPrice), MoneyLive(rW, rL, o[OUTPUT_WIN], ci), rCubeX)
  }

  /** The average points of a win; of a loss, on the inverted vector. */
  function AverageWin(o: Outputs): (r: real)
    requires Coherent(o) && o[OUTPUT_WIN] > 0.0
    ensures 1.0 <= r <= 3.0
  {
    PartOf(o[OUTPUT_WINGAMMON] + o[OUTPUT_WINBACKGAMMON], o[OUTPUT_WIN]);
    1.0 + (o[OUTPUT_WINGAMMON] + o[OUTPUT_WINBACKGAMMON]) / o[OUTPUT_WIN]
  }

  /** The average win and the average loss, weighed by their chances, are the money equity. */
  lemma AveragesAreEquity(o: Outputs, ci: CubeInfo, arGammonPrice: Prices)
    requires Coherent(o) && IsCube(ci) && ci.nMatchTo == 0 && 0.0 < o[OUTPUT_WIN] < 1.0
    ensures Coherent(Invert(o)) && Invert(o)[OUTPUT_WIN] == 1.0 - o[OUTPUT_WIN]
    ensures o[OUTPUT_WIN] * AverageWin(o) - (1.0 - o[OUTPUT_WIN]) * AverageWin(Invert(o)) == UtilityME(o, ci, arGammonPrice)
  {
    InvertKeepsCoherent(o);
    var w := o[OUTPUT_WIN];
    TimesQuotient(w, o[1] + o[2]);
    TimesQuotient(1.0 - w, o[3] + o[4]);
  }

  lemma TimesQuotient(w: real, x: real)
    requires w > 0.0
    ensures w * (1.0 + x / w) == w + x
  {
    assert w * (x / w) == x;
  }

  /** The efficiency runs from a dead cube to a live one, in proportion. */
  lemma EfficiencyRuns(o: Outputs, ci: CubeInfo, arGammonPrice: Prices, rCubeX: real)
    requires Coherent(o) && IsCube(ci)
    ensures Cl2CfMoney(o, ci, arGammonPrice, 0.0) == Utility(o, ci, arGammonPrice)
    ensures 0.0000001 < o[OUTPUT_WIN] < 0.9999999 ==> Coherent(Invert(o)) && Invert(o)[OUTPUT_WIN] > 0.0
    ensures 0.0000001 < o[OUTPUT_WIN] < 0.9999999 ==>
              Cl2CfMoney(o, ci, arGammonPrice, 1.0) == MoneyLive(AverageWin(o), AverageWin(Invert(o)), o[OUTPUT_WIN], ci)
    ensures Cl2CfMoney(o, ci, arGammonPrice, rCubeX) == Cl2CfMoney(o, ci, arGammonPrice, 0.0)
              + rCubeX * (Cl2CfMoney(o, ci, arGammonPrice, 1.0) - Cl2CfMoney(o, ci, arGammonPrice, 0.0))
  {
    InvertKeepsCoherent(o);
    hide Utility, MoneyLive, AverageWin, Coherent;
    if EPSILON < o[OUTPUT_WIN] < OM_EPSILON {
      var dead, live := Utility(o, ci, arGammonPrice), MoneyLive(AverageWin(o), AverageWin(Invert(o)), o[OUTPUT_WIN], ci);
      assert dead * (1.0 - rCubeX) + live * rCubeX == dead + rCubeX * (live - dead);
    }
  }

  /** Passing a double costs a lost game at the cube as it stands. */
  lemma PassIsAWonGame(e: Engine, ci: CubeInfo, arGammonPrice: Prices)
    requires IsCube(ci) && ci.nMatchTo == 0
    ensures PassEquity(e, ci) == UtilityME([1.0, 0.0, 0.0, 0.0, 0.0], ci, arGammonPrice)
  {
  }

  lemma PartOf(x: real, y: real)
    requires 0.0 <= x <= 2.0 * y && y > 0.0
    ensures 0.0 <= x / y <= 2.0
  {
    var q := x / y;
    assert q * y == x;
  }

  lemma BlendNegates(dead: real, live: real, dead': real, live': real, rCubeX: real)
    requires dead' == -dead && live' == -live
    ensures Blend(dead', live', rCubeX) == -Blend(dead, live, rCubeX)
  {
    var y := 1.0 - rCubeX;
    assert (-dead) * y == -(dead * y) && (-live) * rCubeX == -(live * rCubeX);
  }

  lemma BlendOrders(dead: real, live: real, live': real, rCubeX: real)
    requires live >= live' && rCubeX >= 0.0
    ensures Blend(dead, live, rCubeX) >= Blend(dead, live', rCubeX)
  {
    assert live * rCubeX >= live' * rCubeX;
  }

  /** The cubeful money equity is exactly zero-sum. */
  lemma Cl2CfMoneyIsZeroSum(o: Outputs, ci: CubeInfo, arGammonPrice: Prices, rCubeX: real)
    requires Coherent(o) && IsCube(ci) && ci.nMatchTo == 0
    ensures Coherent(Invert(o))
    ensures Cl2CfMoney(Invert(o), Flip(ci), arGammonPrice, rCubeX) == -Cl2CfMoney(o, ci, arGammonPrice, rCubeX)
  {
    hide Utility, MoneyLive, Blend, AverageWin, Coherent;
    InvertKeepsCoherent(o);
    InvertTwice(o);
    UtilityIsZeroSum(o, ci, arGammonPrice);
    var w := o[OUTPUT_WIN];
    assert Invert(o)[OUTPUT_WIN] == 1.0 - w;
    hide Invert;
    if EPSILON < w < OM_EPSILON {
      var rW, rL := AverageWin(o), AverageWin(Invert(o));
      MoneyLiveIsZeroSum(rW, rL, rW + rL + 0.5, w, ci);
      BlendNegates(Utility(o, ci, arGammonPrice), MoneyLive(rW, rL, w, ci),
                   Utility(Invert(o), Flip(ci), arGammonPrice), MoneyLive(rL, rW, 1.0 - w, Flip(ci)), rCubeX);
    }
  }

  /** With any cube efficiency the cube is worth owning. */
  lemma CubefulMoneyInOrder(o: Outputs, owned: CubeInfo, centred: CubeInfo, unavailable: CubeInfo, arGammonPrice: Prices, rCubeX: real)
    requires Coherent(o) && rCubeX >= 0.0
    requires IsCube(owned) && owned.fCubeOwner == owned.fMove && owned.nMatchTo == 0
    requires IsCube(centred) && centred.fCubeOwner == -1 && !centred.fJacoby && centred.nMatchTo == 0
    requires IsCube(unavailable) && unavailable.fCubeOwner == Not(unavailable.fMove) && unavailable.nMatchTo == 0
    ensures Cl2CfMoney(o, owned, arGammonPrice, rCubeX) >= Cl2CfMoney(o, centred, arGammonPrice, rCubeX)
         >= Cl2CfMoney(o, unavailable, arGammonPrice, rCubeX)
  {
    var dead := Utility(o, centred, arGammonPrice);
    assert Utility(o, owned, arGammonPrice) == dead == Utility(o, unavailable, arGammonPrice);
    hide Utility, MoneyLive, Blend, AverageWin, Coherent, Invert;
    var w := o[OUTPUT_WIN];
    if EPSILON < w < OM_EPSILON {
      InvertKeepsCoherent(o);
      var rW, rL := AverageWin(o), AverageWin(Invert(o));
      CubeIsWorthOwning(rW, rL, rW + rL + 0.5, w, owned, centred, unavailable);
      BlendOrders(dead, MoneyLive(rW, rL, w, owned), MoneyLive(rW, rL, w, centred), rCubeX);
      BlendOrders(dead, MoneyLive(rW, rL, w, centred), MoneyLive(rW, rL, w, unavailable), rCubeX);
    }
  }
}
