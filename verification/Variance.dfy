/** The running sample variance of gnubg/analysis.c. */
module Variance {

  function Sum(xs: seq<real>): real {
    if xs == [] then 0.0 else Sum(xs[..|xs| - 1]) + xs[|xs| - 1]
  }

  /** The squared deviations from c. */
  function Spread(xs: seq<real>, c: real): real {
    if xs == [] then 0.0 else Spread(xs[..|xs| - 1], c) + (xs[|xs| - 1] - c) * (xs[|xs| - 1] - c)
  }

  function Mean(xs: seq<real>): real
    requires xs != []
  {
    Sum(xs) / (|xs| as real)
  }

  /** The sample variance, by definition 0 for fewer than two samples. */
  function SampleVariance(xs: seq<real>): real {
    if |xs| <= 1 then 0.0 else Spread(xs, Mean(xs)) / ((|xs| - 1) as real)
  }

  /** The spread of k samples with sum s about a centre moved by d. */
  function Moved(spread: real, s: real, k: real, c: real, d: real): real {
    spread - 2.0 * d * (s - k * c) + k * d * d
  }

  lemma {:induction false} SpreadMoves(xs: seq<real>, c: real, d: real)
    ensures Spread(xs, c + d) == Moved(Spread(xs, c), Sum(xs), |xs| as real, c, d)
  {
    hide *;
    if xs == [] {
      NothingMoved(c, d);
      assert |xs| as real == 0.0;
    } else {
      var x, ys := xs[|xs| - 1], xs[..|xs| - 1];
      assert xs == ys + [x];
      LastOf(xs, ys, x, c);
      LastOf(xs, ys, x, c + d);
      SpreadMoves(ys, c, d);
      OneMoved(Spread(ys, c), Sum(ys), |ys| as real, x, c, d);
    }
  }

  lemma NothingMoved(c: real, d: real)
    ensures Spread([], c + d) == Moved(Spread([], c), Sum([]), 0.0, c, d)
  {
  }

  lemma OneMoved(spread: real, s: real, k: real, x: real, c: real, d: real)
    ensures Moved(spread, s, k, c, d) + (x - (c + d)) * (x - (c + d))
         == Moved(spread + (x - c) * (x - c), s + x, k + 1.0, c, d)
  {
    Square(x, c, d);
    Collect(d, s, k, x, c);
  }

  lemma Square(x: real, c: real, d: real)
    ensures (x - (c + d)) * (x - (c + d)) == (x - c) * (x - c) - 2.0 * d * (x - c) + d * d
  {
    var y := x - c;
    assert x - (c + d) == y - d;
    assert (y - d) * (y - d) == y * y - 2.0 * d * y + d * d;
  }

  lemma Collect(d: real, s: real, k: real, x: real, c: real)
    ensures 2.0 * d * (s - k * c) + 2.0 * d * (x - c) == 2.0 * d * (s + x - (k + 1.0) * c)
    ensures k * d * d + d * d == (k + 1.0) * d * d
  {
    var y, z := s - k * c, x - c;
    assert s + x - (k + 1.0) * c == y + z;
    assert 2.0 * d * y + 2.0 * d * z == 2.0 * d * (y + z);
  }

  /** The update of the variance of k samples for one more that moves the mean by d. */
  function Next(v: real, k: real, d: real): real
    requires k != 0.0
  {
    v * (1.0 - 1.0 / k) + (k + 1.0) * d * d
  }

  /** One sample more: what UpdateVariance adds is exactly what the definition asks. */
  lemma {:induction false} NextVariance(xs: seq<real>, ys: seq<real>, x: real, k: real)
    requires xs != [] && ys == xs + [x] && k == |xs| as real
    ensures SampleVariance(ys) == Next(SampleVariance(xs), k, Mean(ys) - Mean(xs))
  {
    hide *;
    var m, m' := Mean(xs), Mean(ys);
    MeanIs(xs);
    MeanIs(ys);
    LastOf(ys, xs, x, m');
    SpreadMoves(xs, m, m' - m);
    assert m + (m' - m) == m';
    VarianceIs(xs, k);
    VarianceIs(ys, k + 1.0);
    Finish(Spread(xs, m), Sum(xs), k, x, m, m', SampleVariance(xs), |xs| == 1, Spread(ys, m'));
  }

  lemma Finish(spread: real, s: real, k: real, x: real, m: real, m': real, v: real, single: bool, t: real)
    requires k >= 1.0 && k * m == s && (k + 1.0) * m' == s + x
    requires t == Moved(spread, s, k, m, m' - m) + (x - m') * (x - m')
    requires if single then k == 1.0 && spread == 0.0 else k >= 2.0 && v == spread / (k - 1.0)
    ensures t / k == Next(v, k, m' - m)
  {
    NewSample(k, s, x, m, m');
    NoDeviation(m' - m, s, k, m);
    Divide(spread, k, m' - m, v, single, t);
  }

  lemma NoDeviation(d: real, s: real, k: real, m: real)
    requires k * m == s
    ensures 2.0 * d * (s - k * m) == 0.0
  {
  }

  lemma {:induction false} LastOf(ys: seq<real>, xs: seq<real>, x: real, c: real)
    requires ys == xs + [x]
    ensures Sum(ys) == Sum(xs) + x && Spread(ys, c) == Spread(xs, c) + (x - c) * (x - c)
    ensures |ys| as real == |xs| as real + 1.0
  {
    assert ys[..|xs|] == xs;
  }

  lemma {:induction false} VarianceIs(xs: seq<real>, k: real)
    requires xs != [] && k == |xs| as real
    ensures |xs| == 1 ==> k == 1.0 && Spread(xs, Mean(xs)) == 0.0
    ensures |xs| >= 2 ==> k >= 2.0 && SampleVariance(xs) == Spread(xs, Mean(xs)) / (k - 1.0)
  {
    if |xs| == 1 {
      SpreadOfOne(xs);
    }
  }

  lemma {:induction false} MeanIs(xs: seq<real>)
    requires xs != []
    ensures (|xs| as real) * Mean(xs) == Sum(xs)
  {
  }

  lemma NewSample(k: real, s: real, x: real, m: real, m': real)
    requires k * m == s && (k + 1.0) * m' == s + x
    ensures x - m' == k * (m' - m)
  {
    assert (k + 1.0) * m' == k * m' + m';
    assert k * (m' - m) == k * m' - k * m;
  }

  lemma {:induction false} SpreadOfOne(xs: seq<real>)
    requires |xs| == 1
    ensures Spread(xs, Mean(xs)) == 0.0
  {
    assert xs[..0] == [];
    assert Sum(xs) == xs[0];
  }

  lemma Divide(s: real, k: real, d: real, v: real, single: bool, t: real)
    requires k >= 1.0 && t == s + k * d * d + (k * d) * (k * d)
    requires if single then k == 1.0 && s == 0.0 else k >= 2.0 && v == s / (k - 1.0)
    ensures t / k == Next(v, k, d)
  {
    var w := v * (1.0 - 1.0 / k);
    assert k * w == s by {
      assert k * (1.0 - 1.0 / k) == k - 1.0;
      assert k * w == v * (k * (1.0 - 1.0 / k)) == v * (k - 1.0);
    }
    var e := d * d;
    assert k * d * d == k * e && (k * d) * (k * d) == k * (k * e) && (k + 1.0) * d * d == (k + 1.0) * e;
    assert k * (w + (k + 1.0) * e) == k * w + k * (k * e) + k * e;
    Quotient(t, k, w + (k + 1.0) * e);
  }

  lemma Quotient(x: real, y: real, z: real)
    requires y != 0.0 && x == y * z
    ensures x / y == z
  {
  }

  /** The new variance when the nGames-th sample brings the sum to `sum`. */
  function Updated(v: real, sum: real, add: real, nGames: nat): real {
    if nGames <= 1 then 0.0
    else Next(v, (nGames - 1) as real, sum / (nGames as real) - (sum - add) / ((nGames - 1) as real))
  }

  /** Kept up sample by sample it is the sample variance of all of them. */
  lemma {:induction false} UpdatedIsSampleVariance(xs: seq<real>, x: real)
    ensures Updated(SampleVariance(xs), Sum(xs) + x, x, |xs| + 1) == SampleVariance(xs + [x])
    ensures Sum(xs + [x]) == Sum(xs) + x
  {
    var ys := xs + [x];
    LastOf(ys, xs, x, 0.0);
    if xs != [] {
      var k := |xs| as real;
      assert k + 1.0 == |ys| as real;
      assert Mean(ys) == (Sum(xs) + x) / (|ys| as real) && Mean(xs) == (Sum(xs) + x - x) / k;
      hide Mean, SampleVariance, Next;
      NextVariance(xs, ys, x, k);
    }
  }

  method UpdateVariance(rVariance: real, rSum: real, rSumAdd: real, nGames: nat) returns (r: real)
    ensures r == Updated(rVariance, rSum, rSumAdd, nGames)
  {
    if nGames == 0 || nGames == 1 {
      return 0.0;
    }
    var rMuNew := rSum / (nGames as real);
    var rMuOld := (rSum - rSumAdd) / ((nGames - 1) as real);
    var rDeltaMu := rMuNew - rMuOld;
    r := rVariance * (1.0 - 1.0 / ((nGames - 1) as real)) + (nGames as real) * rDeltaMu * rDeltaMu;
    SameUpdate(rVariance, nGames, rDeltaMu);
  }

  lemma SameUpdate(v: real, n: nat, d: real)
    requires n >= 2
    ensures Next(v, (n - 1) as real, d) == v * (1.0 - 1.0 / ((n - 1) as real)) + (n as real) * d * d
  {
    assert (n - 1) as real + 1.0 == n as real;
  }
}
