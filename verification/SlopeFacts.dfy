// What the fitted slope says about the run it was fitted to.

module SlopeFacts {
  import opened SampleBuffer
  import opened SlopeFit

  ghost predicate Positive(ps: seq<Point>) {
    forall k :: 0 <= k < |ps| ==> ps[k].w > 0.0
  }

  // ----- pair sums of signed terms -----

  ghost predicate TermsNonNegative(ps: seq<Point>) {
    forall i, j :: 0 <= i < |ps| && 0 <= j < |ps| ==> PairTerm(ps[i], ps[j]) >= 0.0
  }

  lemma {:induction false} PairSumNonNegative(ps: seq<Point>)
    requires TermsNonNegative(ps)
    ensures PairSum(ps) >= 0.0
    ensures forall i, j :: 0 <= i < |ps| && 0 <= j < |ps| && PairTerm(ps[i], ps[j]) > 0.0 ==> PairSum(ps) > 0.0
  {
    forall j | 0 <= j < |ps|
      ensures RowSums(ps)[j] >= 0.0
      ensures forall i :: 0 <= i < |ps| && PairTerm(ps[i], ps[j]) > 0.0 ==> RowSums(ps)[j] > 0.0
    {
      var r := Row(ps, j);
      SumNonNegative(r, |ps|);
      forall i | 0 <= i < |ps| && PairTerm(ps[i], ps[j]) > 0.0
        ensures RowSums(ps)[j] > 0.0
      {
        assert r[i] > 0.0;
      }
    }
    SumNonNegative(RowSums(ps), |ps|);
  }

  lemma {:induction false} PairSumZero(ps: seq<Point>)
    requires forall i, j :: 0 <= i < |ps| && 0 <= j < |ps| ==> PairTerm(ps[i], ps[j]) == 0.0
    ensures PairSum(ps) == 0.0
  {
    forall j | 0 <= j < |ps|
      ensures RowSums(ps)[j] == 0.0
    {
      SumZero(Row(ps, j), |ps|);
    }
    SumZero(RowSums(ps), |ps|);
  }

  // ----- a y + c x in place of y -----

  function Tilt(ps: seq<Point>, a: real, c: real): (ts: seq<Point>)
    ensures |ts| == |ps|
    ensures forall k :: 0 <= k < |ps| ==> ts[k] == Point(ps[k].w, ps[k].x, a * ps[k].y + c * ps[k].x)
  {
    seq(|ps|, k requires 0 <= k < |ps| => Point(ps[k].w, ps[k].x, a * ps[k].y + c * ps[k].x))
  }

  lemma {:induction false} TiltTerm(p: Point, q: Point, a: real, c: real, p': Point, q': Point)
    requires p' == Point(p.w, p.x, a * p.y + c * p.x) && q' == Point(q.w, q.x, a * q.y + c * q.x)
    ensures PairTerm(p', q')
         == Combine(a, PairTerm(p, q), c, PairTerm(Point(p.w, p.x, p.x), Point(q.w, q.x, q.x)), 0.0, 0.0, 0.0, 0.0)
  {
    var w, dx, dy := p.w * q.w, p.x - q.x, p.y - q.y;
    assert p'.y - q'.y == a * dy + c * dx;
    assert w * (dx * (a * dy + c * dx)) == a * (w * (dx * dy)) + c * (w * (dx * dx));
  }

  // Combining the temperatures with the times combines the pair sums the same way.
  lemma {:induction false} TiltSum(ps: seq<Point>, a: real, c: real)
    ensures PairSum(Tilt(ps, a, c)) == Combine(a, PairSum(ps), c, PairSum(Diagonal(ps)), 0.0, 0.0, 0.0, 0.0)
  {
    var ts, ds, n := Tilt(ps, a, c), Diagonal(ps), |ps|;
    var zs := seq(n, k requires 0 <= k < n => 0.0);
    SumZero(zs, n);
    forall j | 0 <= j < n
      ensures RowSums(ts)[j] == Combine(a, RowSums(ps)[j], c, RowSums(ds)[j], 0.0, zs[j], 0.0, zs[j])
    {
      forall i | 0 <= i < n
        ensures Row(ts, j)[i] == Combine(a, Row(ps, j)[i], c, Row(ds, j)[i], 0.0, zs[i], 0.0, zs[i])
      {
        TiltTerm(ps[i], ps[j], a, c, ts[i], ts[j]);
      }
      SumCombination(Row(ts, j), n, a, Row(ps, j), c, Row(ds, j), 0.0, zs, 0.0, zs);
    }
    SumCombination(RowSums(ts), n, a, RowSums(ps), c, RowSums(ds), 0.0, zs, 0.0, zs);
    HalveCombination(a, c, Sum(RowSums(ts), n), Sum(RowSums(ps), n), Sum(RowSums(ds), n));
  }

  lemma {:induction false} HalveCombination(a: real, c: real, t: real, s: real, d: real)
    requires t == Combine(a, s, c, d, 0.0, 0.0, 0.0, 0.0)
    ensures t / 2.0 == Combine(a, s / 2.0, c, d / 2.0, 0.0, 0.0, 0.0, 0.0)
  {
  }

  // ----- the fit lies between the pairwise rates -----

  lemma {:induction false} WeightsPositive(seg: seq<Sample>, now: int, e: real -> real)
    requires IsExponential(e)
    ensures Positive(Points(seg, now, e)) && Positive(Diagonal(Points(seg, now, e)))
  {
  }

  // A sample dated in the future weighs as much as one taken now.
  lemma {:induction false} FutureWeighsAsNew(t: int, now: int, e: real -> real)
    requires t >= now
    ensures Weight(e, now, t) == e(0.0) == Weight(e, now, now)
  {
  }

  lemma {:induction false} ProductPositive(a: real, b: real)
    requires a > 0.0 && b > 0.0
    ensures a * b > 0.0
  {
  }

  lemma {:induction false} WeightedSquare(w: real, x: real)
    requires w > 0.0
    ensures w * (x * x) >= 0.0
    ensures w * (x * x) == 0.0 <==> x == 0.0
  {
    if x > 0.0 {
      ProductPositive(w, x);
      ProductPositive(w * x, x);
    } else if x < 0.0 {
      ProductPositive(w, -x);
      ProductPositive(w * -x, -x);
    }
  }

  lemma {:induction false} SquareTerm(p: Point, q: Point)
    requires p.w > 0.0 && q.w > 0.0 && p.x == p.y && q.x == q.y
    ensures PairTerm(p, q) >= 0.0
    ensures PairTerm(p, q) == 0.0 <==> p.x == q.x
  {
    ProductPositive(p.w, q.w);
    WeightedSquare(p.w * q.w, p.x - q.x);
  }

  // The denominator is never negative, and is zero only when all samples share a time.
  lemma {:induction false} DenominatorSign(ps: seq<Point>)
    requires Positive(ps)
    ensures PairSum(Diagonal(ps)) >= 0.0
    ensures PairSum(Diagonal(ps)) > 0.0 <==> exists i, j :: 0 <= i < j < |ps| && ps[i].x != ps[j].x
  {
    var ds := Diagonal(ps);
    forall i, j | 0 <= i < |ps| && 0 <= j < |ps|
      ensures PairTerm(ds[i], ds[j]) >= 0.0
      ensures PairTerm(ds[i], ds[j]) == 0.0 <==> ps[i].x == ps[j].x
    {
      SquareTerm(ds[i], ds[j]);
    }
    PairSumNonNegative(ds);
    if i, j :| 0 <= i < j < |ps| && ps[i].x != ps[j].x {
      assert PairTerm(ds[i], ds[j]) > 0.0;
    } else {
      forall i, j | 0 <= i < |ps| && 0 <= j < |ps|
        ensures PairTerm(ds[i], ds[j]) == 0.0
      {
        assert i < j || j < i || i == j;
      }
      PairSumZero(ds);
    }
  }

  // Degrees per minute between two samples taken at different times.
  function Rate(a: Sample, b: Sample): real
    requires a.t != b.t
  {
    (b.temp - a.temp) / Minutes(b.t - a.t)
  }

  // s times every pairwise rate is at least r.
  ghost predicate RatesAtLeast(seg: seq<Sample>, s: real, r: real) {
    forall i, j :: 0 <= i < j < |seg| && seg[i].t != seg[j].t ==> Times(s, Rate(seg[i], seg[j])) >= r
  }

  lemma {:induction false} RateProduct(s: real, r: real, dx: real, dy: real)
    requires dx != 0.0 ==> s * (dy / dx) >= r
    ensures dx * (s * dy - r * dx) >= 0.0
  {
    if dx != 0.0 {
      var q := dy / dx;
      assert dy == q * dx;
      assert dx * (s * dy - r * dx) == (dx * dx) * (s * q - r);
      assert dx * dx > 0.0;
    }
  }

  lemma {:induction false} TiltedTermSign(a: Sample, b: Sample, s: real, r: real, p: Point, q: Point)
    requires p.w > 0.0 && q.w > 0.0
    requires q.x - p.x == Minutes(b.t - a.t)
    requires q.y - p.y == s * (b.temp - a.temp) - r * (q.x - p.x)
    requires a.t != b.t ==> Times(s, Rate(a, b)) >= r
    ensures PairTerm(p, q) >= 0.0 && PairTerm(q, p) >= 0.0
  {
    var dx, dy := Minutes(b.t - a.t), b.temp - a.temp;
    RateProduct(s, r, dx, dy);
    var w := p.w * q.w;
    assert w > 0.0;
    var m := dx * (s * dy - r * dx);
    assert w * m >= 0.0;
    assert (p.x - q.x) * (p.y - q.y) == m && (q.x - p.x) * (q.y - p.y) == m;
  }

  lemma {:induction false} TiltedDifference(seg: seq<Sample>, now: int,
        e: real -> real, s: real, r: real, i: nat, j: nat)
    requires i < |seg| && j < |seg|
    ensures var ts := Tilt(Points(seg, now, e), s, -r);
            && ts[j].x - ts[i].x == Minutes(seg[j].t - seg[i].t)
            && ts[j].y - ts[i].y == s * (seg[j].temp - seg[i].temp) - r * (ts[j].x - ts[i].x)
  {
    var p, q := PointAt(seg, i, now, e), PointAt(seg, j, now, e);
    assert s * q.y - s * p.y == s * (q.y - p.y);
    assert -r * q.x - -r * p.x == -r * (q.x - p.x);
  }

  lemma {:induction false} TiltedPair(seg: seq<Sample>, now: int, e: real -> real, s: real, r: real, i: nat, j: nat)
    requires i < j < |seg| && Positive(Points(seg, now, e))
    requires seg[i].t != seg[j].t ==> Times(s, Rate(seg[i], seg[j])) >= r
    ensures var ts := Tilt(Points(seg, now, e), s, -r);
            PairTerm(ts[i], ts[j]) >= 0.0 && PairTerm(ts[j], ts[i]) >= 0.0
  {
    var ts := Tilt(Points(seg, now, e), s, -r);
    TiltedDifference(seg, now, e, s, r, i, j);
    assert ts[i].w == Points(seg, now, e)[i].w && ts[j].w == Points(seg, now, e)[j].w;
    TiltedTermSign(seg[i], seg[j], s, r, ts[i], ts[j]);
  }

  lemma {:induction false} TiltedTerms(seg: seq<Sample>, now: int, e: real -> real, s: real, r: real)
    requires Positive(Points(seg, now, e)) && RatesAtLeast(seg, s, r)
    ensures TermsNonNegative(Tilt(Points(seg, now, e), s, -r))
  {
    var ts := Tilt(Points(seg, now, e), s, -r);
    forall i, j | 0 <= i < |ts| && 0 <= j < |ts|
      ensures PairTerm(ts[i], ts[j]) >= 0.0
    {
      if i < j {
        TiltedPair(seg, now, e, s, r, i, j);
      } else if j < i {
        TiltedPair(seg, now, e, s, r, j, i);
      }
    }
  }

  lemma {:induction false} TiltedSumSign(seg: seq<Sample>, now: int, e: real -> real, s: real, r: real)
    requires Positive(Points(seg, now, e)) && RatesAtLeast(seg, s, r)
    ensures var ps := Points(seg, now, e);
            Combine(s, PairSum(ps), -r, PairSum(Diagonal(ps)), 0.0, 0.0, 0.0, 0.0) >= 0.0
  {
    var ps := Points(seg, now, e);
    TiltedTerms(seg, now, e, s, r);
    PairSumNonNegative(Tilt(ps, s, -r));
    TiltSum(ps, s, -r);
  }

  lemma {:induction false} FactorSign(a: real, b: real)
    requires b > 0.0 && a * b >= 0.0
    ensures a >= 0.0
  {
  }

  lemma {:induction false} QuotientAtLeast(s: real, r: real, num: real, den: real)
    requires den >= 0.0 && Ratio(num, den).Some?
    requires Combine(s, num, -r, den, 0.0, 0.0, 0.0, 0.0) >= 0.0
    ensures Times(s, Ratio(num, den).value) >= r
  {
    var q := num / den;
    assert q * den == num;
    assert (s * q - r) * den == s * num - r * den;
    FactorSign(s * q - r, den);
  }

  // s times the fitted slope is at least any bound its pairwise rates keep to.
  lemma {:induction false} SlopeAtLeast(seg: seq<Sample>, now: int, e: real -> real, s: real, r: real)
    requires IsExponential(e) && FittedSlope(seg, now, e).Some? && RatesAtLeast(seg, s, r)
    ensures Times(s, FittedSlope(seg, now, e).value) >= r
  {
    var ps := Points(seg, now, e);
    WeightsPositive(seg, now, e);
    DenominatorSign(ps);
    TiltedSumSign(seg, now, e, s, r);
    QuotientAtLeast(s, r, PairSum(ps), PairSum(Diagonal(ps)));
  }

  // The fitted slope lies between the smallest and the largest pairwise rate.
  lemma {:induction false} SlopeBetweenRates(seg: seq<Sample>, now: int, e: real -> real, lo: real, hi: real)
    requires IsExponential(e) && FittedSlope(seg, now, e).Some?
    requires forall i, j :: 0 <= i < j < |seg| && seg[i].t != seg[j].t ==> lo <= Rate(seg[i], seg[j]) <= hi
    ensures lo <= FittedSlope(seg, now, e).value <= hi
  {
    SlopeAtLeast(seg, now, e, 1.0, lo);
    SlopeAtLeast(seg, now, e, -1.0, -hi);
  }

  // ----- the sign of the fit -----

  // How far b is beyond a in the direction s (1 up, -1 down).
  function Moved(a: Sample, b: Sample, s: real): real {
    Times(s, b.temp - a.temp)
  }

  // Any two samples taken at different times moved in the direction s.
  ghost predicate Moving(seg: seq<Sample>, s: real) {
    forall i, j :: 0 <= i < j < |seg| && seg[i].t != seg[j].t ==> Moved(seg[i], seg[j], s) > 0.0
  }

  // No two samples did.
  ghost predicate NeverMoving(seg: seq<Sample>, s: real) {
    forall i, j :: 0 <= i < j < |seg| && seg[i].t != seg[j].t ==> Moved(seg[i], seg[j], s) <= 0.0
  }

  lemma {:induction false} RateSign(a: Sample, b: Sample, s: real)
    requires a.t < b.t && Moved(a, b, s) >= 0.0
    ensures Times(s, Rate(a, b)) >= 0.0
  {
    var m, d, r := Minutes(b.t - a.t), b.temp - a.temp, Rate(a, b);
    assert r * m == d;
    assert (s * r) * m == s * d;
    FactorSign(s * r, m);
  }

  lemma {:induction false} NeverMovingFit(seg: seq<Sample>, now: int, e: real -> real, s: real)
    requires IsExponential(e) && Sorted(seg) && NeverMoving(seg, s)
    requires FittedSlope(seg, now, e).Some?
    ensures Times(-s, FittedSlope(seg, now, e).value) >= 0.0
  {
    forall i, j | 0 <= i < j < |seg| && seg[i].t != seg[j].t
      ensures Times(-s, Rate(seg[i], seg[j])) >= 0.0
    {
      assert Moved(seg[i], seg[j], -s) == -Moved(seg[i], seg[j], s);
      RateSign(seg[i], seg[j], -s);
    }
    SlopeAtLeast(seg, now, e, -s, 0.0);
  }

  lemma {:induction false} MovingTerm(p: Point, q: Point, m: real)
    requires p.w > 0.0 && q.w > 0.0 && p.x < q.x && q.y - p.y == m && m > 0.0
    ensures PairTerm(p, q) > 0.0
  {
    ProductPositive(p.w, q.w);
    ProductPositive(q.x - p.x, q.y - p.y);
    assert (p.x - q.x) * (p.y - q.y) == (q.x - p.x) * (q.y - p.y);
    ProductPositive(p.w * q.w, (p.x - q.x) * (p.y - q.y));
  }

  lemma {:induction false} MovingPair(seg: seq<Sample>, now: int, e: real -> real, s: real, i: nat, j: nat)
    requires Positive(Points(seg, now, e)) && i < j < |seg|
    requires seg[i].t < seg[j].t && Moved(seg[i], seg[j], s) > 0.0
    ensures var ts := Tilt(Points(seg, now, e), s, -0.0);
            PairTerm(ts[i], ts[j]) > 0.0
  {
    var ts := Tilt(Points(seg, now, e), s, -0.0);
    TiltedDifference(seg, now, e, s, 0.0, i, j);
    assert ts[i].w == Points(seg, now, e)[i].w && ts[j].w == Points(seg, now, e)[j].w;
    MovingTerm(ts[i], ts[j], Moved(seg[i], seg[j], s));
  }

  lemma {:induction false} MovingTerms(seg: seq<Sample>, now: int, e: real -> real, s: real)
    requires Positive(Points(seg, now, e)) && Sorted(seg) && Moving(seg, s)
    ensures TermsNonNegative(Tilt(Points(seg, now, e), s, -0.0))
  {
    forall i, j | 0 <= i < j < |seg| && seg[i].t != seg[j].t
      ensures Times(s, Rate(seg[i], seg[j])) >= 0.0
    {
      RateSign(seg[i], seg[j], s);
    }
    TiltedTerms(seg, now, e, s, 0.0);
  }

  lemma {:induction false} MovingSum(seg: seq<Sample>, now: int, e: real -> real, s: real)
    requires IsExponential(e) && Sorted(seg) && Moving(seg, s)
    requires PairSum(Diagonal(Points(seg, now, e))) > 0.0
    ensures PairSum(Tilt(Points(seg, now, e), s, -0.0)) > 0.0
  {
    var ps := Points(seg, now, e);
    var ts := Tilt(ps, s, -0.0);
    WeightsPositive(seg, now, e);
    DenominatorSign(ps);
    MovingTerms(seg, now, e, s);
    PairSumNonNegative(ts);
    var i: nat, j: nat :| i < j < |ps| && ps[i].x != ps[j].x;
    assert seg[i].t < seg[j].t;
    MovingPair(seg, now, e, s, i, j);
  }

  lemma {:induction false} MovingFit(seg: seq<Sample>, now: int, e: real -> real, s: real)
    requires IsExponential(e) && Sorted(seg) && Moving(seg, s)
    requires FittedSlope(seg, now, e).Some?
    ensures Times(s, FittedSlope(seg, now, e).value) > 0.0
  {
    var ps := Points(seg, now, e);
    WeightsPositive(seg, now, e);
    DenominatorSign(ps);
    MovingSum(seg, now, e, s);
    TiltSum(ps, s, -0.0);
    PositiveQuotient(s, PairSum(ps), PairSum(Diagonal(ps)));
  }

  lemma {:induction false} PositiveQuotient(s: real, num: real, den: real)
    requires den >= 0.0 && Ratio(num, den).Some?
    requires Combine(s, num, -0.0, den, 0.0, 0.0, 0.0, 0.0) > 0.0
    ensures Times(s, Ratio(num, den).value) > 0.0
  {
    var q := num / den;
    assert q * den == num;
    assert (s * q) * den == s * num;
    StrictFactorSign(s * q, den);
  }

  lemma {:induction false} StrictFactorSign(a: real, b: real)
    requires b >= 0.0 && a * b > 0.0
    ensures a > 0.0
  {
  }

  // ----- the fit does not depend on when it is looked at -----

  // The same points, every weight scaled by c.
  ghost predicate Reweighted(ps: seq<Point>, qs: seq<Point>, c: real) {
    |ps| == |qs| && forall k :: 0 <= k < |ps| ==> qs[k] == ps[k].(w := Times(c, ps[k].w))
  }

  lemma {:induction false} ReweightedTerm(p: Point, q: Point, c: real)
    ensures PairTerm(p.(w := Times(c, p.w)), q.(w := Times(c, q.w))) == Times(Times(c, c), PairTerm(p, q))
  {
    var d := (p.x - q.x) * (p.y - q.y);
    assert (c * p.w) * (c * q.w) == (c * c) * (p.w * q.w);
    assert ((c * c) * (p.w * q.w)) * d == (c * c) * ((p.w * q.w) * d);
  }

  lemma {:induction false} ReweightedRow(ps: seq<Point>, qs: seq<Point>, c: real, j: nat)
    requires Reweighted(ps, qs, c) && j < |ps|
    ensures RowSums(qs)[j] == Times(Times(c, c), RowSums(ps)[j])
  {
    forall i | 0 <= i < |ps|
      ensures Row(qs, j)[i] == Times(Times(c, c), Row(ps, j)[i])
    {
      ReweightedTerm(ps[i], ps[j], c);
    }
    SumScale(Row(qs, j), Times(c, c), Row(ps, j), |ps|);
  }

  lemma {:induction false} ReweightedSum(ps: seq<Point>, qs: seq<Point>, c: real)
    requires Reweighted(ps, qs, c)
    ensures PairSum(qs) == Times(Times(c, c), PairSum(ps))
  {
    forall j | 0 <= j < |ps|
      ensures RowSums(qs)[j] == Times(Times(c, c), RowSums(ps)[j])
    {
      ReweightedRow(ps, qs, c, j);
    }
    SumScale(RowSums(qs), Times(c, c), RowSums(ps), |ps|);
    HalfScale(Times(c, c), Sum(RowSums(ps), |ps|));
  }

  lemma {:induction false} HalfScale(k: real, s: real)
    ensures Times(k, s) / 2.0 == Times(k, s / 2.0)
  {
  }

  // The factor by which every weight has decayed between two looks.
  function Decay(e: real -> real, now: int, later: int): real {
    e(-Minutes(later - now) / SLOPE_WEIGHT_TAU_MINUTES)
  }

  // Looked at later, every weight has decayed by that one factor.
  lemma {:induction false} WeightDecays(t: int, now: int, later: int, e: real -> real)
    requires IsExponential(e) && t <= now <= later
    ensures Weight(e, later, t) == Times(Decay(e, now, later), Weight(e, now, t))
  {
    var d, a := -Minutes(later - now) / SLOPE_WEIGHT_TAU_MINUTES, -Minutes(now - t) / SLOPE_WEIGHT_TAU_MINUTES;
    assert -Minutes(later - t) / SLOPE_WEIGHT_TAU_MINUTES == d + a;
    assert SumToProduct(e, d, a);
  }

  lemma {:induction false} WeightsDecayTogether(seg: seq<Sample>, now: int, later: int, e: real -> real)
    returns (c: real)
    requires IsExponential(e) && now <= later
    requires forall k :: 0 <= k < |seg| ==> seg[k].t <= now
    ensures c == Decay(e, now, later) > 0.0 && Reweighted(Points(seg, now, e), Points(seg, later, e), c)
    ensures Reweighted(Diagonal(Points(seg, now, e)), Diagonal(Points(seg, later, e)), c)
  {
    c := Decay(e, now, later);
    forall k | 0 <= k < |seg|
      ensures Weight(e, later, seg[k].t) == Times(c, Weight(e, now, seg[k].t))
    {
      WeightDecays(seg[k].t, now, later, e);
    }
  }

  lemma {:induction false} Cancel(a: real, b: real, d: real)
    requires d != 0.0 && a * d == b * d
    ensures a == b
  {
    assert a == (a * d) / d && b == (b * d) / d;
  }

  lemma {:induction false} RatioCancels(k: real, num: real, den: real, num': real, den': real)
    requires num' == Times(k, num) && den' == Times(k, den) && Ratio(num, den).Some? && Ratio(num', den').Some?
    ensures Ratio(num', den') == Ratio(num, den)
  {
    var q, q' := num / den, num' / den';
    assert q * den == num && q' * den' == num';
    assert q * den' == k * (q * den);
    Cancel(q, q', den');
  }

  // With no future-dated sample, the fitted slope is the same at every later time at which
  // the fit still exists.
  lemma {:induction false} SlopeIndependentOfNow(seg: seq<Sample>, now: int, later: int, e: real -> real)
    requires IsExponential(e) && now <= later
    requires forall k :: 0 <= k < |seg| ==> seg[k].t <= now
    requires FittedSlope(seg, now, e).Some? && FittedSlope(seg, later, e).Some?
    ensures FittedSlope(seg, later, e) == FittedSlope(seg, now, e)
  {
    var c := WeightsDecayTogether(seg, now, later, e);
    var ps, qs := Points(seg, now, e), Points(seg, later, e);
    ReweightedSum(ps, qs, c);
    ReweightedSum(Diagonal(ps), Diagonal(qs), c);
    RatioCancels(Times(c, c), PairSum(ps), PairSum(Diagonal(ps)), PairSum(qs), PairSum(Diagonal(qs)));
  }

  // ----- when there is a fit -----

  lemma {:induction false} SumAtLeast(v: seq<real>, n: nat, k: nat)
    requires k < n <= |v| && forall i :: 0 <= i < n ==> v[i] >= 0.0
    ensures Sum(v, n) >= v[k]
  {
    SumNonNegative(v, n - 1);
    if k < n - 1 {
      SumAtLeast(v, n - 1, k);
    }
  }

  // Four samples suffice when two of them are far enough apart for their weights.
  lemma {:induction false} SpreadRunIsFitted(seg: seq<Sample>, now: int, e: real -> real, i: nat, j: nat)
    requires IsExponential(e) && |seg| >= SLOPE_MIN_SAMPLES && i < |seg| && j < |seg|
    requires var ds := Diagonal(Points(seg, now, e)); PairTerm(ds[i], ds[j]) >= 2.0 * SINGULAR
    ensures FittedSlope(seg, now, e).Some?
  {
    var ds := Diagonal(Points(seg, now, e));
    WeightsPositive(seg, now, e);
    forall k, m | 0 <= k < |ds| && 0 <= m < |ds|
      ensures PairTerm(ds[k], ds[m]) >= 0.0
    {
      SquareTerm(ds[k], ds[m]);
    }
    SumAtLeast(Row(ds, j), |ds|, i);
    forall m | 0 <= m < |ds|
      ensures RowSums(ds)[m] >= 0.0
    {
      SumNonNegative(Row(ds, m), |ds|);
    }
    SumAtLeast(RowSums(ds), |ds|, j);
  }

  // Exactly when an unchanged run still has a fit at a later look: it has four samples, and
  // what is left of the denominator is not near-singular.
  lemma {:induction false} FitAtALaterLook(seg: seq<Sample>, now: int, later: int, e: real -> real)
    requires IsExponential(e) && now <= later
    requires forall k :: 0 <= k < |seg| ==> seg[k].t <= now
    ensures var c := Decay(e, now, later);
            FittedSlope(seg, later, e).Some? <==>
              (|seg| >= 4 && Times(Times(c, c), PairSum(Diagonal(Points(seg, now, e)))) >= 0.000000001)
  {
    var c := WeightsDecayTogether(seg, now, later, e);
    ReweightedSum(Diagonal(Points(seg, now, e)), Diagonal(Points(seg, later, e)), c);
    WeightsPositive(seg, later, e);
    DenominatorSign(Points(seg, later, e));
  }

  lemma {:induction false} ShrinkingProduct(c: real, d: real)
    requires 0.0 < c <= 1.0 && d >= 0.0
    ensures Times(Times(c, c), d) <= d
  {
    assert c * c <= c;
    NoLarger(c * c, d);
  }

  lemma {:induction false} NoLarger(k: real, d: real)
    requires k <= 1.0 && d >= 0.0
    ensures k * d <= d
  {
    assert d - k * d == (1.0 - k) * d;
  }

  // With weights that only decay, a fit lost on an unchanged run never comes back.
  lemma {:induction false} LostFitStaysLost(seg: seq<Sample>, now: int, later: int, e: real -> real)
    requires IsExponential(e) && now <= later && forall a :: a <= 0.0 ==> e(a) <= 1.0
    requires forall k :: 0 <= k < |seg| ==> seg[k].t <= now
    requires FittedSlope(seg, now, e).None?
    ensures FittedSlope(seg, later, e).None?
  {
    FitAtALaterLook(seg, now, later, e);
    WeightsPositive(seg, now, e);
    DenominatorSign(Points(seg, now, e));
    var c := Decay(e, now, later);
    assert -Minutes(later - now) / SLOPE_WEIGHT_TAU_MINUTES <= 0.0;
    ShrinkingProduct(c, PairSum(Diagonal(Points(seg, now, e))));
  }

  // ----- a buffer that is no longer fed loses its fit -----

  function Halved(k: nat): real {
    if k == 0 then 1.0 else Halved(k - 1) / 2.0
  }

  lemma {:induction false} HalvedBelow(k: nat)
    ensures 0.0 < Halved(k) && Times(Halved(k), (k + 1) as real) <= 1.0
  {
    if k > 0 {
      HalvedBelow(k - 1);
      var h, n := Halved(k - 1), k as real;
      assert Times(h / 2.0, n + 1.0) == (h * n) / 2.0 + h / 2.0;
      Widen(h, n);
    }
  }

  lemma {:induction false} Widen(h: real, n: real)
    requires h > 0.0 && n >= 1.0
    ensures h <= h * n
  {
    NoLarger(1.0 / n, h * n);
    assert (1.0 / n) * (h * n) == h;
  }

  // Every time constant halves the weights at least.
  lemma {:induction false} DecayHalves(e: real -> real, k: nat)
    requires IsExponential(e) && e(-1.0) <= 0.5
    ensures e(-(k as real)) <= Halved(k)
  {
    if k == 0 {
      assert SumToProduct(e, 0.0, -1.0);
      Cancel(e(0.0), 1.0, e(-1.0));
    } else {
      DecayHalves(e, k - 1);
      assert SumToProduct(e, -((k - 1) as real), -1.0);
      HalfProduct(e(-((k - 1) as real)), e(-1.0), Halved(k - 1));
    }
  }

  lemma {:induction false} HalfProduct(x: real, y: real, h: real)
    requires 0.0 < x <= h && 0.0 < y <= 0.5
    ensures Times(x, y) <= h / 2.0
  {
    NoLarger(2.0 * y, x);
    assert 2.0 * (x * y) == (2.0 * y) * x;
  }

  lemma {:induction false} DecayAfter(e: real -> real, now: int, k: nat, later: int)
    requires later == now + 1200 * k
    ensures Decay(e, now, later) == e(-(k as real))
  {
    assert Minutes(later - now) == 20.0 * k as real;
  }

  // c squared of d is under the limit once c times n is at most 1 and n times the limit is over d.
  lemma {:induction false} SmallRemainder(c: real, d: real, n: real, limit: real)
    requires 0.0 < c <= 1.0 && d >= 0.0 && n > 0.0 && Times(c, n) <= 1.0 && d < n * limit
    ensures Times(Times(c, c), d) < limit
  {
    var m := c * c;
    NoLarger(c, c);
    ProductPositive(c, n);
    NoLarger(c, c * n);
    assert m * n == c * (c * n) && Times(c, n) == c * n;
    if m * d >= limit {
      LessProduct(m, d, n * limit);
      assert m * (n * limit) == (m * n) * limit;
      NoLarger(m * n, limit);
    }
  }

  lemma {:induction false} LessProduct(m: real, x: real, y: real)
    requires m > 0.0 && x < y
    ensures m * x < m * y
  {
    assert m * y - m * x == m * (y - x);
    ProductPositive(m, y - x);
  }

  lemma {:induction false} HalvedAtMostOne(k: nat)
    ensures Halved(k) <= 1.0
  {
    if k > 0 {
      HalvedAtMostOne(k - 1);
      HalvedBelow(k - 1);
    }
  }

  lemma {:induction false} SmallerFactor(c: real, h: real, n: real)
    requires 0.0 < c <= h && n > 0.0 && Times(h, n) <= 1.0
    ensures Times(c, n) <= 1.0
  {
    assert h * n - c * n == (h - c) * n;
    if h > c { ProductPositive(h - c, n); }
  }

  lemma {:induction false} EnoughHalvings(d: real) returns (k: nat)
    requires d >= 0.0
    ensures d < (k + 1) as real * SINGULAR
  {
    k := (d / SINGULAR).Floor;
  }

  lemma {:induction false} HalvedRemainder(c: real, d: real, k: nat)
    requires 0.0 < c <= Halved(k) && 0.0 <= d < (k + 1) as real * SINGULAR
    ensures Times(Times(c, c), d) < SINGULAR
  {
    HalvedBelow(k);
    HalvedAtMostOne(k);
    SmallerFactor(c, Halved(k), (k + 1) as real);
    SmallRemainder(c, d, (k + 1) as real, SINGULAR);
  }

  // Whatever the run, if it is no longer fed there is a moment at which its fit is gone.
  lemma {:induction false} FrozenFitIsLost(seg: seq<Sample>, now: int, e: real -> real) returns (later: int)
    requires IsExponential(e) && e(-1.0) <= 0.5
    requires forall k :: 0 <= k < |seg| ==> seg[k].t <= now
    ensures now <= later && FittedSlope(seg, later, e).None?
  {
    var d := PairSum(Diagonal(Points(seg, now, e)));
    WeightsPositive(seg, now, e);
    DenominatorSign(Points(seg, now, e));
    var k := EnoughHalvings(d);
    later := now + 1200 * k;
    DecayAfter(e, now, k, later);
    DecayHalves(e, k);
    HalvedRemainder(Decay(e, now, later), d, k);
    FitAtALaterLook(seg, now, later, e);
  }

  // ... and with weights that only decay, gone for good.
  lemma {:induction false} FrozenFitIsLostForGood(seg: seq<Sample>, now: int, e: real -> real) returns (lost: int)
    requires IsExponential(e) && e(-1.0) <= 0.5 && forall a :: a <= 0.0 ==> e(a) <= 1.0
    requires forall k :: 0 <= k < |seg| ==> seg[k].t <= now
    ensures now <= lost && forall later :: later >= lost ==> FittedSlope(seg, later, e).None?
  {
    lost := FrozenFitIsLost(seg, now, e);
    forall later | later >= lost
      ensures FittedSlope(seg, later, e).None?
    {
      LostFitStaysLost(seg, lost, later, e);
    }
  }
}
