// The weighted least-squares fit of predictor.py.
//
// The source accumulates five running sums; here the fit is defined by sums over pairs of
// samples, and the accumulating loop is proved to compute exactly that.

module SlopeFit {
  import opened ComfortTypes
  import opened SampleBuffer

  const SLOPE_MIN_SAMPLES := 4
  const SLOPE_WEIGHT_TAU_MINUTES := 20.0
  const SINGULAR := 0.000000001

  // What is used of math.exp: positive, and sums to products.
  ghost predicate IsExponential(e: real -> real) {
    && (forall a :: e(a) > 0.0)
    && (forall a, b :: SumToProduct(e, a, b))
  }

  ghost predicate SumToProduct(e: real -> real, a: real, b: real) {
    e(a + b) == Times(e(a), e(b))
  }

  function Times(a: real, b: real): real {
    a * b
  }

  function Minutes(seconds: int): real {
    seconds as real / 60.0
  }

  // The recency weight of a sample seen at now; a future-dated sample counts as new.
  function Weight(e: real -> real, now: int, t: int): real {
    e(-Max(Minutes(now - t), 0.0) / SLOPE_WEIGHT_TAU_MINUTES)
  }

  // A weighted point of the fit.
  datatype Point = Point(w: real, x: real, y: real)

  // Sample k of the segment: time in minutes and temperature both relative to the oldest.
  function PointAt(seg: seq<Sample>, k: nat, now: int, e: real -> real): Point
    requires k < |seg|
  {
    Point(Weight(e, now, seg[k].t), Minutes(seg[k].t - seg[0].t), seg[k].temp - seg[0].temp)
  }

  function Points(seg: seq<Sample>, now: int, e: real -> real): (ps: seq<Point>)
    ensures |ps| == |seg| && forall k :: 0 <= k < |seg| ==> ps[k] == PointAt(seg, k, now, e)
  {
    seq(|seg|, k requires 0 <= k < |seg| => PointAt(seg, k, now, e))
  }

  // ----- sums over pairs -----

  function Sum(v: seq<real>, n: nat): real
    requires n <= |v|
  {
    if n == 0 then 0.0 else Sum(v, n - 1) + v[n - 1]
  }

  function PairTerm(p: Point, q: Point): real {
    (p.w * q.w) * ((p.x - q.x) * (p.y - q.y))
  }

  // w_i w_j (x_i - x_j)(y_i - y_j) for one point j and every i.
  function Row(ps: seq<Point>, j: nat): (r: seq<real>)
    requires j < |ps|
    ensures |r| == |ps| && forall i :: 0 <= i < |ps| ==> r[i] == PairTerm(ps[i], ps[j])
  {
    seq(|ps|, i requires 0 <= i < |ps| => PairTerm(ps[i], ps[j]))
  }

  function RowSums(ps: seq<Point>): (r: seq<real>)
    ensures |r| == |ps| && forall j :: 0 <= j < |ps| ==> r[j] == Sum(Row(ps, j), |ps|)
  {
    seq(|ps|, j requires 0 <= j < |ps| => Sum(Row(ps, j), |ps|))
  }

  // The sum over unordered pairs: every pair counted twice, halved.
  function PairSum(ps: seq<Point>): real {
    Sum(RowSums(ps), |ps|) / 2.0
  }

  // The points with the x coordinate in place of y.
  function Diagonal(ps: seq<Point>): (ds: seq<Point>)
    ensures |ds| == |ps| && forall k :: 0 <= k < |ps| ==> ds[k] == Point(ps[k].w, ps[k].x, ps[k].x)
  {
    seq(|ps|, k requires 0 <= k < |ps| => Point(ps[k].w, ps[k].x, ps[k].x))
  }

  // The fitted slope in degrees per minute: covariance over variance, pair by pair.
  function FittedSlope(seg: seq<Sample>, now: int, e: real -> real): Option<real> {
    if |seg| < SLOPE_MIN_SAMPLES then None
    else
      var ps := Points(seg, now, e);
      var denominator := PairSum(Diagonal(ps));
      Ratio(PairSum(ps), denominator)
  }

  // None when the denominator is near-singular.
  function Ratio(numerator: real, denominator: real): Option<real> {
    if Abs(denominator) < SINGULAR then None else Some(numerator / denominator)
  }

  // ----- sums of sequences -----

  lemma {:induction false} SumScale(t: seq<real>, c: real, v: seq<real>, n: nat)
    requires n <= |t| && n <= |v|
    requires forall k :: 0 <= k < n ==> t[k] == Times(c, v[k])
    ensures Sum(t, n) == Times(c, Sum(v, n))
  {
    if n > 0 {
      SumScale(t, c, v, n - 1);
      Distribute(c, Sum(v, n - 1), v[n - 1]);
    }
  }

  lemma {:induction false} Distribute(c: real, a: real, b: real)
    ensures Times(c, a + b) == Times(c, a) + Times(c, b)
  {
  }

  lemma {:induction false} SumAdd(t: seq<real>, u: seq<real>, v: seq<real>, n: nat)
    requires n <= |t| && n <= |u| && n <= |v|
    requires forall k :: 0 <= k < n ==> t[k] == u[k] + v[k]
    ensures Sum(t, n) == Sum(u, n) + Sum(v, n)
  {
    if n > 0 {
      SumAdd(t, u, v, n - 1);
    }
  }

  lemma {:induction false} SumEqual(t: seq<real>, v: seq<real>, n: nat)
    requires n <= |t| && n <= |v|
    requires forall k :: 0 <= k < n ==> t[k] == v[k]
    ensures Sum(t, n) == Sum(v, n)
  {
    if n > 0 {
      SumEqual(t, v, n - 1);
    }
  }

  lemma {:induction false} SumNonNegative(v: seq<real>, n: nat)
    requires n <= |v|
    requires forall k :: 0 <= k < n ==> v[k] >= 0.0
    ensures Sum(v, n) >= 0.0
    ensures forall k :: 0 <= k < n && v[k] > 0.0 ==> Sum(v, n) > 0.0
  {
    if n > 0 {
      SumNonNegative(v, n - 1);
    }
  }

  lemma {:induction false} SumZero(v: seq<real>, n: nat)
    requires n <= |v|
    requires forall k :: 0 <= k < n ==> v[k] == 0.0
    ensures Sum(v, n) == 0.0
  {
    if n > 0 {
      SumZero(v, n - 1);
    }
  }

  function Scaled(c: real, v: seq<real>): (t: seq<real>)
    ensures |t| == |v| && forall k :: 0 <= k < |v| ==> t[k] == Times(c, v[k])
  {
    seq(|v|, k requires 0 <= k < |v| => Times(c, v[k]))
  }

  function Added(u: seq<real>, v: seq<real>): (t: seq<real>)
    requires |u| == |v|
    ensures |t| == |u| && forall k :: 0 <= k < |u| ==> t[k] == u[k] + v[k]
  {
    seq(|u|, k requires 0 <= k < |u| => u[k] + v[k])
  }

  // t is the combination c1 v1 + c2 v2 + c3 v3 + c4 v4, and so is its sum.
  lemma {:induction false} SumCombination(t: seq<real>, n: nat, c1: real, v1: seq<real>, c2: real, v2: seq<real>,
                                          c3: real, v3: seq<real>, c4: real, v4: seq<real>)
    requires |t| == |v1| == |v2| == |v3| == |v4| == n
    requires forall k :: 0 <= k < n ==> t[k] == Combine(c1, v1[k], c2, v2[k], c3, v3[k], c4, v4[k])
    ensures Sum(t, n) == Combine(c1, Sum(v1, n), c2, Sum(v2, n), c3, Sum(v3, n), c4, Sum(v4, n))
  {
    var s1, s2, s3, s4 := Scaled(c1, v1), Scaled(c2, v2), Scaled(c3, v3), Scaled(c4, v4);
    var s12, s34 := Added(s1, s2), Added(s3, s4);
    SumScale(s1, c1, v1, n);
    SumScale(s2, c2, v2, n);
    SumScale(s3, c3, v3, n);
    SumScale(s4, c4, v4, n);
    SumAdd(s12, s1, s2, n);
    SumAdd(s34, s3, s4, n);
    SumAdd(t, s12, s34, n);
  }

  // ----- the running sums of the source -----

  function WX(p: Point): real { p.w * p.x }

  function WY(p: Point): real { p.w * p.y }

  function WXY(p: Point): real { p.w * p.x * p.y }

  // w, w x, w y and w x y, point by point.
  function Ws(ps: seq<Point>): (v: seq<real>)
    ensures |v| == |ps| && forall k :: 0 <= k < |ps| ==> v[k] == ps[k].w
  {
    seq(|ps|, k requires 0 <= k < |ps| => ps[k].w)
  }

  function WXs(ps: seq<Point>): (v: seq<real>)
    ensures |v| == |ps| && forall k :: 0 <= k < |ps| ==> v[k] == WX(ps[k])
  {
    seq(|ps|, k requires 0 <= k < |ps| => WX(ps[k]))
  }

  function WYs(ps: seq<Point>): (v: seq<real>)
    ensures |v| == |ps| && forall k :: 0 <= k < |ps| ==> v[k] == WY(ps[k])
  {
    seq(|ps|, k requires 0 <= k < |ps| => WY(ps[k]))
  }

  function WXYs(ps: seq<Point>): (v: seq<real>)
    ensures |v| == |ps| && forall k :: 0 <= k < |ps| ==> v[k] == WXY(ps[k])
  {
    seq(|ps|, k requires 0 <= k < |ps| => WXY(ps[k]))
  }

  // a b - c d, the shape of both the numerator and the denominator.
  function Cross(a: real, b: real, c: real, d: real): real {
    a * b - c * d
  }

  // c1 v1 + c2 v2 + c3 v3 + c4 v4
  function Combine(c1: real, v1: real, c2: real, v2: real, c3: real, v3: real, c4: real, v4: real): real {
    Times(c1, v1) + Times(c2, v2) + Times(c3, v3) + Times(c4, v4)
  }

  lemma {:induction false} TermExpands(p: Point, q: Point)
    ensures PairTerm(p, q) == Combine(q.w, WXY(p), -WX(q), WY(p), -WY(q), WX(p), WXY(q), p.w)
  {
  }

  lemma {:induction false} RowExpands(ps: seq<Point>, j: nat)
    requires j < |ps|
    ensures var n := |ps|;
            RowSums(ps)[j] == Combine(ps[j].w, Sum(WXYs(ps), n), -WX(ps[j]), Sum(WYs(ps), n),
                                      -WY(ps[j]), Sum(WXs(ps), n), WXY(ps[j]), Sum(Ws(ps), n))
  {
    var q := ps[j];
    forall k | 0 <= k < |ps|
      ensures Row(ps, j)[k] == Combine(q.w, WXYs(ps)[k], -WX(q), WYs(ps)[k], -WY(q), WXs(ps)[k], WXY(q), Ws(ps)[k])
    {
      TermExpands(ps[k], q);
    }
    SumCombination(Row(ps, j), |ps|, q.w, WXYs(ps), -WX(q), WYs(ps), -WY(q), WXs(ps), WXY(q), Ws(ps));
  }

  lemma {:induction false} Commute(a: real, b: real, c: real, d: real, sw: real, sx: real, sy: real, sxy: real)
    ensures Combine(a, sxy, -b, sy, -c, sx, d, sw) == Combine(sxy, a, -sy, b, -sx, c, sw, d)
  {
  }

  lemma {:induction false} Halve(s: real, sw: real, sx: real, sy: real, sxy: real)
    requires s == Combine(sxy, sw, -sy, sx, -sx, sy, sw, sxy)
    ensures Cross(sw, sxy, sx, sy) == s / 2.0
  {
  }

  // The source's difference of products of running sums is the sum over pairs.
  lemma {:induction false} MomentsArePairs(ps: seq<Point>)
    ensures var n := |ps|;
            Cross(Sum(Ws(ps), n), Sum(WXYs(ps), n), Sum(WXs(ps), n), Sum(WYs(ps), n)) == PairSum(ps)
  {
    var n := |ps|;
    var sw, sx, sy, sxy := Sum(Ws(ps), n), Sum(WXs(ps), n), Sum(WYs(ps), n), Sum(WXYs(ps), n);
    forall j | 0 <= j < n
      ensures RowSums(ps)[j] == Combine(sxy, Ws(ps)[j], -sy, WXs(ps)[j], -sx, WYs(ps)[j], sw, WXYs(ps)[j])
    {
      RowExpands(ps, j);
      Commute(ps[j].w, WX(ps[j]), WY(ps[j]), WXY(ps[j]), sw, sx, sy, sxy);
    }
    SumCombination(RowSums(ps), n, sxy, Ws(ps), -sy, WXs(ps), -sx, WYs(ps), sw, WXYs(ps));
    Halve(Sum(RowSums(ps), n), sw, sx, sy, sxy);
  }

  lemma {:induction false} DiagonalMoments(ps: seq<Point>)
    ensures var n := |ps|;
            Cross(Sum(Ws(ps), n), Sum(WXYs(Diagonal(ps)), n), Sum(WXs(ps), n), Sum(WXs(ps), n)) == PairSum(Diagonal(ps))
  {
    var n, ds := |ps|, Diagonal(ps);
    SumEqual(Ws(ds), Ws(ps), n);
    SumEqual(WXs(ds), WXs(ps), n);
    SumEqual(WYs(ds), WXs(ps), n);
    MomentsArePairs(ds);
  }

  // The five running sums after the first n points.
  datatype Sums = Sums(w: real, wx: real, wy: real, wxx: real, wxy: real)

  function SumsTo(ps: seq<Point>, n: nat): Sums
    requires n <= |ps|
  {
    Sums(Sum(Ws(ps), n), Sum(WXs(ps), n), Sum(WYs(ps), n), Sum(WXYs(Diagonal(ps)), n), Sum(WXYs(ps), n))
  }

  // One pass of the loop body.
  function AddPoint(s: Sums, p: Point): Sums {
    Sums(s.w + p.w, s.wx + WX(p), s.wy + WY(p), s.wxx + WXY(p.(y := p.x)), s.wxy + WXY(p))
  }

  lemma {:induction false} SumsStep(ps: seq<Point>, n: nat)
    requires n < |ps|
    ensures SumsTo(ps, n + 1) == AddPoint(SumsTo(ps, n), ps[n])
  {
  }

  // The source's loop: five accumulators in one pass.
  method Accumulate(seg: seq<Sample>, now: int, e: real -> real) returns (s: Sums)
    ensures s == SumsTo(Points(seg, now, e), |seg|)
  {
    ghost var ps := Points(seg, now, e);
    s := Sums(0.0, 0.0, 0.0, 0.0, 0.0);
    for i := 0 to |seg|
      invariant s == SumsTo(ps, i)
    {
      SumsStep(ps, i);
      s := AddPoint(s, PointAt(seg, i, now, e));
    }
  }

  // The fit as the source computes it is the fit over pairs.
  method WlsSlope(seg: seq<Sample>, now: int, e: real -> real) returns (r: Option<real>)
    ensures r == FittedSlope(seg, now, e)
  {
    if |seg| < SLOPE_MIN_SAMPLES {
      return None;
    }
    var s := Accumulate(seg, now, e);
    MomentsArePairs(Points(seg, now, e));
    DiagonalMoments(Points(seg, now, e));
    return Ratio(Cross(s.w, s.wxy, s.wx, s.wy), Cross(s.w, s.wxx, s.wx, s.wx));
  }
}
