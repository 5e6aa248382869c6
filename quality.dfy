/** The frame-quality decisions of the camera: the black-frame test on the
    per-channel standard deviation, and the four-quadrant focus measure. The
    floating-point image kernels (grayscale, blur, Laplacian, variance and
    percentile of the quadrant) are one uninterpreted score function. */
module FrameQuality {
  import opened PyValues
  import opened Buffers

  // ---------------------------------------------------------------------
  // Channel statistics

  /** Channel `ch` of the pixels of one row. */
  function RowChannel(row: seq<seq<Byte>>, ch: nat): (xs: seq<int>)
    requires ch < 3 && forall c :: 0 <= c < |row| ==> |row[c]| == 3
    ensures |xs| == |row|
    ensures forall c :: 0 <= c < |row| ==> xs[c] == row[c][ch]
  {
    seq(|row|, c requires 0 <= c < |row| => row[c][ch] as int)
  }

  predicate RowsOfWidth(rows: seq<seq<seq<Byte>>>, w: nat) {
    && (forall r :: 0 <= r < |rows| ==> |rows[r]| == w)
    && (forall r, c :: 0 <= r < |rows| && 0 <= c < w ==> |rows[r][c]| == 3)
  }

  /** Channel `ch` of every pixel, row by row: `image[:, :, ch]` flattened. */
  function RowsChannel(rows: seq<seq<seq<Byte>>>, w: nat, ch: nat): seq<int>
    requires ch < 3 && RowsOfWidth(rows, w)
    decreases |rows|
  {
    if rows == [] then []
    else RowChannel(rows[0], ch) + RowsChannel(rows[1..], w, ch)
  }

  function ChannelValues(img: Frame, ch: nat): seq<int>
    requires ch < 3
  {
    RowsChannel(img.px, img.width, ch)
  }

  /** A channel holds one value per pixel. */
  lemma {:induction false} RowsChannelLength(rows: seq<seq<seq<Byte>>>, w: nat, ch: nat)
    requires ch < 3 && RowsOfWidth(rows, w)
    ensures |RowsChannel(rows, w, ch)| == |rows| * w
    decreases |rows|
  {
    if rows != [] {
      RowsChannelLength(rows[1..], w, ch);
      assert |rows| * w == w + (|rows| - 1) * w;
    }
  }

  lemma ChannelValuesLength(img: Frame, ch: nat)
    requires ch < 3
    ensures |ChannelValues(img, ch)| == img.height * img.width
  {
    RowsChannelLength(img.px, img.width, ch);
  }

  /** A channel that is k at every pixel yields only k. */
  lemma {:induction false} RowsChannelConstant(rows: seq<seq<seq<Byte>>>, w: nat, ch: nat, k: int)
    requires ch < 3 && RowsOfWidth(rows, w)
    requires forall r, c :: 0 <= r < |rows| && 0 <= c < w ==> rows[r][c][ch] == k
    ensures forall i :: 0 <= i < |RowsChannel(rows, w, ch)| ==> RowsChannel(rows, w, ch)[i] == k
    decreases |rows|
  {
    if rows != [] {
      RowsChannelConstant(rows[1..], w, ch, k);
      var head := RowChannel(rows[0], ch);
      var tail := RowsChannel(rows[1..], w, ch);
      assert RowsChannel(rows, w, ch) == head + tail;
      assert forall i :: 0 <= i < |head| ==> head[i] == k;
    }
  }

  function Sum(xs: seq<int>): int {
    if xs == [] then 0 else xs[0] + Sum(xs[1..])
  }

  function SumSq(xs: seq<int>): int {
    if xs == [] then 0 else xs[0] * xs[0] + SumSq(xs[1..])
  }

  /** n * sum(x^2) - (sum x)^2, which is n^2 times the population variance. */
  function ScaledVariance(xs: seq<int>): int {
    |xs| * SumSq(xs) - Sum(xs) * Sum(xs)
  }

  /** `float(np.std(xs)) < 5`, stated exactly in integers. An empty channel
      has a NaN standard deviation, and NaN < 5 is false. */
  predicate LowDeviation(xs: seq<int>) {
    ScaledVariance(xs) < 25 * |xs| * |xs|
  }

  /** The answer `isBlack` gives for a frame: some channel's standard
      deviation is below 5. */
  predicate BlackFrame(img: Frame) {
    LowDeviation(ChannelValues(img, 0)) || LowDeviation(ChannelValues(img, 1))
      || LowDeviation(ChannelValues(img, 2))
  }

  // Reference definitions in real arithmetic, the way numpy states them.

  function Mean(xs: seq<int>): real
    requires |xs| > 0
  {
    Sum(xs) as real / |xs| as real
  }

  function SquaredDeviations(xs: seq<int>, m: real): real {
    if xs == [] then 0.0
    else (xs[0] as real - m) * (xs[0] as real - m) + SquaredDeviations(xs[1..], m)
  }

  /** `np.var(xs)`: the mean squared deviation from the mean. */
  function PopulationVariance(xs: seq<int>): real
    requires |xs| > 0
  {
    SquaredDeviations(xs, Mean(xs)) / |xs| as real
  }

  /** One more element: (x - m)^2 + d in terms of the extended sums. */
  lemma ExpandStep(x: real, m: real, q: real, s: real, n: real, d: real,
                   q': real, s': real, n': real, d': real)
    requires d == q - 2.0 * m * s + n * m * m
    requires q' == x * x + q && s' == x + s && n' == n + 1.0 && d' == (x - m) * (x - m) + d
    ensures d' == q' - 2.0 * m * s' + n' * m * m
  {
    assert (x - m) * (x - m) == x * x - 2.0 * m * x + m * m;
    assert 2.0 * m * (x + s) == 2.0 * m * x + 2.0 * m * s;
    assert (n + 1.0) * m * m == n * m * m + m * m;
  }

  lemma CastMul(a: int, b: int)
    ensures (a * b) as real == a as real * b as real
  {
  }

  lemma SumsCons(xs: seq<int>)
    requires xs != []
    ensures SumSq(xs) as real == xs[0] as real * xs[0] as real + SumSq(xs[1..]) as real
    ensures Sum(xs) as real == xs[0] as real + Sum(xs[1..]) as real
  {
    CastMul(xs[0], xs[0]);
  }

  lemma {:induction false} SquaredDeviationsExpand(xs: seq<int>, m: real)
    ensures SquaredDeviations(xs, m)
      == SumSq(xs) as real - 2.0 * m * Sum(xs) as real + |xs| as real * m * m
  {
    if xs != [] {
      SquaredDeviationsExpand(xs[1..], m);
      ExpandCons(xs, m);
    }
  }

  /** The expansion for xs from the expansion for its tail. */
  lemma ExpandCons(xs: seq<int>, m: real)
    requires xs != []
    requires SquaredDeviations(xs[1..], m)
      == SumSq(xs[1..]) as real - 2.0 * m * Sum(xs[1..]) as real + |xs[1..]| as real * m * m
    ensures SquaredDeviations(xs, m)
      == SumSq(xs) as real - 2.0 * m * Sum(xs) as real + |xs| as real * m * m
  {
    var rest := xs[1..];
    SumsCons(xs);
    ExpandStep(xs[0] as real, m, SumSq(rest) as real, Sum(rest) as real, |rest| as real, SquaredDeviations(rest, m),
      SumSq(xs) as real, Sum(xs) as real, |xs| as real, SquaredDeviations(xs, m));
  }

  lemma VarianceAlgebra(n: real, s: real, q: real, m: real, d: real, v: real)
    requires n > 0.0 && m * n == s
    requires d == q - 2.0 * m * s + n * m * m
    requires v * n == d
    ensures v * (n * n) == n * q - s * s
  {
    calc {
      v * (n * n);
      (v * n) * n;
      d * n;
      q * n - 2.0 * (m * n) * s + (m * n) * (m * n);
      q * n - 2.0 * s * s + s * s;
    }
  }

  lemma DivMul(d: real, n: real)
    requires n > 0.0
    ensures (d / n) * n == d
  {
  }

  /** Dividing by n, then scaling by n^2, takes the mean squared deviation
      to n * sum(x^2) - (sum x)^2. */
  lemma VarianceScaling(n: real, s: real, q: real, m: real, d: real, v: real)
    requires n > 0.0 && m == s / n && v == d / n
    requires d == q - 2.0 * m * s + n * m * m
    ensures v * (n * n) == n * q - s * s
  {
    DivMul(s, n);
    DivMul(d, n);
    VarianceAlgebra(n, s, q, m, d, v);
  }

  /** The integer quantity is exactly n^2 times numpy's variance. */
  lemma ScaledVarianceIsVariance(xs: seq<int>)
    requires |xs| > 0
    ensures PopulationVariance(xs) * (|xs| as real * |xs| as real) == ScaledVariance(xs) as real
  {
    var n, s, q := |xs|, Sum(xs), SumSq(xs);
    var m := Mean(xs);
    SquaredDeviationsExpand(xs, m);
    VarianceScaling(n as real, s as real, q as real, m, SquaredDeviations(xs, m), PopulationVariance(xs));
    CastDifference(PopulationVariance(xs) * (n as real * n as real), n, s, q, ScaledVariance(xs));
  }

  lemma CastDifference(lhs: real, n: int, s: int, q: int, sv: int)
    requires sv == n * q - s * s
    requires lhs == n as real * q as real - s as real * s as real
    ensures lhs == sv as real
  {
    CastMul(n, q);
    CastMul(s, s);
  }

  lemma ScaleBelow(sv: int, bound: int, v: real, n2: real)
    requires n2 > 0.0 && sv as real == v * n2 && bound as real == 25.0 * n2
    ensures sv < bound <==> v < 25.0
  {
    if v < 25.0 {
      assert (25.0 - v) * n2 > 0.0;
    } else {
      assert (v - 25.0) * n2 >= 0.0;
    }
  }

  lemma ScaledBelow25(sv: int, n: int, v: real)
    requires n > 0 && v * (n as real * n as real) == sv as real
    ensures sv < 25 * n * n <==> v < 25.0
  {
    CastMul(n, n);
    CastMul(25, n * n);
    assert 25 * n * n == 25 * (n * n);
    ScaleBelow(sv, 25 * n * n, v, n as real * n as real);
  }

  /** The integer test agrees with numpy: variance below 25. */
  lemma LowDeviationIsVarianceBelow25(xs: seq<int>)
    requires |xs| > 0
    ensures LowDeviation(xs) <==> PopulationVariance(xs) < 25.0
  {
    ScaledVarianceIsVariance(xs);
    ScaledBelow25(ScaledVariance(xs), |xs|, PopulationVariance(xs));
  }

  /** The standard deviation, the non-negative square root of the variance,
      is below 5 exactly when the variance is below 25. */
  lemma StdDevBelow5(sd: real, v: real)
    requires sd >= 0.0 && sd * sd == v
    ensures sd < 5.0 <==> v < 25.0
  {
    if sd < 5.0 {
      assert sd * sd <= sd * 5.0 < 25.0;
    } else {
      assert sd * sd >= 5.0 * sd >= 25.0;
    }
  }

  /** An empty channel never counts as low (NaN comparisons are false). */
  lemma EmptyChannelNotLow()
    ensures !LowDeviation([])
  {
  }

  lemma {:induction false} ConstantSums(xs: seq<int>, k: int)
    requires forall i :: 0 <= i < |xs| ==> xs[i] == k
    ensures Sum(xs) == |xs| * k && SumSq(xs) == |xs| * (k * k)
  {
    if xs != [] {
      ConstantSums(xs[1..], k);
      assert |xs| * k == k + (|xs| - 1) * k;
      assert |xs| * (k * k) == k * k + (|xs| - 1) * (k * k);
    }
  }

  /** A non-empty channel with one value has zero deviation. */
  lemma ConstantChannelLow(xs: seq<int>, k: int)
    requires |xs| > 0 && forall i :: 0 <= i < |xs| ==> xs[i] == k
    ensures ScaledVariance(xs) == 0 && LowDeviation(xs)
  {
    ConstantSums(xs, k);
    var n := |xs|;
    assert n * (n * (k * k)) == (n * k) * (n * k);
  }

  /** A non-empty frame with a constant channel is black. */
  lemma ConstantChannelIsBlack(img: Frame, ch: nat, k: int)
    requires ch < 3 && img.height > 0 && img.width > 0
    requires forall r, c :: 0 <= r < img.height && 0 <= c < img.width ==> img.px[r][c][ch] == k
    ensures BlackFrame(img)
  {
    ChannelValuesLength(img, ch);
    assert img.height * img.width > 0;
    RowsChannelConstant(img.px, img.width, ch, k);
    ConstantChannelLow(ChannelValues(img, ch), k);
  }

  /** A frame with no pixels is never black. */
  lemma EmptyFrameNotBlack(img: Frame)
    requires img.height == 0 || img.width == 0
    ensures !BlackFrame(img)
  {
    ChannelValuesLength(img, 0);
    ChannelValuesLength(img, 1);
    ChannelValuesLength(img, 2);
  }

  // ---------------------------------------------------------------------
  // Quadrants

  /** A named window `image[top:bottom, left:right]`. */
  datatype Quadrant = Quadrant(name: string, top: nat, bottom: nat, left: nat, right: nat)

  /** The four quadrants, split at `height // 2` and `width // 2`, in the
      order the focus measure visits them. */
  function Quadrants(h: nat, w: nat): (qs: seq<Quadrant>)
    ensures |qs| == 4
    ensures forall i :: 0 <= i < 4 ==> qs[i].top <= qs[i].bottom <= h && qs[i].left <= qs[i].right <= w
  {
    var midH, midW := h / 2, w / 2;
    [ Quadrant("Top Left", 0, midH, 0, midW),
      Quadrant("Top Right", 0, midH, midW, w),
      Quadrant("Bottom Left", midH, h, 0, midW),
      Quadrant("Bottom Right", midH, h, midW, w) ]
  }

  predicate Contains(q: Quadrant, r: nat, c: nat) {
    q.top <= r < q.bottom && q.left <= c < q.right
  }

  function Area(q: Quadrant): nat
    requires q.top <= q.bottom && q.left <= q.right
  {
    (q.bottom - q.top) * (q.right - q.left)
  }

  /** Every pixel lies in some quadrant. */
  lemma QuadrantsCover(h: nat, w: nat, r: nat, c: nat)
    requires r < h && c < w
    ensures exists i :: 0 <= i < 4 && Contains(Quadrants(h, w)[i], r, c)
  {
    var qs := Quadrants(h, w);
    var i := (if r < h / 2 then 0 else 2) + (if c < w / 2 then 0 else 1);
    assert Contains(qs[i], r, c);
  }

  /** No pixel lies in two quadrants. */
  lemma QuadrantsDisjoint(h: nat, w: nat, r: nat, c: nat, i: nat, j: nat)
    requires i < 4 && j < 4
    requires Contains(Quadrants(h, w)[i], r, c) && Contains(Quadrants(h, w)[j], r, c)
    ensures i == j
  {
  }

  /** The quadrants' areas add up to the frame's. */
  lemma QuadrantAreas(h: nat, w: nat)
    ensures Area(Quadrants(h, w)[0]) + Area(Quadrants(h, w)[1])
      + Area(Quadrants(h, w)[2]) + Area(Quadrants(h, w)[3]) == h * w
  {
    var a, b := h / 2, w / 2;
    assert h * w == (a + (h - a)) * (b + (w - b));
    assert (a + (h - a)) * (b + (w - b)) == a * b + a * (w - b) + (h - a) * b + (h - a) * (w - b);
  }

  lemma ProductPositive(a: nat, b: nat)
    ensures a * b > 0 <==> a > 0 && b > 0
  {
    if a > 0 && b > 0 {
      assert a * b >= b;
    }
  }

  /** Every quadrant has a pixel exactly when the frame is at least 2 by 2. */
  lemma QuadrantsNonEmpty(h: nat, w: nat)
    ensures (forall i :: 0 <= i < 4 ==> Area(Quadrants(h, w)[i]) > 0) <==> h >= 2 && w >= 2
  {
    var qs := Quadrants(h, w);
    var a, b := h / 2, w / 2;
    assert Area(qs[0]) == a * b && Area(qs[1]) == a * (w - b);
    assert Area(qs[2]) == (h - a) * b && Area(qs[3]) == (h - a) * (w - b);
    ProductPositive(a, b);
    ProductPositive(a, w - b);
    ProductPositive(h - a, b);
    ProductPositive(h - a, w - b);
    assert a > 0 <==> h >= 2;
    assert b > 0 <==> w >= 2;
  }

  /** `image[top:bottom, left:right]`. */
  function Crop(img: Frame, q: Quadrant): (part: Frame)
    requires q.top <= q.bottom <= img.height && q.left <= q.right <= img.width
    ensures part.height == q.bottom - q.top && part.width == q.right - q.left
  {
    Image(q.bottom - q.top, q.right - q.left,
      seq(q.bottom - q.top, r requires 0 <= r < q.bottom - q.top => img.px[q.top + r][q.left..q.right]))
  }

  /** Pixel (r, c) of a crop is pixel (top + r, left + c) of the frame. */
  lemma CropPixels(img: Frame, q: Quadrant, r: nat, c: nat)
    requires q.top <= q.bottom <= img.height && q.left <= q.right <= img.width
    requires r < q.bottom - q.top && c < q.right - q.left
    ensures Crop(img, q).px[r][c] == img.px[q.top + r][q.left + c]
  {
  }

  // ---------------------------------------------------------------------
  // The best quadrant

  /** The position `max(items, key=score)` picks: the first item with the
      greatest score. */
  function BestIndex(scores: seq<real>): (k: nat)
    requires |scores| > 0
    ensures k < |scores|
    ensures forall i :: 0 <= i < |scores| ==> scores[i] <= scores[k]
    ensures forall i :: 0 <= i < k ==> scores[i] < scores[k]
  {
    if |scores| == 1 then 0
    else
      var b := BestIndex(scores[..|scores| - 1]);
      assert forall i :: 0 <= i < |scores| - 1 ==> scores[..|scores| - 1][i] == scores[i];
      if scores[|scores| - 1] > scores[b] then |scores| - 1 else b
  }

  /** The focus score of the frame: the best score over its four quadrants.
      Grayscale conversion raises on an empty quadrant; `score` stands for
      the blurred Laplacian's (variance + 90th percentile) / 2. */
  method CalculateQuadrantFocus(image: Frame, score: Frame -> real) returns (r: Result<real>)
    ensures r.Ok? <==> image.height >= 2 && image.width >= 2
    ensures r.Err? ==> r.error == CvError
    ensures r.Ok? ==> exists i :: 0 <= i < 4 && r.value == QuadrantScore(image, score, i)
    ensures r.Ok? ==> forall i :: 0 <= i < 4 ==> QuadrantScore(image, score, i) <= r.value
  {
    var qs := Quadrants(image.height, image.width);
    var scores: seq<real> := [];
    var i := 0;
    QuadrantsNonEmpty(image.height, image.width);
    while i < 4
      invariant 0 <= i <= 4 && |scores| == i
      invariant forall j :: 0 <= j < i ==> Area(qs[j]) > 0 && scores[j] == QuadrantScore(image, score, j)
    {
      var part := Crop(image, qs[i]);
      ProductPositive(part.height, part.width);
      if part.height == 0 || part.width == 0 {
        return Err(CvError);
      }
      scores := scores + [score(part)];
      i := i + 1;
    }
    var best := BestIndex(scores);
    r := Ok(scores[best]);
    assert r.value == QuadrantScore(image, score, best);
  }

  /** The score of quadrant i, or 0 for an empty one. */
  function QuadrantScore(image: Frame, score: Frame -> real, i: nat): real
    requires i < 4
  {
    var q := Quadrants(image.height, image.width)[i];
    if Area(q) == 0 then 0.0 else score(Crop(image, q))
  }
}
