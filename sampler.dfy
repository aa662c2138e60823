/// The sampling pass of `Effect.init`: a scan of the canvas buffer on a grid of
/// stride `step`, rows (y) outer and columns (x) inner, that keeps one sample
/// per grid point whose alpha byte is non-zero.
module Sampler {
  import opened Pixels

  /** What the scan keeps of a grid point: its coordinate and its colour. */
  datatype Sample = Sample(x: int, y: int, color: Rgb)

  /** `a` comes strictly before `b` in row-major order. */
  predicate Before(a: Sample, b: Sample)
  {
    a.y < b.y || (a.y == b.y && a.x < b.x)
  }

  /** Strictly increasing in row-major order. */
  predicate RowMajor(s: seq<Sample>)
  {
    forall i, j :: 0 <= i < j < |s| ==> Before(s[i], s[j])
  }

  /** `s` records an opaque grid point of the canvas with that point's colour. */
  predicate FromOpaqueGridPoint(pixels: seq<Byte>, width: nat, height: nat, step: nat, s: Sample)
    requires IsCanvasBuffer(pixels, width, height) && step > 0
  {
    0 <= s.x < width && 0 <= s.y < height &&
    s.x % step == 0 && s.y % step == 0 &&
    Alpha(pixels, width, height, s.x, s.y) > 0 &&
    s.color == ColorAt(pixels, width, height, s.x, s.y)
  }

  /** What the scan keeps of grid point (x, y): one sample if its alpha
      byte is non-zero, nothing if the pixel is transparent. */
  function PixelSamples(pixels: seq<Byte>, width: nat, height: nat, x: int, y: int): seq<Sample>
    requires IsCanvasBuffer(pixels, width, height)
    requires 0 <= x < width && 0 <= y < height
  {
    if Alpha(pixels, width, height, x, y) > 0
    then [Sample(x, y, ColorAt(pixels, width, height, x, y))] else []
  }

  /** What the inner loop appends for row `y`, from column `x` on. */
  function RowSamples(pixels: seq<Byte>, width: nat, height: nat, step: nat, y: int, x: int): seq<Sample>
    requires IsCanvasBuffer(pixels, width, height) && step > 0
    requires 0 <= y < height && 0 <= x
    decreases width - x
  {
    if x >= width then []
    else PixelSamples(pixels, width, height, x, y) + RowSamples(pixels, width, height, step, y, x + step)
  }

  /** What the outer loop appends from row `y` on. */
  function GridSamples(pixels: seq<Byte>, width: nat, height: nat, step: nat, y: int): seq<Sample>
    requires IsCanvasBuffer(pixels, width, height) && step > 0
    requires 0 <= y
    decreases height - y
  {
    if y >= height then []
    else RowSamples(pixels, width, height, step, y, 0) + GridSamples(pixels, width, height, step, y + step)
  }

  /** Everything the whole scan produces, in the order it is produced. */
  function Sampled(pixels: seq<Byte>, width: nat, height: nat, step: nat): seq<Sample>
    requires IsCanvasBuffer(pixels, width, height) && step > 0
  {
    GridSamples(pixels, width, height, step, 0)
  }

  // ---------------------------------------------------------------------
  // Scan steps: how the scanned prefix grows as the loops advance

  /** Starting row `y` of the outer loop. */
  lemma ScanEntersRow(pixels: seq<Byte>, width: nat, height: nat, step: nat, y: int, done: seq<Sample>, total: seq<Sample>)
    requires IsCanvasBuffer(pixels, width, height) && step > 0 && 0 <= y < height
    requires done + GridSamples(pixels, width, height, step, y) == total
    ensures done + RowSamples(pixels, width, height, step, y, 0) + GridSamples(pixels, width, height, step, y + step) == total
  {
  }

  /** One iteration of the inner loop, at grid point (x, y). */
  lemma ScanVisitsPixel(pixels: seq<Byte>, width: nat, height: nat, step: nat, y: int, x: int,
                        done: seq<Sample>, rest: seq<Sample>, total: seq<Sample>)
    requires IsCanvasBuffer(pixels, width, height) && step > 0 && 0 <= y < height && 0 <= x < width
    requires done + RowSamples(pixels, width, height, step, y, x) + rest == total
    ensures done + PixelSamples(pixels, width, height, x, y) + RowSamples(pixels, width, height, step, y, x + step) + rest == total
  {
  }

  /** Leaving the inner loop once `x` has passed the last column. */
  lemma ScanLeavesRow(pixels: seq<Byte>, width: nat, height: nat, step: nat, y: int, x: int,
                      done: seq<Sample>, rest: seq<Sample>, total: seq<Sample>)
    requires IsCanvasBuffer(pixels, width, height) && step > 0 && 0 <= y < height && width <= x
    requires done + RowSamples(pixels, width, height, step, y, x) + rest == total
    ensures done + rest == total
  {
  }

  // ---------------------------------------------------------------------
  // Grid arithmetic

  /** A multiple of `step` strictly between `-step` and `step` is zero. */
  lemma SmallMultipleIsZero(k: int, step: int)
    requires step > 0 && -step < k * step < step
    ensures k == 0
  {
    assert k >= 1 ==> (k - 1) * step >= 0 && k * step == (k - 1) * step + step;
    assert k <= -1 ==> (k + 1) * step <= 0 && k * step == (k + 1) * step - step;
  }

  /** Euclidean division by `step` is determined by quotient and remainder. */
  lemma DivModUnique(n: int, step: nat, q: int, r: int)
    requires step > 0 && n == q * step + r && 0 <= r < step
    ensures n / step == q && n % step == r
  {
    var q', r' := n / step, n % step;
    assert n == q' * step + r' && 0 <= r' < step;
    assert (q - q') * step == r' - r;
    SmallMultipleIsZero(q - q', step);
  }

  /** Adding the stride keeps a coordinate on the grid. */
  lemma StepKeepsAlignment(a: int, step: nat)
    requires step > 0 && a % step == 0
    ensures (a + step) % step == 0
  {
    var q := a / step;
    assert a == q * step;
    assert a + step == (q + 1) * step + 0;
    DivModUnique(a + step, step, q + 1, 0);
  }

  /** Number of grid coordinates `lo, lo + step, ...` below `hi`. */
  function GridPoints(lo: int, hi: int, step: nat): nat
    requires step > 0
    decreases hi - lo
  {
    if lo >= hi then 0 else 1 + GridPoints(lo + step, hi, step)
  }

  /** The grid along an axis of length `n` has `ceil(n / step)` coordinates. */
  lemma {:induction false} GridPointsIsCeiling(lo: int, hi: int, step: nat)
    requires step > 0 && lo < hi + step
    ensures GridPoints(lo, hi, step) == (hi - lo + step - 1) / step
    decreases hi - lo
  {
    if lo < hi {
      GridPointsIsCeiling(lo + step, hi, step);
      var a := hi - lo - 1;
      var q, r := a / step, a % step;
      assert a + step == (q + 1) * step + r;
      DivModUnique(a + step, step, q + 1, r);
    }
  }

  /** A positive multiple of `step` is at least `step`. */
  lemma PositiveMultiple(k: int, step: int)
    requires step > 0 && k * step > 0
    ensures k * step >= step
  {
    assert k <= 0 ==> k * step <= 0;
    assert k >= 1 ==> (k - 1) * step >= 0 && k * step == (k - 1) * step + step;
  }

  /** Two grid coordinates that differ are at least one stride apart. */
  lemma AlignedGap(a: int, b: int, step: nat)
    requires step > 0 && a % step == 0 && b % step == 0 && a < b
    ensures a + step <= b
  {
    var qa, qb := a / step, b / step;
    assert a == qa * step && b == qb * step;
    assert b - a == (qb - qa) * step;
    PositiveMultiple(qb - qa, step);
  }

  // ---------------------------------------------------------------------
  // Soundness: every sample is an opaque grid point with that point's colour

  lemma {:induction false} RowSamplesSound(pixels: seq<Byte>, width: nat, height: nat, step: nat, y: int, x: int)
    requires IsCanvasBuffer(pixels, width, height) && step > 0
    requires 0 <= y < height && 0 <= x && y % step == 0 && x % step == 0
    ensures forall s :: s in RowSamples(pixels, width, height, step, y, x) ==>
              FromOpaqueGridPoint(pixels, width, height, step, s)
    decreases width - x
  {
    if x < width {
      StepKeepsAlignment(x, step);
      RowSamplesSound(pixels, width, height, step, y, x + step);
    }
  }

  lemma {:induction false} GridSamplesSound(pixels: seq<Byte>, width: nat, height: nat, step: nat, y: int)
    requires IsCanvasBuffer(pixels, width, height) && step > 0
    requires 0 <= y && y % step == 0
    ensures forall s :: s in GridSamples(pixels, width, height, step, y) ==>
              FromOpaqueGridPoint(pixels, width, height, step, s)
    decreases height - y
  {
    if y < height {
      RowSamplesSound(pixels, width, height, step, y, 0);
      StepKeepsAlignment(y, step);
      GridSamplesSound(pixels, width, height, step, y + step);
    }
  }

  /** Every particle origin the scan produces lies on the stride grid inside
      the canvas, its pixel is not transparent, and its colour is that
      pixel's red, green and blue bytes. */
  lemma SampledSound(pixels: seq<Byte>, width: nat, height: nat, step: nat)
    requires IsCanvasBuffer(pixels, width, height) && step > 0
    ensures forall k :: 0 <= k < |Sampled(pixels, width, height, step)| ==>
              FromOpaqueGridPoint(pixels, width, height, step, Sampled(pixels, width, height, step)[k])
  {
    GridSamplesSound(pixels, width, height, step, 0);
  }

  // ---------------------------------------------------------------------
  // Completeness: every opaque grid point is sampled

  lemma {:induction false} RowSamplesComplete(pixels: seq<Byte>, width: nat, height: nat, step: nat, y: int, x: int, px: int)
    requires IsCanvasBuffer(pixels, width, height) && step > 0
    requires 0 <= y < height && 0 <= x <= px < width
    requires x % step == 0 && px % step == 0
    requires Alpha(pixels, width, height, px, y) > 0
    ensures Sample(px, y, ColorAt(pixels, width, height, px, y)) in RowSamples(pixels, width, height, step, y, x)
    decreases width - x
  {
    if x < px {
      AlignedGap(x, px, step);
      StepKeepsAlignment(x, step);
      RowSamplesComplete(pixels, width, height, step, y, x + step, px);
    }
  }

  lemma {:induction false} GridSamplesComplete(pixels: seq<Byte>, width: nat, height: nat, step: nat, y: int, px: int, py: int)
    requires IsCanvasBuffer(pixels, width, height) && step > 0
    requires 0 <= y <= py < height && 0 <= px < width
    requires y % step == 0 && px % step == 0 && py % step == 0
    requires Alpha(pixels, width, height, px, py) > 0
    ensures Sample(px, py, ColorAt(pixels, width, height, px, py)) in GridSamples(pixels, width, height, step, y)
    decreases height - y
  {
    if y == py {
      RowSamplesComplete(pixels, width, height, step, y, 0, px);
    } else {
      AlignedGap(y, py, step);
      StepKeepsAlignment(y, step);
      GridSamplesComplete(pixels, width, height, step, y + step, px, py);
    }
  }

  /** A grid point inside the canvas yields a particle exactly when its alpha
      byte is non-zero; when it does, the particle carries that pixel's
      colour. */
  lemma SampledIffOpaque(pixels: seq<Byte>, width: nat, height: nat, step: nat, x: int, y: int)
    requires IsCanvasBuffer(pixels, width, height) && step > 0
    requires 0 <= x < width && 0 <= y < height && x % step == 0 && y % step == 0
    ensures (exists k :: 0 <= k < |Sampled(pixels, width, height, step)| &&
               Sampled(pixels, width, height, step)[k].x == x &&
               Sampled(pixels, width, height, step)[k].y == y)
            <==> Alpha(pixels, width, height, x, y) > 0
    ensures Alpha(pixels, width, height, x, y) > 0 ==>
              Sample(x, y, ColorAt(pixels, width, height, x, y)) in Sampled(pixels, width, height, step)
  {
    var r := Sampled(pixels, width, height, step);
    SampledSound(pixels, width, height, step);
    if Alpha(pixels, width, height, x, y) > 0 {
      GridSamplesComplete(pixels, width, height, step, 0, x, y);
      var k :| 0 <= k < |r| && r[k] == Sample(x, y, ColorAt(pixels, width, height, x, y));
      assert r[k].x == x && r[k].y == y;
    }
  }

  // ---------------------------------------------------------------------
  // Order

  lemma {:induction false} RowSamplesBounds(pixels: seq<Byte>, width: nat, height: nat, step: nat, y: int, x: int)
    requires IsCanvasBuffer(pixels, width, height) && step > 0
    requires 0 <= y < height && 0 <= x
    ensures forall s :: s in RowSamples(pixels, width, height, step, y, x) ==> s.y == y && x <= s.x < width
    decreases width - x
  {
    if x < width {
      RowSamplesBounds(pixels, width, height, step, y, x + step);
    }
  }

  lemma {:induction false} GridSamplesBounds(pixels: seq<Byte>, width: nat, height: nat, step: nat, y: int)
    requires IsCanvasBuffer(pixels, width, height) && step > 0 && 0 <= y
    ensures forall s :: s in GridSamples(pixels, width, height, step, y) ==> y <= s.y < height
    decreases height - y
  {
    if y < height {
      RowSamplesBounds(pixels, width, height, step, y, 0);
      GridSamplesBounds(pixels, width, height, step, y + step);
    }
  }

  lemma ConcatRowMajor(a: seq<Sample>, b: seq<Sample>)
    requires RowMajor(a) && RowMajor(b)
    requires forall i, j :: 0 <= i < |a| && 0 <= j < |b| ==> Before(a[i], b[j])
    ensures RowMajor(a + b)
  {
    forall i, j | 0 <= i < j < |a + b|
      ensures Before((a + b)[i], (a + b)[j])
    {
      if j < |a| {
      } else if i >= |a| {
        assert (a + b)[i] == b[i - |a|] && (a + b)[j] == b[j - |a|];
      } else {
        assert (a + b)[i] == a[i] && (a + b)[j] == b[j - |a|];
      }
    }
  }

  lemma {:induction false} RowSamplesRowMajor(pixels: seq<Byte>, width: nat, height: nat, step: nat, y: int, x: int)
    requires IsCanvasBuffer(pixels, width, height) && step > 0
    requires 0 <= y < height && 0 <= x
    ensures RowMajor(RowSamples(pixels, width, height, step, y, x))
    decreases width - x
  {
    if x < width {
      RowSamplesRowMajor(pixels, width, height, step, y, x + step);
      RowSamplesBounds(pixels, width, height, step, y, x + step);
      ConcatRowMajor(PixelSamples(pixels, width, height, x, y), RowSamples(pixels, width, height, step, y, x + step));
    }
  }

  lemma {:induction false} GridSamplesRowMajor(pixels: seq<Byte>, width: nat, height: nat, step: nat, y: int)
    requires IsCanvasBuffer(pixels, width, height) && step > 0 && 0 <= y
    ensures RowMajor(GridSamples(pixels, width, height, step, y))
    decreases height - y
  {
    if y < height {
      GridSamplesRowMajor(pixels, width, height, step, y + step);
      RowSamplesRowMajor(pixels, width, height, step, y, 0);
      RowSamplesBounds(pixels, width, height, step, y, 0);
      GridSamplesBounds(pixels, width, height, step, y + step);
      ConcatRowMajor(RowSamples(pixels, width, height, step, y, 0), GridSamples(pixels, width, height, step, y + step));
    }
  }

  /** The scan appends in strictly increasing row-major order of (y, x), so
      no grid point is sampled twice. */
  lemma SampledRowMajor(pixels: seq<Byte>, width: nat, height: nat, step: nat)
    requires IsCanvasBuffer(pixels, width, height) && step > 0
    ensures RowMajor(Sampled(pixels, width, height, step))
  {
    GridSamplesRowMajor(pixels, width, height, step, 0);
  }

  // ---------------------------------------------------------------------
  // Count

  lemma {:induction false} RowSamplesCount(pixels: seq<Byte>, width: nat, height: nat, step: nat, y: int, x: int)
    requires IsCanvasBuffer(pixels, width, height) && step > 0
    requires 0 <= y < height && 0 <= x
    ensures |RowSamples(pixels, width, height, step, y, x)| <= GridPoints(x, width, step)
    decreases width - x
  {
    if x < width {
      RowSamplesCount(pixels, width, height, step, y, x + step);
    }
  }

  lemma {:induction false} GridSamplesCount(pixels: seq<Byte>, width: nat, height: nat, step: nat, y: int)
    requires IsCanvasBuffer(pixels, width, height) && step > 0 && 0 <= y
    ensures |GridSamples(pixels, width, height, step, y)| <= GridPoints(y, height, step) * GridPoints(0, width, step)
    decreases height - y
  {
    if y < height {
      RowSamplesCount(pixels, width, height, step, y, 0);
      GridSamplesCount(pixels, width, height, step, y + step);
      var rows, cols := GridPoints(y + step, height, step), GridPoints(0, width, step);
      assert GridPoints(y, height, step) == 1 + rows;
      MulSuccessor(rows, cols);
    }
  }

  lemma MulSuccessor(a: nat, b: nat)
    ensures (1 + a) * b == b + a * b
  {
  }

  /** The scan yields at most `ceil(width / step) * ceil(height / step)`
      samples: one per grid point at most. */
  lemma SampledCount(pixels: seq<Byte>, width: nat, height: nat, step: nat)
    requires IsCanvasBuffer(pixels, width, height) && step > 0
    ensures |Sampled(pixels, width, height, step)| <=
              ((width + step - 1) / step) * ((height + step - 1) / step)
  {
    GridSamplesCount(pixels, width, height, step, 0);
    GridPointsIsCeiling(0, width, step);
    GridPointsIsCeiling(0, height, step);
  }
}
