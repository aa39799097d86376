/** `calculateVisualCenter` (app/components/ARClient.tsx): the centroid of
    the solid part of the picture, sampled on a grid of every fourth column
    and row, as fractions of the picture's width and height. */
module ArVisualCenter {
  import opened Common
  import opened Raster

  datatype Point = Point(x: real, y: real)

  const Middle := Point(0.5, 0.5)

  /** A sample counts when its alpha exceeds 20. */
  const AlphaThreshold := 20

  /** How many samples counted and the sums of their coordinates. */
  datatype Tally = Tally(count: nat, sumX: nat, sumY: nat)

  const NoSamples := Tally(0, 0, 0)

  function Plus(a: Tally, b: Tally): Tally
  {
    Tally(a.count + b.count, a.sumX + b.sumX, a.sumY + b.sumY)
  }

  /** The byte at index i exists and, read as an alpha, exceeds the
      threshold. */
  predicate Opaque(data: seq<int>, i: int)
  {
    0 <= i < |data| && data[i] > AlphaThreshold
  }

  /** What the sample at column x of the row starting at `base` adds. */
  function Sample(data: seq<int>, base: int, y: nat, x: nat): Tally
  {
    if Opaque(data, base + 4 * x + 3) then Tally(1, x, y) else NoSamples
  }

  /** The samples of row `y`, whose first byte is at `base`, from column `x`
      on, every fourth column. */
  function RowTally(data: seq<int>, width: nat, base: nat, y: nat, x: nat): Tally
    decreases width - x
  {
    if x >= width then NoSamples
    else Plus(Sample(data, base, y, x), RowTally(data, width, base, y, x + 4))
  }

  /** The samples of every fourth row from row `y` on; `base` is the index of
      the first byte of row `y`. */
  function GridTally(data: seq<int>, width: nat, height: nat, y: nat, base: nat): Tally
    decreases height - y
  {
    if y >= height then NoSamples
    else Plus(RowTally(data, width, base, y, 0), GridTally(data, width, height, y + 4, base + 16 * width))
  }

  function Samples(data: seq<int>, width: nat, height: nat): Tally
  {
    GridTally(data, width, height, 0, 0)
  }

  /** The visual centre of a picture whose 2D context is available: the
      mean sampled column over the width and the mean sampled row over the
      height, or the middle when no sample is solid. */
  function Centre(data: seq<int>, width: nat, height: nat): Point
  {
    var t := Samples(data, width, height);
    if t.count == 0 then Middle
    else
      GridTallyNonEmpty(data, width, height, 0, 0);
      Point((t.sumX as real / t.count as real) / width as real,
            (t.sumY as real / t.count as real) / height as real)
  }

  /** The loop of the source, accumulating over the sampling grid. Without a
      2D context the centre is the middle. A picture with no pixels cannot be
      read (`getImageData` throws on an empty rectangle), which is `None`. */
  method CalculateVisualCenter(data: array<int>, width: nat, height: nat, hasContext: bool)
    returns (c: Option<Point>)
    requires Sized(data[..], width, height)
    ensures !hasContext ==> c == Some(Middle)
    ensures hasContext && (width == 0 || height == 0) ==> c == None
    ensures hasContext && width > 0 && height > 0 ==> c == Some(Centre(data[..], width, height))
  {
    if !hasContext {
      return Some(Middle);
    }
    if width == 0 || height == 0 {
      return None;
    }
    var centre := GridCentre(data, width, height);
    return Some(centre);
  }

  /** The two loops over the sampling grid and the division that follows
      them. */
  method GridCentre(data: array<int>, width: nat, height: nat) returns (c: Point)
    requires Sized(data[..], width, height)
    ensures c == Centre(data[..], width, height)
  {
    ghost var d := data[..];
    var totalX, totalY, count := 0, 0, 0;
    var y := 0;
    ghost var base: nat := 0;
    while y < height
      invariant base == RowStart(width, y)
      invariant Plus(Tally(count, totalX, totalY), GridTally(d, width, height, y, base)) == Samples(d, width, height)
      decreases height - y
    {
      var nextY := y + 4;
      ghost var nextBase := base + 16 * width;
      ghost var afterRow := Plus(Tally(count, totalX, totalY), RowTally(d, width, base, y, 0));
      GridStep(Tally(count, totalX, totalY), d, width, height, y, base, nextY, nextBase);
      var x := 0;
      while x < width
        invariant Plus(Tally(count, totalX, totalY), RowTally(d, width, base, y, x)) == afterRow
        decreases width - x
      {
        PixelInBounds(d, width, height, x, y);
        var i := PixelBase(width, x, y) + 3;
        var alpha := data[i];
        ghost var before := Tally(count, totalX, totalY);
        var nextX := x + 4;
        RowStep(before, d, width, base, y, x, nextX);
        SampleRead(d, base, y, x, i);
        if alpha > 20 {
          totalX := totalX + x;
          totalY := totalY + y;
          count := count + 1;
        }
        assert Tally(count, totalX, totalY) == Plus(before, Sample(d, base, y, x));
        x := nextX;
      }
      assert RowTally(d, width, base, y, x) == NoSamples;
      assert Tally(count, totalX, totalY) == afterRow;
      RowStartStep(width, y, nextY);
      y := nextY;
      base := nextBase;
    }
    assert GridTally(d, width, height, y, base) == NoSamples;
    assert Tally(count, totalX, totalY) == Samples(d, width, height);
    if count == 0 {
      return Middle;
    }
    GridTallyNonEmpty(d, width, height, 0, 0);
    return Point((totalX as real / count as real) / width as real,
                 (totalY as real / count as real) / height as real);
  }

  /** One step of the column loop: the sample at x moves into the running
      tally. */
  lemma RowStep(t: Tally, data: seq<int>, width: nat, base: nat, y: nat, x: nat, nextX: nat)
    requires x < width && nextX == x + 4
    ensures Plus(t, RowTally(data, width, base, y, x))
      == Plus(Plus(t, Sample(data, base, y, x)), RowTally(data, width, base, y, nextX))
  {
    assert RowTally(data, width, base, y, x) == Plus(Sample(data, base, y, x), RowTally(data, width, base, y, x + 4));
  }

  /** The sample at column x is the alpha byte read there. */
  lemma SampleRead(data: seq<int>, base: int, y: nat, x: nat, i: int)
    requires i == base + 4 * x + 3 && 0 <= i < |data|
    ensures Sample(data, base, y, x) == if data[i] > 20 then Tally(1, x, y) else NoSamples
  {
  }

  /** One step of the row loop: the grid from row y is that row and the grid
      four rows down. */
  lemma GridStep(t: Tally, data: seq<int>, width: nat, height: nat, y: nat, base: nat, nextY: nat, nextBase: nat)
    requires y < height && nextY == y + 4 && nextBase == base + 16 * width
    ensures Plus(t, GridTally(data, width, height, y, base))
      == Plus(Plus(t, RowTally(data, width, base, y, 0)), GridTally(data, width, height, nextY, nextBase))
  {
    var rest := GridTally(data, width, height, nextY, nextBase);
    assert rest == GridTally(data, width, height, y + 4, base + 16 * width);
    assert GridTally(data, width, height, y, base) == Plus(RowTally(data, width, base, y, 0), rest);
  }

  // ---------------------------------------------------------------------------
  // Properties

  /** Sums of bounded sums stay bounded. */
  lemma StepX(a: Tally, b: Tally, m: int)
    requires a.sumX <= Times(a.count, m) && b.sumX <= Times(b.count, m)
    ensures Plus(a, b).sumX <= Times(Plus(a, b).count, m)
  {
    TimesAdd(a.count, b.count, m);
  }

  lemma StepY(a: Tally, b: Tally, m: int)
    requires a.sumY <= Times(a.count, m) && b.sumY <= Times(b.count, m)
    ensures Plus(a, b).sumY <= Times(Plus(a, b).count, m)
  {
    TimesAdd(a.count, b.count, m);
  }

  /** Each sampled column of a row is below the width. */
  lemma {:induction false} RowTallyX(data: seq<int>, width: nat, base: nat, y: nat, x: nat)
    ensures var t := RowTally(data, width, base, y, x); t.sumX <= Times(t.count, width - 1)
    decreases width - x
  {
    if x < width {
      RowTallyX(data, width, base, y, x + 4);
      StepX(Sample(data, base, y, x), RowTally(data, width, base, y, x + 4), width - 1);
    }
  }

  /** Every sample of row y has a row index of at most m when y does. */
  lemma {:induction false} RowTallyY(data: seq<int>, width: nat, base: nat, y: nat, x: nat, m: int)
    requires y <= m
    ensures var t := RowTally(data, width, base, y, x); t.sumY <= Times(t.count, m)
    decreases width - x
  {
    if x < width {
      RowTallyY(data, width, base, y, x + 4, m);
      StepY(Sample(data, base, y, x), RowTally(data, width, base, y, x + 4), m);
    }
  }

  /** A row samples nothing past its last column. */
  lemma {:induction false} RowTallyNonEmpty(data: seq<int>, width: nat, base: nat, y: nat, x: nat)
    ensures RowTally(data, width, base, y, x).count > 0 ==> x < width
    decreases width - x
  {
    if x < width {
      RowTallyNonEmpty(data, width, base, y, x + 4);
    }
  }

  /** Each sampled column of the grid is below the width. */
  lemma {:induction false} GridTallyX(data: seq<int>, width: nat, height: nat, y: nat, base: nat)
    ensures var t := GridTally(data, width, height, y, base);
      t.sumX <= Times(t.count, width - 1)
    decreases height - y
  {
    if y < height {
      RowTallyX(data, width, base, y, 0);
      GridTallyX(data, width, height, y + 4, base + 16 * width);
      StepX(RowTally(data, width, base, y, 0), GridTally(data, width, height, y + 4, base + 16 * width), width - 1);
    }
  }

  /** Each sampled row of the grid is below the height. */
  lemma {:induction false} GridTallyY(data: seq<int>, width: nat, height: nat, y: nat, base: nat)
    ensures var t := GridTally(data, width, height, y, base);
      t.sumY <= Times(t.count, height - 1)
    decreases height - y
  {
    if y < height {
      RowTallyY(data, width, base, y, 0, height - 1);
      GridTallyY(data, width, height, y + 4, base + 16 * width);
      StepY(RowTally(data, width, base, y, 0), GridTally(data, width, height, y + 4, base + 16 * width), height - 1);
    }
  }

  /** A grid with a sample has a column and a row. */
  lemma {:induction false} GridTallyNonEmpty(data: seq<int>, width: nat, height: nat, y: nat, base: nat)
    ensures GridTally(data, width, height, y, base).count > 0 ==> 0 < width && y < height
    decreases height - y
  {
    if y < height {
      RowTallyNonEmpty(data, width, base, y, 0);
      GridTallyNonEmpty(data, width, height, y + 4, base + 16 * width);
    }
  }

  /** A mean of values in [0, side - 1] divided by side lies in [0, 1). */
  lemma MeanFraction(sum: nat, count: nat, side: nat)
    requires count > 0 && side > 0 && sum <= Times(count, side - 1)
    ensures 0.0 <= (sum as real / count as real) / side as real < 1.0
  {
    TimesIsProduct(count, side - 1);
    var n := count as real;
    var m := sum as real / n;
    assert sum as real <= n * (side - 1) as real;
    DivLeReal(sum as real, (side - 1) as real, n);
    DivBelowOne(m, side as real);
  }

  /** The visual centre always lies in [0, 1) × [0, 1). */
  lemma CentreInUnitSquare(data: seq<int>, width: nat, height: nat)
    ensures var c := Centre(data, width, height);
      0.0 <= c.x < 1.0 && 0.0 <= c.y < 1.0
  {
    var t := Samples(data, width, height);
    if t.count > 0 {
      GridTallyNonEmpty(data, width, height, 0, 0);
      GridTallyX(data, width, height, 0, 0);
      GridTallyY(data, width, height, 0, 0);
      MeanFraction(t.sumX, t.count, width);
      MeanFraction(t.sumY, t.count, height);
    }
  }

  /** No sample of the row starting at `base` is solid from column x on. */
  predicate RowClear(data: seq<int>, width: nat, base: nat, x: nat)
    decreases width - x
  {
    x >= width || (!Opaque(data, base + 4 * x + 3) && RowClear(data, width, base, x + 4))
  }

  /** `RowClear` says of every fourth column from x on that its sample is
      not solid. */
  lemma {:induction false} RowClearMeans(data: seq<int>, width: nat, base: nat, x: nat)
    ensures RowClear(data, width, base, x) <==>
      forall c: nat :: x <= c < width && (c - x) % 4 == 0 ==> !Opaque(data, base + 4 * c + 3)
    decreases width - x
  {
    if x < width {
      RowClearMeans(data, width, base, x + 4);
      if RowClear(data, width, base, x) {
        forall c: nat | x <= c < width && (c - x) % 4 == 0
          ensures !Opaque(data, base + 4 * c + 3)
        {
          if c != x {
            assert (c - (x + 4)) % 4 == 0;
          }
        }
      } else if !Opaque(data, base + 4 * x + 3) {
        var c: nat :| x + 4 <= c < width && (c - (x + 4)) % 4 == 0 && Opaque(data, base + 4 * c + 3);
        assert (c - x) % 4 == 0;
      }
    }
  }

  /** A row contributes nothing exactly when none of its samples is solid. */
  lemma {:induction false} RowClearTally(data: seq<int>, width: nat, base: nat, y: nat, x: nat)
    ensures RowTally(data, width, base, y, x).count == 0 <==> RowClear(data, width, base, x)
    decreases width - x
  {
    if x < width {
      RowClearTally(data, width, base, y, x + 4);
    }
  }

  /** Every sampled row from row y on, the first starting at `base`, is
      clear. */
  predicate GridClear(data: seq<int>, width: nat, height: nat, y: nat, base: nat)
    decreases height - y
  {
    y >= height || (RowClear(data, width, base, 0) && GridClear(data, width, height, y + 4, base + 16 * width))
  }

  /** The grid from row y on contributes nothing exactly when every sampled
      row is clear. */
  lemma {:induction false} GridClearTally(data: seq<int>, width: nat, height: nat, y: nat, base: nat)
    ensures GridTally(data, width, height, y, base).count == 0 <==> GridClear(data, width, height, y, base)
    decreases height - y
  {
    if y < height {
      RowClearTally(data, width, base, y, 0);
      GridClearTally(data, width, height, y + 4, base + 16 * width);
    }
  }

  /** The centre is the middle of the picture exactly when no sample of the
      grid is solid. */
  lemma MiddleIffNoOpaqueSample(data: seq<int>, width: nat, height: nat)
    ensures Samples(data, width, height).count == 0 <==> GridClear(data, width, height, 0, 0)
    ensures GridClear(data, width, height, 0, 0) ==> Centre(data, width, height) == Middle
  {
    GridClearTally(data, width, height, 0, 0);
  }
}
