/** `createLayerMasks` (app/components/ARClient.tsx): the picture cut into
    three horizontal bands, one canvas per band, each holding the whole
    picture with everything above and below its band cleared. The model
    follows each pixel row of each canvas. */
module ArLayerMasks {
  import opened Common

  /** What becomes of a pixel row of a layer canvas: it keeps the picture,
      it is cleared, or a band edge passes through it and `clearRect`
      clears part of it. */
  datatype RowFate = Kept | Cleared | Edge

  const LayerCount := 3

  /** `(canvas.height / 3) * i`: where band i starts and band i - 1 ends. */
  function BandStart(height: nat, i: nat): real
  {
    height as real / 3.0 * i as real
  }

  /** Row r of layer i after `clearRect(0, 0, w, yStart)` and
      `clearRect(0, yEnd, w, height - yEnd)`. */
  function Fate(height: nat, i: nat, r: nat): (f: RowFate)
    ensures f == Kept <==> BandStart(height, i) <= r as real && (r + 1) as real <= BandStart(height, i + 1)
    ensures f == Cleared <==> (r + 1) as real <= BandStart(height, i) || r as real >= BandStart(height, i + 1)
  {
    var yStart, yEnd := BandStart(height, i), BandStart(height, i + 1);
    if yStart <= r as real && (r + 1) as real <= yEnd then Kept
    else if (r + 1) as real <= yStart || r as real >= yEnd then Cleared
    else Edge
  }

  /** A layer canvas: the picture's size and the fate of each row. */
  datatype Mask = Mask(width: nat, height: nat, rows: seq<RowFate>)

  /** The layer canvases for a `width`×`height` picture. Without a 2D
      context for the picture there are none; a picture with no pixels
      cannot be read (`getImageData` throws on an empty rectangle), which is
      `None`; a layer whose own context is missing stays blank (every row
      clear). */
  function LayerMasks(width: nat, height: nat, hasContext: bool, layerContexts: seq<bool>): (r: Option<seq<Mask>>)
    requires |layerContexts| == LayerCount
    ensures !hasContext ==> r == Some([])
    ensures r.None? <==> hasContext && (width == 0 || height == 0)
    ensures hasContext && r.Some? ==> |r.value| == LayerCount
    ensures hasContext && r.Some? ==> forall i :: 0 <= i < LayerCount ==>
      && r.value[i].width == width && r.value[i].height == height && |r.value[i].rows| == height
      && forall k :: 0 <= k < height ==> r.value[i].rows[k] == if layerContexts[i] then Fate(height, i, k) else Cleared
  {
    if !hasContext then Some([])
    else if width == 0 || height == 0 then None
    else
      Some(seq(LayerCount, i requires 0 <= i < LayerCount =>
        Mask(width, height, seq(height, k requires 0 <= k < height => if layerContexts[i] then Fate(height, i, k) else Cleared))))
  }

  /** No row is kept by two layers. */
  lemma KeptByOneLayer(height: nat, i: nat, j: nat, r: nat)
    requires i < j < LayerCount
    ensures !(Fate(height, i, r) == Kept && Fate(height, j, r) == Kept)
  {
    var third := height as real / 3.0;
    assert BandStart(height, i + 1) <= BandStart(height, j) by {
      assert third >= 0.0;
      assert (i + 1) as real <= j as real;
    }
  }

  /** Every row of the picture shows in some layer: none is cleared from
      all three. */
  lemma EveryRowShown(height: nat, r: nat)
    requires r < height
    ensures exists i :: 0 <= i < LayerCount && Fate(height, i, r) != Cleared
  {
    var third := height as real / 3.0;
    assert BandStart(height, 0) == 0.0;
    assert BandStart(height, 1) == third && BandStart(height, 2) == 2.0 * third;
    assert BandStart(height, 3) == height as real;
    if Fate(height, 0, r) == Cleared && Fate(height, 1, r) == Cleared {
      assert Fate(height, 2, r) != Cleared;
    }
  }

  /** The third of the picture row r lies in. */
  function ThirdOf(height: nat, r: nat): (i: nat)
    ensures i < LayerCount
  {
    if 3 * r < height then 0 else if 3 * r < 2 * height then 1 else 2
  }

  /** When the height is a multiple of three the bands fall on row
      boundaries: no row is an edge row, and every row is kept by exactly
      one layer, the one for its third. */
  lemma ThirdsPartition(height: nat, r: nat)
    requires height % 3 == 0 && r < height
    ensures forall i :: 0 <= i < LayerCount ==> Fate(height, i, r) != Edge
    ensures Fate(height, ThirdOf(height, r), r) == Kept
  {
    var k := height / 3;
    Bands(height, k);
    forall i | 0 <= i < LayerCount
      ensures Fate(height, i, r) != Edge
    {
      BandOnRows(height, i, r, k * i, k * i + k);
    }
    var i := ThirdOf(height, r);
    BandOnRows(height, i, r, k * i, k * i + k);
  }

  /** A band that starts and ends on row boundaries keeps or clears each
      row whole. */
  lemma BandOnRows(height: nat, i: nat, r: nat, start: int, end: int)
    requires BandStart(height, i) == start as real && BandStart(height, i + 1) == end as real
    ensures Fate(height, i, r) != Edge
    ensures start <= r < end ==> Fate(height, i, r) == Kept
  {
    if r < start {
      assert (r + 1) as real <= start as real;
    } else if r >= end {
      assert r as real >= end as real;
    } else {
      assert start as real <= r as real && (r + 1) as real <= end as real;
    }
  }

  /** For a height of 3k band i runs from row k·i to row k·(i + 1). */
  lemma Bands(height: nat, k: nat)
    requires height == 3 * k
    ensures forall i :: 0 <= i < LayerCount ==>
      BandStart(height, i) == (k * i) as real && BandStart(height, i + 1) == (k * i + k) as real
  {
    assert height as real / 3.0 == k as real;
    assert BandStart(height, 0) == 0.0 && BandStart(height, 1) == k as real;
    assert BandStart(height, 2) == (2 * k) as real && BandStart(height, 3) == (3 * k) as real;
    forall i | 0 <= i < LayerCount
      ensures BandStart(height, i) == (k * i) as real && BandStart(height, i + 1) == (k * i + k) as real
    {
      if i == 0 {
      } else if i == 1 {
        assert k * i == k;
      } else {
        assert k * i == 2 * k;
      }
    }
  }
}
