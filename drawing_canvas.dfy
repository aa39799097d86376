/** `app/components/DrawingCanvas.tsx`: the square canvas a character is
    drawn on, with an undo history of snapshots. The bitmap is an array of
    pixels changed in place; which pixels a stroke segment covers
    (rasterising the round-capped line) is a parameter of the move that
    draws it. */
module DrawingCanvas {
  import opened Common

  /** `CANVAS_SIZE`: the bitmap is this many pixels wide and high. */
  const CanvasSize := 768
  const PixelCount := CanvasSize * CanvasSize

  /** A pixel: its colour and its opacity in [0, 1]. */
  datatype Pixel = Pixel(rgb: nat, alpha: real)

  /** What `clearRect` leaves: transparent black. */
  const Blank := Pixel(0, 0.0)

  type Tool = string

  const Pen := "pen"

  /** The stroke colours in play: the context's initial black, the pen's
      `#101114` and the eraser's `rgba(0,0,0,0)`. */
  datatype StrokeStyle = Black | Ink | Clear

  function Source(style: StrokeStyle): Pixel
  {
    match style
    case Black => Pixel(0x000000, 1.0)
    case Ink => Pixel(0x101114, 1.0)
    case Clear => Pixel(0, 0.0)
  }

  datatype CompositeOp = SourceOver | DestinationOut

  /** One covered pixel after a stroke, by Porter-Duff compositing with a
      source that is fully solid or fully transparent: `source-over` puts
      a solid source over the pixel and leaves it under a transparent
      one; `destination-out` keeps the pixel's colour with opacity
      `alpha * (1 - source alpha)`. */
  function Blend(op: CompositeOp, style: StrokeStyle, dst: Pixel): (p: Pixel)
    ensures Source(style).alpha == 0.0 ==> p == dst
    ensures op == SourceOver && Source(style).alpha == 1.0 ==> p == Source(style)
    ensures op == DestinationOut && Source(style).alpha == 1.0 ==> p == Pixel(dst.rgb, 0.0)
  {
    var src := Source(style);
    match op
    case SourceOver => if src.alpha == 1.0 then src else dst
    case DestinationOut => Pixel(dst.rgb, dst.alpha * (1.0 - src.alpha))
  }

  /** The bitmap after a stroke segment covering `covered`. */
  function Painted(image: seq<Pixel>, covered: set<nat>, op: CompositeOp, style: StrokeStyle): (r: seq<Pixel>)
    ensures |r| == |image|
    ensures forall i :: 0 <= i < |image| && i !in covered ==> r[i] == image[i]
  {
    seq(|image|, i requires 0 <= i < |image| => if i in covered then Blend(op, style, image[i]) else image[i])
  }

  /** A stroke in a fully transparent colour changes nothing, whatever the
      composite operation: the eraser's `rgba(0,0,0,0)` with
      `destination-out` erases nothing. */
  lemma ClearStrokeKeeps(image: seq<Pixel>, covered: set<nat>, op: CompositeOp)
    ensures Painted(image, covered, op, Clear) == image
  {
  }

  /** The pen: width 6, `source-over`, the ink colour; any other tool
      value: width 24, `destination-out`, the transparent colour. */
  function LineWidth(tool: Tool): nat { if tool == Pen then 6 else 24 }
  function StyleOf(tool: Tool): StrokeStyle { if tool == Pen then Ink else Clear }
  function OpOf(tool: Tool): CompositeOp { if tool == Pen then SourceOver else DestinationOut }

  /** A pen stroke inks every covered pixel. */
  lemma PenStrokeInks(image: seq<Pixel>, covered: set<nat>)
    ensures forall i :: 0 <= i < |image| && i in covered ==>
      Painted(image, covered, OpOf(Pen), StyleOf(Pen))[i] == Source(Ink)
  {
  }

  datatype Rect = Rect(left: real, top: real, width: real, height: real)

  /** One coordinate of `getPos`: the pointer's offset from the rectangle's
      edge, as a fraction of its extent, times the bitmap's size. */
  function Axis(client: real, start: real, extent: real): real
    requires extent != 0.0
  {
    (client - start) / extent * CanvasSize as real
  }

  /** `getPos(event)`: the pointer's position in bitmap pixels, from its
      position in the page and the canvas's on-screen rectangle. A rectangle
      with no width or height divides by zero, which is not a number; that
      is `None`. */
  function GetPos(clientX: real, clientY: real, rect: Rect): (pos: Option<(real, real)>)
    ensures pos.Some? <==> rect.width != 0.0 && rect.height != 0.0
  {
    if rect.width == 0.0 || rect.height == 0.0 then None
    else Some((Axis(clientX, rect.left, rect.width), Axis(clientY, rect.top, rect.height)))
  }

  /** Along one axis the rectangle's edges are the bitmap's edges, a pointer
      inside the rectangle is inside the bitmap, and a bitmap coordinate
      shown on screen maps back to itself. */
  lemma AxisScales(start: real, extent: real, client: real, v: real)
    requires extent > 0.0
    ensures Axis(start, start, extent) == 0.0
    ensures Axis(start + extent, start, extent) == CanvasSize as real
    ensures Axis(start + v * extent / CanvasSize as real, start, extent) == v
    ensures start <= client <= start + extent ==> 0.0 <= Axis(client, start, extent) <= CanvasSize as real
  {
    AxisBack(start, extent, v);
    if start <= client <= start + extent {
      AxisInside(start, extent, client);
    }
  }

  /** A bitmap coordinate placed on screen at its share of the extent maps
      back to itself. */
  lemma AxisBack(start: real, extent: real, v: real)
    requires extent > 0.0
    ensures Axis(start + v * extent / CanvasSize as real, start, extent) == v
  {
    var size := CanvasSize as real;
    var d := v * extent / size;
    assert (start + d) - start == d;
    var q := d / extent;
    assert d * size == v * extent;
    assert q * extent == d;
    assert (q * size) * extent == v * extent by {
      assert (q * size) * extent == (q * extent) * size;
    }
    LeCancel(q * size, v, extent);
    LeCancel(v, q * size, extent);
  }

  /** A pointer inside the box is inside the bitmap. */
  lemma AxisInside(start: real, extent: real, client: real)
    requires extent > 0.0 && start <= client <= start + extent
    ensures 0.0 <= Axis(client, start, extent) <= CanvasSize as real
  {
    var size := CanvasSize as real;
    var q := (client - start) / extent;
    assert q * extent == client - start;
    LeCancel(0.0, q, extent);
    LeCancel(q, 1.0, extent);
    MulLeReal(0.0, q, size);
    MulLeReal(q, 1.0, size);
  }

  /** `getPos` on both axes. */
  lemma GetPosScales(rect: Rect, x: real, y: real, px: real, py: real)
    requires rect.width > 0.0 && rect.height > 0.0
    ensures GetPos(rect.left, rect.top, rect) == Some((0.0, 0.0))
    ensures GetPos(rect.left + rect.width, rect.top + rect.height, rect) == Some((CanvasSize as real, CanvasSize as real))
    ensures GetPos(rect.left + px * rect.width / CanvasSize as real, rect.top + py * rect.height / CanvasSize as real, rect) == Some((px, py))
    ensures rect.left <= x <= rect.left + rect.width && rect.top <= y <= rect.top + rect.height ==>
      var p := GetPos(x, y, rect).value; 0.0 <= p.0 <= CanvasSize as real && 0.0 <= p.1 <= CanvasSize as real
  {
    AxisScales(rect.left, rect.width, x, px);
    AxisScales(rect.top, rect.height, y, py);
    var sx := rect.left + px * rect.width / CanvasSize as real;
    var sy := rect.top + py * rect.height / CanvasSize as real;
    assert Axis(sx, rect.left, rect.width) == px;
    assert Axis(sy, rect.top, rect.height) == py;
    assert GetPos(sx, sy, rect) == Some((px, py));
  }

  /** The component's bitmap, its refs and its context's drawing state. */
  class Canvas {
    const pixels: array<Pixel>
    /** The `tool` prop. */
    const tool: Tool
    /** `history.current`: the snapshots taken at each `pointerdown`. */
    var history: seq<seq<Pixel>>
    /** `isDrawingRef.current` */
    var drawing: bool
    var op: CompositeOp
    var style: StrokeStyle
    var lineWidth: nat

    /** Every snapshot has the size of the bitmap. */
    predicate Valid()
      reads this
    {
      pixels.Length == PixelCount && forall k :: 0 <= k < |history| ==> |history[k]| == PixelCount
    }

    /** A fresh canvas: blank, no history, not drawing, the context's
        defaults. */
    constructor(tool: Tool)
      ensures Valid() && this.tool == tool
      ensures pixels[..] == seq(PixelCount, _ => Blank) && history == []
      ensures !drawing && op == SourceOver && style == Black && lineWidth == 1
    {
      this.tool := tool;
      pixels := new Pixel[PixelCount](_ => Blank);
      history := [];
      drawing := false;
      op := SourceOver;
      style := Black;
      lineWidth := 1;
    }

    /** `ctx.clearRect(0, 0, width, height)` */
    method ClearRect()
      requires Valid()
      modifies pixels
      ensures Valid()
      ensures pixels[..] == seq(PixelCount, _ => Blank)
    {
      var i := 0;
      while i < pixels.Length
        invariant 0 <= i <= pixels.Length
        invariant forall k :: 0 <= k < i ==> pixels[k] == Blank
      {
        pixels[i] := Blank;
        i := i + 1;
      }
    }

    /** `ctx.putImageData(snapshot, 0, 0)` */
    method PutImageData(snapshot: seq<Pixel>)
      requires Valid() && |snapshot| == PixelCount
      modifies pixels
      ensures Valid()
      ensures pixels[..] == snapshot
    {
      var i := 0;
      while i < pixels.Length
        invariant 0 <= i <= pixels.Length
        invariant forall k :: 0 <= k < i ==> pixels[k] == snapshot[k]
      {
        pixels[i] := snapshot[i];
        i := i + 1;
      }
    }

    /** `handlePointerDown`: one snapshot of the bitmap is pushed, the
        stroke settings follow the tool and a stroke begins. The bitmap is
        not changed. */
    method PointerDown()
      requires Valid()
      modifies this
      ensures Valid()
      ensures history == old(history) + [pixels[..]] && pixels[..] == old(pixels[..])
      ensures drawing && lineWidth == LineWidth(tool) && style == StyleOf(tool) && op == OpOf(tool)
    {
      history := history + [pixels[..]];
      style := StyleOf(tool);
      lineWidth := LineWidth(tool);
      op := OpOf(tool);
      drawing := true;
    }

    /** `handlePointerMove`: outside a stroke nothing happens; inside one,
        the segment to the pointer is stroked over the pixels it covers. */
    method PointerMove(covered: set<nat>)
      requires Valid()
      modifies pixels
      ensures Valid()
      ensures !drawing ==> pixels[..] == old(pixels[..])
      ensures drawing ==> pixels[..] == Painted(old(pixels[..]), covered, op, style)
    {
      if !drawing {
        return;
      }
      ghost var before := pixels[..];
      var i := 0;
      while i < pixels.Length
        invariant 0 <= i <= pixels.Length
        invariant forall k :: 0 <= k < i ==> pixels[k] == (if k in covered then Blend(op, style, before[k]) else before[k])
        invariant forall k :: i <= k < pixels.Length ==> pixels[k] == before[k]
      {
        if i in covered {
          pixels[i] := Blend(op, style, pixels[i]);
        }
        i := i + 1;
      }
    }

    /** `endDrawing`: the stroke ends and the operation is back to
        `source-over`, whatever the state. */
    method EndDrawing()
      requires Valid()
      modifies this
      ensures Valid()
      ensures !drawing && op == SourceOver
      ensures history == old(history) && style == old(style) && lineWidth == old(lineWidth)
    {
      drawing := false;
      op := SourceOver;
    }

    /** `undo`: the newest snapshot is popped and put back; with no
        snapshot the bitmap is cleared. */
    method Undo()
      requires Valid()
      modifies this, pixels
      ensures Valid()
      ensures old(history) == [] ==> history == [] && pixels[..] == seq(PixelCount, _ => Blank)
      ensures old(history) != [] ==>
        history == old(history)[..|old(history)| - 1] && pixels[..] == old(history)[|old(history)| - 1]
      ensures drawing == old(drawing) && op == old(op) && style == old(style) && lineWidth == old(lineWidth)
    {
      if history == [] {
        ClearRect();
        return;
      }
      var snapshot := history[|history| - 1];
      history := history[..|history| - 1];
      PutImageData(snapshot);
    }

    /** `clear`: a blank bitmap and no history. */
    method Clear()
      requires Valid()
      modifies this, pixels
      ensures Valid()
      ensures pixels[..] == seq(PixelCount, _ => Blank) && history == []
      ensures drawing == old(drawing) && op == old(op) && style == old(style) && lineWidth == old(lineWidth)
    {
      ClearRect();
      history := [];
    }

    /** A whole stroke followed by `undo` puts back the bitmap and the
        history as they were before the stroke, whatever the stroke
        covered. */
    method StrokeThenUndo(segments: seq<set<nat>>)
      requires Valid()
      modifies this, pixels
      ensures Valid()
      ensures pixels[..] == old(pixels[..]) && history == old(history)
      ensures !drawing && op == SourceOver
    {
      PointerDown();
      ghost var saved := history;
      var i := 0;
      while i < |segments|
        invariant 0 <= i <= |segments|
        invariant Valid() && history == saved && drawing
      {
        PointerMove(segments[i]);
        i := i + 1;
      }
      EndDrawing();
      Undo();
    }
  }
}
