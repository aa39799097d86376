/** The camera fallback viewer of app/components/ARClient.tsx: the picture
    drawn over the camera feed on a 2D canvas, steered by the device's
    orientation or placed by a tap, and captured on request. */
module ArFallbackViewer {
  import opened Common
  import opened ArMath
  import opened ArVisualCenter

  // ---------------------------------------------------------------------------
  // Orientation

  /** `e.alpha || 0`: an angle the event does not report reads as 0. */
  function AngleOrZero(a: Option<real>): (r: real)
    ensures a.Some? ==> r == a.value
    ensures a.None? ==> r == 0.0
  {
    if a.Some? then a.value else 0.0
  }

  /** The share of the way to a new sample the filter moves per event. */
  const Smoothing := 0.15

  /** The gyroscope state: the smoothed compass heading `alpha` and tilts
      `beta`, `gamma`, whether the device reported any orientation, and the
      heading that counts as straight ahead. */
  datatype Gyro = Gyro(alpha: real, beta: real, gamma: real, active: bool, alphaOffset: real)

  const InitialGyro := Gyro(0.0, 0.0, 0.0, false, 0.0)

  /** A heading in [0, 360). */
  predicate IsHeading(a: real) { 0.0 <= a < 360.0 }

  /** The signed turn from heading a to heading b the shorter way round. */
  function Turn(a: real, b: real): real
  {
    WrapDegrees(b - a)
  }

  /** The smoothed heading: 15% of the turn towards the sample, taken the
      shorter way round and brought back into [0, 360). */
  function SmoothHeading(current: real, sample: real): (r: real)
    ensures IsHeading(current) && 0.0 <= sample <= 360.0 ==> IsHeading(r)
  {
    var h := current + WrapDegrees(sample - current) * Smoothing;
    var h1 := if h >= 360.0 then h - 360.0 else h;
    if h1 < 0.0 then h1 + 360.0 else h1
  }

  /** After a sample the remaining turn towards it is 85% of what it was:
      the smoothed heading approaches the sample along the shorter arc. */
  lemma SmoothHeadingConverges(current: real, sample: real)
    requires IsHeading(current) && IsHeading(sample)
    ensures IsHeading(SmoothHeading(current, sample))
    ensures Turn(SmoothHeading(current, sample), sample) == 0.85 * Turn(current, sample)
  {
    var d := Turn(current, sample);
    var r := SmoothHeading(current, sample);
    assert -180.0 <= d <= 180.0;
    assert r == current + 0.15 * d || r == current + 0.15 * d - 360.0 || r == current + 0.15 * d + 360.0;
  }

  /** The tilt filter: 15% of the way from the current value to the
      sample. */
  function LowPass(current: real, sample: real): (r: real)
    ensures sample - r == 0.85 * (sample - current)
    ensures current <= sample ==> current <= r <= sample
    ensures sample <= current ==> sample <= r <= current
  {
    current + (sample - current) * Smoothing
  }

  /** `handleOrientation` of the orientation listener: the first event with
      a non-zero angle activates the gyroscope and takes its heading as
      straight ahead; every event smooths the heading and the tilts. */
  function Oriented(g: Gyro, alpha: real, beta: real, gamma: real): (r: Gyro)
    ensures r.active <==> g.active || alpha != 0.0 || beta != 0.0 || gamma != 0.0
    ensures r.alphaOffset == if !g.active && r.active then alpha else g.alphaOffset
    ensures IsHeading(g.alpha) && IsHeading(alpha) ==>
      IsHeading(r.alpha) && Turn(r.alpha, alpha) == 0.85 * Turn(g.alpha, alpha)
    ensures beta - r.beta == 0.85 * (beta - g.beta)
    ensures gamma - r.gamma == 0.85 * (gamma - g.gamma)
  {
    var activate := !g.active && (alpha != 0.0 || beta != 0.0 || gamma != 0.0);
    assert IsHeading(g.alpha) && IsHeading(alpha) ==> Turn(SmoothHeading(g.alpha, alpha), alpha) == 0.85 * Turn(g.alpha, alpha) by {
      if IsHeading(g.alpha) && IsHeading(alpha) {
        SmoothHeadingConverges(g.alpha, alpha);
      }
    }
    Gyro(SmoothHeading(g.alpha, alpha), LowPass(g.beta, beta), LowPass(g.gamma, gamma),
         g.active || activate, if activate then alpha else g.alphaOffset)
  }

  /** The body of `handleOrientation` on the gyroscope state: activation,
      then the heading smoothed along the shorter arc and wrapped into
      [0, 360), then the tilts smoothed. */
  method SmoothGyro(g0: Gyro, a: real, b: real, c: real) returns (r: Gyro)
    ensures r == Oriented(g0, a, b, c)
  {
    var g := g0;
    if !g.active && (a != 0.0 || b != 0.0 || c != 0.0) {
      g := g.(active := true, alphaOffset := a);
    }
    var dAlpha := a - g.alpha;
    if dAlpha > 180.0 { dAlpha := dAlpha - 360.0; }
    if dAlpha < -180.0 { dAlpha := dAlpha + 360.0; }
    assert dAlpha == WrapDegrees(a - g.alpha);
    var h := g.alpha + dAlpha * Smoothing;
    if h >= 360.0 { h := h - 360.0; }
    if h < 0.0 { h := h + 360.0; }
    assert h == SmoothHeading(g.alpha, a);
    r := g.(alpha := h, beta := g.beta + (b - g.beta) * Smoothing,
            gamma := g.gamma + (c - g.gamma) * Smoothing);
  }

  /** The listener attached after iOS grants permission: the first event
      activates the gyroscope whatever its angles, and the angles are taken
      as reported, unsmoothed. */
  function PermittedOriented(g: Gyro, alpha: real, beta: real, gamma: real): (r: Gyro)
    ensures r.active
    ensures r.alphaOffset == if g.active then g.alphaOffset else alpha
    ensures r.alpha == alpha && r.beta == beta && r.gamma == gamma
  {
    Gyro(alpha, beta, gamma, true, if g.active then g.alphaOffset else alpha)
  }

  /** Once active, a gyroscope stays active under either listener, and the
      heading taken as straight ahead changes only by a re-centre. */
  lemma {:induction false} ActiveStaysPut(g: Gyro, events: seq<(real, real, real)>, permitted: bool)
    requires g.active
    ensures Replay(g, events, permitted).active
    ensures Replay(g, events, permitted).alphaOffset == g.alphaOffset
    decreases |events|
  {
    if events != [] {
      var e := events[0];
      var next := if permitted then PermittedOriented(g, e.0, e.1, e.2) else Oriented(g, e.0, e.1, e.2);
      ActiveStaysPut(next, events[1..], permitted);
    }
  }

  /** The gyroscope after a run of events from one listener. */
  function Replay(g: Gyro, events: seq<(real, real, real)>, permitted: bool): Gyro
    decreases |events|
  {
    if events == [] then g
    else
      var e := events[0];
      Replay(if permitted then PermittedOriented(g, e.0, e.1, e.2) else Oriented(g, e.0, e.1, e.2),
             events[1..], permitted)
  }

  /** While the orientation listener sees only headings in [0, 360), the
      smoothed heading stays in [0, 360). */
  lemma {:induction false} ReplayKeepsHeading(g: Gyro, events: seq<(real, real, real)>)
    requires IsHeading(g.alpha)
    requires forall k :: 0 <= k < |events| ==> IsHeading(events[k].0)
    ensures IsHeading(Replay(g, events, false).alpha)
    decreases |events|
  {
    if events != [] {
      var e := events[0];
      var next := Oriented(g, e.0, e.1, e.2);
      assert IsHeading(next.alpha);
      assert forall k :: 0 <= k < |events[1..]| ==> IsHeading(events[1..][k].0) by {
        forall k | 0 <= k < |events[1..]| ensures IsHeading(events[1..][k].0) {
          assert events[1..][k] == events[k + 1];
        }
      }
      ReplayKeepsHeading(next, events[1..]);
    }
  }

  // ---------------------------------------------------------------------------
  // Tapping

  /** Where a tap at (clientX, clientY) on a canvas whose bounding box starts
      at (left, top) puts the anchor: the tap as a fraction of the box, kept
      within [0.1, 0.9] across and [0.3, 0.95] down. */
  function TapAnchor(clientX: real, clientY: real, left: real, top: real, boxW: real, boxH: real): (r: (real, real))
    requires boxW > 0.0 && boxH > 0.0
    ensures 0.1 <= r.0 <= 0.9 && 0.3 <= r.1 <= 0.95
    ensures 0.1 <= (clientX - left) / boxW <= 0.9 ==> r.0 == (clientX - left) / boxW
    ensures 0.3 <= (clientY - top) / boxH <= 0.95 ==> r.1 == (clientY - top) / boxH
    ensures clientX - left < 0.1 * boxW ==> r.0 == 0.1
    ensures clientX - left > 0.9 * boxW ==> r.0 == 0.9
  {
    QuotientBounds(clientX - left, boxW, 0.1, 0.9);
    (Clamp((clientX - left) / boxW, 0.1, 0.9), Clamp((clientY - top) / boxH, 0.3, 0.95))
  }

  // ---------------------------------------------------------------------------
  // Frame sampling

  /** What the draw loop knows about the camera: whether a frame has been
      copied, the video time of the last copy and the size of the frame
      canvas (a new canvas is 300×150). */
  datatype FrameStore = FrameStore(hasFrame: bool, lastVideoTime: real, width: nat, height: nat)

  const InitialFrameStore := FrameStore(false, -1.0, 300, 150)

  /** The video element as a render sees it. */
  datatype Video = Video(readyState: int, width: nat, height: nat, currentTime: real)

  /** The video has current data and a size. */
  predicate Playable(v: Video)
  {
    v.readyState >= 2 && v.width > 0 && v.height > 0
  }

  /** One render's frame sampling: when sampling is due, a frame context
      exists and the video is playable, the frame canvas takes the video's
      size and a frame is copied if the video time moved or the size
      changed. */
  function SampleFrame(s: FrameStore, shouldSample: bool, hasFrameContext: bool, v: Video): (r: FrameStore)
    ensures !(shouldSample && hasFrameContext && Playable(v)) ==> r == s
    ensures shouldSample && hasFrameContext && Playable(v) ==> r.width == v.width && r.height == v.height
    ensures r.hasFrame <==> (s.hasFrame || (shouldSample && hasFrameContext && Playable(v)
      && (v.currentTime != s.lastVideoTime || v.width != s.width || v.height != s.height)))
    ensures r.lastVideoTime != s.lastVideoTime ==> r.lastVideoTime == v.currentTime
  {
    if shouldSample && hasFrameContext && Playable(v) then
      var needsResize := s.width != v.width || s.height != v.height;
      if v.currentTime != s.lastVideoTime || needsResize then
        FrameStore(true, v.currentTime, v.width, v.height)
      else FrameStore(s.hasFrame, s.lastVideoTime, v.width, v.height)
    else s
  }

  /** Sampling a video that has not moved on a second time copies nothing. */
  lemma SampleFrameIdempotent(s: FrameStore, shouldSample: bool, hasFrameContext: bool, v: Video)
    ensures var once := SampleFrame(s, shouldSample, hasFrameContext, v);
      SampleFrame(once, shouldSample, hasFrameContext, v) == once
  {
    var once := SampleFrame(s, shouldSample, hasFrameContext, v);
    if shouldSample && hasFrameContext && Playable(v) && !s.hasFrame && v.currentTime == s.lastVideoTime
       && v.width == s.width && v.height == s.height {
      assert once == s;
    }
  }

  // ---------------------------------------------------------------------------
  // Composing a frame

  /** What happens to the camera picture: drawn to cover the canvas, or, for
      a capture with a transparent background, the canvas cleared. */
  datatype CameraLayer = CoverLayer(draw: CoverDraw) | Cleared

  /** The result of one render. */
  datatype Frame =
    | Skipped                    // stopped, or no canvas size yet
    | Black                      // no camera frame yet: the canvas filled black
    | Composed(camera: CameraLayer, sprite: Placement, tilt: Tilt,
               shifts: seq<(real, real)>, captured: bool)

  /** The parallax shift of layer `index`, deeper layers moving further. */
  function LayerShift(t: Tilt, index: nat): (r: (real, real))
  {
    (t.parallaxX * LayerDepth(index), t.parallaxY * LayerDepth(index))
  }

  function LayerShifts(t: Tilt, count: nat): (r: seq<(real, real)>)
    ensures |r| == count
    ensures forall k :: 0 <= k < count ==> r[k] == LayerShift(t, k)
  {
    seq(count, k requires 0 <= k => LayerShift(t, k))
  }

  /** A deeper layer shifts at least as far as a shallower one, in the
      direction of the tilt. */
  lemma DeeperShiftsFurther(t: Tilt, i: nat, j: nat)
    requires i <= j
    ensures AbsReal(LayerShift(t, i).0) <= AbsReal(LayerShift(t, j).0)
    ensures AbsReal(LayerShift(t, i).1) <= AbsReal(LayerShift(t, j).1)
  {
    var di, dj := LayerDepth(i), LayerDepth(j);
    assert di <= dj;
    ScaledAbs(t.parallaxX, di, dj);
    ScaledAbs(t.parallaxY, di, dj);
  }

  lemma ScaledAbs(p: real, a: real, b: real)
    requires 0.0 <= a <= b
    ensures AbsReal(p * a) <= AbsReal(p * b)
  {
    if p >= 0.0 {
      MulLeReal(a, b, p);
      assert p * a >= 0.0;
    } else {
      MulLeReal(a, b, -p);
      assert p * a == -(a * -p) && p * b == -(b * -p);
    }
  }

  /** The camera layer of a frame. */
  function CameraFor(store: FrameStore, transparent: bool, captureRequest: bool, width: nat, height: nat): (r: CameraLayer)
    requires width > 0 && height > 0
    ensures r.Cleared? <==> transparent && captureRequest
  {
    if !transparent || !captureRequest then
      CoverLayer(CoverCrop(store.width as real, store.height as real, width as real, height as real))
    else Cleared
  }

  /** The picture composed once a frame exists: the sprite placed at the
      steered or tapped anchor, the tilt effects, one shift per layer, and a
      capture when one was requested. */
  function Compose(g: Gyro, anchorX: real, anchorY: real, captureRequest: bool, store: FrameStore,
                   transparent: bool, width: nat, height: nat, imgW: real, imgH: real,
                   c: Controls, centre: Point, layerCount: nat): (r: Frame)
    requires width > 0 && height > 0 && imgW > 0.0 && imgH > 0.0
    ensures !store.hasFrame ==> r == Black
    ensures store.hasFrame ==> (r.Composed? && r.captured == captureRequest && |r.shifts| == layerCount
      && (r.camera.Cleared? <==> transparent && captureRequest))
  {
    if !store.hasFrame then Black
    else
      var tilt := TiltEffects(g.beta, g.gamma);
      var tx := TargetX(anchorX, g.active, g.alpha, g.alphaOffset);
      Composed(CameraFor(store, transparent, captureRequest, width, height),
               Place(width as real, height as real, imgW, imgH, c, tx, anchorY, centre.x, centre.y),
               tilt, LayerShifts(tilt, layerCount), captureRequest)
  }

  /** With the gyroscope active and the device facing the re-centred
      heading, the sprite stands at the middle of the canvas plus the user's
      offset; otherwise at the tapped anchor plus the offset. */
  lemma ComposeAnchors(g: Gyro, anchorX: real, anchorY: real, captureRequest: bool, store: FrameStore,
                       transparent: bool, width: nat, height: nat, imgW: real, imgH: real,
                       c: Controls, centre: Point, layerCount: nat)
    requires width > 0 && height > 0 && imgW > 0.0 && imgH > 0.0 && store.hasFrame
    ensures var r := Compose(g, anchorX, anchorY, captureRequest, store, transparent, width, height,
                             imgW, imgH, c, centre, layerCount);
      && (g.active && g.alpha == g.alphaOffset ==> r.sprite.anchorX == (0.5 + c.offsetX) * width as real)
      && (!g.active ==> r.sprite.anchorX == (anchorX + c.offsetX) * width as real)
      && r.sprite.anchorY == (anchorY + c.offsetY) * height as real
      && r.sprite.y + r.sprite.h == r.sprite.anchorY
  {
    var tx := TargetX(anchorX, g.active, g.alpha, g.alphaOffset);
    PlaceAnchored(width as real, height as real, imgW, imgH, c, tx, anchorY, centre.x, centre.y);
  }

  // ---------------------------------------------------------------------------
  // The viewer

  class FallbackViewer {
    var gyro: Gyro
    var anchorX: real
    var anchorY: real
    var captureRequest: bool
    /** The draw effect has not been torn down. */
    var running: bool
    var frames: FrameStore

    /** The heading the filter keeps is a heading. */
    predicate Valid()
      reads this
    {
      IsHeading(gyro.alpha)
    }

    constructor()
      ensures Valid()
      ensures gyro == InitialGyro && anchorX == 0.5 && anchorY == 0.68
      ensures !captureRequest && running && frames == InitialFrameStore
    {
      gyro := InitialGyro;
      anchorX, anchorY := 0.5, 0.68;
      captureRequest := false;
      running := true;
      frames := InitialFrameStore;
    }

    /** A `deviceorientation` event reaching the default listener. */
    method HandleOrientation(alpha: Option<real>, beta: Option<real>, gamma: Option<real>)
      modifies this
      ensures gyro == Oriented(old(gyro), AngleOrZero(alpha), AngleOrZero(beta), AngleOrZero(gamma))
      ensures old(Valid()) && IsHeading(AngleOrZero(alpha)) ==> Valid()
      ensures anchorX == old(anchorX) && anchorY == old(anchorY)
      ensures captureRequest == old(captureRequest) && running == old(running) && frames == old(frames)
    {
      gyro := SmoothGyro(gyro, AngleOrZero(alpha), AngleOrZero(beta), AngleOrZero(gamma));
    }

    /** A `deviceorientation` event reaching the listener attached after
        the permission was granted. */
    method HandlePermittedOrientation(alpha: Option<real>, beta: Option<real>, gamma: Option<real>)
      modifies this
      ensures gyro == PermittedOriented(old(gyro), AngleOrZero(alpha), AngleOrZero(beta), AngleOrZero(gamma))
      ensures IsHeading(AngleOrZero(alpha)) ==> Valid()
      ensures anchorX == old(anchorX) && anchorY == old(anchorY)
      ensures captureRequest == old(captureRequest) && running == old(running) && frames == old(frames)
    {
      var a := AngleOrZero(alpha);
      if !gyro.active {
        gyro := gyro.(active := true, alphaOffset := a);
      }
      gyro := gyro.(alpha := a, beta := AngleOrZero(beta), gamma := AngleOrZero(gamma));
    }

    /** A tap on the canvas: with the gyroscope active it re-centres, taking
        the current heading as straight ahead; otherwise it moves the
        anchor to the tap. */
    method HandlePlace(clientX: real, clientY: real, left: real, top: real, boxW: real, boxH: real)
      requires boxW > 0.0 && boxH > 0.0
      modifies this
      ensures old(gyro.active) ==> (gyro == old(gyro).(alphaOffset := old(gyro.alpha))
        && anchorX == old(anchorX) && anchorY == old(anchorY)
        && TargetX(anchorX, gyro.active, gyro.alpha, gyro.alphaOffset) == 0.5)
      ensures !old(gyro.active) ==> (gyro == old(gyro)
        && (anchorX, anchorY) == TapAnchor(clientX, clientY, left, top, boxW, boxH))
      ensures old(Valid()) ==> Valid()
      ensures captureRequest == old(captureRequest) && running == old(running) && frames == old(frames)
    {
      if gyro.active {
        gyro := gyro.(alphaOffset := gyro.alpha);
        return;
      }
      var x := (clientX - left) / boxW;
      var y := (clientY - top) / boxH;
      anchorX, anchorY := Clamp(x, 0.1, 0.9), Clamp(y, 0.3, 0.95);
    }

    /** The capture button: a request is raised when the canvas exists. */
    method Capture(hasCanvas: bool)
      modifies this
      ensures captureRequest == (old(captureRequest) || hasCanvas)
      ensures gyro == old(gyro) && anchorX == old(anchorX) && anchorY == old(anchorY)
      ensures running == old(running) && frames == old(frames)
    {
      if !hasCanvas {
        return;
      }
      captureRequest := true;
    }

    /** One render of the draw loop. `freshFrame` says whether a video frame
        callback called it and `hasFrameCallback` whether the browser has
        such callbacks; (width, height) is the canvas size in CSS pixels,
        0×0 until it is first measured. */
    method Render(freshFrame: bool, hasFrameCallback: bool, hasFrameContext: bool, v: Video,
                  width: nat, height: nat, transparent: bool, imgW: real, imgH: real,
                  c: Controls, centre: Point, layerCount: nat)
      returns (f: Frame)
      requires imgW > 0.0 && imgH > 0.0
      modifies this
      ensures !old(running) || width == 0 || height == 0 ==> f == Skipped && frames == old(frames)
      ensures old(running) && width > 0 && height > 0 ==>
        && frames == SampleFrame(old(frames), !hasFrameCallback || freshFrame, hasFrameContext, v)
        && f == Compose(gyro, anchorX, anchorY, old(captureRequest), frames, transparent,
                        width, height, imgW, imgH, c, centre, layerCount)
      ensures f.Composed? ==> !captureRequest
      ensures !f.Composed? ==> captureRequest == old(captureRequest)
      ensures gyro == old(gyro) && anchorX == old(anchorX) && anchorY == old(anchorY)
      ensures running == old(running)
    {
      if !running || width == 0 || height == 0 {
        return Skipped;
      }
      var shouldSample := if hasFrameCallback then freshFrame else true;
      if shouldSample && hasFrameContext && v.readyState >= 2 && v.width > 0 && v.height > 0 {
        var needsResize := frames.width != v.width || frames.height != v.height;
        if needsResize {
          frames := frames.(width := v.width, height := v.height);
        }
        if v.currentTime != frames.lastVideoTime || needsResize {
          frames := frames.(lastVideoTime := v.currentTime, hasFrame := true);
        }
      }
      if !frames.hasFrame {
        return Black;
      }
      var camera := CameraFor(frames, transparent, captureRequest, width, height);
      var tx := TargetX(anchorX, gyro.active, gyro.alpha, gyro.alphaOffset);
      var sprite := Place(width as real, height as real, imgW, imgH, c, tx, anchorY, centre.x, centre.y);
      var tilt := TiltEffects(gyro.beta, gyro.gamma);
      var shifts := LayerShifts(tilt, layerCount);
      var captured := captureRequest;
      if captureRequest {
        captureRequest := false;
      }
      f := Composed(camera, sprite, tilt, shifts, captured);
    }

    /** Tearing the draw effect down stops the loop and forgets the frame. */
    method Stop()
      modifies this
      ensures !running && !frames.hasFrame
      ensures frames == old(frames).(hasFrame := false)
      ensures gyro == old(gyro) && anchorX == old(anchorX) && anchorY == old(anchorY)
      ensures captureRequest == old(captureRequest)
    {
      running := false;
      frames := frames.(hasFrame := false);
    }
  }
}
