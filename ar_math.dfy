/** The pure arithmetic of the AR viewer (app/components/ARClient.tsx):
    clamping, heading wrap-around, the cover-fit crop of the camera frame,
    where the sprite lands on screen and the tilt effects. */
module ArMath {
  import opened Common

  /** The slider values the user controls. */
  datatype Controls = Controls(scale: real, rotation: real, offsetX: real, offsetY: real)

  const DefaultControls := Controls(1.0, 0.0, 0.0, 0.0)

  /** `clamp(value, min, max)`: `Math.min(max, Math.max(min, value))`. */
  function Clamp(value: real, lo: real, hi: real): (r: real)
    ensures lo <= hi ==> lo <= r <= hi
    ensures lo <= value <= hi ==> r == value
    ensures value < lo <= hi ==> r == lo
    ensures hi < value ==> r == hi
    ensures hi < lo ==> r == hi
  {
    MinReal(hi, MaxReal(lo, value))
  }

  /** A difference of two headings brought to the shorter way round:
      subtract 360 above 180, then add 360 below -180. */
  function WrapDegrees(d: real): (r: real)
    ensures -540.0 < d <= 540.0 ==> -180.0 <= r <= 180.0
    ensures r == d || r == d - 360.0 || r == d + 360.0
    ensures -180.0 <= d <= 180.0 ==> r == d
  {
    var d1 := if d > 180.0 then d - 360.0 else d;
    if d1 < -180.0 then d1 + 360.0 else d1
  }

  // ---------------------------------------------------------------------------
  // drawCover

  /** How the camera frame is drawn onto the canvas: the whole frame
      stretched, or the source rectangle (sx, sy, sw, sh) scaled to cover. */
  datatype CoverDraw = Stretch | Crop(sx: real, sy: real, sw: real, sh: real)

  /** The source rectangle `drawCover` picks for a `srcW`×`srcH` frame and a
      `width`×`height` canvas. */
  function CoverCrop(srcW: real, srcH: real, width: real, height: real): (r: CoverDraw)
    requires srcW >= 0.0 && srcH >= 0.0 && width > 0.0 && height > 0.0
    ensures r.Stretch? <==> srcW == 0.0 || srcH == 0.0
  {
    if srcW == 0.0 || srcH == 0.0 then Stretch
    else
      var videoAspect := srcW / srcH;
      var canvasAspect := width / height;
      if videoAspect > canvasAspect then
        var sW := srcH * canvasAspect;
        Crop((srcW - sW) / 2.0, 0.0, sW, srcH)
      else
        var sH := srcW / canvasAspect;
        Crop(0.0, (srcH - sH) / 2.0, srcW, sH)
  }

  /** The crop lies inside the frame, is centred in it, has the canvas's
      aspect ratio and keeps one full side of the frame. */
  lemma CoverCropFits(srcW: real, srcH: real, width: real, height: real)
    requires srcW > 0.0 && srcH > 0.0 && width > 0.0 && height > 0.0
    ensures var r := CoverCrop(srcW, srcH, width, height);
      && r.Crop?
      && 0.0 <= r.sx && r.sx + r.sw <= srcW
      && 0.0 <= r.sy && r.sy + r.sh <= srcH
      && 2.0 * r.sx + r.sw == srcW && 2.0 * r.sy + r.sh == srcH
      && r.sw * height == r.sh * width
      && (r.sw == srcW || r.sh == srcH)
  {
    var canvasAspect := width / height;
    assert canvasAspect > 0.0;
    assert canvasAspect * height == width;
    assert (srcW / srcH) * srcH == srcW;
    if srcW / srcH > canvasAspect {
      MulLessReal(canvasAspect, srcW / srcH, srcH);
    } else {
      var sH := srcW / canvasAspect;
      MulLeReal(srcW / srcH, canvasAspect, srcH);
      DivLeReal(srcW, srcH, canvasAspect);
      assert srcW * height == sH * width by {
        assert sH * canvasAspect == srcW;
        assert sH * canvasAspect * height == sH * width;
      }
    }
  }

  // ---------------------------------------------------------------------------
  // Screen placement of the sprite in the camera view

  /** Horizontal anchor as a fraction of the canvas width: the tapped anchor,
      or, while the gyroscope drives the view, the centre moved against the
      turn since the last re-centre, one canvas width per 60 degrees. */
  function TargetX(anchorX: real, active: bool, alpha: real, alphaOffset: real): (r: real)
    ensures !active ==> r == anchorX
    ensures active && -180.0 <= alpha - alphaOffset <= 180.0 ==> r == 0.5 - (alpha - alphaOffset) / 60.0
    ensures active && -540.0 < alpha - alphaOffset <= 540.0 ==> -2.5 <= r <= 3.5
    ensures active && alpha == alphaOffset ==> r == 0.5
  {
    if active then 0.5 - WrapDegrees(alpha - alphaOffset) / 60.0 else anchorX
  }

  /** Sprites lower on the screen are drawn larger, within [0.8, 1.35]. */
  function DepthScale(anchorY: real, height: real): (r: real)
    requires height > 0.0
    ensures 0.8 <= r <= 1.35
    ensures 0.8 <= 0.8 + anchorY / height * 0.6 <= 1.35 ==> r == 0.8 + anchorY / height * 0.6
  {
    Clamp(0.8 + anchorY / height * 0.6, 0.8, 1.35)
  }

  /** Where the sprite is drawn: its anchor point, size and top-left corner,
      and the pivot it rotates about. */
  datatype Placement = Placement(
    anchorX: real, anchorY: real,
    w: real, h: real,
    x: real, y: real,
    centerX: real, centerY: real)

  /** The sprite of an `imgW`×`imgH` picture drawn at `scale`, standing on
      (anchorX, anchorY) and pivoting about the visual centre. */
  function Sprite(anchorX: real, anchorY: real, imgW: real, imgH: real, scale: real,
                  centreX: real, centreY: real): Placement
  {
    var w := imgW * scale;
    var h := imgH * scale;
    var x := anchorX - w / 2.0;
    var y := anchorY - h;
    Placement(anchorX, anchorY, w, h, x, y,
              x + w / 2.0 + (centreX - 0.5) * w, y + h / 2.0 + (centreY - 0.5) * h)
  }

  /** The scale of the picture: 70% of the fit-inside scale, times the
      user's scale and the depth scale. */
  function SpriteScale(width: real, height: real, imgW: real, imgH: real, c: Controls, anchorY: real): real
    requires width > 0.0 && height > 0.0 && imgW > 0.0 && imgH > 0.0
  {
    MinReal(width / imgW, height / imgH) * 0.7 * c.scale * DepthScale(anchorY, height)
  }

  /** The placement the fallback viewer computes for one frame. */
  function Place(width: real, height: real, imgW: real, imgH: real, c: Controls,
                 targetX: real, anchorYFraction: real, centreX: real, centreY: real): (p: Placement)
    requires width > 0.0 && height > 0.0 && imgW > 0.0 && imgH > 0.0
  {
    var anchorX := targetX * width + c.offsetX * width;
    var anchorY := anchorYFraction * height + c.offsetY * height;
    Sprite(anchorX, anchorY, imgW, imgH, SpriteScale(width, height, imgW, imgH, c, anchorY), centreX, centreY)
  }

  /** A sprite stands on its anchor, centred horizontally, keeps the
      picture's aspect ratio and pivots about the visual centre. */
  lemma SpriteAnchored(anchorX: real, anchorY: real, imgW: real, imgH: real, scale: real,
                       centreX: real, centreY: real)
    ensures var p := Sprite(anchorX, anchorY, imgW, imgH, scale, centreX, centreY);
      && p.x + p.w / 2.0 == anchorX
      && p.y + p.h == anchorY
      && p.w * imgH == p.h * imgW
      && p.centerX == anchorX + (centreX - 0.5) * p.w
      && p.centerY == anchorY - p.h / 2.0 + (centreY - 0.5) * p.h
  {
    SameScale(imgW, imgH, scale);
  }

  lemma SameScale(a: real, b: real, k: real)
    ensures (a * k) * b == (b * k) * a
  {
  }

  /** The anchor is the target plus the user's offset, in canvas pixels, and
      the sprite sits on it as `SpriteAnchored` states. */
  lemma PlaceAnchored(width: real, height: real, imgW: real, imgH: real, c: Controls,
                      targetX: real, anchorYFraction: real, centreX: real, centreY: real)
    requires width > 0.0 && height > 0.0 && imgW > 0.0 && imgH > 0.0
    ensures var p := Place(width, height, imgW, imgH, c, targetX, anchorYFraction, centreX, centreY);
      && p.anchorX == (targetX + c.offsetX) * width
      && p.anchorY == (anchorYFraction + c.offsetY) * height
      && p.x + p.w / 2.0 == p.anchorX
      && p.y + p.h == p.anchorY
  {
    var anchorX := (targetX + c.offsetX) * width;
    var anchorY := (anchorYFraction + c.offsetY) * height;
    PlaceIsSprite(width, height, imgW, imgH, c, targetX, anchorYFraction, centreX, centreY);
    SpriteAnchored(anchorX, anchorY, imgW, imgH, SpriteScale(width, height, imgW, imgH, c, anchorY), centreX, centreY);
  }

  /** `Place` is the sprite on the anchor the target and offset give. */
  lemma PlaceIsSprite(width: real, height: real, imgW: real, imgH: real, c: Controls,
                      targetX: real, anchorYFraction: real, centreX: real, centreY: real)
    requires width > 0.0 && height > 0.0 && imgW > 0.0 && imgH > 0.0
    ensures var anchorY := (anchorYFraction + c.offsetY) * height;
      Place(width, height, imgW, imgH, c, targetX, anchorYFraction, centreX, centreY)
      == Sprite((targetX + c.offsetX) * width, anchorY, imgW, imgH, SpriteScale(width, height, imgW, imgH, c, anchorY), centreX, centreY)
  {
    var x1, x2 := targetX * width + c.offsetX * width, (targetX + c.offsetX) * width;
    var y1, y2 := anchorYFraction * height + c.offsetY * height, (anchorYFraction + c.offsetY) * height;
    FactorOut(targetX, c.offsetX, width);
    FactorOut(anchorYFraction, c.offsetY, height);
    var scale := SpriteScale(width, height, imgW, imgH, c, y1);
    assert scale == SpriteScale(width, height, imgW, imgH, c, y2);
    assert Place(width, height, imgW, imgH, c, targetX, anchorYFraction, centreX, centreY)
        == Sprite(x1, y1, imgW, imgH, scale, centreX, centreY);
  }

  lemma FactorOut(a: real, b: real, k: real)
    ensures a * k + b * k == (a + b) * k
  {
  }

  // ---------------------------------------------------------------------------
  // Tilt effects

  /** Rotation, skew and per-depth parallax shift derived from the device
      tilt (beta front-back, gamma left-right). */
  datatype Tilt = Tilt(rotation: real, skewX: real, skewY: real, parallaxX: real, parallaxY: real)

  function TiltEffects(beta: real, gamma: real): (t: Tilt)
  {
    var tiltX := Clamp(gamma / 45.0, -1.0, 1.0);
    var tiltY := Clamp(beta / 45.0, -1.0, 1.0);
    Tilt(tiltX * 0.08, tiltX * 0.1, tiltY * 0.06, tiltX * 12.0, tiltY * 10.0)
  }

  /** Tilt effects are bounded, and proportional to the tilt within
      ±45 degrees. */
  lemma TiltEffectsBounded(beta: real, gamma: real)
    ensures var t := TiltEffects(beta, gamma);
      && -0.08 <= t.rotation <= 0.08 && -0.1 <= t.skewX <= 0.1 && -0.06 <= t.skewY <= 0.06
      && -12.0 <= t.parallaxX <= 12.0 && -10.0 <= t.parallaxY <= 10.0
      && (-45.0 <= gamma <= 45.0 ==> t.parallaxX * 45.0 == gamma * 12.0)
      && (-45.0 <= beta <= 45.0 ==> t.parallaxY * 45.0 == beta * 10.0)
      && (gamma == 0.0 && beta == 0.0 ==> t == Tilt(0.0, 0.0, 0.0, 0.0, 0.0))
  {
  }

  /** Layer `index` (from 0) is shifted by the parallax times this depth. */
  function LayerDepth(index: nat): (d: real)
    ensures d >= 0.6
  {
    (index + 1) as real * 0.6
  }
}
