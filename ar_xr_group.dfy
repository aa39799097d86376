/** The WebXR viewer's picture group (app/components/ARClient.tsx): the
    layered meshes, the pose update that turns and shifts the group by the
    user's controls, `place()` and the per-layer tilt parallax. */
module ArXrGroup {
  import opened Common
  import opened ArMath
  import opened ArVisualCenter

  // ---------------------------------------------------------------------------
  // Vectors and quaternions, as three.js computes them

  datatype Vec3 = Vec3(x: real, y: real, z: real)

  function Add(a: Vec3, b: Vec3): Vec3 { Vec3(a.x + b.x, a.y + b.y, a.z + b.z) }

  function Scale(a: Vec3, k: real): Vec3 { Vec3(a.x * k, a.y * k, a.z * k) }

  function Cross(a: Vec3, b: Vec3): Vec3
  {
    Vec3(a.y * b.z - a.z * b.y, a.z * b.x - a.x * b.z, a.x * b.y - a.y * b.x)
  }

  datatype Quat = Quat(w: real, x: real, y: real, z: real)

  const Identity := Quat(1.0, 0.0, 0.0, 0.0)

  /** The Hamilton product `a·b` (`Quaternion.multiply`): turn by b, then
      by a. */
  function Mul(a: Quat, b: Quat): Quat
  {
    Quat(a.w * b.w - a.x * b.x - a.y * b.y - a.z * b.z,
         a.w * b.x + a.x * b.w + a.y * b.z - a.z * b.y,
         a.w * b.y - a.x * b.z + a.y * b.w + a.z * b.x,
         a.w * b.z + a.x * b.y - a.y * b.x + a.z * b.w)
  }

  /** `Vector3.applyQuaternion`: with u the vector part of q,
      t = 2 (u × v) and v' = v + w t + u × t. */
  function Rotate(v: Vec3, q: Quat): Vec3
  {
    var u := Vec3(q.x, q.y, q.z);
    var t := Scale(Cross(u, v), 2.0);
    Add(Add(v, Scale(t, q.w)), Cross(u, t))
  }

  /** The group's own x axis (`right`) and y axis (`up`) in the world. */
  function Right(q: Quat): Vec3 { Rotate(Vec3(1.0, 0.0, 0.0), q) }

  function Up(q: Quat): Vec3 { Rotate(Vec3(0.0, 1.0, 0.0), q) }

  /** The right axis of orientation q: the first column of q's rotation
      matrix. */
  lemma RightColumn(q: Quat)
    ensures Right(q) == Vec3(1.0 - 2.0 * (q.y * q.y + q.z * q.z), 2.0 * (q.x * q.y + q.w * q.z), 2.0 * (q.x * q.z - q.w * q.y))
  {
    var u := Vec3(q.x, q.y, q.z);
    var t := Scale(Cross(u, Vec3(1.0, 0.0, 0.0)), 2.0);
    assert t == Vec3(0.0, 2.0 * q.z, -2.0 * q.y);
    assert Cross(u, t) == Vec3(-2.0 * (q.y * q.y + q.z * q.z), 2.0 * q.x * q.y, 2.0 * q.x * q.z);
  }

  /** The up axis of orientation q: the second column of q's rotation
      matrix. */
  lemma UpColumn(q: Quat)
    ensures Up(q) == Vec3(2.0 * (q.x * q.y - q.w * q.z), 1.0 - 2.0 * (q.x * q.x + q.z * q.z), 2.0 * (q.y * q.z + q.w * q.x))
  {
    var u := Vec3(q.x, q.y, q.z);
    var t := Scale(Cross(u, Vec3(0.0, 1.0, 0.0)), 2.0);
    assert t == Vec3(-2.0 * q.z, 0.0, 2.0 * q.x);
    assert Cross(u, t) == Vec3(2.0 * q.x * q.y, -2.0 * (q.x * q.x + q.z * q.z), 2.0 * q.y * q.z);
  }

  /** Unturned, the group's right and up axes are the world's x and y
      axes; a half turn about the vertical axis reverses right and keeps
      up. */
  lemma AxesOfTurns()
    ensures Right(Identity) == Vec3(1.0, 0.0, 0.0) && Up(Identity) == Vec3(0.0, 1.0, 0.0)
    ensures Right(Quat(0.0, 0.0, 1.0, 0.0)) == Vec3(-1.0, 0.0, 0.0) && Up(Quat(0.0, 0.0, 1.0, 0.0)) == Vec3(0.0, 1.0, 0.0)
  {
    RightColumn(Identity);
    UpColumn(Identity);
    RightColumn(Quat(0.0, 0.0, 1.0, 0.0));
    UpColumn(Quat(0.0, 0.0, 1.0, 0.0));
  }

  // ---------------------------------------------------------------------------
  // The pose update

  /** The transform of the group and what `userData` keeps for it: the
      orientation captured on the first frame and the placed position. */
  datatype Pose = Pose(quaternion: Quat, position: Vec3, scale: real,
                       snapshot: Option<Quat>, anchorPos: Option<Vec3>)

  /** `updateGroup`: the scale follows the controls; the first frame only
      keeps the orientation as the snapshot; later frames set the
      orientation to the snapshot turned by the user's rotation about the
      group's own vertical axis (`turn` is that turn, the quaternion of
      `rotateY(controls.rotation)`), and put the group at the placed
      position moved by the user's offsets along its own right and up
      axes. */
  function UpdatedPose(p: Pose, c: Controls, turn: Quat): (r: Pose)
    ensures r.scale == c.scale && r.snapshot.Some? && r.anchorPos == p.anchorPos
    ensures p.snapshot.None? ==> r == p.(scale := c.scale, snapshot := Some(p.quaternion))
    ensures p.snapshot.Some? ==> r.snapshot == p.snapshot && r.quaternion == Mul(p.snapshot.value, turn)
    ensures p.snapshot.Some? && p.anchorPos.None? ==> r.position == p.position
    ensures p.snapshot.Some? && p.anchorPos.Some? ==>
      r.position == Add(Add(p.anchorPos.value, Scale(Right(r.quaternion), c.offsetX)), Scale(Up(r.quaternion), c.offsetY))
    ensures p.snapshot.Some? && p.anchorPos.Some? && c.offsetX == 0.0 && c.offsetY == 0.0 ==>
      r.position == p.anchorPos.value
  {
    var scaled := p.(scale := c.scale);
    match p.snapshot
    case None => scaled.(snapshot := Some(p.quaternion))
    case Some(initial) =>
      var q := Mul(initial, turn);
      var position := match p.anchorPos
        case None => p.position
        case Some(anchor) => Add(Add(anchor, Scale(Right(q), c.offsetX)), Scale(Up(q), c.offsetY));
      scaled.(quaternion := q, position := position)
  }

  /** The update is absolute, not cumulative: once the snapshot exists,
      running it again with the same controls changes nothing. */
  lemma UpdateIdempotent(p: Pose, c: Controls, turn: Quat)
    requires p.snapshot.Some?
    ensures var once := UpdatedPose(p, c, turn); UpdatedPose(once, c, turn) == once
  {
  }

  /** The pose after a run of frames, each with the controls and turn of
      that frame. */
  function Run(p: Pose, frames: seq<(Controls, Quat)>): Pose
    decreases |frames|
  {
    if frames == [] then p else Run(UpdatedPose(p, frames[0].0, frames[0].1), frames[1..])
  }

  /** The group never spins: after any run of frames the pose depends only
      on the last frame's controls, the snapshot and the placed position. */
  lemma {:induction false} RunKeepsOnlyLastFrame(p: Pose, frames: seq<(Controls, Quat)>)
    requires p.snapshot.Some? && frames != []
    ensures Run(p, frames) == UpdatedPose(p, frames[|frames| - 1].0, frames[|frames| - 1].1)
    decreases |frames|
  {
    if |frames| > 1 {
      var next := UpdatedPose(p, frames[0].0, frames[0].1);
      RunKeepsOnlyLastFrame(next, frames[1..]);
      assert frames[1..][|frames[1..]| - 1] == frames[|frames| - 1];
      var last := frames[|frames| - 1];
      assert UpdatedPose(next, last.0, last.1) == UpdatedPose(p, last.0, last.1);
    }
  }

  /** `place()`: the group moves 1.2 m along the camera's horizontal view
      direction `dir`, takes the orientation `facing` (turned to face the
      camera) and remembers the new position; the snapshot is kept. */
  function Placed(p: Pose, cameraPos: Vec3, dir: Vec3, facing: Quat): (r: Pose)
    ensures r.anchorPos == Some(r.position) && r.quaternion == facing
    ensures r.position == Add(cameraPos, Scale(dir, 1.2))
    ensures r.snapshot == p.snapshot && r.scale == p.scale
  {
    var position := Add(cameraPos, Scale(dir, 1.2));
    p.(position := position, quaternion := facing, anchorPos := Some(position))
  }

  /** Placing before the first frame (as the start of a session does)
      keeps the new facing: the snapshot taken on the next frame is that
      facing. */
  lemma PlaceBeforeFirstFrame(p: Pose, cameraPos: Vec3, dir: Vec3, facing: Quat, c: Controls, turn: Quat)
    requires p.snapshot.None?
    ensures var first := UpdatedPose(Placed(p, cameraPos, dir, facing), c, turn);
      UpdatedPose(first, c, turn).quaternion == Mul(facing, turn)
  {
  }

  /** Placing again later (the place button) moves the group, but the new
      facing is lost: the next frame's orientation is the one the original
      snapshot gives, whatever `facing` was. */
  lemma PlaceLaterLosesFacing(p: Pose, cameraPos: Vec3, dir: Vec3, facing: Quat, c: Controls, turn: Quat)
    requires p.snapshot.Some?
    ensures var next := UpdatedPose(Placed(p, cameraPos, dir, facing), c, turn);
      && next.quaternion == Mul(p.snapshot.value, turn)
      && next.quaternion == UpdatedPose(p, c, turn).quaternion
      && next.anchorPos == Some(Add(cameraPos, Scale(dir, 1.2)))
  {
  }

  // ---------------------------------------------------------------------------
  // Layer meshes and parallax

  /** A child mesh: its position, and from `userData` its parallax index
      (0 when it has none: the outline) and its resting depth. */
  datatype Mesh = Mesh(x: real, y: real, z: real, parallaxIndex: nat, baseZ: real)

  /** The meshes `createLayers` makes for `count` masks, after the scene
      setup shifted every mesh so the visual centre sits at the group's
      origin: the outline first, behind the layers, then layer i at depth
      0.02·i with parallax index i + 1. */
  function Layers(count: nat, centre: Point, aspect: real): (r: seq<Mesh>)
    ensures |r| == count + 1
    ensures r[0].parallaxIndex == 0 && r[0].z == -0.01
    ensures forall i :: 1 <= i < |r| ==> r[i].parallaxIndex == i && r[i].baseZ == r[i].z
  {
    var shiftX := -(centre.x - 0.5) * aspect;
    var shiftY := -(0.5 - centre.y);
    [Mesh(shiftX, shiftY, -0.01, 0, 0.0)]
      + seq(count, i requires 0 <= i => Mesh(shiftX, shiftY, i as real * 0.02, i + 1, i as real * 0.02))
  }

  /** The position `applyParallax` gives one child for a device tilt of
      (gamma, beta): layers shift by their index, a child without an index
      is left alone. */
  function Parallaxed(m: Mesh, gamma: real, beta: real): (r: Mesh)
    ensures m.parallaxIndex == 0 ==> r == m
    ensures r.parallaxIndex == m.parallaxIndex && r.baseZ == m.baseZ
    ensures m.parallaxIndex != 0 ==> r.z == m.baseZ
  {
    if m.parallaxIndex == 0 then m
    else
      var d := m.parallaxIndex as real;
      var ox := Clamp(gamma / 45.0, -1.0, 1.0) * 0.015;
      var oy := Clamp(beta / 45.0, -1.0, 1.0) * 0.015;
      m.(x := ox * d, y := oy * d, z := m.baseZ)
  }

  /** A layer with parallax index d moves at most 0.015·d either way. */
  lemma ParallaxBounded(m: Mesh, gamma: real, beta: real)
    requires m.parallaxIndex != 0
    ensures var r := Parallaxed(m, gamma, beta); var bound := 0.015 * m.parallaxIndex as real;
      -bound <= r.x <= bound && -bound <= r.y <= bound
  {
    var d := m.parallaxIndex as real;
    var ox := Clamp(gamma / 45.0, -1.0, 1.0) * 0.015;
    var oy := Clamp(beta / 45.0, -1.0, 1.0) * 0.015;
    ScaledBounded(ox, d);
    ScaledBounded(oy, d);
  }

  lemma ScaledBounded(o: real, d: real)
    requires -0.015 <= o <= 0.015 && d >= 0.0
    ensures -0.015 * d <= o * d <= 0.015 * d
  {
    MulLeReal(o, 0.015, d);
    MulLeReal(-0.015, o, d);
  }

  /** The parallax replaces a layer's offset rather than adding to it: the
      visual-centre shift the scene setup gave every layer is gone after the
      first parallax update, and the flat device leaves layers at the
      group's origin. */
  lemma ParallaxDropsCentreShift(count: nat, centre: Point, aspect: real, gamma: real, beta: real)
    ensures var before := Layers(count, centre, aspect);
      forall i :: 1 <= i < |before| ==>
        Parallaxed(before[i], gamma, beta) == Parallaxed(Layers(count, Middle, aspect)[i], gamma, beta)
    ensures forall i :: 1 <= i < count + 1 ==>
      var m := Parallaxed(Layers(count, centre, aspect)[i], 0.0, 0.0);
      m.x == 0.0 && m.y == 0.0
  {
  }

  // ---------------------------------------------------------------------------
  // The group

  class Group {
    var quaternion: Quat
    var position: Vec3
    var scale: real
    var snapshot: Option<Quat>
    var anchorPos: Option<Vec3>
    var children: seq<Mesh>

    function CurrentPose(): Pose
      reads this
    {
      Pose(quaternion, position, scale, snapshot, anchorPos)
    }

    /** The group the scene setup builds: the layers, placed 1.5 m in front
        of the origin, with that position remembered as the anchor. */
    constructor(count: nat, centre: Point, aspect: real)
      ensures CurrentPose() == Pose(Identity, Vec3(0.0, 0.0, -1.5), 1.0, None, Some(Vec3(0.0, 0.0, -1.5)))
      ensures children == Layers(count, centre, aspect)
    {
      quaternion := Identity;
      position := Vec3(0.0, 0.0, -1.5);
      scale := 1.0;
      snapshot := None;
      anchorPos := Some(position);
      children := Layers(count, centre, aspect);
    }

    /** `updateGroup`, once per animation frame. */
    method UpdateGroup(c: Controls, turn: Quat)
      modifies this
      ensures CurrentPose() == UpdatedPose(old(CurrentPose()), c, turn)
      ensures children == old(children)
    {
      scale := c.scale;
      if snapshot.None? {
        snapshot := Some(quaternion);
        return;
      }
      quaternion := Mul(snapshot.value, turn);
      if anchorPos.Some? {
        position := anchorPos.value;
        var right := Rotate(Vec3(1.0, 0.0, 0.0), quaternion);
        var up := Rotate(Vec3(0.0, 1.0, 0.0), quaternion);
        position := Add(position, Scale(right, c.offsetX));
        position := Add(position, Scale(up, c.offsetY));
      }
    }

    /** `place()`. */
    method Place(cameraPos: Vec3, dir: Vec3, facing: Quat)
      modifies this
      ensures CurrentPose() == Placed(old(CurrentPose()), cameraPos, dir, facing)
      ensures children == old(children)
    {
      position := Add(cameraPos, Scale(dir, 1.2));
      quaternion := facing;
      anchorPos := Some(position);
    }

    /** `applyParallax`, for the device tilt (gamma, beta), visiting the
        children in order. */
    method ApplyParallax(gamma: real, beta: real)
      modifies this
      ensures |children| == |old(children)|
      ensures forall i :: 0 <= i < |children| ==> children[i] == Parallaxed(old(children)[i], gamma, beta)
      ensures CurrentPose() == old(CurrentPose())
    {
      var offsetX := Clamp(gamma / 45.0, -1.0, 1.0) * 0.015;
      var offsetY := Clamp(beta / 45.0, -1.0, 1.0) * 0.015;
      var k := 0;
      while k < |children|
        invariant 0 <= k <= |children| == |old(children)|
        invariant forall i :: 0 <= i < k ==> children[i] == Parallaxed(old(children)[i], gamma, beta)
        invariant forall i :: k <= i < |children| ==> children[i] == old(children)[i]
        invariant CurrentPose() == old(CurrentPose())
      {
        var mesh := children[k];
        if mesh.parallaxIndex != 0 {
          var depth := mesh.parallaxIndex as real;
          mesh := mesh.(x := offsetX * depth, y := offsetY * depth, z := mesh.baseZ);
        }
        children := children[k := mesh];
        k := k + 1;
      }
    }
  }
}
