/** The drifting box field of the boxes sketch (001/script.js): `init` creates
    300 boxes at random positions, rotations and scales; every frame `render`
    spins each box and moves it towards the camera, sending a box that passes
    the camera's depth back to the far side. Each `Math.random()` result is an
    input in [0, 1). */
module BoxField {
  import opened JsMath

  const BoxCount: nat := 300
  const BoxScale: real := 4.0     // spread factor of the positions
  const BoxScaleMin: real := 0.5
  const BoxScaleMax: real := 1.0
  const OneTurn: real := 2.0 * Pi
  const CameraZ: real := 5.0      // depth of the camera: where boxes wrap
  const SpinStep: real := 0.03    // per-frame rotation about x and y
  const DriftStep: real := 0.01   // per-frame advance along z

  datatype Vec3 = Vec3(x: real, y: real, z: real)

  /** The seven `Math.random()` results one box consumes, in call order. */
  datatype Draws = Draws(px: real, py: real, pz: real, rx: real, ry: real, rz: real, s: real)

  predicate Unit(r: real) {
    0.0 <= r < 1.0
  }

  predicate ValidDraws(d: Draws) {
    Unit(d.px) && Unit(d.py) && Unit(d.pz) && Unit(d.rx) && Unit(d.ry) && Unit(d.rz) && Unit(d.s)
  }

  /** What `init` and `render` write of a box: position, rotation, scale. */
  datatype Pose = Pose(position: Vec3, rotation: Vec3, scale: Vec3)

  /** A position coordinate, `(r * 3 - 1.5) * BOX_SCALE`. */
  function Spread(r: real): (c: real)
    requires Unit(r)
    ensures -6.0 <= c < 6.0
  {
    (r * 3.0 - 1.5) * BoxScale
  }

  /** A rotation angle, `r * ONE_TURN`. */
  function Turn(r: real): (a: real)
    requires Unit(r)
    ensures 0.0 <= a < OneTurn
  {
    r * OneTurn
  }

  /** The scale drawn in [0.5, 1.0), rounded to an integer while `isInit`
      is set; since 0.5 <= draw < 1.0 rounds to 1, every initial box has
      scale exactly 1. */
  function BoxScaleOf(r: real, isInit: bool): (s: real)
    requires Unit(r)
    ensures isInit ==> s == 1.0
    ensures !isInit ==> BoxScaleMin <= s < BoxScaleMax
  {
    var boxScale := r * (BoxScaleMax - BoxScaleMin) + BoxScaleMin;
    if isInit then Round(boxScale) as real else boxScale
  }

  /** The pose `init` gives a box from its seven draws. */
  function InitialPose(d: Draws, isInit: bool): (b: Pose)
    requires ValidDraws(d)
    ensures -6.0 <= b.position.x < 6.0 && -6.0 <= b.position.y < 6.0 && -6.0 <= b.position.z < 6.0
    ensures 0.0 <= b.rotation.x < OneTurn && 0.0 <= b.rotation.y < OneTurn && 0.0 <= b.rotation.z < OneTurn
    ensures b.scale.x == b.scale.y == b.scale.z
    ensures isInit ==> b.scale == Vec3(1.0, 1.0, 1.0)
  {
    var s := BoxScaleOf(d.s, isInit);
    Pose(Vec3(Spread(d.px), Spread(d.py), Spread(d.pz)),
         Vec3(Turn(d.rx), Turn(d.ry), Turn(d.rz)),
         Vec3(s, s, s))
  }

  /** One frame of one box: spin about x and y, advance along z, and wrap a
      box that has passed the camera's depth to the far side. */
  function Advance(b: Pose): (c: Pose)
    ensures c.position.z <= CameraZ
    ensures b.position.z + DriftStep <= CameraZ ==> c.position.z == b.position.z + DriftStep
    ensures b.position.z + DriftStep > CameraZ ==> c.position.z == -CameraZ
    ensures c.rotation == Vec3(b.rotation.x + SpinStep, b.rotation.y + SpinStep, b.rotation.z)
    ensures c.position.x == b.position.x && c.position.y == b.position.y && c.scale == b.scale
  {
    var z := b.position.z + DriftStep;
    Pose(b.position.(z := if z > CameraZ then -CameraZ else z),
         b.rotation.(x := b.rotation.x + SpinStep, y := b.rotation.y + SpinStep),
         b.scale)
  }

  /** `n` frames of one box. */
  function Frames(b: Pose, n: nat): (f: Pose) {
    if n == 0 then b else Advance(Frames(b, n - 1))
  }

  /** Over any number of frames a box spins by `n` steps about x and y, keeps
      its x, y, z-rotation and scale, and its depth stays in [-6, 6); from the
      first frame on it is never beyond the camera's depth. */
  lemma {:induction false} FramesKeepBoxInField(b: Pose, n: nat)
    requires -6.0 <= b.position.z < 6.0
    ensures Frames(b, n).rotation == Vec3(b.rotation.x + n as real * SpinStep, b.rotation.y + n as real * SpinStep, b.rotation.z)
    ensures Frames(b, n).position.x == b.position.x && Frames(b, n).position.y == b.position.y
    ensures Frames(b, n).scale == b.scale
    ensures -6.0 <= Frames(b, n).position.z < 6.0
    ensures n > 0 ==> Frames(b, n).position.z <= CameraZ
  {
    if n > 0 {
      FramesKeepBoxInField(b, n - 1);
    }
  }

  /** A box as the scene graph holds it: three fields written in place. */
  class Mesh {
    var position: Vec3
    var rotation: Vec3
    var scale: Vec3

    function Snapshot(): (p: Pose)
      reads this
    {
      Pose(position, rotation, scale)
    }

    /** A fresh mesh at the origin, unrotated, at unit scale. */
    constructor ()
      ensures Snapshot() == Pose(Vec3(0.0, 0.0, 0.0), Vec3(0.0, 0.0, 0.0), Vec3(1.0, 1.0, 1.0))
    {
      position := Vec3(0.0, 0.0, 0.0);
      rotation := Vec3(0.0, 0.0, 0.0);
      scale := Vec3(1.0, 1.0, 1.0);
    }
  }

  /** The application object, reduced to its list of boxes. */
  class App {
    var boxes: seq<Mesh>

    /** No mesh appears twice in the list. */
    ghost predicate Valid()
      reads this
    {
      forall i, j :: 0 <= i < j < |boxes| ==> boxes[i] != boxes[j]
    }

    constructor ()
      ensures Valid() && boxes == []
    {
      boxes := [];
    }

    /** Appends `BOX_COUNT` new boxes, the `k`-th posed from `draws[k]`. */
    method Init(draws: seq<Draws>)
      requires Valid()
      requires |draws| == BoxCount
      requires forall k :: 0 <= k < |draws| ==> ValidDraws(draws[k])
      modifies this
      ensures Valid()
      ensures |boxes| == |old(boxes)| + BoxCount
      ensures boxes[..|old(boxes)|] == old(boxes)
      ensures forall j :: |old(boxes)| <= j < |boxes| ==>
        fresh(boxes[j]) && boxes[j].Snapshot() == InitialPose(draws[j - |old(boxes)|], true)
    {
      var isInit := true;
      ghost var start := |boxes|;
      var i := 0;
      while i < BoxCount
        invariant 0 <= i <= BoxCount
        invariant |boxes| == start + i
        invariant boxes[..start] == old(boxes)
        invariant Valid()
        invariant forall j :: start <= j < |boxes| ==>
          fresh(boxes[j]) && boxes[j].Snapshot() == InitialPose(draws[j - start], isInit)
      {
        var d := draws[i];
        var mesh := new Mesh();

        mesh.position := Vec3(Spread(d.px), Spread(d.py), Spread(d.pz));
        mesh.rotation := Vec3(Turn(d.rx), Turn(d.ry), Turn(d.rz));

        var boxScale := d.s * (BoxScaleMax - BoxScaleMin) + BoxScaleMin;
        boxScale := if isInit then Round(boxScale) as real else boxScale;
        mesh.scale := Vec3(boxScale, boxScale, boxScale);

        boxes := boxes + [mesh];
        i := i + 1;
      }
    }

    /** One frame: every box advances by one step, in place. */
    method Render()
      requires Valid()
      modifies boxes
      ensures forall j :: 0 <= j < |boxes| ==> boxes[j].Snapshot() == Advance(old(boxes[j].Snapshot()))
      ensures forall j :: 0 <= j < |boxes| ==> boxes[j].position.z <= CameraZ
    {
      var i := 0;
      while i < |boxes|
        invariant 0 <= i <= |boxes|
        invariant forall j :: 0 <= j < i ==> boxes[j].Snapshot() == Advance(old(boxes[j].Snapshot()))
        invariant forall j :: i <= j < |boxes| ==> boxes[j].Snapshot() == old(boxes[j].Snapshot())
      {
        var box := boxes[i];
        box.rotation := box.rotation.(x := box.rotation.x + SpinStep);
        box.rotation := box.rotation.(y := box.rotation.y + SpinStep);

        box.position := box.position.(z := box.position.z + DriftStep);
        if box.position.z > CameraZ {
          box.position := box.position.(z := -CameraZ);
        }
        i := i + 1;
      }
    }
  }
}
