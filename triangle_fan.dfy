/** The hand-written triangle fan of the shader sketch (005-2/script/script.js):
    `setupGeometry` fills the flat position and color arrays one triangle at a
    time, the draw call draws `position.length / positionStride` vertices, and
    the `isRender` flag decides whether a frame schedules the next one.
    `Math.cos` and `Math.sin` are parameters: the model says nothing about
    their values, only about where they are placed. */
module TriangleFan {
  import opened JsMath

  datatype Option<T> = None | Some(value: T)

  // Components per vertex of the two attributes (XYZ and RGBA).
  const PositionStride: nat := 3
  const ColorStride: nat := 4

  // The fan: `Num` triangles of radius `Radius`, the first edge at 90 degrees.
  const OffsetTheta: real := Pi * 0.5
  const Radius: real := 0.5
  const Num: nat := 5

  /** The color literal appended once per triangle: nine RGBA groups (the
      three vertex colors three times over, the last alpha 0.6), although each
      triangle adds only three vertices. */
  const ColorLiteral: seq<real> := [
    1.2, 1.8, 0.4, 1.0,  0.0, 1.2, 0.2, 1.0,  0.4, 0.8, 1.0, 0.5,
    1.2, 1.8, 0.4, 1.0,  0.0, 1.2, 0.2, 1.0,  0.4, 0.8, 1.0, 0.5,
    1.2, 1.8, 0.4, 1.0,  0.0, 1.2, 0.2, 1.0,  0.4, 0.8, 1.0, 0.6
  ]

  /** The angle of the first rim vertex of triangle `i`
      (`360 / num` degrees per triangle, turned into radians): the rim
      vertices are spaced evenly, `num` of them to a full turn. */
  function Theta(i: nat): (r: real)
    ensures r == OffsetTheta + i as real * (2.0 * Pi / Num as real)
  {
    OffsetTheta + (360.0 / Num as real) / 180.0 * Pi * i as real
  }

  /** The angle of its second rim vertex, computed by the source as a
      separate expression; it is the first angle of the next triangle. */
  function NextTheta(i: nat): (r: real)
    ensures r == Theta(i + 1)
  {
    OffsetTheta + (360.0 / Num as real) / 180.0 * Pi * (i + 1) as real
  }

  /** A rim vertex at angle `t`, in the plane z = 0. */
  function RimVertex(cos: real -> real, sin: real -> real, t: real): (v: seq<real>)
    ensures |v| == PositionStride && v[2] == 0.0
  {
    [cos(t) * Radius, sin(t) * Radius, 0.0]
  }

  /** The nine numbers pushed for triangle `i`: the origin and two rim vertices. */
  function Triangle(cos: real -> real, sin: real -> real, i: nat): (t: seq<real>)
    ensures |t| == 3 * PositionStride
  {
    [0.0, 0.0, 0.0] + RimVertex(cos, sin, Theta(i)) + RimVertex(cos, sin, NextTheta(i))
  }

  /** The `position` array after the first `k` triangles are pushed. */
  function FanPositions(cos: real -> real, sin: real -> real, k: nat): (r: seq<real>)
    ensures |r| == 9 * k
  {
    if k == 0 then [] else FanPositions(cos, sin, k - 1) + Triangle(cos, sin, k - 1)
  }

  /** The `color` array after the first `k` triangles are pushed. */
  function FanColors(k: nat): (r: seq<real>)
    ensures |r| == 36 * k
  {
    if k == 0 then [] else FanColors(k - 1) + ColorLiteral
  }

  /** The nine numbers of triangle `i` inside a position array. */
  function TriangleAt(s: seq<real>, i: nat): (t: seq<real>)
    requires 9 * i + 9 <= |s|
  {
    s[9 * i .. 9 * i + 9]
  }

  /** Triangle `i` starts at the origin. */
  predicate AtOrigin(s: seq<real>, i: nat)
    requires 9 * i + 9 <= |s|
  {
    TriangleAt(s, i)[..3] == [0.0, 0.0, 0.0]
  }

  /** All three vertices of triangle `i` have z = 0. */
  predicate Flat(s: seq<real>, i: nat)
    requires 9 * i + 9 <= |s|
  {
    TriangleAt(s, i)[2] == 0.0 && TriangleAt(s, i)[5] == 0.0 && TriangleAt(s, i)[8] == 0.0
  }

  /** The last vertex of triangle `i` is the middle vertex of triangle `i + 1`. */
  predicate SharesEdge(s: seq<real>, i: nat)
    requires 9 * i + 18 <= |s|
  {
    TriangleAt(s, i)[6..] == TriangleAt(s, i + 1)[3..6]
  }

  /** Triangle `i` of the array is exactly the `i`-th triangle pushed. */
  lemma {:induction false} TriangleOfFan(cos: real -> real, sin: real -> real, k: nat, i: nat)
    requires i < k
    ensures TriangleAt(FanPositions(cos, sin, k), i) == Triangle(cos, sin, i)
    decreases k
  {
    var prefix := FanPositions(cos, sin, k - 1);
    assert FanPositions(cos, sin, k) == prefix + Triangle(cos, sin, k - 1);
    if i < k - 1 {
      TriangleOfFan(cos, sin, k - 1, i);
      assert TriangleAt(FanPositions(cos, sin, k), i) == TriangleAt(prefix, i);
    } else {
      assert 9 * i == |prefix|;
    }
  }

  /** The shape of the fan: every triangle starts at the origin, lies in the
      plane z = 0, and shares its closing vertex with the next triangle. */
  lemma FanShape(cos: real -> real, sin: real -> real, k: nat)
    ensures forall i :: 0 <= i < k ==> AtOrigin(FanPositions(cos, sin, k), i)
    ensures forall i :: 0 <= i < k ==> Flat(FanPositions(cos, sin, k), i)
    ensures forall i :: 0 <= i && i + 1 < k ==> SharesEdge(FanPositions(cos, sin, k), i)
  {
    var r := FanPositions(cos, sin, k);
    forall i | 0 <= i < k
      ensures AtOrigin(r, i) && Flat(r, i)
    {
      TriangleOfFan(cos, sin, k, i);
    }
    forall i | 0 <= i && i + 1 < k
      ensures SharesEdge(r, i)
    {
      TriangleOfFan(cos, sin, k, i);
      TriangleOfFan(cos, sin, k, i + 1);
    }
  }

  /** Block `i` of the color array is the color literal. */
  lemma {:induction false} ColorsOfFan(k: nat, i: nat)
    requires i < k
    ensures FanColors(k)[36 * i .. 36 * i + 36] == ColorLiteral
    decreases k
  {
    var prefix := FanColors(k - 1);
    assert FanColors(k) == prefix + ColorLiteral;
    if i < k - 1 {
      ColorsOfFan(k - 1, i);
      assert FanColors(k)[36 * i .. 36 * i + 36] == prefix[36 * i .. 36 * i + 36];
    }
  }

  /** The vertex count `drawArrays` receives: `position.length / positionStride`.
      A stride that is still `null` (or zero) gives no finite count. */
  function DrawCount(length: nat, stride: Option<nat>): (r: Option<real>)
    ensures r.Some? <==> stride.Some? && stride.value > 0
    ensures r.Some? ==> r.value * stride.value as real == length as real
  {
    match stride
    case None => None
    case Some(s) => if s == 0 then None else Some(length as real / s as real)
  }

  /** After `setupGeometry`: 45 position numbers, 180 color numbers, a draw
      count of 15 vertices (three per triangle), and three times as many RGBA
      groups in the color array as vertices drawn. */
  lemma GeometryCounts(cos: real -> real, sin: real -> real)
    ensures |FanPositions(cos, sin, Num)| == 45 == 9 * Num
    ensures |FanColors(Num)| == 180 == 36 * Num
    ensures DrawCount(|FanPositions(cos, sin, Num)|, Some(PositionStride)) == Some(15.0)
    ensures |FanColors(Num)| / ColorStride == 3 * (|FanPositions(cos, sin, Num)| / PositionStride)
  {
  }

  /** The application object of the sketch, reduced to the geometry arrays,
      their strides, the uploaded buffers and the render flag. */
  class App {
    var position: seq<real>
    var positionStride: Option<nat>
    var positionVbo: Option<seq<real>>
    var color: seq<real>
    var colorStride: Option<nat>
    var colorVbo: Option<seq<real>>
    // `null` from the constructor until `init`; JavaScript subtraction reads
    // `null` as 0.
    var startTime: real
    var isRender: bool

    constructor ()
      ensures position == [] && color == []
      ensures positionStride == None && colorStride == None
      ensures positionVbo == None && colorVbo == None
      ensures startTime == 0.0 && !isRender
    {
      position, color := [], [];
      positionStride, colorStride := None, None;
      positionVbo, colorVbo := None, None;
      startTime, isRender := 0.0, false;
    }

    /** Records the start time. The canvas and the WebGL context it also
        sets up are not part of this model. */
    method Init(now: real)
      modifies this
      ensures startTime == now
      ensures position == old(position) && color == old(color)
      ensures positionStride == old(positionStride) && colorStride == old(colorStride)
      ensures positionVbo == old(positionVbo) && colorVbo == old(colorVbo)
      ensures isRender == old(isRender)
    {
      startTime := now;
    }

    /** Rebuilds both arrays from scratch, one triangle per iteration, and
        uploads them. Because the arrays are cleared first, calling it again
        gives the same arrays rather than longer ones. */
    method SetupGeometry(cos: real -> real, sin: real -> real)
      modifies this
      ensures position == FanPositions(cos, sin, Num) && color == FanColors(Num)
      ensures positionStride == Some(PositionStride) && colorStride == Some(ColorStride)
      ensures positionVbo == Some(position) && colorVbo == Some(color)
      ensures startTime == old(startTime) && isRender == old(isRender)
    {
      position := [];
      positionStride := Some(PositionStride);
      color := [];
      colorStride := Some(ColorStride);

      var i := 0;
      while i < Num
        invariant 0 <= i <= Num
        invariant position == FanPositions(cos, sin, i)
        invariant color == FanColors(i)
        invariant positionStride == Some(PositionStride) && colorStride == Some(ColorStride)
        invariant startTime == old(startTime) && isRender == old(isRender)
      {
        var theta := Theta(i);
        var nextTheta := NextTheta(i);

        var vert1 := [0.0, 0.0, 0.0];
        var vert2 := [cos(theta) * Radius, sin(theta) * Radius, 0.0];
        var vert3 := [cos(nextTheta) * Radius, sin(nextTheta) * Radius, 0.0];
        assert vert1 + vert2 + vert3 == Triangle(cos, sin, i);
        position := position + vert1 + vert2 + vert3;

        color := color + ColorLiteral;
        i := i + 1;
      }

      positionVbo := Some(position);
      colorVbo := Some(color);
    }

    /** One frame: schedules the next frame exactly when `isRender` is set,
        passes the elapsed seconds to the shader and draws
        `position.length / positionStride` vertices. */
    method Render(now: real) returns (requestsFrame: bool, time: real, count: Option<real>)
      ensures requestsFrame <==> isRender
      ensures time == (now - startTime) * 0.001
      ensures count == DrawCount(|position|, positionStride)
    {
      requestsFrame := isRender;
      time := (now - startTime) * 0.001;
      count := DrawCount(|position|, positionStride);
    }

    /** Records the start time (`now`), sets the flag and draws the first
        frame, which reads the clock again (`frameNow`) and schedules the next
        frame. */
    method Start(now: real, frameNow: real) returns (requestsFrame: bool, time: real, count: Option<real>)
      modifies this
      ensures isRender && startTime == now
      ensures requestsFrame && time == (frameNow - now) * 0.001
      ensures count == DrawCount(|position|, positionStride)
      ensures position == old(position) && color == old(color)
      ensures positionStride == old(positionStride) && colorStride == old(colorStride)
      ensures positionVbo == old(positionVbo) && colorVbo == old(colorVbo)
    {
      startTime := now;
      isRender := true;
      requestsFrame, time, count := Render(frameNow);
    }

    /** Clears the flag: the next frame drawn schedules no further frame. */
    method Stop()
      modifies this
      ensures !isRender
      ensures position == old(position) && color == old(color)
      ensures positionStride == old(positionStride) && colorStride == old(colorStride)
      ensures positionVbo == old(positionVbo) && colorVbo == old(colorVbo)
      ensures startTime == old(startTime)
    {
      isRender := false;
    }
  }
}
