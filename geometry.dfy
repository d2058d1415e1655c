/**
 * Mesh data for the engine's shapes:
 * - the circle fan of `generateCircleGeometry` (packages/engine/src/prefabs/circle.prefab.ts);
 * - the smaller fan and the static geometry cache of `CircleComponent`
 *   (packages/engine/src/components/circle.component.ts);
 * - the constant unit quad of packages/engine/src/prefabs/rectangle.prefab.ts.
 *
 * Vertex buffers are `Float32Array`s, modelled as arrays of reals without rounding. Index
 * buffers are `Uint16Array`s, so storing a number there reduces it modulo 2^16; both kinds of
 * typed array start zero-filled.
 */
module Meshes {
  import opened Wrappers
  import opened Numeric
  import opened Colors
  import opened Components

  /** What a `Uint16Array` element holds after a non-negative integer is stored in it. */
  function Uint16(n: nat): (r: nat)
    ensures r < 0x1_0000 && (n < 0x1_0000 ==> r == n)
  {
    n % 0x1_0000
  }

  /** Every index of a triangle list names one of the `vertexCount` vertices. */
  predicate IndexedWithin(indices: seq<int>, vertexCount: int) {
    forall k :: 0 <= k < |indices| ==> 0 <= indices[k] < vertexCount
  }

  /** Stores `values` at `at`, `at + 1`, …: the written prefix grows by exactly those values. */
  method WriteReals(a: array<real>, at: nat, values: seq<real>)
    requires at + |values| <= a.Length
    modifies a
    ensures a[..at + |values|] == old(a[..at]) + values
  {
    var k := 0;
    while k < |values|
      invariant 0 <= k <= |values|
      invariant a[..at + k] == old(a[..at]) + values[..k]
    {
      a[at + k] := values[k];
      assert values[..k + 1] == values[..k] + [values[k]];
      k := k + 1;
    }
  }

  /** `WriteReals` for an index buffer. */
  method WriteInts(a: array<int>, at: nat, values: seq<int>)
    requires at + |values| <= a.Length
    modifies a
    ensures a[..at + |values|] == old(a[..at]) + values
  {
    var k := 0;
    while k < |values|
      invariant 0 <= k <= |values|
      invariant a[..at + k] == old(a[..at]) + values[..k]
    {
      a[at + k] := values[k];
      assert values[..k + 1] == values[..k] + [values[k]];
      k := k + 1;
    }
  }

  // ---------------------------------------------------------------------------------
  // `generateCircleGeometry(segments)`: x, y, u, v per vertex.

  /** The centre vertex: position (0, 0), texture coordinate (0.5, 0.5). */
  const Centre: seq<real> := [0.0, 0.0, 0.5, 0.5]

  /** The angle of rim vertex `i`, `(i / segments) * Math.PI * 2`. */
  function FanAngle(i: nat, segments: nat): real
    requires segments > 0
  {
    (i as real / segments as real) * Pi * 2.0
  }

  /** Rim vertex `i`: the point on the unit circle and its texture coordinate. */
  function RimVertex(i: nat, segments: nat, fns: MathFns): seq<real>
    requires segments > 0
  {
    var x := fns.cos(FanAngle(i, segments));
    var y := fns.sin(FanAngle(i, segments));
    [x, y, (x + 1.0) / 2.0, (y + 1.0) / 2.0]
  }

  /** The centre vertex followed by rim vertices 0 .. n - 1. */
  function FanVertices(n: nat, segments: nat, fns: MathFns): (v: seq<real>)
    requires segments > 0
    ensures |v| == (n + 1) * 4
  {
    if n == 0 then Centre else FanVertices(n - 1, segments, fns) + RimVertex(n - 1, segments, fns)
  }

  /** Triangles 0 .. n - 1 of a fan around vertex 0, triangle `i` being (0, i + 1, i + 2). */
  function FanIndices(n: nat): (s: seq<int>)
    ensures |s| == n * 3
  {
    if n == 0 then [] else FanIndices(n - 1) + [0, Uint16(n), Uint16(n + 1)]
  }

  /** The vertex list starts with the centre, and rim vertex `j` sits at offset (j + 1) * 4. */
  lemma {:induction false} FanVertexAt(n: nat, segments: nat, fns: MathFns, j: nat)
    requires segments > 0 && j < n
    ensures FanVertices(n, segments, fns)[..4] == Centre
    ensures FanVertices(n, segments, fns)[(j + 1) * 4 .. (j + 2) * 4] == RimVertex(j, segments, fns)
  {
    var prev := FanVertices(n - 1, segments, fns);
    assert FanVertices(n, segments, fns) == prev + RimVertex(n - 1, segments, fns);
    if j < n - 1 {
      FanVertexAt(n - 1, segments, fns, j);
      assert FanVertices(n, segments, fns)[(j + 1) * 4 .. (j + 2) * 4] == prev[(j + 1) * 4 .. (j + 2) * 4];
    } else {
      assert |prev| == (j + 1) * 4;
    }
    if n - 1 == 0 {
      assert prev == Centre;
    }
    else {
      FanVertexAt(n - 1, segments, fns, 0);
    }
  }

  /** The rim texture coordinates are the positions mapped from [-1, 1] onto [0, 1]. */
  lemma RimUv(i: nat, segments: nat, fns: MathFns)
    requires segments > 0
    ensures RimVertex(i, segments, fns)[2] == (RimVertex(i, segments, fns)[0] + 1.0) / 2.0
    ensures RimVertex(i, segments, fns)[3] == (RimVertex(i, segments, fns)[1] + 1.0) / 2.0
  {
  }

  /** Triangle `j` of the fan is (0, j + 1, j + 2), each stored as a 16-bit index. */
  lemma {:induction false} FanTriangle(n: nat, j: nat)
    requires j < n
    ensures FanIndices(n)[j * 3 .. j * 3 + 3] == [0, Uint16(j + 1), Uint16(j + 2)]
  {
    var prev := FanIndices(n - 1);
    if j < n - 1 {
      FanTriangle(n - 1, j);
      assert FanIndices(n)[j * 3 .. j * 3 + 3] == prev[j * 3 .. j * 3 + 3];
    } else {
      assert |prev| == j * 3;
    }
  }

  /** Every index of an n-triangle fan names one of its n + 2 vertices. */
  lemma {:induction false} FanIndicesWithin(n: nat)
    ensures IndexedWithin(FanIndices(n), n + 2)
  {
    if n > 0 {
      FanIndicesWithin(n - 1);
      var s := FanIndices(n);
      forall k | 0 <= k < |s|
        ensures 0 <= s[k] < n + 2
      {
        if k < (n - 1) * 3 {
          assert s[k] == FanIndices(n - 1)[k];
        }
      }
    }
  }

  /** One step of the vertex loop: rim vertex `i` lands at offset (i + 1) * 4. */
  method WriteRimVertex(vertexData: array<real>, i: nat, segments: nat, fns: MathFns)
    requires segments > 0 && (i + 2) * 4 <= vertexData.Length
    requires vertexData[..(i + 1) * 4] == FanVertices(i, segments, fns)
    modifies vertexData
    ensures vertexData[..(i + 2) * 4] == FanVertices(i + 1, segments, fns)
  {
    var angle := FanAngle(i, segments);
    var x := fns.cos(angle);
    var y := fns.sin(angle);
    var index := (i + 1) * 4;
    WriteReals(vertexData, index, [x, y, (x + 1.0) / 2.0, (y + 1.0) / 2.0]);
  }

  /** One step of the index loop: triangle `i` lands at offset i * 3. */
  method WriteTriangle(indexData: array<int>, i: nat)
    requires (i + 1) * 3 <= indexData.Length && indexData[..i * 3] == FanIndices(i)
    modifies indexData
    ensures indexData[..(i + 1) * 3] == FanIndices(i + 1)
  {
    WriteInts(indexData, i * 3, [0, Uint16(i + 1), Uint16(i + 2)]);
  }

  /** Fills the vertex and index buffers of a `segments`-triangle fan in one pass. */
  method GenerateCircleGeometry(segments: nat, fns: MathFns) returns (vertexData: array<real>, indexData: array<int>)
    requires segments > 0
    ensures vertexData[..] == FanVertices(segments + 1, segments, fns)
    ensures indexData[..] == FanIndices(segments)
  {
    vertexData := new real[(segments + 2) * 4];
    indexData := new int[segments * 3];
    vertexData[0] := 0.0;
    vertexData[1] := 0.0;
    vertexData[2] := 0.5;
    vertexData[3] := 0.5;
    assert vertexData[..4] == Centre;
    var i := 0;
    while i <= segments
      invariant 0 <= i <= segments + 1
      invariant vertexData.Length == (segments + 2) * 4 && indexData.Length == segments * 3
      invariant vertexData[..(i + 1) * 4] == FanVertices(i, segments, fns)
      invariant i <= segments ==> indexData[..i * 3] == FanIndices(i)
      invariant i == segments + 1 ==> indexData[..] == FanIndices(segments)
    {
      WriteRimVertex(vertexData, i, segments, fns);
      if i < segments {
        WriteTriangle(indexData, i);
      } else {
        assert indexData[..] == indexData[..i * 3];
      }
      i := i + 1;
    }
    assert vertexData[..] == vertexData[..(segments + 2) * 4];
  }

  // ---------------------------------------------------------------------------------
  // `CircleComponent`: x, y per vertex, and geometry shared by every instance.

  /** The key meshes of circles are stored under, `CircleComponent.geometryId`. */
  const CircleGeometryId: string := "circle"

  /** The segment count `createCircleGeometry` uses when called without an argument. */
  const DefaultSegments: nat := 24

  /** Point `i` of the rim, at angle `i * angleStep`. */
  function RimPoint(i: nat, angleStep: real, fns: MathFns): seq<real> {
    [fns.cos(i as real * angleStep), fns.sin(i as real * angleStep)]
  }

  /** The centre (0, 0) followed by rim points 0 .. n - 1. */
  function RimPoints(n: nat, angleStep: real, fns: MathFns): (v: seq<real>)
    ensures |v| == (n + 1) * 2
  {
    if n == 0 then [0.0, 0.0] else RimPoints(n - 1, angleStep, fns) + RimPoint(n - 1, angleStep, fns)
  }

  /** The point list starts with the centre, and rim point `j` sits at offset (j + 1) * 2. */
  lemma {:induction false} RimPointAt(n: nat, angleStep: real, fns: MathFns, j: nat)
    requires j < n
    ensures RimPoints(n, angleStep, fns)[..2] == [0.0, 0.0]
    ensures RimPoints(n, angleStep, fns)[(j + 1) * 2 .. (j + 2) * 2] == RimPoint(j, angleStep, fns)
  {
    var prev := RimPoints(n - 1, angleStep, fns);
    if j < n - 1 {
      RimPointAt(n - 1, angleStep, fns, j);
      assert RimPoints(n, angleStep, fns)[(j + 1) * 2 .. (j + 2) * 2] == prev[(j + 1) * 2 .. (j + 2) * 2];
    } else {
      assert |prev| == (j + 1) * 2;
    }
    if n - 1 > 0 {
      RimPointAt(n - 1, angleStep, fns, 0);
    }
  }

  /** `createCircleGeometry(numSegments)`: one loop for the points, a second for the triangles. */
  method CreateCircleGeometry(numSegments: nat, fns: MathFns) returns (vertexData: array<real>, indexData: array<int>)
    requires numSegments > 0
    ensures vertexData[..] == RimPoints(numSegments + 1, (Pi * 2.0) / numSegments as real, fns)
    ensures indexData[..] == FanIndices(numSegments)
  {
    var angleStep := (Pi * 2.0) / numSegments as real;
    vertexData := new real[(numSegments + 2) * 2];
    indexData := new int[numSegments * 3];
    vertexData[0] := 0.0;
    vertexData[1] := 0.0;
    assert vertexData[..2] == [0.0, 0.0];
    RimLoop(vertexData, numSegments, angleStep, fns);
    TriangleLoop(indexData, numSegments);
  }

  /** One step of the point loop: rim point `i` lands at offset (i + 1) * 2. */
  method WriteRimPoint(vertexData: array<real>, i: nat, angleStep: real, fns: MathFns)
    requires (i + 2) * 2 <= vertexData.Length && vertexData[..(i + 1) * 2] == RimPoints(i, angleStep, fns)
    modifies vertexData
    ensures vertexData[..(i + 2) * 2] == RimPoints(i + 1, angleStep, fns)
  {
    var angle := i as real * angleStep;
    var x := fns.cos(angle);
    var y := fns.sin(angle);
    WriteReals(vertexData, (i + 1) * 2, [x, y]);
  }

  /** The first loop of `createCircleGeometry`: rim points 0 .. numSegments after the centre. */
  method RimLoop(vertexData: array<real>, numSegments: nat, angleStep: real, fns: MathFns)
    requires vertexData.Length == (numSegments + 2) * 2 && vertexData[..2] == [0.0, 0.0]
    modifies vertexData
    ensures vertexData[..] == RimPoints(numSegments + 1, angleStep, fns)
  {
    var i := 0;
    while i <= numSegments
      invariant 0 <= i <= numSegments + 1
      invariant vertexData[..(i + 1) * 2] == RimPoints(i, angleStep, fns)
    {
      WriteRimPoint(vertexData, i, angleStep, fns);
      i := i + 1;
    }
    assert vertexData[..] == vertexData[..(numSegments + 2) * 2];
  }

  /** The second loop of `createCircleGeometry`: triangles 0 .. numSegments - 1. */
  method TriangleLoop(indexData: array<int>, numSegments: nat)
    requires indexData.Length == numSegments * 3
    modifies indexData
    ensures indexData[..] == FanIndices(numSegments)
  {
    var i := 0;
    while i < numSegments
      invariant 0 <= i <= numSegments
      invariant indexData[..i * 3] == FanIndices(i)
    {
      WriteTriangle(indexData, i);
      i := i + 1;
    }
    assert indexData[..] == indexData[..numSegments * 3];
  }

  /** The static fields `CircleComponent.vertexData` and `indexData`: unset until first built. */
  class CircleStatics {
    var vertexData: Option<array<real>>
    var indexData: Option<array<int>>

    constructor ()
      ensures vertexData == None && indexData == None
    {
      vertexData, indexData := None, None;
    }
  }

  /**
   * `new CircleComponent(radius, color)`: stores both arguments, and builds the shared
   * 24-segment geometry only when none is stored yet (any stored array is truthy).
   */
  method NewCircleComponent(radius: real, color: Color, statics: CircleStatics, fns: MathFns) returns (c: Circle)
    modifies statics
    ensures c == Circle(radius, color)
    ensures old(statics.vertexData).Some? ==>
              statics.vertexData == old(statics.vertexData) && statics.indexData == old(statics.indexData)
    ensures old(statics.vertexData).None? ==>
              && statics.vertexData.Some? && statics.indexData.Some?
              && statics.vertexData.value[..] == RimPoints(DefaultSegments + 1, (Pi * 2.0) / DefaultSegments as real, fns)
              && statics.indexData.value[..] == FanIndices(DefaultSegments)
  {
    if statics.vertexData.None? {
      var vertexData, indexData := CreateCircleGeometry(DefaultSegments, fns);
      statics.vertexData := Some(vertexData);
      statics.indexData := Some(indexData);
    }
    c := Circle(radius, color);
  }

  /**
   * Two constructions on an empty cache: each component keeps its own arguments, and the cache
   * ends holding the default 24-segment fan (which `NewCircleComponent` keeps on the second).
   */
  method ConstructTwice(statics: CircleStatics, fns: MathFns) returns (first: Circle, second: Circle)
    requires statics.vertexData.None?
    modifies statics
    ensures first == Circle(1.0, Color()) && second == Circle(2.0, Color())
    ensures statics.vertexData.Some? && statics.indexData.Some?
    ensures statics.vertexData.value[..] == RimPoints(DefaultSegments + 1, (Pi * 2.0) / DefaultSegments as real, fns)
    ensures statics.indexData.value[..] == FanIndices(DefaultSegments)
  {
    first := NewCircleComponent(1.0, Color(), statics, fns);
    second := NewCircleComponent(2.0, Color(), statics, fns);
  }

  // ---------------------------------------------------------------------------------
  // The rectangle prefab's shared unit quad.

  /** Four corners of the unit square centred on the origin, x and y per vertex. */
  const QuadVertices: seq<real> := [-0.5, -0.5, 0.5, -0.5, 0.5, 0.5, -0.5, 0.5]

  /** Two triangles, (0, 1, 2) and (2, 3, 0). */
  const QuadIndices: seq<int> := [0, 1, 2, 2, 3, 0]

  /** The quad has four vertices and both its triangles use only them. */
  lemma QuadIndicesWithin()
    ensures |QuadVertices| == 4 * 2 && |QuadIndices| == 2 * 3
    ensures IndexedWithin(QuadIndices, |QuadVertices| / 2)
  {
  }
}
