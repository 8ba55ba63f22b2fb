/**
 The hand-written unit-cube tables of main.js: 24 vertex positions (four per
 face, faces in the order front, left, top, bottom, right, back), the index
 list of 12 triangles, one normal per vertex, and the 24 endpoints of the 12
 wireframe segments.

 Each Float32Array with item size 3 is modelled as a sequence of triples, so
 entry i of `Positions` is the vertex the renderer reads at offset 3*i.
 */
module CubeGeometry {
  import opened Linear

  /** Half the edge length of the cube. */
  const L: real := 0.5

  const Positions: seq<Vec3> := [
    // front face
    Vec3(-L, -L,  L), Vec3( L, -L,  L), Vec3( L,  L,  L), Vec3(-L,  L,  L),
    // left face
    Vec3(-L, -L, -L), Vec3(-L, -L,  L), Vec3(-L,  L,  L), Vec3(-L,  L, -L),
    // top face
    Vec3(-L,  L,  L), Vec3( L,  L,  L), Vec3( L,  L, -L), Vec3(-L,  L, -L),
    // bottom face
    Vec3(-L, -L, -L), Vec3( L, -L, -L), Vec3( L, -L,  L), Vec3(-L, -L,  L),
    // right face
    Vec3( L, -L,  L), Vec3( L, -L, -L), Vec3( L,  L, -L), Vec3( L,  L,  L),
    // back face
    Vec3( L, -L, -L), Vec3(-L, -L, -L), Vec3(-L,  L, -L), Vec3( L,  L, -L)
  ]

  /**
   The index list, read three entries at a time: entry t holds indices
   3t, 3t+1 and 3t+2 of the flat list, the corners of triangle t.
   */
  const Indices: seq<(nat, nat, nat)> := [
    (0, 1, 2),    (0, 2, 3),     // front
    (4, 5, 6),    (4, 6, 7),     // left
    (8, 9, 10),   (8, 10, 11),   // top
    (12, 13, 14), (12, 14, 15),  // bottom
    (16, 17, 18), (16, 18, 19),  // right
    (20, 21, 22), (20, 22, 23)   // back
  ]

  const Normals: seq<Vec3> := [
    Vec3(0.0, 0.0, 1.0),  Vec3(0.0, 0.0, 1.0),  Vec3(0.0, 0.0, 1.0),  Vec3(0.0, 0.0, 1.0),
    Vec3(-1.0, 0.0, 0.0), Vec3(-1.0, 0.0, 0.0), Vec3(-1.0, 0.0, 0.0), Vec3(-1.0, 0.0, 0.0),
    Vec3(0.0, 1.0, 0.0),  Vec3(0.0, 1.0, 0.0),  Vec3(0.0, 1.0, 0.0),  Vec3(0.0, 1.0, 0.0),
    Vec3(0.0, -1.0, 0.0), Vec3(0.0, -1.0, 0.0), Vec3(0.0, -1.0, 0.0), Vec3(0.0, -1.0, 0.0),
    Vec3(1.0, 0.0, 0.0),  Vec3(1.0, 0.0, 0.0),  Vec3(1.0, 0.0, 0.0),  Vec3(1.0, 0.0, 0.0),
    Vec3(0.0, 0.0, -1.0), Vec3(0.0, 0.0, -1.0), Vec3(0.0, 0.0, -1.0), Vec3(0.0, 0.0, -1.0)
  ]

  const WireframeVertices: seq<Vec3> := [
    // front face
    Vec3(-L, -L,  L), Vec3( L, -L,  L),
    Vec3( L, -L,  L), Vec3( L,  L,  L),
    Vec3( L,  L,  L), Vec3(-L,  L,  L),
    Vec3(-L,  L,  L), Vec3(-L, -L,  L),
    // back face
    Vec3(-L, -L, -L), Vec3( L, -L, -L),
    Vec3( L, -L, -L), Vec3( L,  L, -L),
    Vec3( L,  L, -L), Vec3(-L,  L, -L),
    Vec3(-L,  L, -L), Vec3(-L, -L, -L),
    // connecting edges
    Vec3(-L, -L,  L), Vec3(-L, -L, -L),
    Vec3( L, -L,  L), Vec3( L, -L, -L),
    Vec3( L,  L,  L), Vec3( L,  L, -L),
    Vec3(-L,  L,  L), Vec3(-L,  L, -L)
  ]

  /* ---------- generic table checks ---------- */

  /** The flat index list the renderer reads: the triangles' corners in order. */
  function Flatten(tris: seq<(nat, nat, nat)>): (flat: seq<nat>)
    ensures |flat| == 3 * |tris|
    ensures forall t :: 0 <= t < |tris| ==>
              flat[3 * t] == tris[t].0 && flat[3 * t + 1] == tris[t].1 && flat[3 * t + 2] == tris[t].2
  {
    if tris == [] then [] else
      var (a, b, c) := tris[0];
      [a, b, c] + Flatten(tris[1..])
  }

  ghost predicate IndicesInRange(tris: seq<(nat, nat, nat)>, vertexCount: nat) {
    forall t :: 0 <= t < |tris| ==> tris[t].0 < vertexCount && tris[t].1 < vertexCount && tris[t].2 < vertexCount
  }

  /** Vertex i belongs to the face whose 4-vertex block is 4f .. 4f+3. */
  function FaceOf(i: nat): nat {
    i / 4
  }

  ghost predicate TrianglesWithinFaces(tris: seq<(nat, nat, nat)>) {
    forall t :: 0 <= t < |tris| ==> FaceOf(tris[t].0) == FaceOf(tris[t].1) == FaceOf(tris[t].2)
  }

  predicate IsUnitAxis(n: Vec3) {
    || n == Vec3(1.0, 0.0, 0.0) || n == Vec3(-1.0, 0.0, 0.0)
    || n == Vec3(0.0, 1.0, 0.0) || n == Vec3(0.0, -1.0, 0.0)
    || n == Vec3(0.0, 0.0, 1.0) || n == Vec3(0.0, 0.0, -1.0)
  }

  predicate IsCorner(p: Vec3) {
    (p.x == L || p.x == -L) && (p.y == L || p.y == -L) && (p.z == L || p.z == -L)
  }

  function Abs(r: real): real {
    if r < 0.0 then -r else r
  }

  /** p and q differ in exactly one coordinate, and there by a full edge 2L. */
  predicate IsAxisEdge(p: Vec3, q: Vec3) {
    || (Abs(p.x - q.x) == 2.0 * L && p.y == q.y && p.z == q.z)
    || (p.x == q.x && Abs(p.y - q.y) == 2.0 * L && p.z == q.z)
    || (p.x == q.x && p.y == q.y && Abs(p.z - q.z) == 2.0 * L)
  }

  /** A triangle a, b, c winds counter-clockwise seen from the side n points to. */
  predicate WindsAround(a: Vec3, b: Vec3, c: Vec3, n: Vec3) {
    Dot3(Cross(Sub3(b, a), Sub3(c, a)), n) > 0.0
  }

  /** The k-th wireframe segment: `LineSegments` pairs consecutive endpoints. */
  function Segment(k: nat): (Vec3, Vec3)
    requires 2 * k + 1 < |WireframeVertices|
  {
    (WireframeVertices[2 * k], WireframeVertices[2 * k + 1])
  }

  predicate SameEdge(s: (Vec3, Vec3), t: (Vec3, Vec3)) {
    (s.0 == t.0 && s.1 == t.1) || (s.0 == t.1 && s.1 == t.0)
  }

  /* ---------- the tables satisfy the checks ---------- */

  /** Every corner of every triangle names one of the 24 vertices. */
  lemma TrianglesInRange()
    ensures |Positions| == 24 && |Indices| == 12
    ensures IndicesInRange(Indices, |Positions|)
  {
    forall t | 0 <= t < |Indices|
      ensures Indices[t].0 < 24 && Indices[t].1 < 24 && Indices[t].2 < 24
    {
      assert t in {0, 1, 2, 3, 4, 5, 6, 7, 8, 9, 10, 11};
    }
  }

  /** Triangles whose corners are in range flatten to a list of indices in range. */
  lemma FlattenInRange(tris: seq<(nat, nat, nat)>, vertexCount: nat)
    requires IndicesInRange(tris, vertexCount)
    ensures forall k :: 0 <= k < |Flatten(tris)| ==> Flatten(tris)[k] < vertexCount
  {
    var flat := Flatten(tris);
    forall k | 0 <= k < |flat|
      ensures flat[k] < vertexCount
    {
      var t := k / 3;
      assert t < |tris|;
      assert flat[3 * t] == tris[t].0 && flat[3 * t + 1] == tris[t].1 && flat[3 * t + 2] == tris[t].2;
      assert k == 3 * t || k == 3 * t + 1 || k == 3 * t + 2;
    }
  }

  /** The flat list holds 36 indices, 12 whole triangles, each naming one of the 24 vertices. */
  lemma IndexTableWellFormed()
    ensures |Positions| == 24
    ensures |Flatten(Indices)| == 36 && |Flatten(Indices)| % 3 == 0
    ensures forall k :: 0 <= k < |Flatten(Indices)| ==> Flatten(Indices)[k] < |Positions|
  {
    TrianglesInRange();
    FlattenInRange(Indices, |Positions|);
  }

  /** The three corners of every triangle lie in one face's block of four vertices. */
  lemma TrianglesStayInFaces()
    ensures TrianglesWithinFaces(Indices)
  {
    forall t | 0 <= t < |Indices|
      ensures FaceOf(Indices[t].0) == FaceOf(Indices[t].1) == FaceOf(Indices[t].2)
    {
      assert t in {0, 1, 2, 3, 4, 5, 6, 7, 8, 9, 10, 11};
    }
  }

  /** Every vertex is a corner of the cube [-L, L]^3. */
  lemma PositionsAreCorners()
    ensures |Positions| == 24
    ensures forall i :: 0 <= i < |Positions| ==> IsCorner(Positions[i])
  {
    forall i | 0 <= i < |Positions|
      ensures IsCorner(Positions[i])
    {
      assert i in {0, 1, 2, 3, 4, 5, 6, 7, 8, 9, 10, 11, 12, 13, 14, 15, 16, 17, 18, 19, 20, 21, 22, 23};
    }
  }

  /** Every normal is a unit vector along one axis. */
  lemma NormalsAreUnitAxes()
    ensures |Normals| == 24
    ensures forall i :: 0 <= i < |Normals| ==> IsUnitAxis(Normals[i])
  {
    forall i | 0 <= i < |Normals|
      ensures IsUnitAxis(Normals[i])
    {
      assert i in {0, 1, 2, 3, 4, 5, 6, 7, 8, 9, 10, 11, 12, 13, 14, 15, 16, 17, 18, 19, 20, 21, 22, 23};
    }
  }

  /** Every vertex lies at distance L along its own normal, that is, on its face's plane. */
  lemma VerticesOnNormalPlanes()
    ensures |Normals| == |Positions| == 24
    ensures forall i :: 0 <= i < |Normals| ==> Dot3(Positions[i], Normals[i]) == L
  {
    forall i | 0 <= i < |Normals|
      ensures Dot3(Positions[i], Normals[i]) == L
    {
      assert i in {0, 1, 2, 3, 4, 5, 6, 7, 8, 9, 10, 11, 12, 13, 14, 15, 16, 17, 18, 19, 20, 21, 22, 23};
    }
  }

  /** The four vertices of each face share one normal. */
  lemma FaceNormalsAgree()
    ensures |Normals| == 24
    ensures forall i :: 0 <= i < |Normals| ==> Normals[i] == Normals[4 * FaceOf(i)]
  {
    forall i | 0 <= i < |Normals|
      ensures Normals[i] == Normals[4 * FaceOf(i)]
    {
      assert i in {0, 1, 2, 3, 4, 5, 6, 7, 8, 9, 10, 11, 12, 13, 14, 15, 16, 17, 18, 19, 20, 21, 22, 23};
    }
  }

  /**
   Every normal is a unit axis vector, each face's four vertices share one
   normal, and every vertex lies on the plane at distance L along its normal,
   so the normal points out of the face the vertex belongs to.
   */
  lemma NormalsPointOutOfFaces()
    ensures |Normals| == |Positions| == 24
    ensures forall i :: 0 <= i < |Normals| ==> IsUnitAxis(Normals[i])
    ensures forall i :: 0 <= i < |Normals| ==> Dot3(Positions[i], Normals[i]) == L
    ensures forall i, j :: 0 <= i < |Normals| && 0 <= j < |Normals| && FaceOf(i) == FaceOf(j) ==>
              Normals[i] == Normals[j]
  {
    NormalsAreUnitAxes();
    VerticesOnNormalPlanes();
    FaceNormalsAgree();
  }

  /** Triangle t uses three vertices of one normal and winds counter-clockwise around it. */
  predicate FacesOutward(t: nat)
    requires t < |Indices|
  {
    var (a, b, c) := Indices[t];
    && a < |Positions| && b < |Positions| && c < |Positions|
    && Normals[a] == Normals[b] == Normals[c]
    && WindsAround(Positions[a], Positions[b], Positions[c], Normals[a])
  }

  /** Face f's two triangles split its quad 4f .. 4f+3 along the diagonal 4f, 4f+2. */
  lemma FaceTriangles(f: nat)
    requires f < 6
    ensures |Indices| == 12
    ensures Indices[2 * f] == (4 * f, 4 * f + 1, 4 * f + 2)
    ensures Indices[2 * f + 1] == (4 * f, 4 * f + 2, 4 * f + 3)
  {
    assert f in {0, 1, 2, 3, 4, 5};
  }

  /** The quad of face f, cut along 4f, 4f+2, winds counter-clockwise around its normal. */
  predicate QuadWinds(f: nat)
    requires f < 6
  {
    && Normals[4 * f] == Normals[4 * f + 1] == Normals[4 * f + 2] == Normals[4 * f + 3]
    && WindsAround(Positions[4 * f], Positions[4 * f + 1], Positions[4 * f + 2], Normals[4 * f])
    && WindsAround(Positions[4 * f], Positions[4 * f + 2], Positions[4 * f + 3], Normals[4 * f])
  }

  lemma FrontLeftTopWind(f: nat)
    requires f < 3
    ensures QuadWinds(f)
  {
    if f == 0 {} else if f == 1 {} else {}
  }

  lemma BottomRightBackWind(f: nat)
    requires 3 <= f < 6
    ensures QuadWinds(f)
  {
    if f == 3 {} else if f == 4 {} else {}
  }

  /** Face f's first triangle is one half of its quad. */
  lemma FirstHalfFacesOutward(f: nat)
    requires f < 6
    ensures FacesOutward(2 * f)
  {
    if f < 3 {
      FrontLeftTopWind(f);
    } else {
      BottomRightBackWind(f);
    }
    FaceTriangles(f);
  }

  /** Face f's second triangle is the other half. */
  lemma SecondHalfFacesOutward(f: nat)
    requires f < 6
    ensures FacesOutward(2 * f + 1)
  {
    if f < 3 {
      FrontLeftTopWind(f);
    } else {
      BottomRightBackWind(f);
    }
    FaceTriangles(f);
  }

  /** Both triangles of every face wind counter-clockwise seen against the face's normal. */
  lemma TrianglesFaceOutward()
    ensures |Indices| == 12
    ensures forall t :: 0 <= t < |Indices| ==> FacesOutward(t)
  {
    forall t | 0 <= t < |Indices|
      ensures FacesOutward(t)
    {
      if t % 2 == 0 {
        FirstHalfFacesOutward(t / 2);
      } else {
        SecondHalfFacesOutward(t / 2);
      }
    }
  }

  /** Every wireframe endpoint is a corner of the cube. */
  lemma WireframeEndsAtCorners()
    ensures |WireframeVertices| == 24
    ensures forall k :: 0 <= k < |WireframeVertices| ==> IsCorner(WireframeVertices[k])
  {
    forall k | 0 <= k < |WireframeVertices|
      ensures IsCorner(WireframeVertices[k])
    {
      assert k in {0, 1, 2, 3, 4, 5, 6, 7, 8, 9, 10, 11, 12, 13, 14, 15, 16, 17, 18, 19, 20, 21, 22, 23};
    }
  }

  /** Every wireframe segment runs along one axis and spans a full edge 2L. */
  lemma WireframeSegmentsAreEdges()
    ensures |WireframeVertices| == 24
    ensures forall k :: 0 <= k < 12 ==> IsAxisEdge(Segment(k).0, Segment(k).1)
  {
    forall k | 0 <= k < 12
      ensures IsAxisEdge(Segment(k).0, Segment(k).1)
    {
      assert k in {0, 1, 2, 3, 4, 5, 6, 7, 8, 9, 10, 11};
    }
  }

  /** No two wireframe segments join the same pair of corners. */
  lemma WireframeSegmentsDistinct()
    ensures |WireframeVertices| == 24
    ensures forall j, k :: 0 <= j < k < 12 ==> !SameEdge(Segment(j), Segment(k))
  {
    forall j, k | 0 <= j < k < 12
      ensures !SameEdge(Segment(j), Segment(k))
    {
      assert j in {0, 1, 2, 3, 4, 5, 6, 7, 8, 9, 10};
      assert k in {1, 2, 3, 4, 5, 6, 7, 8, 9, 10, 11};
    }
  }

  /**
   The wireframe holds 12 segments between cube corners, each along one axis
   with length 2L, and no segment is repeated: these are the 12 edges of the cube.
   */
  lemma WireframeIsCubeEdges()
    ensures |WireframeVertices| == 24
    ensures forall k :: 0 <= k < |WireframeVertices| ==> IsCorner(WireframeVertices[k])
    ensures forall k :: 0 <= k < 12 ==> IsAxisEdge(Segment(k).0, Segment(k).1)
    ensures forall j, k :: 0 <= j < k < 12 ==> !SameEdge(Segment(j), Segment(k))
  {
    WireframeEndsAtCorners();
    WireframeSegmentsAreEdges();
    WireframeSegmentsDistinct();
  }
}
