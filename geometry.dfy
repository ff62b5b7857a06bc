/**
 * The static cube geometry handed to the renderer once at startup.
 *
 * The vertex buffer interleaves, per vertex, a position (x, y, z) and a
 * colour (r, g, b): 6 floats, so a stride of 24 bytes with the colour at
 * byte offset 12. The cube has 6 faces of 4 vertices each, every face in
 * one colour. The index buffer draws each face as 2 triangles that use
 * only that face's 4 vertices, wound counter-clockwise seen from outside.
 *
 * The 144 floats of the vertex buffer are written here as 24 vertex
 * records laid out one after the other (Interleave); Position and Color
 * read them back from the flat buffer at the stride and offsets the
 * renderer is told, and AttributesReadRecords shows that this returns
 * each record's own fields.
 */
module Geometry {

  const FloatsPerVertex: nat := 6
  const ColorOffset: nat := 3
  const BytesPerFloat: nat := 4
  const VertexCount: nat := 24
  const FaceCount: nat := 6
  const TriangleCount: nat := 12

  /** The attribute stride and the colour attribute's offset, in bytes. */
  const StrideBytes: nat := FloatsPerVertex * BytesPerFloat
  const ColorOffsetBytes: nat := ColorOffset * BytesPerFloat

  /** A point, direction or colour in three components. */
  datatype Vec3 = Vec3(x: real, y: real, z: real)

  /** One record of the vertex buffer. */
  datatype Vertex = Vertex(position: Vec3, color: Vec3)

  /** The records of the vertex buffer, one face (4 vertices) per line. */
  const CubeVertices: seq<Vertex> := [
    Vertex(Vec3(-1.0, -1.0,  1.0), Vec3(1.0, 0.0, 0.0)), Vertex(Vec3( 1.0, -1.0,  1.0), Vec3(1.0, 0.0, 0.0)), Vertex(Vec3( 1.0,  1.0,  1.0), Vec3(1.0, 0.0, 0.0)), Vertex(Vec3(-1.0,  1.0,  1.0), Vec3(1.0, 0.0, 0.0)), // front, red
    Vertex(Vec3(-1.0, -1.0, -1.0), Vec3(0.0, 1.0, 0.0)), Vertex(Vec3(-1.0,  1.0, -1.0), Vec3(0.0, 1.0, 0.0)), Vertex(Vec3( 1.0,  1.0, -1.0), Vec3(0.0, 1.0, 0.0)), Vertex(Vec3( 1.0, -1.0, -1.0), Vec3(0.0, 1.0, 0.0)), // back, green
    Vertex(Vec3(-1.0,  1.0, -1.0), Vec3(0.0, 0.0, 1.0)), Vertex(Vec3(-1.0,  1.0,  1.0), Vec3(0.0, 0.0, 1.0)), Vertex(Vec3( 1.0,  1.0,  1.0), Vec3(0.0, 0.0, 1.0)), Vertex(Vec3( 1.0,  1.0, -1.0), Vec3(0.0, 0.0, 1.0)), // top, blue
    Vertex(Vec3(-1.0, -1.0, -1.0), Vec3(1.0, 1.0, 0.0)), Vertex(Vec3( 1.0, -1.0, -1.0), Vec3(1.0, 1.0, 0.0)), Vertex(Vec3( 1.0, -1.0,  1.0), Vec3(1.0, 1.0, 0.0)), Vertex(Vec3(-1.0, -1.0,  1.0), Vec3(1.0, 1.0, 0.0)), // bottom, yellow
    Vertex(Vec3( 1.0, -1.0, -1.0), Vec3(0.0, 1.0, 1.0)), Vertex(Vec3( 1.0,  1.0, -1.0), Vec3(0.0, 1.0, 1.0)), Vertex(Vec3( 1.0,  1.0,  1.0), Vec3(0.0, 1.0, 1.0)), Vertex(Vec3( 1.0, -1.0,  1.0), Vec3(0.0, 1.0, 1.0)), // right, cyan
    Vertex(Vec3(-1.0, -1.0, -1.0), Vec3(1.0, 0.0, 1.0)), Vertex(Vec3(-1.0, -1.0,  1.0), Vec3(1.0, 0.0, 1.0)), Vertex(Vec3(-1.0,  1.0,  1.0), Vec3(1.0, 0.0, 1.0)), Vertex(Vec3(-1.0,  1.0, -1.0), Vec3(1.0, 0.0, 1.0))  // left, magenta
  ]

  /** A corner of the cube [-1, 1]^3. */
  predicate IsCorner(p: Vec3)
  {
    (p.x == -1.0 || p.x == 1.0) && (p.y == -1.0 || p.y == 1.0) && (p.z == -1.0 || p.z == 1.0)
  }

  /** There are 24 records, and every position is a corner of the cube [-1, 1]^3. */
  lemma RecordsAreCorners(v: nat)
    requires v < VertexCount
    ensures |CubeVertices| == VertexCount
    ensures IsCorner(CubeVertices[v].position)
  {
    assert v < 4 || v < 8 || v < 12 || v < 16 || v < 20 || v < 24;
  }

  /** The floats of one record: position, then colour. */
  function Fields(v: Vertex): seq<real>
  {
    [v.position.x, v.position.y, v.position.z, v.color.x, v.color.y, v.color.z]
  }

  /** Records laid out back to back, FloatsPerVertex floats each: float j belongs to record j / 6. */
  function Interleave(vs: seq<Vertex>): (fs: seq<real>)
    ensures |fs| == FloatsPerVertex * |vs|
    ensures forall i, k | 0 <= i < |vs| && 0 <= k < FloatsPerVertex ::
      fs[FloatsPerVertex * i + k] == Fields(vs[i])[k]
  {
    var fs := seq(FloatsPerVertex * |vs|, j requires 0 <= j < FloatsPerVertex * |vs| =>
      Fields(vs[j / FloatsPerVertex])[j % FloatsPerVertex]);
    assert forall i, k | 0 <= i < |vs| && 0 <= k < FloatsPerVertex ::
      fs[FloatsPerVertex * i + k] == Fields(vs[i])[k] by {
      forall i, k | 0 <= i < |vs| && 0 <= k < FloatsPerVertex
        ensures fs[FloatsPerVertex * i + k] == Fields(vs[i])[k]
      {
        var j := FloatsPerVertex * i + k;
        assert j / FloatsPerVertex == i && j % FloatsPerVertex == k;
      }
    }
    fs
  }

  /** The vertex buffer: 144 floats. */
  const Vertices: seq<real> := Interleave(CubeVertices)

  const Indices: seq<nat> := [
     0,  1,  2,   0,  2,  3,  // front
     4,  5,  6,   4,  6,  7,  // back
     8,  9, 10,   8, 10, 11,  // top
    12, 13, 14,  12, 14, 15,  // bottom
    16, 17, 18,  16, 18, 19,  // right
    20, 21, 22,  20, 22, 23   // left
  ]

  function Sub(a: Vec3, b: Vec3): Vec3
  {
    Vec3(a.x - b.x, a.y - b.y, a.z - b.z)
  }

  function Cross(a: Vec3, b: Vec3): Vec3
  {
    Vec3(a.y * b.z - a.z * b.y, a.z * b.x - a.x * b.z, a.x * b.y - a.y * b.x)
  }

  function Dot(a: Vec3, b: Vec3): real
  {
    a.x * b.x + a.y * b.y + a.z * b.z
  }

  /** The three floats of a buffer that start at float index first. */
  function ReadVec3(buffer: seq<real>, first: nat): Vec3
    requires first + 2 < |buffer|
  {
    Vec3(buffer[first], buffer[first + 1], buffer[first + 2])
  }

  /** The position attribute of vertex v: the first 3 floats of its stride. */
  function Position(v: nat): Vec3
    requires v < VertexCount
  {
    ReadVec3(Vertices, FloatsPerVertex * v)
  }

  /** The colour attribute of vertex v: 3 floats at float offset ColorOffset of its stride. */
  function Color(v: nat): Vec3
    requires v < VertexCount
  {
    ReadVec3(Vertices, FloatsPerVertex * v + ColorOffset)
  }

  /** The face a vertex belongs to: faces own 4 consecutive vertices. */
  function FaceOf(v: nat): nat
  {
    v / 4
  }

  /** The vertex at corner k of triangle t. */
  function Corner(t: nat, k: nat): nat
    requires t < TriangleCount && k < 3
  {
    Indices[3 * t + k]
  }

  // ---------------------------------------------------------------------
  // Layout

  /**
   * In any interleaved buffer, reading at vertex v's stride gives back the
   * position and, at the colour offset, the colour of record v.
   */
  lemma StrideReadsRecord(vs: seq<Vertex>, v: nat)
    requires v < |vs|
    ensures ReadVec3(Interleave(vs), FloatsPerVertex * v) == vs[v].position
    ensures ReadVec3(Interleave(vs), FloatsPerVertex * v + ColorOffset) == vs[v].color
  {
    var fs, o := Interleave(vs), FloatsPerVertex * v;
    assert fs[o] == Fields(vs[v])[0] && fs[o + 1] == Fields(vs[v])[1] && fs[o + 2] == Fields(vs[v])[2];
    assert fs[o + 3] == Fields(vs[v])[3] && fs[o + 4] == Fields(vs[v])[4] && fs[o + 5] == Fields(vs[v])[5];
  }

  /**
   * The buffer has the size the renderer is told, and reading it at the
   * attribute stride and offsets gives back each record's position and colour.
   */
  lemma AttributesReadRecords(v: nat)
    requires v < VertexCount
    ensures |Vertices| == VertexCount * FloatsPerVertex == 144
    ensures StrideBytes == 24 && ColorOffsetBytes == 12
    ensures Position(v) == CubeVertices[v].position && Color(v) == CubeVertices[v].color
  {
    StrideReadsRecord(CubeVertices, v);
  }

  /** The corner pattern every face follows, relative to its first vertex. */
  const FacePattern: seq<nat> := [0, 1, 2, 0, 2, 3]

  /**
   * The index buffer draws face f with the six indices 6f .. 6f + 5, which
   * are the face's first vertex 4f plus the corner pattern.
   */
  predicate FollowsFacePattern(ix: seq<nat>)
  {
    && |ix| == 3 * TriangleCount
    && forall i | 0 <= i < |ix| :: ix[i] == 4 * (i / 6) + FacePattern[i % 6]
  }

  lemma IndicesFollowFacePattern()
    ensures FollowsFacePattern(Indices)
  {
    forall i | 0 <= i < |Indices|
      ensures Indices[i] == 4 * (i / 6) + FacePattern[i % 6]
    {
      assert i == 0 || i == 1 || i == 2 || i == 3 || i == 4 || i == 5 || i == 6 || i == 7 || i == 8
          || i == 9 || i == 10 || i == 11 || i == 12 || i == 13 || i == 14 || i == 15 || i == 16 || i == 17
          || i == 18 || i == 19 || i == 20 || i == 21 || i == 22 || i == 23 || i == 24 || i == 25 || i == 26
          || i == 27 || i == 28 || i == 29 || i == 30 || i == 31 || i == 32 || i == 33 || i == 34 || i == 35;
    }
  }

  /** Every index names a vertex, fits in 16 bits, and lies in the face of its triangle. */
  lemma IndicesWellFormed()
    ensures |Indices| == 3 * TriangleCount == 36
    ensures forall i | 0 <= i < |Indices| :: Indices[i] < VertexCount && Indices[i] < 65536
    ensures forall i | 0 <= i < |Indices| :: 4 * (i / 6) <= Indices[i] < 4 * (i / 6) + 4
  {
    IndicesFollowFacePattern();
    forall i | 0 <= i < |Indices|
      ensures Indices[i] < VertexCount && 4 * (i / 6) <= Indices[i] < 4 * (i / 6) + 4
    {
      var q := i % 6;
      assert FacePattern[q] < 4 by {
        assert q == 0 || q == 1 || q == 2 || q == 3 || q == 4 || q == 5;
      }
      assert i / 6 < 6;
    }
  }

  /** In a buffer following the face pattern, the corners of triangle t are those of face t / 2. */
  lemma PatternCorners(ix: seq<nat>, t: nat)
    requires FollowsFacePattern(ix) && t < TriangleCount
    ensures t % 2 == 0 ==> ix[3 * t] == 4 * (t / 2) && ix[3 * t + 1] == 4 * (t / 2) + 1 && ix[3 * t + 2] == 4 * (t / 2) + 2
    ensures t % 2 == 1 ==> ix[3 * t] == 4 * (t / 2) && ix[3 * t + 1] == 4 * (t / 2) + 2 && ix[3 * t + 2] == 4 * (t / 2) + 3
  {
    var f := t / 2;
    if t % 2 == 0 {
      assert t == 2 * f;
      assert (3 * t) / 6 == f && (3 * t) % 6 == 0;
      assert (3 * t + 1) / 6 == f && (3 * t + 1) % 6 == 1;
      assert (3 * t + 2) / 6 == f && (3 * t + 2) % 6 == 2;
    } else {
      assert t == 2 * f + 1;
      assert (3 * t) / 6 == f && (3 * t) % 6 == 3;
      assert (3 * t + 1) / 6 == f && (3 * t + 1) % 6 == 4;
      assert (3 * t + 2) / 6 == f && (3 * t + 2) % 6 == 5;
    }
  }

  /**
   * The corners of triangle t: face f = t / 2 is drawn as the triangles
   * (4f, 4f + 1, 4f + 2) and (4f, 4f + 2, 4f + 3).
   */
  lemma TriangleCorners(t: nat)
    requires t < TriangleCount
    ensures t % 2 == 0 ==> Corner(t, 0) == 4 * (t / 2) && Corner(t, 1) == 4 * (t / 2) + 1 && Corner(t, 2) == 4 * (t / 2) + 2
    ensures t % 2 == 1 ==> Corner(t, 0) == 4 * (t / 2) && Corner(t, 1) == 4 * (t / 2) + 2 && Corner(t, 2) == 4 * (t / 2) + 3
  {
    IndicesFollowFacePattern();
    PatternCorners(Indices, t);
  }

  /** Each triangle uses three distinct vertices of face t / 2 only. */
  lemma TrianglesStayInTheirFace(t: nat)
    requires t < TriangleCount
    ensures forall k | 0 <= k < 3 :: Corner(t, k) < VertexCount && FaceOf(Corner(t, k)) == t / 2
    ensures Corner(t, 0) != Corner(t, 1) && Corner(t, 1) != Corner(t, 2) && Corner(t, 0) != Corner(t, 2)
  {
    var f := t / 2;
    TriangleCorners(t);
    assert (4 * f) / 4 == f && (4 * f + 1) / 4 == f && (4 * f + 2) / 4 == f && (4 * f + 3) / 4 == f;
    forall k | 0 <= k < 3
      ensures Corner(t, k) < VertexCount && FaceOf(Corner(t, k)) == f
    {
      assert k == 0 || k == 1 || k == 2;
    }
  }

  // ---------------------------------------------------------------------
  // Colours and winding

  /** In the records, the four vertices of each face carry one colour. */
  lemma RecordColorsUniform(v: nat)
    requires v < VertexCount
    ensures CubeVertices[v].color == CubeVertices[4 * FaceOf(v)].color
  {
    assert v == 0 || v == 1 || v == 2 || v == 3 || v == 4 || v == 5 || v == 6 || v == 7
        || v == 8 || v == 9 || v == 10 || v == 11 || v == 12 || v == 13 || v == 14 || v == 15
        || v == 16 || v == 17 || v == 18 || v == 19 || v == 20 || v == 21 || v == 22 || v == 23;
  }

  /** The four vertices of each face share one colour, read from the vertex buffer. */
  lemma FacesAreUniformlyColored(v: nat)
    requires v < VertexCount
    ensures Color(v) == Color(4 * FaceOf(v))
  {
    AttributesReadRecords(v);
    AttributesReadRecords(4 * FaceOf(v));
    RecordColorsUniform(v);
  }

  /** The triangle p0, p1, p2 turns counter-clockwise seen from outside: its normal points away from the origin. */
  predicate WoundOutward(p0: Vec3, p1: Vec3, p2: Vec3)
  {
    Dot(Cross(Sub(p1, p0), Sub(p2, p0)), p0) > 0.0
  }

  /**
   * Triangle t is wound counter-clockwise seen from outside the cube: the
   * normal its winding gives points away from the centre.
   */
  predicate FacesOutward(t: nat)
    requires t < TriangleCount
  {
    && Corner(t, 0) < VertexCount && Corner(t, 1) < VertexCount && Corner(t, 2) < VertexCount
    && WoundOutward(Position(Corner(t, 0)), Position(Corner(t, 1)), Position(Corner(t, 2)))
  }

  /** The winding of a triangle, checked on the records it indexes. */
  predicate RecordsWoundOutward(a: nat, b: nat, c: nat)
    requires a < VertexCount && b < VertexCount && c < VertexCount
  {
    WoundOutward(CubeVertices[a].position, CubeVertices[b].position, CubeVertices[c].position)
  }

  /** A triangle with edges e1, e2 from p0 whose winding normal n points away from the origin is wound outward. */
  lemma WoundOutwardBy(p0: Vec3, p1: Vec3, p2: Vec3, e1: Vec3, e2: Vec3, n: Vec3)
    requires Sub(p1, p0) == e1 && Sub(p2, p0) == e2
    requires Cross(e1, e2) == n && Dot(n, p0) > 0.0
    ensures WoundOutward(p0, p1, p2)
  {
  }

  /** Both triangles of the front face (vertices 0 .. 3). */
  lemma FrontFaceOutward()
    ensures RecordsWoundOutward(0, 1, 2) && RecordsWoundOutward(0, 2, 3)
  {
    assert CubeVertices[0].position == Vec3(-1.0, -1.0, 1.0);
    assert CubeVertices[1].position == Vec3(1.0, -1.0, 1.0);
    assert CubeVertices[2].position == Vec3(1.0, 1.0, 1.0);
    assert CubeVertices[3].position == Vec3(-1.0, 1.0, 1.0);
    WoundOutwardBy(Vec3(-1.0, -1.0, 1.0), Vec3(1.0, -1.0, 1.0), Vec3(1.0, 1.0, 1.0), Vec3(2.0, 0.0, 0.0), Vec3(2.0, 2.0, 0.0), Vec3(0.0, 0.0, 4.0));
    WoundOutwardBy(Vec3(-1.0, -1.0, 1.0), Vec3(1.0, 1.0, 1.0), Vec3(-1.0, 1.0, 1.0), Vec3(2.0, 2.0, 0.0), Vec3(0.0, 2.0, 0.0), Vec3(0.0, 0.0, 4.0));
  }

  /** Both triangles of the back face (vertices 4 .. 7). */
  lemma BackFaceOutward()
    ensures RecordsWoundOutward(4, 5, 6) && RecordsWoundOutward(4, 6, 7)
  {
    assert CubeVertices[4].position == Vec3(-1.0, -1.0, -1.0);
    assert CubeVertices[5].position == Vec3(-1.0, 1.0, -1.0);
    assert CubeVertices[6].position == Vec3(1.0, 1.0, -1.0);
    assert CubeVertices[7].position == Vec3(1.0, -1.0, -1.0);
    WoundOutwardBy(Vec3(-1.0, -1.0, -1.0), Vec3(-1.0, 1.0, -1.0), Vec3(1.0, 1.0, -1.0), Vec3(0.0, 2.0, 0.0), Vec3(2.0, 2.0, 0.0), Vec3(0.0, 0.0, -4.0));
    WoundOutwardBy(Vec3(-1.0, -1.0, -1.0), Vec3(1.0, 1.0, -1.0), Vec3(1.0, -1.0, -1.0), Vec3(2.0, 2.0, 0.0), Vec3(2.0, 0.0, 0.0), Vec3(0.0, 0.0, -4.0));
  }

  /** Both triangles of the top face (vertices 8 .. 11). */
  lemma TopFaceOutward()
    ensures RecordsWoundOutward(8, 9, 10) && RecordsWoundOutward(8, 10, 11)
  {
    assert CubeVertices[8].position == Vec3(-1.0, 1.0, -1.0);
    assert CubeVertices[9].position == Vec3(-1.0, 1.0, 1.0);
    assert CubeVertices[10].position == Vec3(1.0, 1.0, 1.0);
    assert CubeVertices[11].position == Vec3(1.0, 1.0, -1.0);
    WoundOutwardBy(Vec3(-1.0, 1.0, -1.0), Vec3(-1.0, 1.0, 1.0), Vec3(1.0, 1.0, 1.0), Vec3(0.0, 0.0, 2.0), Vec3(2.0, 0.0, 2.0), Vec3(0.0, 4.0, 0.0));
    WoundOutwardBy(Vec3(-1.0, 1.0, -1.0), Vec3(1.0, 1.0, 1.0), Vec3(1.0, 1.0, -1.0), Vec3(2.0, 0.0, 2.0), Vec3(2.0, 0.0, 0.0), Vec3(0.0, 4.0, 0.0));
  }

  /** Both triangles of the bottom face (vertices 12 .. 15). */
  lemma BottomFaceOutward()
    ensures RecordsWoundOutward(12, 13, 14) && RecordsWoundOutward(12, 14, 15)
  {
    assert CubeVertices[12].position == Vec3(-1.0, -1.0, -1.0);
    assert CubeVertices[13].position == Vec3(1.0, -1.0, -1.0);
    assert CubeVertices[14].position == Vec3(1.0, -1.0, 1.0);
    assert CubeVertices[15].position == Vec3(-1.0, -1.0, 1.0);
    WoundOutwardBy(Vec3(-1.0, -1.0, -1.0), Vec3(1.0, -1.0, -1.0), Vec3(1.0, -1.0, 1.0), Vec3(2.0, 0.0, 0.0), Vec3(2.0, 0.0, 2.0), Vec3(0.0, -4.0, 0.0));
    WoundOutwardBy(Vec3(-1.0, -1.0, -1.0), Vec3(1.0, -1.0, 1.0), Vec3(-1.0, -1.0, 1.0), Vec3(2.0, 0.0, 2.0), Vec3(0.0, 0.0, 2.0), Vec3(0.0, -4.0, 0.0));
  }

  /** Both triangles of the right face (vertices 16 .. 19). */
  lemma RightFaceOutward()
    ensures RecordsWoundOutward(16, 17, 18) && RecordsWoundOutward(16, 18, 19)
  {
    assert CubeVertices[16].position == Vec3(1.0, -1.0, -1.0);
    assert CubeVertices[17].position == Vec3(1.0, 1.0, -1.0);
    assert CubeVertices[18].position == Vec3(1.0, 1.0, 1.0);
    assert CubeVertices[19].position == Vec3(1.0, -1.0, 1.0);
    WoundOutwardBy(Vec3(1.0, -1.0, -1.0), Vec3(1.0, 1.0, -1.0), Vec3(1.0, 1.0, 1.0), Vec3(0.0, 2.0, 0.0), Vec3(0.0, 2.0, 2.0), Vec3(4.0, 0.0, 0.0));
    WoundOutwardBy(Vec3(1.0, -1.0, -1.0), Vec3(1.0, 1.0, 1.0), Vec3(1.0, -1.0, 1.0), Vec3(0.0, 2.0, 2.0), Vec3(0.0, 0.0, 2.0), Vec3(4.0, 0.0, 0.0));
  }

  /** Both triangles of the left face (vertices 20 .. 23). */
  lemma LeftFaceOutward()
    ensures RecordsWoundOutward(20, 21, 22) && RecordsWoundOutward(20, 22, 23)
  {
    assert CubeVertices[20].position == Vec3(-1.0, -1.0, -1.0);
    assert CubeVertices[21].position == Vec3(-1.0, -1.0, 1.0);
    assert CubeVertices[22].position == Vec3(-1.0, 1.0, 1.0);
    assert CubeVertices[23].position == Vec3(-1.0, 1.0, -1.0);
    WoundOutwardBy(Vec3(-1.0, -1.0, -1.0), Vec3(-1.0, -1.0, 1.0), Vec3(-1.0, 1.0, 1.0), Vec3(0.0, 0.0, 2.0), Vec3(0.0, 2.0, 2.0), Vec3(-4.0, 0.0, 0.0));
    WoundOutwardBy(Vec3(-1.0, -1.0, -1.0), Vec3(-1.0, 1.0, 1.0), Vec3(-1.0, 1.0, -1.0), Vec3(0.0, 2.0, 2.0), Vec3(0.0, 2.0, 0.0), Vec3(-4.0, 0.0, 0.0));
  }

  /** Both triangles of face f are wound counter-clockwise seen from outside. */
  lemma FaceTrianglesOutward(f: nat)
    requires f < FaceCount
    ensures RecordsWoundOutward(4 * f, 4 * f + 1, 4 * f + 2) && RecordsWoundOutward(4 * f, 4 * f + 2, 4 * f + 3)
  {
    if f == 0 {
      FrontFaceOutward();
    } else if f == 1 {
      BackFaceOutward();
    } else if f == 2 {
      TopFaceOutward();
    } else if f == 3 {
      BottomFaceOutward();
    } else if f == 4 {
      RightFaceOutward();
    } else {
      LeftFaceOutward();
    }
  }

  /** Every triangle of the index buffer is wound counter-clockwise seen from outside. */
  lemma TrianglesFaceOutward(t: nat)
    requires t < TriangleCount
    ensures FacesOutward(t)
  {
    TriangleCorners(t);
    var a, b, c := Corner(t, 0), Corner(t, 1), Corner(t, 2);
    FaceTrianglesOutward(t / 2);
    assert RecordsWoundOutward(a, b, c);
    AttributesReadRecords(a);
    AttributesReadRecords(b);
    AttributesReadRecords(c);
  }
}
