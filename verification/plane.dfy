/**
  The textured floor plane (`Ver2/Shapes/Plane.cs`): a fixed vertex buffer of
  four vertices, each laid out as position (3 floats), normal (3 floats) and
  texture coordinate (2 floats), and a fixed index buffer of two triangles.
  The layout constants are the ones the game loop uses to upload and draw it.
 */
module PlaneShape {

  /** An element of the index buffer (C# `uint`). */
  newtype uint32 = x: int | 0 <= x < 0x1_0000_0000

  /** Floats per vertex: the attribute stride the game loop declares. */
  const FloatsPerVertex: nat := 8
  const PositionOffset: nat := 0
  const NormalOffset: nat := 3
  const TexCoordOffset: nat := 6
  const VertexCount: nat := 4
  /** Index count passed to the draw call. */
  const PlaneDrawCount: nat := 6

  datatype Plane = Plane(vertices: seq<real>, indices: seq<uint32>)

  /** Float `k` of vertex `v`, as the attribute pointers with stride `FloatsPerVertex` read it. */
  function Attr(vertices: seq<real>, v: nat, k: nat): real
    requires v < VertexCount && k < FloatsPerVertex
    requires |vertices| == VertexCount * FloatsPerVertex
  {
    vertices[v * FloatsPerVertex + k]
  }

  /** The three vertex indices of triangle `t`. */
  function Triangle(indices: seq<uint32>, t: nat): seq<uint32>
    requires 3 * t + 3 <= |indices|
  {
    indices[3 * t .. 3 * t + 3]
  }

  /** The buffer holds exactly `VertexCount` vertices of `FloatsPerVertex` floats each. */
  predicate LayoutMatchesStride(vertices: seq<real>)
  {
    |vertices| == VertexCount * FloatsPerVertex
  }

  /** The normal of vertex `v` points straight up. */
  predicate NormalUp(vertices: seq<real>, v: nat)
    requires LayoutMatchesStride(vertices) && v < VertexCount
  {
    && Attr(vertices, v, NormalOffset) == 0.0
    && Attr(vertices, v, NormalOffset + 1) == 1.0
    && Attr(vertices, v, NormalOffset + 2) == 0.0
  }

  /** Vertex `v` lies at height 0.25 on a corner of the unit square centred on the axis. */
  predicate CornerAtHeight(vertices: seq<real>, v: nat)
    requires LayoutMatchesStride(vertices) && v < VertexCount
  {
    && Attr(vertices, v, PositionOffset + 1) == 0.25
    && (Attr(vertices, v, PositionOffset) == -0.5 || Attr(vertices, v, PositionOffset) == 0.5)
    && (Attr(vertices, v, PositionOffset + 2) == -0.5 || Attr(vertices, v, PositionOffset + 2) == 0.5)
  }

  /** Both texture coordinates of vertex `v` lie in [0, 1]. */
  predicate TexCoordInUnitSquare(vertices: seq<real>, v: nat)
    requires LayoutMatchesStride(vertices) && v < VertexCount
  {
    && 0.0 <= Attr(vertices, v, TexCoordOffset) <= 1.0
    && 0.0 <= Attr(vertices, v, TexCoordOffset + 1) <= 1.0
  }

  predicate NormalsUp(vertices: seq<real>)
    requires LayoutMatchesStride(vertices)
  {
    forall v: nat :: v < VertexCount ==> NormalUp(vertices, v)
  }

  predicate CornersAtHeight(vertices: seq<real>)
    requires LayoutMatchesStride(vertices)
  {
    forall v: nat :: v < VertexCount ==> CornerAtHeight(vertices, v)
  }

  predicate TexCoordsInUnitSquare(vertices: seq<real>)
    requires LayoutMatchesStride(vertices)
  {
    forall v: nat :: v < VertexCount ==> TexCoordInUnitSquare(vertices, v)
  }

  /** Every index names one of the vertices. */
  predicate IndicesInBounds(indices: seq<uint32>)
  {
    forall i :: 0 <= i < |indices| ==> indices[i] < VertexCount as uint32
  }

  /** No triangle uses a vertex twice. */
  predicate TrianglesNonDegenerate(indices: seq<uint32>)
    requires |indices| == PlaneDrawCount
  {
    forall t :: 0 <= t < 2 ==>
      var tri := Triangle(indices, t);
      tri[0] != tri[1] && tri[1] != tri[2] && tri[0] != tri[2]
  }

  /** The vertex set of a triangle. */
  function Corners(tri: seq<uint32>): set<uint32>
    requires |tri| == 3
  {
    {tri[0], tri[1], tri[2]}
  }

  /**
    The two triangles form a quad: they share exactly the diagonal 0-2 and
    together use all four vertices.
   */
  predicate QuadSplitAlongDiagonal(indices: seq<uint32>)
    requires |indices| == PlaneDrawCount
  {
    && Corners(Triangle(indices, 0)) * Corners(Triangle(indices, 1)) == {0, 2}
    && Corners(Triangle(indices, 0)) + Corners(Triangle(indices, 1)) == {0, 1, 2, 3}
  }

  /** The vertex array, one row per vertex. */
  const PlaneVertices: seq<real> := [
    // position           normal          texture coordinate
    -0.5, 0.25, -0.5,    0.0, 1.0, 0.0,   0.0, 0.0,   // bottom-left
     0.5, 0.25, -0.5,    0.0, 1.0, 0.0,   1.0, 0.0,   // bottom-right
     0.5, 0.25,  0.5,    0.0, 1.0, 0.0,   1.0, 1.0,   // top-right
    -0.5, 0.25,  0.5,    0.0, 1.0, 0.0,   0.0, 1.0    // top-left
  ]

  /** The index array: two triangles, both wound clockwise seen from +Y (the side the normals face). */
  const PlaneIndices: seq<uint32> := [0, 1, 2, 2, 3, 0]

  /** Every vertex of the literal array has an upward normal. */
  lemma PlaneNormalsUp()
    ensures LayoutMatchesStride(PlaneVertices)
    ensures NormalsUp(PlaneVertices)
  {
    forall v: nat | v < VertexCount
      ensures NormalUp(PlaneVertices, v)
    {
      if v == 0 {} else if v == 1 {} else if v == 2 {} else { assert v == 3; }
    }
  }

  /** Every vertex of the literal array is a corner of the square at height 0.25. */
  lemma PlaneCornersAtHeight()
    ensures LayoutMatchesStride(PlaneVertices)
    ensures CornersAtHeight(PlaneVertices)
  {
    forall v: nat | v < VertexCount
      ensures CornerAtHeight(PlaneVertices, v)
    {
      if v == 0 {} else if v == 1 {} else if v == 2 {} else { assert v == 3; }
    }
  }

  /** Every texture coordinate of the literal array lies in the unit square. */
  lemma PlaneTexCoordsInUnitSquare()
    ensures LayoutMatchesStride(PlaneVertices)
    ensures TexCoordsInUnitSquare(PlaneVertices)
  {
    forall v: nat | v < VertexCount
      ensures TexCoordInUnitSquare(PlaneVertices, v)
    {
      if v == 0 {} else if v == 1 {} else if v == 2 {} else { assert v == 3; }
    }
  }

  /** The literal index array describes two proper triangles splitting the quad along 0-2. */
  lemma PlaneTriangles()
    ensures |PlaneIndices| == PlaneDrawCount
    ensures IndicesInBounds(PlaneIndices)
    ensures TrianglesNonDegenerate(PlaneIndices)
    ensures QuadSplitAlongDiagonal(PlaneIndices)
  {
    assert Triangle(PlaneIndices, 0) == [0, 1, 2];
    assert Triangle(PlaneIndices, 1) == [2, 3, 0];
  }

  /** The constructor `Plane()`: the literal vertex and index arrays. */
  function NewPlane(): (p: Plane)
    ensures LayoutMatchesStride(p.vertices)
    ensures |p.indices| == PlaneDrawCount
    ensures NormalsUp(p.vertices)
    ensures CornersAtHeight(p.vertices)
    ensures TexCoordsInUnitSquare(p.vertices)
    ensures IndicesInBounds(p.indices)
    ensures TrianglesNonDegenerate(p.indices)
    ensures QuadSplitAlongDiagonal(p.indices)
  {
    PlaneNormalsUp();
    PlaneCornersAtHeight();
    PlaneTexCoordsInUnitSquare();
    PlaneTriangles();
    Plane(PlaneVertices, PlaneIndices)
  }

  /** `getVert`: the stored vertex array. */
  function GetVert(p: Plane): seq<real>
  {
    p.vertices
  }

  /** `getIndices`: the stored index array. */
  function GetIndices(p: Plane): seq<uint32>
  {
    p.indices
  }

  /**
    The vertex array `getVert` hands to the game loop is read with an 8-float
    stride: it holds exactly `VertexCount` whole vertices, and the position,
    normal and texture attributes tile each vertex without gaps.
   */
  lemma PlaneBuffersMatchPipeline()
    ensures |GetVert(NewPlane())| == VertexCount * FloatsPerVertex
    ensures |GetVert(NewPlane())| % FloatsPerVertex == 0
    ensures PositionOffset + 3 == NormalOffset && NormalOffset + 3 == TexCoordOffset
    ensures TexCoordOffset + 2 == FloatsPerVertex
  {
  }

  /**
    The index array `getIndices` hands to the game loop is exactly what the
    draw call consumes, and every index it draws names a stored vertex.
   */
  lemma PlaneDrawCountMatches()
    ensures |GetIndices(NewPlane())| == PlaneDrawCount
    ensures forall i :: 0 <= i < PlaneDrawCount ==> GetIndices(NewPlane())[i] < VertexCount as uint32
  {
  }
}
