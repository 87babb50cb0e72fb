/** The procedural meshes of src/components/primitives: a disk (a triangle
    fan around a centre vertex), a cube and a plane. Disk and cube are built
    on the src/graphics meshes, the plane on the library's. The src vertex
    has no uv; the model gives those vertices uv (0, 0). */
module Primitives {
  import opened Gl
  import opened Maths
  import opened Wrappers
  import GraphicsMesh
  import LibMesh
  import MeshCommands

  /** The normal of triangle (a, b, c) by the right-hand rule: it points
      towards a viewer who sees the corners counter-clockwise. */
  function FaceNormal(a: Vec3, b: Vec3, c: Vec3): Vec3 {
    Cross(Sub(b, a), Sub(c, a))
  }

  /** Every index of `indices` names one of `count` vertices. */
  predicate InRange(indices: seq<nat>, count: nat) {
    forall k :: 0 <= k < |indices| ==> indices[k] < count
  }

  // ---------------------------------------------------------------- disk

  /** Triangle i of a disk with r rim vertices: the centre (vertex r), the
      next rim vertex round the circle, and rim vertex i. */
  function FanTriangle(r: nat, i: nat): seq<nat>
    requires i < r
  {
    [r, (i + 1) % r, i]
  }

  /** The first n triangles of the fan, one after the other. */
  function FanIndices(r: nat, n: nat): (s: seq<nat>)
    requires n <= r
    ensures |s| == 3 * n
  {
    if n == 0 then [] else FanIndices(r, n - 1) + FanTriangle(r, n - 1)
  }

  /** Disk::generate_indices: one triangle per rim vertex, in order. */
  method GenerateIndices(resolution: U32) returns (indices: seq<nat>)
    ensures indices == FanIndices(resolution, resolution)
  {
    indices := [];
    var i := 0;
    while i < resolution
      invariant 0 <= i <= resolution
      invariant indices == FanIndices(resolution, i)
    {
      var a := resolution;
      var b := if i == resolution - 1 then 0 else i + 1;
      var c := i;
      NextRim(resolution, i);
      indices := indices + [a, b, c];
      i := i + 1;
    }
  }

  /** The rim vertex after i is i + 1, except after the last one, which is
      followed by vertex 0. */
  lemma NextRim(r: nat, i: nat)
    requires i < r
    ensures (i + 1) % r == if i == r - 1 then 0 else i + 1
  {
  }

  /** Triangle i sits at positions 3i, 3i + 1 and 3i + 2. */
  lemma {:induction false} FanTriangleAt(r: nat, n: nat, i: nat)
    requires i < n <= r
    ensures FanIndices(r, n)[3 * i..3 * i + 3] == FanTriangle(r, i)
  {
    if i < n - 1 {
      FanTriangleAt(r, n - 1, i);
      assert FanIndices(r, n)[3 * i..3 * i + 3] == FanIndices(r, n - 1)[3 * i..3 * i + 3];
    } else {
      assert FanIndices(r, n)[3 * i..3 * i + 3] == FanIndices(r, n)[|FanIndices(r, n - 1)|..];
    }
  }

  /** Every fan index is at most r: a rim vertex or the centre. */
  lemma {:induction false} FanInRange(r: nat, n: nat)
    requires n <= r
    ensures InRange(FanIndices(r, n), r + 1)
  {
    if n > 0 {
      FanInRange(r, n - 1);
    }
  }

  /** The rim vertex before j round the circle. */
  function PrevRim(r: nat, j: nat): (p: nat)
    requires j < r
    ensures p < r
  {
    if j == 0 then r - 1 else j - 1
  }

  /** generate_indices gives 3r indices, all naming one of the r + 1
      vertices of generate_vertices, and triangle i at positions 3i .. 3i + 2
      is (r, i + 1, i), or (r, 0, r - 1) for the last. */
  lemma DiskIndices(r: nat)
    ensures |FanIndices(r, r)| == 3 * r
    ensures InRange(FanIndices(r, r), r + 1)
    ensures forall i :: 0 <= i < r ==> FanIndices(r, r)[3 * i..3 * i + 3] == FanTriangle(r, i)
    ensures forall i :: 0 <= i < r ==> FanTriangle(r, i) == [r, if i == r - 1 then 0 else i + 1, i]
  {
    FanInRange(r, r);
    forall i | 0 <= i < r
      ensures FanIndices(r, r)[3 * i..3 * i + 3] == FanTriangle(r, i)
      ensures FanTriangle(r, i) == [r, if i == r - 1 then 0 else i + 1, i]
    {
      FanTriangleAt(r, r, i);
      NextRim(r, i);
    }
  }

  /** The fan closes: every rim vertex j is the last corner of triangle j
      and the middle corner of the triangle before it round the circle, so
      consecutive triangles share an edge all the way round. */
  lemma FanCloses(r: nat)
    ensures forall j :: 0 <= j < r ==> FanTriangle(r, j)[2] == j && FanTriangle(r, PrevRim(r, j))[1] == j
  {
    forall j | 0 <= j < r
      ensures FanTriangle(r, PrevRim(r, j))[1] == j
    {
      NextRim(r, PrevRim(r, j));
    }
  }

  /** The normal of every disk vertex: straight down when flipped. */
  function DiskNormal(flip: bool): Vec3 {
    Vec3(0.0, if flip then -1.0 else 1.0, 0.0)
  }

  /** Disk::get_point_on_circle for rim vertex i: (x, 0, z) where (x, z) is
      the circle point the caller's trigonometry gives for the radius and
      step i. */
  function PointOnCircle(radius: real, i: nat, circle: (real, nat) -> (real, real)): (p: Vec3)
    ensures p.y == 0.0
  {
    Vec3(circle(radius, i).0, 0.0, circle(radius, i).1)
  }

  /** Disk::generate_vertices: the r rim vertices in order round the circle,
      then the centre at the origin; all with the same vertical normal. */
  method GenerateVertices(radius: real, resolution: U32, flip: bool, circle: (real, nat) -> (real, real))
    returns (vertices: seq<Vertex>)
    ensures |vertices| == resolution + 1
    ensures forall i :: 0 <= i < resolution ==>
      vertices[i] == Vertex(PointOnCircle(radius, i, circle), DiskNormal(flip), Vec2(0.0, 0.0))
    ensures vertices[resolution] == Vertex(Vec3(0.0, 0.0, 0.0), DiskNormal(flip), Vec2(0.0, 0.0))
  {
    vertices := [];
    var y := if flip then -1.0 else 1.0;
    var center := Vertex(Vec3(0.0, 0.0, 0.0), Vec3(0.0, y, 0.0), Vec2(0.0, 0.0));
    var i := 0;
    while i < resolution
      invariant 0 <= i <= resolution
      invariant |vertices| == i
      invariant forall j :: 0 <= j < i ==>
        vertices[j] == Vertex(PointOnCircle(radius, j, circle), DiskNormal(flip), Vec2(0.0, 0.0))
    {
      var position := PointOnCircle(radius, i, circle);
      vertices := vertices + [Vertex(position, Vec3(0.0, y, 0.0), Vec2(0.0, 0.0))];
      i := i + 1;
    }
    vertices := vertices + [center];
  }

  /** The disk lies flat: every vertex is in the plane y = 0 and its normal
      is a vertical unit vector, perpendicular to that plane. */
  lemma DiskIsFlat(vertices: seq<Vertex>, r: nat, radius: real, flip: bool, circle: (real, nat) -> (real, real))
    requires |vertices| == r + 1
    requires forall i :: 0 <= i < r ==>
      vertices[i] == Vertex(PointOnCircle(radius, i, circle), DiskNormal(flip), Vec2(0.0, 0.0))
    requires vertices[r] == Vertex(Vec3(0.0, 0.0, 0.0), DiskNormal(flip), Vec2(0.0, 0.0))
    ensures forall v <- vertices :: v.position.y == 0.0 && Dot(v.normal, v.normal) == 1.0
    ensures forall v <- vertices :: Dot(v.normal, Vec3(1.0, 0.0, 0.0)) == 0.0 && Dot(v.normal, Vec3(0.0, 0.0, 1.0)) == 0.0
  {
    forall v <- vertices
      ensures v.position.y == 0.0 && v.normal == DiskNormal(flip)
    {
      var k :| 0 <= k < |vertices| && vertices[k] == v;
      if k < r {
        assert v.position == PointOnCircle(radius, k, circle);
      }
    }
  }

  /** Disk::new: the flipped vertices of generate_vertices and the indices of
      generate_indices in one submesh, with no shader index. */
  method NewDisk(gl: Context, radius: real, resolution: U32, circle: (real, nat) -> (real, real))
    returns (mesh: GraphicsMesh.Mesh)
    modifies gl
    ensures fresh(mesh) && |mesh.submeshes| == 1
    ensures mesh.matrix == Identity && mesh.shaders == []
    ensures var s := mesh.submeshes[0];
      && s.shaderIndex == None && s.vertexArray.gl == gl && s.indexBuffer.gl == gl
      && |s.vertexBuffer.contents| == resolution + 1
      && s.vertexBuffer.contents[resolution].position == Vec3(0.0, 0.0, 0.0)
      && (forall v <- s.vertexBuffer.contents :: v.normal == DiskNormal(true))
      && s.indexBuffer.contents == FanIndices(resolution, resolution)
      && InRange(s.indexBuffer.contents, |s.vertexBuffer.contents|)
    ensures gl.nextName == old(gl.nextName) + 3
    ensures gl.log == old(gl.log) + MeshCommands.SubMeshCommands(old(gl.nextName), resolution + 1, 3 * resolution)
  {
    var vertices := GenerateVertices(radius, resolution, true, circle);
    var indices := GenerateIndices(resolution);
    FanInRange(resolution, resolution);
    assert forall v <- vertices :: v.normal == DiskNormal(true) by {
      forall v <- vertices
        ensures v.normal == DiskNormal(true)
      {
        var k :| 0 <= k < |vertices| && vertices[k] == v;
      }
    }
    var submesh := new GraphicsMesh.SubMesh(gl, vertices, indices, None);
    mesh := new GraphicsMesh.Mesh([submesh]);
  }

  // ---------------------------------------------------------------- cube

  /** The 24 vertices of Cube::new: four per face, in the order top,
      bottom, right, left, front, back, each face with its outward normal. */
  function CubeVertices(size: real): (r: seq<Vertex>)
    ensures |r| == 24
  {
    var s, n := size, -size;
    var up, down := Vec3(0.0, 1.0, 0.0), Vec3(0.0, -1.0, 0.0);
    var right, left := Vec3(1.0, 0.0, 0.0), Vec3(-1.0, 0.0, 0.0);
    var front, back := Vec3(0.0, 0.0, 1.0), Vec3(0.0, 0.0, -1.0);
    var uv := Vec2(0.0, 0.0);
    [Vertex(Vec3(s, s, s), up, uv), Vertex(Vec3(s, s, n), up, uv),
     Vertex(Vec3(n, s, n), up, uv), Vertex(Vec3(n, s, s), up, uv),
     Vertex(Vec3(s, n, s), down, uv), Vertex(Vec3(n, n, s), down, uv),
     Vertex(Vec3(n, n, n), down, uv), Vertex(Vec3(s, n, n), down, uv),
     Vertex(Vec3(s, s, s), right, uv), Vertex(Vec3(s, n, s), right, uv),
     Vertex(Vec3(s, n, n), right, uv), Vertex(Vec3(s, s, n), right, uv),
     Vertex(Vec3(n, s, s), left, uv), Vertex(Vec3(n, s, n), left, uv),
     Vertex(Vec3(n, n, n), left, uv), Vertex(Vec3(n, n, s), left, uv),
     Vertex(Vec3(s, s, s), front, uv), Vertex(Vec3(n, s, s), front, uv),
     Vertex(Vec3(n, n, s), front, uv), Vertex(Vec3(s, n, s), front, uv),
     Vertex(Vec3(s, s, n), back, uv), Vertex(Vec3(s, n, n), back, uv),
     Vertex(Vec3(n, n, n), back, uv), Vertex(Vec3(n, s, n), back, uv)]
  }

  /** The 36 indices of Cube::new, one row of two triangles per face. */
  const CUBE_INDICES: seq<nat> :=
    [0, 1, 2, 0, 2, 3]
    + [4, 5, 6, 4, 6, 7]
    + [8, 9, 10, 8, 10, 11]
    + [12, 13, 14, 12, 14, 15]
    + [16, 17, 18, 16, 18, 19]
    + [20, 21, 22, 20, 22, 23]

  /** The outward normal of each face, in table order. */
  const CUBE_NORMALS: seq<Vec3> := [
    Vec3(0.0, 1.0, 0.0), Vec3(0.0, -1.0, 0.0), Vec3(1.0, 0.0, 0.0),
    Vec3(-1.0, 0.0, 0.0), Vec3(0.0, 0.0, 1.0), Vec3(0.0, 0.0, -1.0)]

  /** The two triangles of face k over its own four vertices 4k .. 4k + 3. */
  function FaceIndices(k: nat): seq<nat> {
    [4 * k, 4 * k + 1, 4 * k + 2, 4 * k, 4 * k + 2, 4 * k + 3]
  }

  /** The index rows of the first n faces. */
  function FacePattern(n: nat): (s: seq<nat>)
    ensures |s| == 6 * n
  {
    if n == 0 then [] else FacePattern(n - 1) + FaceIndices(n - 1)
  }

  lemma CubeIndicesArePattern()
    ensures CUBE_INDICES == FacePattern(6)
  {
    assert [0, 1, 2, 0, 2, 3] == FaceIndices(0);
    assert [4, 5, 6, 4, 6, 7] == FaceIndices(1);
    assert [8, 9, 10, 8, 10, 11] == FaceIndices(2);
    assert [12, 13, 14, 12, 14, 15] == FaceIndices(3);
    assert [16, 17, 18, 16, 18, 19] == FaceIndices(4);
    assert [20, 21, 22, 20, 22, 23] == FaceIndices(5);
  }

  /** Face k's row sits at positions 6k .. 6k + 5. */
  lemma {:induction false} FacePatternAt(n: nat, k: nat)
    requires k < n
    ensures FacePattern(n)[6 * k..6 * k + 6] == FaceIndices(k)
  {
    if k < n - 1 {
      FacePatternAt(n - 1, k);
      assert FacePattern(n)[6 * k..6 * k + 6] == FacePattern(n - 1)[6 * k..6 * k + 6];
    } else {
      assert FacePattern(n)[6 * k..6 * k + 6] == FacePattern(n)[|FacePattern(n - 1)|..];
    }
  }

  /** The rows of n faces name only their 4n vertices. */
  lemma {:induction false} FacePatternInRange(n: nat)
    ensures InRange(FacePattern(n), 4 * n)
  {
    if n > 0 {
      FacePatternInRange(n - 1);
    }
  }

  /** The cube has 36 indices; face k's two triangles are (4k, 4k+1, 4k+2)
      and (4k, 4k+2, 4k+3), so they use only that face's own four
      vertices; and every index is below 24. */
  lemma CubeIndexLayout()
    ensures |CUBE_INDICES| == 36
    ensures forall k :: 0 <= k < 6 ==> CUBE_INDICES[6 * k..6 * k + 6] == FaceIndices(k)
    ensures InRange(CUBE_INDICES, 24)
  {
    CubeIndicesArePattern();
    FacePatternInRange(6);
    forall k | 0 <= k < 6
      ensures CUBE_INDICES[6 * k..6 * k + 6] == FaceIndices(k)
    {
      FacePatternAt(6, k);
    }
  }

  /** The unit vectors along the axes. */
  predicate AxisUnit(v: Vec3) {
    v in {Vec3(1.0, 0.0, 0.0), Vec3(-1.0, 0.0, 0.0), Vec3(0.0, 1.0, 0.0),
          Vec3(0.0, -1.0, 0.0), Vec3(0.0, 0.0, 1.0), Vec3(0.0, 0.0, -1.0)}
  }

  /** The 24 vertices are four per face: vertex i carries face i / 4's
      normal, an axis-aligned unit vector different for every face, and
      lies at distance `size` along it, on the side of the cube that
      normal points to. */
  lemma CubeFaces(size: real)
    ensures forall k :: 0 <= k < 6 ==> AxisUnit(CUBE_NORMALS[k])
    ensures forall k, l :: 0 <= k < l < 6 ==> CUBE_NORMALS[k] != CUBE_NORMALS[l]
    ensures forall i :: 0 <= i < 24 ==>
      && CubeVertices(size)[i].normal == CUBE_NORMALS[i / 4]
      && Dot(CubeVertices(size)[i].normal, CubeVertices(size)[i].position) == size
  {
    var vs := CubeVertices(size);
    forall i | 0 <= i < 24
      ensures vs[i].normal == CUBE_NORMALS[i / 4] && Dot(vs[i].normal, vs[i].position) == size
    {
      if i < 12 {
        if i < 4 {} else if i < 8 {} else {}
      } else {
        if i < 16 {} else if i < 20 {} else {}
      }
    }
  }

  /** Triangle (a, b, c) of `vs` turns counter-clockwise around the normal
      of its first vertex: its right-hand normal is that normal times
      `scale`. */
  predicate Wound(vs: seq<Vertex>, a: nat, b: nat, c: nat, scale: real)
    requires a < |vs| && b < |vs| && c < |vs|
  {
    FaceNormal(vs[a].position, vs[b].position, vs[c].position) == Scale(vs[a].normal, scale)
  }

  /** Both triangles of face k, (4k, 4k+1, 4k+2) and (4k, 4k+2, 4k+3), are
      wound counter-clockwise seen from outside, with area factor 4·size². */
  predicate FaceWound(vs: seq<Vertex>, k: nat, size: real)
    requires 4 * k + 4 <= |vs|
  {
    Wound(vs, 4 * k, 4 * k + 1, 4 * k + 2, 4.0 * size * size)
    && Wound(vs, 4 * k, 4 * k + 2, 4 * k + 3, 4.0 * size * size)
  }

  /** Every face of the cube is wound so that it faces outwards, the way
      its normal points: the twelve triangles agree with the normals. */
  lemma CubeWinding(size: real)
    ensures forall k :: 0 <= k < 6 ==> FaceWound(CubeVertices(size), k, size)
  {
    TopWound(size);
    BottomWound(size);
    RightWound(size);
    LeftWound(size);
    FrontWound(size);
    BackWound(size);
  }

  lemma TopWound(size: real)
    ensures FaceWound(CubeVertices(size), 0, size)
  {
  }

  lemma BottomWound(size: real)
    ensures FaceWound(CubeVertices(size), 1, size)
  {
  }

  lemma RightWound(size: real)
    ensures FaceWound(CubeVertices(size), 2, size)
  {
  }

  lemma LeftWound(size: real)
    ensures FaceWound(CubeVertices(size), 3, size)
  {
  }

  lemma FrontWound(size: real)
    ensures FaceWound(CubeVertices(size), 4, size)
  {
  }

  lemma BackWound(size: real)
    ensures FaceWound(CubeVertices(size), 5, size)
  {
  }

  /** Cube::new: the constant tables in one submesh, with no shader index. */
  method NewCube(gl: Context, size: real) returns (mesh: GraphicsMesh.Mesh)
    modifies gl
    ensures fresh(mesh) && |mesh.submeshes| == 1
    ensures mesh.matrix == Identity && mesh.shaders == []
    ensures var s := mesh.submeshes[0];
      && s.shaderIndex == None && s.vertexArray.gl == gl && s.indexBuffer.gl == gl
      && s.vertexBuffer.contents == CubeVertices(size)
      && s.indexBuffer.contents == CUBE_INDICES
      && s.indexBuffer.count == 36
    ensures gl.nextName == old(gl.nextName) + 3
    ensures gl.log == old(gl.log) + MeshCommands.SubMeshCommands(old(gl.nextName), 24, 36)
  {
    var submesh := new GraphicsMesh.SubMesh(gl, CubeVertices(size), CUBE_INDICES, None);
    mesh := new GraphicsMesh.Mesh([submesh]);
  }

  // ---------------------------------------------------------------- plane

  /** The four vertices of Plane::new: the corners of the square of half
      side `size` in the plane y = 0, all facing up. */
  function PlaneVertices(size: real): (r: seq<Vertex>)
    ensures |r| == 4
  {
    var up := Vec3(0.0, 1.0, 0.0);
    [Vertex(Vec3(size, 0.0, size), up, Vec2(1.0, 1.0)),
     Vertex(Vec3(size, 0.0, -size), up, Vec2(1.0, 0.0)),
     Vertex(Vec3(-size, 0.0, -size), up, Vec2(0.0, 0.0)),
     Vertex(Vec3(-size, 0.0, size), up, Vec2(0.0, 1.0))]
  }

  const PLANE_INDICES: seq<nat> := [0, 1, 2, 0, 2, 3]

  /** The plane's two triangles cover the square and face up: every index
      is below 4, every normal is (0, 1, 0), and both triangles are wound
      counter-clockwise seen from above. The uvs put texture corner (0, 0)
      at (-size, -size) and (1, 1) at (size, size). */
  lemma PlaneShape(size: real)
    ensures InRange(PLANE_INDICES, 4)
    ensures forall v <- PlaneVertices(size) :: v.normal == UNIT_Y && v.position.y == 0.0
    ensures var vs := PlaneVertices(size);
      forall t :: 0 <= t < 2 ==>
        FaceNormal(vs[PLANE_INDICES[3 * t]].position, vs[PLANE_INDICES[3 * t + 1]].position, vs[PLANE_INDICES[3 * t + 2]].position)
          == Scale(UNIT_Y, 4.0 * size * size)
    ensures forall v <- PlaneVertices(size) ::
      (v.uv.x == 1.0 <==> v.position.x == size) || size == 0.0
    ensures forall v <- PlaneVertices(size) ::
      (v.uv.y == 1.0 <==> v.position.z == size) || size == 0.0
  {
  }

  /** Plane::new: the constant tables in one library submesh whose shader
      index is None, so the renderer draws it with its default shader. */
  method NewPlane(gl: Context, size: real) returns (mesh: LibMesh.Mesh)
    modifies gl
    ensures fresh(mesh) && |mesh.submeshes| == 1
    ensures mesh.matrix == Identity && mesh.shaders == []
    ensures var s := mesh.submeshes[0];
      && s.shaderIndex == None
      && s.vertexBuffer.contents == PlaneVertices(size)
      && s.indexBuffer.contents == PLANE_INDICES
      && s.indexBuffer.count == 6
    ensures gl.nextName == old(gl.nextName) + 3
    ensures gl.log == old(gl.log) + MeshCommands.SubMeshCommands(old(gl.nextName), 4, 6)
  {
    var submesh := new LibMesh.SubMesh(gl, PlaneVertices(size), PLANE_INDICES, None);
    mesh := new LibMesh.Mesh([submesh]);
  }
}
