/** The OBJ data the engine reads back from the loader, and the flattening
    loop that turns its flat float arrays into vertex records. The same loop
    appears in src/graphics/mesh/mesh.rs (Mesh::from_res) and in src/scene.rs
    (Scene::load_obj); it is modelled once here. */
module Obj {
  import opened Maths
  import opened Wrappers

  /** One model of an OBJ file: flat x,y,z position and normal arrays, flat
      u,v texture coordinates, triangle indices and an optional material. */
  datatype ObjMesh = ObjMesh(positions: seq<real>, normals: seq<real>, texcoords: seq<real>,
                             indices: seq<nat>, materialId: Option<nat>)

  /** A material of the OBJ file; only its diffuse texture path is used. */
  datatype ObjMaterial = ObjMaterial(diffuseTexture: string)

  /** What the loader returns for a file: its models and its materials. */
  datatype ObjFile = ObjFile(models: seq<ObjMesh>, materials: seq<ObjMaterial>)

  /** The number of vertices the loop builds: one per whole position triple. */
  function VertexCount(m: ObjMesh): nat {
    |m.positions| / 3
  }

  /** The loop indexes normals and texture coordinates as far as the positions
      go; with shorter arrays the indexing would panic. */
  predicate Indexable(m: ObjMesh) {
    3 * VertexCount(m) <= |m.normals| && 2 * VertexCount(m) <= |m.texcoords|
  }

  /** Vertex i of the flattened mesh. */
  function VertexAt(m: ObjMesh, i: nat): Vertex
    requires Indexable(m) && i < VertexCount(m)
  {
    Vertex(Vec3(m.positions[3 * i], m.positions[3 * i + 1], m.positions[3 * i + 2]),
           Vec3(m.normals[3 * i], m.normals[3 * i + 1], m.normals[3 * i + 2]),
           Vec2(m.texcoords[2 * i], m.texcoords[2 * i + 1]))
  }

  /** The flattening loop: vertex i takes positions[3i..3i+3],
      normals[3i..3i+3] and texcoords[2i..2i+2]. */
  method Flatten(m: ObjMesh) returns (vertices: seq<Vertex>)
    requires Indexable(m)
    ensures |vertices| == VertexCount(m)
    ensures forall i :: 0 <= i < |vertices| ==> vertices[i] == VertexAt(m, i)
  {
    vertices := [];
    var i := 0;
    while i < |m.positions| / 3
      invariant 0 <= i <= VertexCount(m)
      invariant |vertices| == i
      invariant forall k :: 0 <= k < i ==> vertices[k] == VertexAt(m, k)
    {
      var position := Vec3(m.positions[i * 3], m.positions[i * 3 + 1], m.positions[i * 3 + 2]);
      var normal := Vec3(m.normals[i * 3], m.normals[i * 3 + 1], m.normals[i * 3 + 2]);
      var uv := Vec2(m.texcoords[i * 2], m.texcoords[i * 2 + 1]);
      vertices := vertices + [Vertex(position, normal, uv)];
      i := i + 1;
    }
  }

  /** The positions of the vertices written back as a flat array. */
  function FlatPositions(vertices: seq<Vertex>): (r: seq<real>)
    ensures |r| == 3 * |vertices|
  {
    if vertices == [] then []
    else
      var v := vertices[|vertices| - 1].position;
      FlatPositions(vertices[..|vertices| - 1]) + [v.x, v.y, v.z]
  }

  /** Flattening loses no position: writing the vertices' positions back
      gives the input positions, up to the last whole triple. */
  lemma {:induction false} FlattenKeepsPositions(m: ObjMesh, vertices: seq<Vertex>)
    requires Indexable(m)
    requires |vertices| == VertexCount(m)
    requires forall i :: 0 <= i < |vertices| ==> vertices[i] == VertexAt(m, i)
    ensures FlatPositions(vertices) == m.positions[..3 * VertexCount(m)]
  {
    PrefixPositions(m, vertices, |vertices|);
    assert vertices[..|vertices|] == vertices;
  }

  lemma {:induction false} PrefixPositions(m: ObjMesh, vertices: seq<Vertex>, n: nat)
    requires Indexable(m)
    requires |vertices| == VertexCount(m) && n <= |vertices|
    requires forall i :: 0 <= i < |vertices| ==> vertices[i] == VertexAt(m, i)
    ensures FlatPositions(vertices[..n]) == m.positions[..3 * n]
  {
    if n > 0 {
      PrefixPositions(m, vertices, n - 1);
      assert vertices[..n][..n - 1] == vertices[..n - 1];
      var v := vertices[n - 1].position;
      assert m.positions[..3 * n] == m.positions[..3 * (n - 1)] + [v.x, v.y, v.z];
    }
  }

  /** `s` has `pattern` starting at position i. */
  predicate OccursAt(s: string, pattern: string, i: nat) {
    i + |pattern| <= |s| && s[i..i + |pattern|] == pattern
  }

  /** str::replace(pattern, ""): every non-overlapping occurrence, scanned
      left to right, removed. */
  function RemoveAll(s: string, pattern: string): (r: string)
    requires pattern != []
    ensures |r| <= |s|
    decreases |s|
  {
    if |s| < |pattern| then s
    else if s[..|pattern|] == pattern then RemoveAll(s[|pattern|..], pattern)
    else [s[0]] + RemoveAll(s[1..], pattern)
  }

  /** The scheme prefix of a texture path is stripped: "res://" + p becomes p
      when p itself holds no "res://". */
  lemma StripScheme(p: string)
    requires forall i :: 0 <= i <= |p| ==> !OccursAt(p, "res://", i)
    ensures RemoveAll("res://" + p, "res://") == p
  {
    var s := "res://" + p;
    assert s[..6] == "res://" && s[6..] == p;
    RemoveAbsent(p, "res://");
  }

  lemma {:induction false} RemoveAbsent(s: string, pattern: string)
    requires pattern != []
    requires forall i :: 0 <= i <= |s| ==> !OccursAt(s, pattern, i)
    ensures RemoveAll(s, pattern) == s
    decreases |s|
  {
    if |s| >= |pattern| {
      assert !OccursAt(s, pattern, 0);
      forall i | 0 <= i <= |s[1..]|
        ensures !OccursAt(s[1..], pattern, i)
      {
        assert !OccursAt(s, pattern, i + 1);
        assert i + 1 + |pattern| <= |s| ==> s[1..][i..i + |pattern|] == s[i + 1..i + 1 + |pattern|];
      }
      RemoveAbsent(s[1..], pattern);
      assert s == [s[0]] + s[1..];
    }
  }
}
