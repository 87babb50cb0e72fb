/** The driver calls that building submeshes issues. SubMesh::new is the same
    in src/graphics/mesh/mesh.rs and lib/palantir-lib/src/mesh.rs, so both
    copies, the OBJ loaders and the primitives are specified by these lists. */
module MeshCommands {
  import opened Gl
  import opened Maths
  import Layout
  import Obj
  import Resources

  /** The commands SubMesh::new issues when the context's next name is `n`:
      vertex buffer, index buffer, vertex array, then add_buffer with the
      complete three-element layout. */
  function SubMeshCommands(n: nat, vertexCount: nat, indexCount: nat): seq<Command> {
    [GenBuffers(n), BindBuffer(ARRAY_BUFFER, n), BufferData(ARRAY_BUFFER, vertexCount * VERTEX_SIZE, STATIC_DRAW),
     GenBuffers(n + 1), BindBuffer(ELEMENT_ARRAY_BUFFER, n + 1), BufferData(ELEMENT_ARRAY_BUFFER, indexCount * 4, STATIC_DRAW),
     GenVertexArrays(n + 2),
     BindVertexArray(n + 2), BindBuffer(ARRAY_BUFFER, n)]
    + Layout.AttribCommands(Layout.VertexElements(), VERTEX_SIZE)
  }

  /** The file a material's texture is read from: its diffuse texture name
      with every "res://" removed, resolved under the resource root. */
  function TextureSource(res: Resources.Resources, material: Obj.ObjMaterial): Resources.Path {
    Resources.ResourcePath(res.root, Obj.RemoveAll(material.diffuseTexture, "res://"))
  }

  /** The commands of building one submesh for each of the first `count` OBJ
      models, in order, from the next name `n`: each submesh takes three
      names. */
  function ModelsPrefixCommands(n: nat, models: seq<Obj.ObjMesh>, count: nat): seq<Command>
    requires count <= |models|
  {
    if count == 0 then []
    else
      var k := count - 1;
      ModelsPrefixCommands(n, models, k) + SubMeshCommands(n + 3 * k, Obj.VertexCount(models[k]), |models[k].indices|)
  }

  /** The commands of building one submesh per OBJ model, in order. */
  function ModelsCommands(n: nat, models: seq<Obj.ObjMesh>): seq<Command> {
    ModelsPrefixCommands(n, models, |models|)
  }

  /** Building one more submesh appends its block to the log. */
  lemma ModelsCommandsStep(log: seq<Command>, before: seq<Command>, after: seq<Command>, n: nat, name: nat,
                            models: seq<Obj.ObjMesh>, i: nat)
    requires i < |models|
    requires before == log + ModelsPrefixCommands(n, models, i)
    requires name == n + 3 * i
    requires after == before + SubMeshCommands(name, Obj.VertexCount(models[i]), |models[i].indices|)
    ensures after == log + ModelsPrefixCommands(n, models, i + 1)
  {
    var done, block := ModelsPrefixCommands(n, models, i), SubMeshCommands(name, Obj.VertexCount(models[i]), |models[i].indices|);
    assert ModelsPrefixCommands(n, models, i + 1) == done + block;
    AppendAssociative(log, done, block);
  }

  /** Every model's submesh creates its vertex buffer under a name of its own:
      block i starts with GenBuffers(n + 3i). */
  lemma ModelsCommandsLayout(n: nat, models: seq<Obj.ObjMesh>, i: nat)
    requires i < |models|
    ensures |ModelsCommands(n, models)| == 15 * |models|
    ensures ModelsCommands(n, models)[15 * i] == GenBuffers(n + 3 * i)
  {
    PrefixLayout(n, models, |models|, i);
  }

  lemma {:induction false} PrefixLayout(n: nat, models: seq<Obj.ObjMesh>, count: nat, i: nat)
    requires i < count <= |models|
    ensures |ModelsPrefixCommands(n, models, count)| == 15 * count
    ensures ModelsPrefixCommands(n, models, count)[15 * i] == GenBuffers(n + 3 * i)
  {
    var k := count - 1;
    if i < k {
      PrefixLayout(n, models, k, i);
    } else if k > 0 {
      PrefixLayout(n, models, k, 0);
    }
  }
}
