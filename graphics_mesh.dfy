/** Meshes of src/graphics/mesh/mesh.rs: a submesh owns its GPU buffers and
    the vertex layout; a mesh owns submeshes, a model matrix and shaders. */
module GraphicsMesh {
  import opened Gl
  import opened Maths
  import opened Wrappers
  import Layout
  import GraphicsBuffers
  import GraphicsShader
  import Resources
  import Textures
  import Obj
  import opened MeshCommands

  class SubMesh {
    const shaderIndex: Option<nat>
    const vertexBuffer: GraphicsBuffers.VertexBuffer
    const layout: Layout.VertexBufferLayout
    const indexBuffer: GraphicsBuffers.IndexBuffer
    const vertexArray: GraphicsBuffers.VertexArray

    /** SubMesh::new: create the buffers, push position/normal/uv, and only
        then attach the vertex buffer to the vertex array. */
    constructor (gl: Context, vertices: seq<Vertex>, indices: seq<nat>, shaderIndex: Option<nat>)
      modifies gl
      ensures this.shaderIndex == shaderIndex
      ensures fresh(vertexBuffer) && fresh(layout) && fresh(indexBuffer) && fresh(vertexArray)
      ensures vertexBuffer.gl == gl && indexBuffer.gl == gl && vertexArray.gl == gl
      ensures vertexBuffer.contents == vertices && indexBuffer.contents == indices
      ensures indexBuffer.count == AsU32(|indices|)
      ensures layout.Valid() && layout.elements == Layout.VertexElements() && layout.stride == VERTEX_SIZE
      ensures vertexBuffer.id == old(gl.nextName) && indexBuffer.id == old(gl.nextName) + 1
      ensures vertexArray.id == old(gl.nextName) + 2 && gl.nextName == old(gl.nextName) + 3
      ensures gl.log == old(gl.log) + SubMeshCommands(old(gl.nextName), |vertices|, |indices|)
    {
      this.shaderIndex := shaderIndex;
      var vb := new GraphicsBuffers.VertexBuffer(gl, vertices);
      var l := new Layout.VertexBufferLayout();
      var ib := new GraphicsBuffers.IndexBuffer(gl, indices);
      var va := new GraphicsBuffers.VertexArray(gl);
      Layout.PushVertexElements(l);
      va.AddBuffer(vb, l);
      vertexBuffer := vb;
      layout := l;
      indexBuffer := ib;
      vertexArray := va;
    }
  }

  class Mesh {
    var submeshes: seq<SubMesh>
    var matrix: Matrix
    var shaders: seq<GraphicsShader.ShaderProgram>

    /** Mesh::new: the submeshes as given, the identity matrix, no shaders. */
    constructor (submeshes: seq<SubMesh>)
      ensures this.submeshes == submeshes && matrix == Identity && shaders == []
    {
      this.submeshes := submeshes;
      matrix := Identity;
      shaders := [];
    }
  }

  /** The buffers of `s` hold OBJ model `m`: its flattened vertices, its
      indices and their u32 count, and its material id. */
  ghost predicate Uploaded(s: SubMesh, m: Obj.ObjMesh)
    requires Obj.Indexable(m)
  {
    && s.shaderIndex == m.materialId
    && |s.vertexBuffer.contents| == Obj.VertexCount(m)
    && (forall k :: 0 <= k < |s.vertexBuffer.contents| ==> s.vertexBuffer.contents[k] == Obj.VertexAt(m, k))
    && s.indexBuffer.contents == m.indices
    && s.indexBuffer.count == AsU32(|m.indices|)
  }

  /** Submesh i was built from OBJ model i: its buffers hold the model and
      its layout is position, normal, uv. */
  ghost predicate BuiltFrom(s: SubMesh, m: Obj.ObjMesh)
    requires Obj.Indexable(m)
    reads s.layout
  {
    Uploaded(s, m) && s.layout.elements == Layout.VertexElements() && s.layout.stride == VERTEX_SIZE
  }

  const LAMBERT: string := "shaders/lambert"

  /** The lambert shader that from_res unwraps can be built: both stage
      sources load (the driver is taken to accept them). */
  predicate LambertLoads(res: Resources.Resources) {
    GraphicsShader.StageSource(res, LAMBERT + ".vert").Ok? && GraphicsShader.StageSource(res, LAMBERT + ".frag").Ok?
  }

  /** One step of the first loop of from_res: flatten the model and upload it. */
  method BuildSubMesh(gl: Context, model: Obj.ObjMesh) returns (submesh: SubMesh)
    requires Obj.Indexable(model)
    modifies gl
    ensures fresh(submesh) && fresh(submesh.layout) && BuiltFrom(submesh, model)
    ensures submesh.vertexArray.gl == gl && submesh.indexBuffer.gl == gl
    ensures gl.nextName == old(gl.nextName) + 3
    ensures gl.log == old(gl.log) + SubMeshCommands(old(gl.nextName), Obj.VertexCount(model), |model.indices|)
  {
    var vertices := Obj.Flatten(model);
    submesh := new SubMesh(gl, vertices, model.indices, model.materialId);
  }

  /** Each of `submeshes` was built from the model at its position. */
  ghost predicate AllBuiltFrom(submeshes: seq<SubMesh>, models: seq<Obj.ObjMesh>)
    requires forall m <- models :: Obj.Indexable(m)
    reads set k | 0 <= k < |submeshes| :: submeshes[k].layout
  {
    |submeshes| <= |models| && forall k :: 0 <= k < |submeshes| ==> BuiltFrom(submeshes[k], models[k])
  }

  lemma AllBuiltFromAppend(submeshes: seq<SubMesh>, submesh: SubMesh, models: seq<Obj.ObjMesh>)
    requires |submeshes| < |models| && forall m <- models :: Obj.Indexable(m)
    requires AllBuiltFrom(submeshes, models) && BuiltFrom(submesh, models[|submeshes|])
    ensures AllBuiltFrom(submeshes + [submesh], models)
  {
  }

  /** The vertex array and index buffer of every submesh belong to `gl`. */
  ghost predicate OnContext(submeshes: seq<SubMesh>, gl: Context) {
    forall k :: 0 <= k < |submeshes| ==> submeshes[k].vertexArray.gl == gl && submeshes[k].indexBuffer.gl == gl
  }

  /** One iteration of the model loop: the submesh of model i is appended to
      the submeshes before it, and its block to their log. */
  method NextSubMesh(gl: Context, models: seq<Obj.ObjMesh>, submeshes: seq<SubMesh>, i: nat, ghost log: seq<Command>, ghost n: nat)
    returns (submesh: SubMesh)
    requires i == |submeshes| < |models| && forall m <- models :: Obj.Indexable(m)
    requires AllBuiltFrom(submeshes, models) && OnContext(submeshes, gl)
    requires gl.nextName == n + 3 * i
    requires gl.log == log + ModelsPrefixCommands(n, models, i)
    modifies gl
    ensures fresh(submesh) && fresh(submesh.layout) && AllBuiltFrom(submeshes + [submesh], models)
    ensures OnContext(submeshes + [submesh], gl)
    ensures gl.nextName == n + 3 * (i + 1)
    ensures gl.log == log + ModelsPrefixCommands(n, models, i + 1)
  {
    ghost var before, name := gl.log, gl.nextName;
    submesh := BuildSubMesh(gl, models[i]);
    AllBuiltFromAppend(submeshes, submesh, models);
    ModelsCommandsStep(log, before, gl.log, n, name, models, i);
  }

  /** The first loop of from_res: one submesh per OBJ model, in order. */
  method BuildSubMeshes(gl: Context, models: seq<Obj.ObjMesh>) returns (submeshes: seq<SubMesh>)
    requires forall m <- models :: Obj.Indexable(m)
    modifies gl
    ensures |submeshes| == |models|
    ensures forall i :: 0 <= i < |models| ==> fresh(submeshes[i]) && fresh(submeshes[i].layout)
    ensures AllBuiltFrom(submeshes, models) && OnContext(submeshes, gl)
    ensures gl.nextName == old(gl.nextName) + 3 * |models|
    ensures gl.log == old(gl.log) + ModelsCommands(old(gl.nextName), models)
  {
    submeshes := [];
    ghost var made: set<object> := {};
    var i := 0;
    while i < |models|
      invariant i <= |models| && |submeshes| == i
      invariant fresh(made)
      invariant forall k :: 0 <= k < i ==> submeshes[k] in made && submeshes[k].layout in made
      invariant AllBuiltFrom(submeshes, models) && OnContext(submeshes, gl)
      invariant gl.nextName == old(gl.nextName) + 3 * i
      invariant gl.log == old(gl.log) + ModelsPrefixCommands(old(gl.nextName), models, i)
    {
      var submesh := NextSubMesh(gl, models, submeshes, i, old(gl.log), old(gl.nextName));
      submeshes := submeshes + [submesh];
      made := made + {submesh, submesh.layout};
      i := i + 1;
    }
  }

  /** The sources of the lambert program's two stages. */
  datatype Lambert = Lambert(vertex: seq<byte>, fragment: seq<byte>)

  /** The lambert sources as load_cstring yields them (empty where a stage
      does not load; from_res would panic there). */
  function LambertOf(res: Resources.Resources): Lambert {
    var vs := GraphicsShader.StageSource(res, LAMBERT + ".vert");
    var fs := GraphicsShader.StageSource(res, LAMBERT + ".frag");
    Lambert(if vs.Ok? then vs.value else [], if fs.Ok? then fs.value else [])
  }

  /** The commands of building the lambert program from the next name `n`:
      vertex stage n, fragment stage n + 1, program n + 2, both stages
      detached and deleted once linked. */
  function LambertCommands(n: nat, lambert: Lambert): seq<Command> {
    GraphicsShader.CompileCommands(n, VERTEX_SHADER, lambert.vertex)
    + GraphicsShader.CompileCommands(n + 1, FRAGMENT_SHADER, lambert.fragment)
    + GraphicsShader.LinkCommands(n + 2, n, n + 1, true)
  }

  /** The names one material takes: two stages and a program, and a texture
      when the material names one. */
  function MaterialNames(material: Obj.ObjMaterial): nat {
    if |material.diffuseTexture| > 0 then 4 else 3
  }

  /** The commands of one step of the material loop from the next name `n`:
      build the lambert program, bind it, write u_color; for a textured
      material, create and bind the texture and set u_use_texture. */
  function MaterialCommands(n: nat, lambert: Lambert, locate: (nat, string) -> int, material: Obj.ObjMaterial): seq<Command> {
    var program := n + 2;
    LambertCommands(n, lambert)
    + [UseProgram(program), Uniform3f(locate(program, "u_color"), Vec3(1.0, 1.0, 1.0))]
    + (if |material.diffuseTexture| > 0 then
         [GenTextures(n + 3), BindTexture(TEXTURE_2D, n + 3), Uniform1ui(locate(program, "u_use_texture"), 1)]
       else [])
  }

  /** The names the whole material loop takes. */
  function MaterialsNames(materials: seq<Obj.ObjMaterial>): nat {
    if materials == [] then 0
    else
      var k := |materials| - 1;
      MaterialsNames(materials[..k]) + MaterialNames(materials[k])
  }

  /** The commands of the whole material loop, one block per material, in order. */
  function MaterialsCommands(n: nat, lambert: Lambert, locate: (nat, string) -> int, materials: seq<Obj.ObjMaterial>): seq<Command> {
    if materials == [] then []
    else
      var k := |materials| - 1;
      MaterialsCommands(n, lambert, locate, materials[..k]) + MaterialCommands(n + MaterialsNames(materials[..k]), lambert, locate, materials[k])
  }

  /** One more material appends its block and takes its names: a log that
      holds the blocks of the first j materials, followed by the block of
      material j from the next free name, holds the blocks of the first j + 1. */
  lemma MaterialsStep(log: seq<Command>, before: seq<Command>, after: seq<Command>, n: nat, name: nat,
                      lambert: Lambert, locate: (nat, string) -> int, materials: seq<Obj.ObjMaterial>, j: nat)
    requires j < |materials|
    requires before == log + MaterialsCommands(n, lambert, locate, materials[..j])
    requires name == n + MaterialsNames(materials[..j])
    requires after == before + MaterialCommands(name, lambert, locate, materials[j])
    ensures MaterialsNames(materials[..j + 1]) == MaterialsNames(materials[..j]) + MaterialNames(materials[j])
    ensures after == log + MaterialsCommands(n, lambert, locate, materials[..j + 1])
  {
    var prefix := materials[..j + 1];
    assert prefix[..j] == materials[..j];
    var done := MaterialsCommands(n, lambert, locate, materials[..j]);
    var block := MaterialCommands(name, lambert, locate, materials[j]);
    assert MaterialsCommands(n, lambert, locate, prefix) == done + block;
    AppendAssociative(log, done, block);
  }

  /** The texture the material loop gives the program for `material`: one
      iff the material names one, read from the material's texture file. */
  predicate MadeFor(texture: Option<Textures.Texture>, res: Resources.Resources, material: Obj.ObjMaterial) {
    && (texture.Some? <==> |material.diffuseTexture| > 0)
    && (texture.Some? ==> texture.value.source == TextureSource(res, material))
  }

  /** `shader` is a program the material loop made for `material` on `gl`. */
  ghost predicate Built(shader: GraphicsShader.ShaderProgram, gl: Context, res: Resources.Resources, material: Obj.ObjMaterial)
    reads shader
  {
    shader.gl == gl && shader.Valid() && MadeFor(shader.texture, res, material)
  }

  /** Each of `shaders` is the program the material loop made for the
      material at its position. */
  ghost predicate AllBuilt(shaders: seq<GraphicsShader.ShaderProgram>, gl: Context, res: Resources.Resources,
                           materials: seq<Obj.ObjMaterial>)
    reads set k | 0 <= k < |shaders| :: shaders[k]
  {
    |shaders| <= |materials| && forall k :: 0 <= k < |shaders| ==> Built(shaders[k], gl, res, materials[k])
  }

  lemma AllBuiltAppend(shaders: seq<GraphicsShader.ShaderProgram>, shader: GraphicsShader.ShaderProgram,
                       gl: Context, res: Resources.Resources, materials: seq<Obj.ObjMaterial>)
    requires |shaders| < |materials|
    requires AllBuilt(shaders, gl, res, materials) && Built(shader, gl, res, materials[|shaders|])
    ensures AllBuilt(shaders + [shader], gl, res, materials)
  {
  }

  /** The lambert program from_res unwraps: both stages compile and link. */
  method LambertProgram(gl: Context, res: Resources.Resources) returns (shader: GraphicsShader.ShaderProgram)
    requires LambertLoads(res)
    modifies gl
    ensures fresh(shader) && shader.gl == gl && shader.Valid() && shader.texture == None
    ensures shader.id == old(gl.nextName) + 2 && gl.nextName == old(gl.nextName) + 3
    ensures gl.log == old(gl.log) + LambertCommands(old(gl.nextName), LambertOf(res))
  {
    var loaded := GraphicsShader.ProgramFromRes(gl, res, LAMBERT, Accepted, Accepted, Accepted);
    shader := loaded.value;
  }

  /** One step of the material loop of from_res: a lambert program, bound,
      with u_color (1,1,1), and a texture iff the material names one, read
      from the material's texture file. */
  method MaterialShader(gl: Context, res: Resources.Resources, material: Obj.ObjMaterial)
    returns (shader: GraphicsShader.ShaderProgram)
    requires LambertLoads(res)
    modifies gl
    ensures fresh(shader) && shader.gl == gl && shader.Valid()
    ensures shader.id == old(gl.nextName) + 2
    ensures MadeFor(shader.texture, res, material)
    ensures shader.texture.Some? ==> shader.texture.value.id == old(gl.nextName) + 3
    ensures gl.nextName == old(gl.nextName) + MaterialNames(material)
    ensures gl.log == old(gl.log) + MaterialCommands(old(gl.nextName), LambertOf(res), gl.locate, material)
  {
    shader := LambertProgram(gl, res);
    shader.Bind();
    shader.SetUniformVector3("u_color", Vec3(1.0, 1.0, 1.0));
    if |material.diffuseTexture| > 0 {
      SetMaterialTexture(gl, res, shader, material);
    }
  }

  /** The texture step of the material loop: read the material's texture
      file, with every "res://" removed, under the resource root, and hand
      the texture to the program. */
  method SetMaterialTexture(gl: Context, res: Resources.Resources, shader: GraphicsShader.ShaderProgram, material: Obj.ObjMaterial)
    requires shader.gl == gl && shader.Valid() && |material.diffuseTexture| > 0
    modifies gl, shader`cache, shader`queried, shader`texture
    ensures shader.Valid()
    ensures shader.texture == Some(Textures.Texture(old(gl.nextName), TextureSource(res, material)))
    ensures gl.nextName == old(gl.nextName) + 1
    ensures gl.log == old(gl.log)
      + [GenTextures(old(gl.nextName)), BindTexture(TEXTURE_2D, old(gl.nextName)), Uniform1ui(gl.locate(shader.id, "u_use_texture"), 1)]
  {
    var fullPath := Resources.ResourceNameToPath(res.root, Obj.RemoveAll(material.diffuseTexture, "res://"));
    var texture := Textures.New(gl, fullPath);
    shader.SetTexture(texture);
  }

  /** One iteration of the material loop: the program for material j is
      appended to the programs before it, and its block to their log. */
  method NextShader(gl: Context, res: Resources.Resources, materials: seq<Obj.ObjMaterial>,
                    shaders: seq<GraphicsShader.ShaderProgram>, j: nat, ghost log: seq<Command>, ghost n: nat)
    returns (shader: GraphicsShader.ShaderProgram)
    requires j == |shaders| < |materials| && LambertLoads(res)
    requires AllBuilt(shaders, gl, res, materials)
    requires gl.nextName == n + MaterialsNames(materials[..j])
    requires gl.log == log + MaterialsCommands(n, LambertOf(res), gl.locate, materials[..j])
    modifies gl
    ensures fresh(shader) && AllBuilt(shaders + [shader], gl, res, materials)
    ensures gl.nextName == n + MaterialsNames(materials[..j + 1])
    ensures gl.log == log + MaterialsCommands(n, LambertOf(res), gl.locate, materials[..j + 1])
  {
    ghost var before, name := gl.log, gl.nextName;
    shader := MaterialShader(gl, res, materials[j]);
    AllBuiltAppend(shaders, shader, gl, res, materials);
    MaterialsStep(log, before, gl.log, n, name, LambertOf(res), gl.locate, materials, j);
  }

  /** The material loop of from_res: one lambert program per material, in
      order, textured iff the material names a texture. */
  method BuildShaders(gl: Context, res: Resources.Resources, materials: seq<Obj.ObjMaterial>)
    returns (shaders: seq<GraphicsShader.ShaderProgram>)
    requires |materials| > 0 ==> LambertLoads(res)
    modifies gl
    ensures |shaders| == |materials|
    ensures AllBuilt(shaders, gl, res, materials)
    ensures gl.nextName == old(gl.nextName) + MaterialsNames(materials)
    ensures gl.log == old(gl.log) + MaterialsCommands(old(gl.nextName), LambertOf(res), gl.locate, materials)
  {
    shaders := [];
    assert materials[..0] == [];
    for j := 0 to |materials|
      invariant |shaders| == j
      invariant AllBuilt(shaders, gl, res, materials)
      invariant gl.nextName == old(gl.nextName) + MaterialsNames(materials[..j])
      invariant gl.log == old(gl.log) + MaterialsCommands(old(gl.nextName), LambertOf(res), gl.locate, materials[..j])
    {
      var shader := NextShader(gl, res, materials, shaders, j, old(gl.log), old(gl.nextName));
      shaders := shaders + [shader];
    }
    assert materials[..|materials|] == materials;
  }

  /** The commands of from_res once the OBJ file is loaded, from the next
      name `n`: the submeshes of the models, then the programs of the materials. */
  function FromResCommands(n: nat, lambert: Lambert, locate: (nat, string) -> int,
                           models: seq<Obj.ObjMesh>, materials: seq<Obj.ObjMaterial>): seq<Command> {
    ModelsCommands(n, models) + MaterialsCommands(n + 3 * |models|, lambert, locate, materials)
  }

  /** The two loops of from_res, one after the other, log FromResCommands. */
  lemma FromResSteps(log: seq<Command>, modelsLog: seq<Command>, finalLog: seq<Command>, n: nat, afterModels: nat,
                     lambert: Lambert, locate: (nat, string) -> int, models: seq<Obj.ObjMesh>, materials: seq<Obj.ObjMaterial>)
    requires modelsLog == log + ModelsCommands(n, models)
    requires afterModels == n + 3 * |models|
    requires finalLog == modelsLog + MaterialsCommands(afterModels, lambert, locate, materials)
    ensures finalLog == log + FromResCommands(n, lambert, locate, models, materials)
  {
    AppendBlocks(log, modelsLog, finalLog, ModelsCommands(n, models), MaterialsCommands(afterModels, lambert, locate, materials));
  }

  /** The second loop of from_res, pushing onto the mesh's shaders: one
      program per OBJ material, in order. */
  method AttachShaders(gl: Context, res: Resources.Resources, materials: seq<Obj.ObjMaterial>, mesh: Mesh)
    requires |materials| > 0 ==> LambertLoads(res)
    modifies gl, mesh`shaders
    ensures |mesh.shaders| == |materials| && AllBuilt(mesh.shaders, gl, res, materials)
    ensures gl.nextName == old(gl.nextName) + MaterialsNames(materials)
    ensures gl.log == old(gl.log) + MaterialsCommands(old(gl.nextName), LambertOf(res), gl.locate, materials)
  {
    var shaders := BuildShaders(gl, res, materials);
    mesh.shaders := shaders;
  }

  /** The part of Mesh::from_res after the OBJ file has loaded: one submesh
      per model, in order; then one lambert program per material, in order. */
  method BuildMesh(gl: Context, res: Resources.Resources, models: seq<Obj.ObjMesh>, materials: seq<Obj.ObjMaterial>)
    returns (mesh: Mesh)
    requires forall m <- models :: Obj.Indexable(m)
    requires |materials| > 0 ==> LambertLoads(res)
    modifies gl
    ensures fresh(mesh) && mesh.matrix == Identity
    ensures |mesh.submeshes| == |models| && AllBuiltFrom(mesh.submeshes, models) && OnContext(mesh.submeshes, gl)
    ensures |mesh.shaders| == |materials| && AllBuilt(mesh.shaders, gl, res, materials)
    ensures gl.nextName == old(gl.nextName) + 3 * |models| + MaterialsNames(materials)
    ensures gl.log == old(gl.log) + FromResCommands(old(gl.nextName), LambertOf(res), gl.locate, models, materials)
  {
    var submeshes := BuildSubMeshes(gl, models);
    mesh := new Mesh(submeshes);
    ghost var modelsLog, afterModels := gl.log, gl.nextName;
    AttachShaders(gl, res, materials, mesh);
    FromResSteps(old(gl.log), modelsLog, gl.log, old(gl.nextName), afterModels, LambertOf(res), gl.locate, models, materials);
  }

  /** Mesh::from_res: one submesh per OBJ model, in order; then one lambert
      program per material, in order. The lambert resources are needed only
      when there is a material to make a program for. */
  method FromRes(gl: Context, res: Resources.Resources, name: string, loadObj: Resources.Path -> Result<Obj.ObjFile, string>)
    returns (r: Result<Mesh, string>)
    requires var file := loadObj(Resources.ResourcePath(res.root, name));
      file.Ok? ==> (forall m <- file.value.models :: Obj.Indexable(m)) && (|file.value.materials| > 0 ==> LambertLoads(res))
    modifies gl
    ensures var file := loadObj(Resources.ResourcePath(res.root, name));
      file.Err? ==> r == Err(file.error) && gl.log == old(gl.log) && gl.nextName == old(gl.nextName)
    ensures var file := loadObj(Resources.ResourcePath(res.root, name));
      file.Ok? ==> (
        && r.Ok? && fresh(r.value)
        && r.value.matrix == Identity
        && |r.value.submeshes| == |file.value.models|
        && (forall i :: 0 <= i < |file.value.models| ==> BuiltFrom(r.value.submeshes[i], file.value.models[i]))
        && OnContext(r.value.submeshes, gl)
        && |r.value.shaders| == |file.value.materials|
        && (forall j :: 0 <= j < |file.value.materials| ==> r.value.shaders[j].Valid())
        && (forall j :: 0 <= j < |file.value.materials| ==> MadeFor(r.value.shaders[j].texture, res, file.value.materials[j]))
        && AllBuilt(r.value.shaders, gl, res, file.value.materials))
    ensures var file := loadObj(Resources.ResourcePath(res.root, name));
      file.Ok? ==>
        var afterModels := old(gl.nextName) + 3 * |file.value.models|;
        && gl.nextName == afterModels + MaterialsNames(file.value.materials)
        && gl.log == old(gl.log) + FromResCommands(old(gl.nextName), LambertOf(res), gl.locate, file.value.models, file.value.materials)
  {
    var path := Resources.ResourceNameToPath(res.root, name);
    var file := loadObj(path);
    if file.Err? {
      return Err(file.error);
    }
    var mesh := BuildMesh(gl, res, file.value.models, file.value.materials);
    return Ok(mesh);
  }
}
