/** The scene of src/scene.rs: a tree of named nodes kept in a map from node
    id to node, under a root node created with the scene, and the meshes
    loaded from OBJ files. */
module Scenes {
  import opened Gl
  import opened Maths
  import opened Wrappers
  import Obj
  import Resources
  import Textures
  import Layout
  import LibMesh
  import LibMaterial
  import opened MeshCommands

  /** Node ids; fresh ones come from the caller (Uuid::new_v4). */
  type Uuid = nat

  datatype Node = Node(uuid: Uuid, parent: Option<Uuid>, children: seq<Uuid>, name: string)

  /** Node::new: no children yet. */
  function NewNode(uuid: Uuid, name: string, parent: Option<Uuid>): (n: Node)
    ensures n.uuid == uuid && n.name == name && n.parent == parent && n.children == []
  {
    Node(uuid, parent, [], name)
  }

  /** Every node is stored under its own id; every child link points at a
      stored node that names the linking node as its parent; and every node
      whose parent is stored appears among that parent's children. */
  ghost predicate Linked(nodes: map<Uuid, Node>) {
    && (forall k :: k in nodes ==> nodes[k].uuid == k)
    && (forall k, c :: k in nodes && c in nodes[k].children ==> c in nodes && nodes[c].parent == Some(k))
    && (forall k :: k in nodes && nodes[k].parent.Some? && nodes[k].parent.value in nodes ==>
          k in nodes[nodes[k].parent.value].children)
  }

  /** The nodes after new_node(name, parent) with the fresh id `id`. */
  function WithNewNode(nodes: map<Uuid, Node>, root: Uuid, name: string, parent: Option<Uuid>, id: Uuid): map<Uuid, Node> {
    var p := if parent.None? then root else parent.value;
    var linked := if p in nodes then nodes[p := nodes[p].(children := nodes[p].children + [id])] else nodes;
    linked[id := NewNode(id, name, Some(p))]
  }

  /** A fresh id: no node is stored under it or names it as parent (a
      random version-4 UUID, which the model takes as given). */
  ghost predicate Unused(nodes: map<Uuid, Node>, id: Uuid) {
    id !in nodes && forall k :: k in nodes ==> nodes[k].parent != Some(id)
  }

  /** Adding a node keeps the links consistent in both directions, leaves
      every other node as it was apart from the parent's new child, and
      never touches the root's parent or name. */
  lemma NewNodeKeepsLinks(nodes: map<Uuid, Node>, root: Uuid, name: string, parent: Option<Uuid>, id: Uuid)
    requires Linked(nodes) && Unused(nodes, id) && parent != Some(id) && root in nodes
    ensures var after := WithNewNode(nodes, root, name, parent, id);
      && Linked(after)
      && after.Keys == nodes.Keys + {id}
      && (forall k :: k in nodes ==> after[k].uuid == nodes[k].uuid && after[k].parent == nodes[k].parent && after[k].name == nodes[k].name)
      && (forall k :: k in nodes && Some(k) != after[id].parent ==> after[k] == nodes[k])
  {
    var after := WithNewNode(nodes, root, name, parent, id);
    var p := if parent.None? then root else parent.value;
    AddedLinks(nodes, after, id, p);
  }

  /** The link argument of NewNodeKeepsLinks, for any map shaped like the
      result of new_node: one new node `id` under `p`, whose children list,
      if `p` is stored, gains `id` at the end. */
  lemma AddedLinks(nodes: map<Uuid, Node>, after: map<Uuid, Node>, id: Uuid, p: Uuid)
    requires Linked(nodes) && Unused(nodes, id) && p != id
    requires after.Keys == nodes.Keys + {id}
    requires after[id].uuid == id && after[id].parent == Some(p) && after[id].children == []
    requires forall k :: k in nodes && k != p ==> after[k] == nodes[k]
    requires p in nodes ==> after[p] == nodes[p].(children := nodes[p].children + [id])
    ensures Linked(after)
  {
    forall k, c | k in after && c in after[k].children
      ensures c in after && after[c].parent == Some(k)
    {
      if k != id && c != id {
        assert c in nodes[k].children;
      }
    }
    forall k | k in after && after[k].parent.Some? && after[k].parent.value in after
      ensures k in after[after[k].parent.value].children
    {
      if k != id {
        var q := nodes[k].parent.value;
        assert q in nodes && k in nodes[q].children;
      }
    }
  }

  class Scene {
    var nodes: map<Uuid, Node>
    const rootNode: Uuid
    var meshes: seq<LibMesh.Mesh>

    /** The root is stored, named "Root", has no parent, and the links hold. */
    ghost predicate Valid()
      reads this
    {
      && rootNode in nodes
      && nodes[rootNode].name == "Root" && nodes[rootNode].parent == None
      && Linked(nodes)
    }

    /** Scene::new: exactly one node, the root, and no meshes. */
    constructor (rootId: Uuid)
      ensures Valid()
      ensures rootNode == rootId && nodes == map[rootId := NewNode(rootId, "Root", None)]
      ensures meshes == []
    {
      rootNode := rootId;
      nodes := map[rootId := NewNode(rootId, "Root", None)];
      meshes := [];
    }

    /** new_node: a missing parent means the root; the fresh id is appended
        to the parent's children when the parent exists; the node is stored
        in any case, with the parent it was given, and its id returned. */
    method NewNodeIn(name: string, parent: Option<Uuid>, freshId: Uuid) returns (id: Uuid)
      requires Valid() && Unused(nodes, freshId) && parent != Some(freshId)
      modifies this`nodes
      ensures Valid()
      ensures id == freshId
      ensures nodes == WithNewNode(old(nodes), rootNode, name, parent, freshId)
    {
      var p := parent;
      if p.None? {
        p := Some(rootNode);
      }
      id := freshId;
      var target := p.value;
      var parentNode := Node(target);
      if parentNode.Some? {
        var node := parentNode.value;
        nodes := nodes[target := node.(children := node.children + [id])];
      }
      nodes := nodes[id := NewNode(id, name, p)];
      NewNodeKeepsLinks(old(nodes), rootNode, name, parent, freshId);
    }

    /** root_node: the unwrap never fails, since no operation removes nodes. */
    function RootNode(): (r: Node)
      requires Valid()
      reads this
      ensures r.uuid == rootNode && r.name == "Root" && r.parent == None
      ensures r == nodes[rootNode]
    {
      nodes[rootNode]
    }

    /** node: the stored node, if any. */
    function Node(uuid: Uuid): (r: Option<Node>)
      reads this
      ensures r.Some? <==> uuid in nodes
      ensures r.Some? ==> r.value == nodes[uuid]
    {
      if uuid in nodes then Some(nodes[uuid]) else None
    }

    method AddMesh(mesh: LibMesh.Mesh)
      modifies this`meshes
      ensures meshes == old(meshes) + [mesh]
    {
      meshes := meshes + [mesh];
    }

    /** load_obj: the mesh is named after the file; one submesh per OBJ
        model, in order; one material per OBJ material with diffuse (1,1,1)
        and a texture iff the material names one, read from that texture's
        file; the mesh is appended to the scene. The log gets the submesh
        blocks, then one texture block per textured material. A loader error
        is returned and changes nothing. */
    method LoadObj(gl: Context, path: Resources.Path, res: Resources.Resources,
                   loadObj: Resources.Path -> Result<Obj.ObjFile, string>)
      returns (r: Result<(), string>)
      requires |path| > 0
      requires var file := loadObj(path);
        file.Ok? ==> forall m <- file.value.models :: Obj.Indexable(m)
      modifies this`meshes, gl
      ensures var file := loadObj(path);
        file.Err? ==> r == Err(file.error) && meshes == old(meshes) && gl.log == old(gl.log) && gl.nextName == old(gl.nextName)
      ensures var file := loadObj(path);
        file.Ok? ==> (
          && r.Ok? && |meshes| == |old(meshes)| + 1 && meshes[..|old(meshes)|] == old(meshes)
          && Loaded(meshes[|old(meshes)|], path[|path| - 1], res, file.value))
      ensures var file := loadObj(path);
        file.Ok? ==>
          && gl.nextName == old(gl.nextName) + 3 * |file.value.models| + TexturesNames(file.value.materials)
          && gl.log == old(gl.log) + LoadObjCommands(old(gl.nextName), file.value.models, file.value.materials)
    {
      var name := path[|path| - 1];
      var file := loadObj(path);
      if file.Err? {
        return Err(file.error);
      }
      var mesh := BuildMesh(gl, res, name, file.value.models, file.value.materials);
      AddMesh(mesh);
      return Ok(());
    }
  }

  /** The buffers of `s` hold OBJ model `m`: its flattened vertices, its
      indices and their u32 count, and its material id. */
  ghost predicate Uploaded(s: LibMesh.SubMesh, m: Obj.ObjMesh)
    requires Obj.Indexable(m)
  {
    && s.shaderIndex == m.materialId
    && |s.vertexBuffer.contents| == Obj.VertexCount(m)
    && (forall k :: 0 <= k < |s.vertexBuffer.contents| ==> s.vertexBuffer.contents[k] == Obj.VertexAt(m, k))
    && s.indexBuffer.contents == m.indices
    && s.indexBuffer.count == AsU32(|m.indices|)
  }

  /** Submesh i was built from OBJ model i: its buffers hold the model and
      its layout is position, normal, uv. */
  ghost predicate BuiltFrom(s: LibMesh.SubMesh, m: Obj.ObjMesh)
    requires Obj.Indexable(m)
    reads s.layout
  {
    Uploaded(s, m) && s.layout.elements == Layout.VertexElements() && s.layout.stride == VERTEX_SIZE
  }

  /** Each of `submeshes` was built from the model at its position. */
  ghost predicate AllBuiltFrom(submeshes: seq<LibMesh.SubMesh>, models: seq<Obj.ObjMesh>)
    requires forall m <- models :: Obj.Indexable(m)
    reads set k | 0 <= k < |submeshes| :: submeshes[k].layout
  {
    |submeshes| <= |models| && forall k :: 0 <= k < |submeshes| ==> BuiltFrom(submeshes[k], models[k])
  }

  lemma AllBuiltFromAppend(submeshes: seq<LibMesh.SubMesh>, submesh: LibMesh.SubMesh, models: seq<Obj.ObjMesh>)
    requires |submeshes| < |models| && forall m <- models :: Obj.Indexable(m)
    requires AllBuiltFrom(submeshes, models) && BuiltFrom(submesh, models[|submeshes|])
    ensures AllBuiltFrom(submeshes + [submesh], models)
  {
  }

  /** A material load_obj makes from an OBJ material: white diffuse, and a
      texture exactly when the OBJ material names a texture file, read from
      that file. */
  predicate MaterialFrom(m: LibMaterial.Material, res: Resources.Resources, o: Obj.ObjMaterial) {
    && m.diffuse == Vec3(1.0, 1.0, 1.0)
    && (m.diffuseTexture.Some? <==> |o.diffuseTexture| > 0)
    && (m.diffuseTexture.Some? ==> m.diffuseTexture.value.source == TextureSource(res, o))
  }

  /** The mesh load_obj appends for `file`, read from a file called `name`. */
  ghost predicate Loaded(mesh: LibMesh.Mesh, name: string, res: Resources.Resources, file: Obj.ObjFile)
    requires forall m <- file.models :: Obj.Indexable(m)
    reads mesh, set k | 0 <= k < |mesh.submeshes| :: mesh.submeshes[k].layout
  {
    && mesh.name == name && mesh.matrix == Identity && mesh.shaders == []
    && |mesh.submeshes| == |file.models| && AllBuiltFrom(mesh.submeshes, file.models)
    && |mesh.materials| == |file.materials|
    && AllMaterialsFrom(mesh.materials, res, file.materials)
  }

  /** One iteration of the model loop: the submesh of model i is appended to
      the submeshes before it, and its block to their log. */
  method NextSubMesh(gl: Context, models: seq<Obj.ObjMesh>, submeshes: seq<LibMesh.SubMesh>, i: nat,
                     ghost log: seq<Command>, ghost n: nat)
    returns (submesh: LibMesh.SubMesh)
    requires i == |submeshes| < |models| && forall m <- models :: Obj.Indexable(m)
    requires AllBuiltFrom(submeshes, models)
    requires gl.nextName == n + 3 * i
    requires gl.log == log + ModelsPrefixCommands(n, models, i)
    modifies gl
    ensures fresh(submesh.layout) && AllBuiltFrom(submeshes + [submesh], models)
    ensures gl.nextName == n + 3 * (i + 1)
    ensures gl.log == log + ModelsPrefixCommands(n, models, i + 1)
  {
    ghost var before, name := gl.log, gl.nextName;
    var model := models[i];
    var vertices := Obj.Flatten(model);
    submesh := new LibMesh.SubMesh(gl, vertices, model.indices, model.materialId);
    AllBuiltFromAppend(submeshes, submesh, models);
    ModelsCommandsStep(log, before, gl.log, n, name, models, i);
  }

  /** The model loop of load_obj: one submesh per OBJ model, in order. */
  method BuildSubMeshes(gl: Context, models: seq<Obj.ObjMesh>) returns (submeshes: seq<LibMesh.SubMesh>)
    requires forall m <- models :: Obj.Indexable(m)
    modifies gl
    ensures |submeshes| == |models|
    ensures forall i :: 0 <= i < |models| ==> fresh(submeshes[i].layout)
    ensures AllBuiltFrom(submeshes, models)
    ensures gl.nextName == old(gl.nextName) + 3 * |models|
    ensures gl.log == old(gl.log) + ModelsCommands(old(gl.nextName), models)
  {
    submeshes := [];
    ghost var layouts: set<Layout.VertexBufferLayout> := {};
    var i := 0;
    while i < |models|
      invariant i <= |models| && |submeshes| == i
      invariant fresh(layouts)
      invariant forall k :: 0 <= k < i ==> submeshes[k].layout in layouts
      invariant AllBuiltFrom(submeshes, models)
      invariant gl.nextName == old(gl.nextName) + 3 * i
      invariant gl.log == old(gl.log) + ModelsPrefixCommands(old(gl.nextName), models, i)
    {
      var submesh := NextSubMesh(gl, models, submeshes, i, old(gl.log), old(gl.nextName));
      submeshes := submeshes + [submesh];
      layouts := layouts + {submesh.layout};
      i := i + 1;
    }
  }

  /** The names one material of load_obj takes: a texture iff it names one. */
  function TextureNames(material: Obj.ObjMaterial): nat {
    if |material.diffuseTexture| > 0 then 1 else 0
  }

  /** The commands one material of load_obj issues from the next name `n`:
      Texture::new creates and binds a texture iff the material names one. */
  function TextureCommands(n: nat, material: Obj.ObjMaterial): seq<Command> {
    if |material.diffuseTexture| > 0 then [GenTextures(n), BindTexture(TEXTURE_2D, n)] else []
  }

  /** The names the material loop of load_obj takes: one per textured material. */
  function TexturesNames(materials: seq<Obj.ObjMaterial>): nat {
    if materials == [] then 0
    else
      var k := |materials| - 1;
      TexturesNames(materials[..k]) + TextureNames(materials[k])
  }

  /** The commands of the material loop of load_obj from the next name `n`,
      in material order. */
  function TexturesCommands(n: nat, materials: seq<Obj.ObjMaterial>): seq<Command> {
    if materials == [] then []
    else
      var k := |materials| - 1;
      TexturesCommands(n, materials[..k]) + TextureCommands(n + TexturesNames(materials[..k]), materials[k])
  }

  /** The commands load_obj issues from the next name `n`: the submeshes,
      then the textures. */
  function LoadObjCommands(n: nat, models: seq<Obj.ObjMesh>, materials: seq<Obj.ObjMaterial>): seq<Command> {
    ModelsCommands(n, models) + TexturesCommands(n + 3 * |models|, materials)
  }

  /** The log after the model loop and then the material loop holds the
      commands of load_obj. */
  lemma LoadObjSteps(log: seq<Command>, modelsLog: seq<Command>, finalLog: seq<Command>, n: nat,
                     models: seq<Obj.ObjMesh>, materials: seq<Obj.ObjMaterial>)
    requires modelsLog == log + ModelsCommands(n, models)
    requires finalLog == modelsLog + TexturesCommands(n + 3 * |models|, materials)
    ensures finalLog == log + LoadObjCommands(n, models, materials)
  {
    AppendBlocks(log, modelsLog, finalLog, ModelsCommands(n, models), TexturesCommands(n + 3 * |models|, materials));
  }

  /** One more material appends its texture block and takes its names. */
  lemma TexturesStep(log: seq<Command>, before: seq<Command>, after: seq<Command>, n: nat, name: nat,
                     materials: seq<Obj.ObjMaterial>, j: nat)
    requires j < |materials|
    requires before == log + TexturesCommands(n, materials[..j])
    requires name == n + TexturesNames(materials[..j])
    requires after == before + TextureCommands(name, materials[j])
    ensures TexturesNames(materials[..j + 1]) == TexturesNames(materials[..j]) + TextureNames(materials[j])
    ensures after == log + TexturesCommands(n, materials[..j + 1])
  {
    var prefix := materials[..j + 1];
    assert prefix[..j] == materials[..j];
    var done := TexturesCommands(n, materials[..j]);
    var block := TextureCommands(name, materials[j]);
    assert TexturesCommands(n, prefix) == done + block;
    AppendAssociative(log, done, block);
  }

  /** One step of the material loop of load_obj: a white material with a
      texture iff the OBJ material names one, read from its file. */
  method MaterialOf(gl: Context, res: Resources.Resources, material: Obj.ObjMaterial) returns (m: LibMaterial.Material)
    modifies gl
    ensures MaterialFrom(m, res, material)
    ensures m.diffuseTexture.Some? ==> m.diffuseTexture.value.id == old(gl.nextName)
    ensures gl.nextName == old(gl.nextName) + TextureNames(material)
    ensures gl.log == old(gl.log) + TextureCommands(old(gl.nextName), material)
  {
    var texture: Option<Textures.Texture>;
    var texturePath := material.diffuseTexture;
    if |texturePath| > 0 {
      var fullPath := Resources.ResourceNameToPath(res.root, Obj.RemoveAll(texturePath, "res://"));
      var t := Textures.New(gl, fullPath);
      texture := Some(t);
    } else {
      texture := None;
    }
    m := LibMaterial.New(Vec3(1.0, 1.0, 1.0), texture);
  }

  /** Each of `built` was made from the OBJ material at its position. */
  predicate AllMaterialsFrom(built: seq<LibMaterial.Material>, res: Resources.Resources, materials: seq<Obj.ObjMaterial>) {
    |built| <= |materials| && forall k :: 0 <= k < |built| ==> MaterialFrom(built[k], res, materials[k])
  }

  /** One iteration of the material loop: the material made for OBJ
      material j follows those before it, and its block their log. */
  method NextMaterial(gl: Context, res: Resources.Resources, materials: seq<Obj.ObjMaterial>,
                      built: seq<LibMaterial.Material>, j: nat, ghost log: seq<Command>, ghost n: nat)
    returns (m: LibMaterial.Material)
    requires j == |built| < |materials| && AllMaterialsFrom(built, res, materials)
    requires gl.nextName == n + TexturesNames(materials[..j])
    requires gl.log == log + TexturesCommands(n, materials[..j])
    modifies gl
    ensures AllMaterialsFrom(built + [m], res, materials)
    ensures gl.nextName == n + TexturesNames(materials[..j + 1])
    ensures gl.log == log + TexturesCommands(n, materials[..j + 1])
  {
    ghost var before, name := gl.log, gl.nextName;
    m := MaterialOf(gl, res, materials[j]);
    TexturesStep(log, before, gl.log, n, name, materials, j);
  }

  /** The material loop of load_obj: one material per OBJ material, in order. */
  method BuildMaterials(gl: Context, res: Resources.Resources, materials: seq<Obj.ObjMaterial>)
    returns (built: seq<LibMaterial.Material>)
    modifies gl
    ensures |built| == |materials| && AllMaterialsFrom(built, res, materials)
    ensures gl.nextName == old(gl.nextName) + TexturesNames(materials)
    ensures gl.log == old(gl.log) + TexturesCommands(old(gl.nextName), materials)
  {
    built := [];
    var j := 0;
    while j < |materials|
      invariant j <= |materials| && |built| == j
      invariant AllMaterialsFrom(built, res, materials)
      invariant gl.nextName == old(gl.nextName) + TexturesNames(materials[..j])
      invariant gl.log == old(gl.log) + TexturesCommands(old(gl.nextName), materials[..j])
    {
      var m := NextMaterial(gl, res, materials, built, j, old(gl.log), old(gl.nextName));
      built := built + [m];
      j := j + 1;
    }
    assert materials[..j] == materials;
  }

  /** The material loop of load_obj, pushing onto the mesh's materials. */
  method AttachMaterials(gl: Context, res: Resources.Resources, materials: seq<Obj.ObjMaterial>, mesh: LibMesh.Mesh)
    modifies gl, mesh`materials
    ensures |mesh.materials| == |materials| && AllMaterialsFrom(mesh.materials, res, materials)
    ensures gl.nextName == old(gl.nextName) + TexturesNames(materials)
    ensures gl.log == old(gl.log) + TexturesCommands(old(gl.nextName), materials)
  {
    var built := BuildMaterials(gl, res, materials);
    mesh.materials := built;
  }

  /** The mesh load_obj builds, before it is added to the scene: its
      submeshes, its name, then its materials. */
  method BuildMesh(gl: Context, res: Resources.Resources, name: string, models: seq<Obj.ObjMesh>, materials: seq<Obj.ObjMaterial>)
    returns (mesh: LibMesh.Mesh)
    requires forall m <- models :: Obj.Indexable(m)
    modifies gl
    ensures Loaded(mesh, name, res, Obj.ObjFile(models, materials))
    ensures gl.nextName == old(gl.nextName) + 3 * |models| + TexturesNames(materials)
    ensures gl.log == old(gl.log) + LoadObjCommands(old(gl.nextName), models, materials)
  {
    var submeshes := BuildSubMeshes(gl, models);
    mesh := new LibMesh.Mesh(submeshes);
    mesh.name := name;
    ghost var modelsLog := gl.log;
    AttachMaterials(gl, res, materials, mesh);
    LoadObjSteps(old(gl.log), modelsLog, gl.log, old(gl.nextName), models, materials);
  }
}
