/** Meshes of lib/palantir-lib/src/mesh.rs. The scene (src/scene.rs) also
    gives a mesh a name and a list of materials; those two fields are
    included here. */
module LibMesh {
  import opened Gl
  import opened Maths
  import opened Wrappers
  import Layout
  import LibBuffers
  import LibShader
  import LibMaterial
  import opened MeshCommands

  class SubMesh {
    const shaderIndex: Option<nat>
    const vertexBuffer: LibBuffers.VertexBuffer
    const layout: Layout.VertexBufferLayout
    const indexBuffer: LibBuffers.IndexBuffer
    const vertexArray: LibBuffers.VertexArray

    /** SubMesh::new: create the buffers, push position/normal/uv, and only
        then attach the vertex buffer to the vertex array. */
    constructor (gl: Context, vertices: seq<Vertex>, indices: seq<nat>, shaderIndex: Option<nat>)
      modifies gl
      ensures this.shaderIndex == shaderIndex
      ensures fresh(vertexBuffer) && fresh(layout) && fresh(indexBuffer)
      ensures vertexBuffer.contents == vertices && indexBuffer.contents == indices
      ensures indexBuffer.count == AsU32(|indices|)
      ensures layout.Valid() && layout.elements == Layout.VertexElements() && layout.stride == VERTEX_SIZE
      ensures vertexBuffer.id == old(gl.nextName) && indexBuffer.id == old(gl.nextName) + 1
      ensures vertexArray.id == old(gl.nextName) + 2 && gl.nextName == old(gl.nextName) + 3
      ensures gl.log == old(gl.log) + SubMeshCommands(old(gl.nextName), |vertices|, |indices|)
    {
      this.shaderIndex := shaderIndex;
      var vb := new LibBuffers.VertexBuffer(gl, vertices);
      var l := new Layout.VertexBufferLayout();
      var ib := new LibBuffers.IndexBuffer(gl, indices);
      var va := LibBuffers.NewVertexArray(gl);
      Layout.PushVertexElements(l);
      LibBuffers.AddBuffer(gl, va, vb, l);
      vertexBuffer := vb;
      layout := l;
      indexBuffer := ib;
      vertexArray := va;
    }
  }

  class Mesh {
    var submeshes: seq<SubMesh>
    var matrix: Matrix
    var shaders: seq<LibShader.ShaderProgram>
    var name: string
    var materials: seq<LibMaterial.Material>

    /** Mesh::new: the submeshes as given, the identity matrix, no shaders
        (and no name or materials yet). */
    constructor (submeshes: seq<SubMesh>)
      ensures this.submeshes == submeshes && matrix == Identity && shaders == []
      ensures name == "" && materials == []
    {
      this.submeshes := submeshes;
      matrix := Identity;
      shaders := [];
      name := "";
      materials := [];
    }
  }
}
