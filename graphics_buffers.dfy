/** The GPU buffer wrappers of src/graphics/buffers: each object holds the
    context it was created on (Rust's cloned gl::Gl handle). */
module GraphicsBuffers {
  import opened Gl
  import opened Maths
  import Layout

  class VertexBuffer {
    const gl: Context
    const id: Name
    /** The vertices uploaded at creation. */
    ghost const contents: seq<Vertex>

    /** GenBuffers, bind to ARRAY_BUFFER, upload len·size_of::<Vertex>() bytes, STATIC_DRAW. */
    constructor (gl: Context, vertices: seq<Vertex>)
      modifies gl
      ensures this.gl == gl && id == old(gl.nextName) && gl.nextName == id + 1 && contents == vertices
      ensures gl.log == old(gl.log)
        + [GenBuffers(id), BindBuffer(ARRAY_BUFFER, id), BufferData(ARRAY_BUFFER, |vertices| * VERTEX_SIZE, STATIC_DRAW)]
    {
      this.gl := gl;
      contents := vertices;
      var name := gl.GenName();
      id := name;
      new;
      gl.log := gl.log
        + [GenBuffers(id), BindBuffer(ARRAY_BUFFER, id), BufferData(ARRAY_BUFFER, |vertices| * VERTEX_SIZE, STATIC_DRAW)];
    }

    method Bind()
      modifies gl`log
      ensures gl.log == old(gl.log) + [BindBuffer(ARRAY_BUFFER, id)]
    {
      gl.log := gl.log + [BindBuffer(ARRAY_BUFFER, id)];
    }

    method Unbind()
      modifies gl`log
      ensures gl.log == old(gl.log) + [BindBuffer(ARRAY_BUFFER, 0)]
    {
      gl.log := gl.log + [BindBuffer(ARRAY_BUFFER, 0)];
    }

    /** Drop: delete the buffer's own name. */
    method Drop()
      modifies gl`log
      ensures gl.log == old(gl.log) + [DeleteBuffers(id)]
    {
      gl.log := gl.log + [DeleteBuffers(id)];
    }
  }

  class IndexBuffer {
    const gl: Context
    const count: U32
    const id: Name
    /** The indices uploaded at creation. */
    ghost const contents: seq<nat>

    /** count = indices.len() as u32; upload len·4 bytes to ELEMENT_ARRAY_BUFFER, STATIC_DRAW. */
    constructor (gl: Context, indices: seq<nat>)
      modifies gl
      ensures this.gl == gl && id == old(gl.nextName) && gl.nextName == id + 1
      ensures count == AsU32(|indices|) && contents == indices
      ensures gl.log == old(gl.log)
        + [GenBuffers(id), BindBuffer(ELEMENT_ARRAY_BUFFER, id), BufferData(ELEMENT_ARRAY_BUFFER, |indices| * 4, STATIC_DRAW)]
    {
      this.gl := gl;
      count := AsU32(|indices|);
      contents := indices;
      var name := gl.GenName();
      id := name;
      new;
      gl.log := gl.log
        + [GenBuffers(id), BindBuffer(ELEMENT_ARRAY_BUFFER, id), BufferData(ELEMENT_ARRAY_BUFFER, |indices| * 4, STATIC_DRAW)];
    }

    method Bind()
      modifies gl`log
      ensures gl.log == old(gl.log) + [BindBuffer(ELEMENT_ARRAY_BUFFER, id)]
    {
      gl.log := gl.log + [BindBuffer(ELEMENT_ARRAY_BUFFER, id)];
    }

    method Unbind()
      modifies gl`log
      ensures gl.log == old(gl.log) + [BindBuffer(ELEMENT_ARRAY_BUFFER, 0)]
    {
      gl.log := gl.log + [BindBuffer(ELEMENT_ARRAY_BUFFER, 0)];
    }

    method Drop()
      modifies gl`log
      ensures gl.log == old(gl.log) + [DeleteBuffers(id)]
    {
      gl.log := gl.log + [DeleteBuffers(id)];
    }
  }

  /** A vertex array object. The type has no Drop: its name is never deleted. */
  class VertexArray {
    const gl: Context
    const id: Name

    constructor (gl: Context)
      modifies gl
      ensures this.gl == gl && id == old(gl.nextName) && gl.nextName == id + 1
      ensures gl.log == old(gl.log) + [GenVertexArrays(id)]
    {
      this.gl := gl;
      var name := gl.GenName();
      id := name;
      new;
      gl.log := gl.log + [GenVertexArrays(id)];
    }

    /** Bind the VAO, then the vertex buffer, then describe every attribute. */
    method AddBuffer(vertexBuffer: VertexBuffer, layout: Layout.VertexBufferLayout)
      requires vertexBuffer.gl == gl
      modifies gl`log
      ensures gl.log == old(gl.log)
        + [BindVertexArray(id), BindBuffer(ARRAY_BUFFER, vertexBuffer.id)]
        + Layout.AttribCommands(layout.elements, layout.stride)
    {
      Bind();
      vertexBuffer.Bind();
      Layout.EnableAttributes(gl, layout);
    }

    method Bind()
      modifies gl`log
      ensures gl.log == old(gl.log) + [BindVertexArray(id)]
    {
      gl.log := gl.log + [BindVertexArray(id)];
    }

    method Unbind()
      modifies gl`log
      ensures gl.log == old(gl.log) + [BindVertexArray(0)]
    {
      gl.log := gl.log + [BindVertexArray(0)];
    }
  }
}
