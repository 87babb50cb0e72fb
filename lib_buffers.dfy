/** The GPU buffer wrappers of lib/palantir-lib. These call the global GL
    entry points; the model passes that global context explicitly. */
module LibBuffers {
  import opened Gl
  import opened Maths
  import Layout

  class VertexBuffer {
    const id: Name
    /** The vertices uploaded at creation. */
    ghost const contents: seq<Vertex>

    constructor (gl: Context, vertices: seq<Vertex>)
      modifies gl
      ensures id == old(gl.nextName) && gl.nextName == id + 1 && contents == vertices
      ensures gl.log == old(gl.log)
        + [GenBuffers(id), BindBuffer(ARRAY_BUFFER, id), BufferData(ARRAY_BUFFER, |vertices| * VERTEX_SIZE, STATIC_DRAW)]
    {
      contents := vertices;
      var name := gl.GenName();
      id := name;
      new;
      gl.log := gl.log
        + [GenBuffers(id), BindBuffer(ARRAY_BUFFER, id), BufferData(ARRAY_BUFFER, |vertices| * VERTEX_SIZE, STATIC_DRAW)];
    }

    method Bind(gl: Context)
      modifies gl`log
      ensures gl.log == old(gl.log) + [BindBuffer(ARRAY_BUFFER, id)]
    {
      gl.log := gl.log + [BindBuffer(ARRAY_BUFFER, id)];
    }

    method Drop(gl: Context)
      modifies gl`log
      ensures gl.log == old(gl.log) + [DeleteBuffers(id)]
    {
      gl.log := gl.log + [DeleteBuffers(id)];
    }
  }

  /** IndexBuffer derives Clone: a clone carries the same name, and each
      copy's Drop deletes that name. */
  class IndexBuffer {
    const count: U32
    const id: Name
    /** The indices uploaded at creation. */
    ghost const contents: seq<nat>

    constructor (gl: Context, indices: seq<nat>)
      modifies gl
      ensures id == old(gl.nextName) && gl.nextName == id + 1
      ensures count == AsU32(|indices|) && contents == indices
      ensures gl.log == old(gl.log)
        + [GenBuffers(id), BindBuffer(ELEMENT_ARRAY_BUFFER, id), BufferData(ELEMENT_ARRAY_BUFFER, |indices| * 4, STATIC_DRAW)]
    {
      count := AsU32(|indices|);
      contents := indices;
      var name := gl.GenName();
      id := name;
      new;
      gl.log := gl.log
        + [GenBuffers(id), BindBuffer(ELEMENT_ARRAY_BUFFER, id), BufferData(ELEMENT_ARRAY_BUFFER, |indices| * 4, STATIC_DRAW)];
    }

    /** The derived Clone: a new value with the same fields, no GL call. */
    constructor Clone(original: IndexBuffer)
      ensures count == original.count && id == original.id && contents == original.contents
    {
      contents := original.contents;
      count := original.count;
      id := original.id;
    }

    method Bind(gl: Context)
      modifies gl`log
      ensures gl.log == old(gl.log) + [BindBuffer(ELEMENT_ARRAY_BUFFER, id)]
    {
      gl.log := gl.log + [BindBuffer(ELEMENT_ARRAY_BUFFER, id)];
    }

    method Drop(gl: Context)
      modifies gl`log
      ensures gl.log == old(gl.log) + [DeleteBuffers(id)]
    {
      gl.log := gl.log + [DeleteBuffers(id)];
    }
  }

  /** VertexArray derives Copy and has no Drop: it is a plain value and its
      name is never deleted, however many copies exist. */
  datatype VertexArray = VertexArray(id: Name)

  method NewVertexArray(gl: Context) returns (va: VertexArray)
    modifies gl
    ensures va.id == old(gl.nextName) && gl.nextName == va.id + 1
    ensures gl.log == old(gl.log) + [GenVertexArrays(va.id)]
  {
    var name := gl.GenName();
    va := VertexArray(name);
    gl.log := gl.log + [GenVertexArrays(va.id)];
  }

  method BindVertexArray(gl: Context, va: VertexArray)
    modifies gl`log
    ensures gl.log == old(gl.log) + [Command.BindVertexArray(va.id)]
  {
    gl.log := gl.log + [Command.BindVertexArray(va.id)];
  }

  /** add_buffer: bind the VAO, then the vertex buffer, then every attribute. */
  method AddBuffer(gl: Context, va: VertexArray, vertexBuffer: VertexBuffer, layout: Layout.VertexBufferLayout)
    modifies gl`log
    ensures gl.log == old(gl.log)
      + [Command.BindVertexArray(va.id), BindBuffer(ARRAY_BUFFER, vertexBuffer.id)]
      + Layout.AttribCommands(layout.elements, layout.stride)
  {
    BindVertexArray(gl, va);
    vertexBuffer.Bind(gl);
    Layout.EnableAttributes(gl, layout);
  }
}
