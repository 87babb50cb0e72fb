/** Vertex buffer layouts and the attribute binding they drive.
    The two copies of the engine (src/graphics/buffers and lib/palantir-lib)
    carry the same layout code; this module models it once. */
module Layout {
  import opened Gl
  import Maths

  /** The Rust types that implement GLType. */
  datatype GlPrimitive = F32 | U32 | U8

  function GlSize(t: GlPrimitive): nat {
    match t
    case F32 => 4
    case U32 => 4
    case U8 => 1
  }

  function GlTypeCode(t: GlPrimitive): nat {
    match t
    case F32 => FLOAT
    case U32 => UNSIGNED_INT
    case U8 => UNSIGNED_BYTE
  }

  function Normalized(t: GlPrimitive): nat {
    match t
    case F32 => FALSE
    case U32 => FALSE
    case U8 => TRUE
  }

  /** The GLType table: 4-byte float and unsigned int, not normalized;
      1-byte unsigned byte, normalized. */
  lemma GlTypeTable()
    ensures (GlSize(F32), GlTypeCode(F32), Normalized(F32)) == (4, FLOAT, FALSE)
    ensures (GlSize(U32), GlTypeCode(U32), Normalized(U32)) == (4, UNSIGNED_INT, FALSE)
    ensures (GlSize(U8), GlTypeCode(U8), Normalized(U8)) == (1, UNSIGNED_BYTE, TRUE)
  {
  }

  datatype Element = Element(glType: nat, glSize: nat, count: nat, normalized: nat)

  function ElementOf(t: GlPrimitive, count: nat): Element {
    Element(GlTypeCode(t), GlSize(t), count, Normalized(t))
  }

  function Bytes(e: Element): nat {
    e.count * e.glSize
  }

  /** Σ count·size over the elements. */
  function TotalBytes(es: seq<Element>): nat {
    if es == [] then 0 else TotalBytes(es[..|es| - 1]) + Bytes(es[|es| - 1])
  }

  /** The byte offset of attribute i inside one vertex: the prefix sum. */
  function Offset(es: seq<Element>, i: nat): nat
    requires i <= |es|
  {
    TotalBytes(es[..i])
  }

  /** Offsets start at 0, each step adds the previous element's bytes,
      every attribute lies inside the stride, and the last offset is the stride. */
  lemma {:induction false} OffsetsArePrefixSums(es: seq<Element>)
    ensures Offset(es, 0) == 0
    ensures forall i :: 0 <= i < |es| ==> Offset(es, i + 1) == Offset(es, i) + Bytes(es[i])
    ensures forall i :: 0 <= i < |es| ==> Offset(es, i) + Bytes(es[i]) <= TotalBytes(es)
    ensures Offset(es, |es|) == TotalBytes(es)
  {
    assert es[..|es|] == es;
    forall i | 0 <= i < |es|
      ensures Offset(es, i + 1) == Offset(es, i) + Bytes(es[i])
    {
      assert es[..i + 1][..i] == es[..i];
    }
    forall i | 0 <= i < |es|
      ensures Offset(es, i) + Bytes(es[i]) <= TotalBytes(es)
    {
      PrefixBytesBounded(es, i + 1);
      assert es[..i + 1][..i] == es[..i];
    }
  }

  lemma {:induction false} PrefixBytesBounded(es: seq<Element>, k: nat)
    requires k <= |es|
    ensures TotalBytes(es[..k]) <= TotalBytes(es)
    decreases |es| - k
  {
    if k < |es| {
      PrefixBytesBounded(es, k + 1);
      assert es[..k + 1][..k] == es[..k];
    } else {
      assert es[..k] == es;
    }
  }

  /** The commands the attribute loop of add_buffer issues for `es`:
      for slot i, enable it, then describe its pointer. */
  function AttribCommands(es: seq<Element>, stride: nat): (r: seq<Command>)
    ensures |r| == 2 * |es|
  {
    if es == [] then []
    else
      var n := |es| - 1;
      AttribCommands(es[..n], stride)
        + [EnableVertexAttribArray(n),
           VertexAttribPointer(n, es[n].count, es[n].glType, es[n].normalized, stride, TotalBytes(es[..n]))]
  }

  /** Element i is bound to slot i, the slot is enabled just before its
      pointer is set, every pointer gets the same stride, and the offset
      passed for element i is the prefix sum of the elements before it. */
  lemma {:induction false} AttribSlot(es: seq<Element>, stride: nat, i: nat)
    requires i < |es|
    ensures AttribCommands(es, stride)[2 * i] == EnableVertexAttribArray(i)
    ensures AttribCommands(es, stride)[2 * i + 1]
         == VertexAttribPointer(i, es[i].count, es[i].glType, es[i].normalized, stride, Offset(es, i))
  {
    var n := |es| - 1;
    if i < n {
      AttribSlot(es[..n], stride, i);
      assert es[..n][..i] == es[..i];
    }
  }

  /** VertexBufferLayout: elements pushed in order, and their total size. */
  class VertexBufferLayout {
    var stride: nat
    var elements: seq<Element>

    ghost predicate Valid()
      reads this
    {
      stride == TotalBytes(elements)
    }

    constructor ()
      ensures Valid() && stride == 0 && elements == []
    {
      stride := 0;
      elements := [];
    }

    /** push::<T>(count) */
    method Push(t: GlPrimitive, count: nat)
      requires Valid()
      modifies this
      ensures Valid()
      ensures elements == old(elements) + [ElementOf(t, count)]
      ensures stride == old(stride) + count * GlSize(t)
    {
      elements := elements + [ElementOf(t, count)];
      stride := stride + count * GlSize(t);
      assert elements[..|elements| - 1] == old(elements);
    }
  }

  /** The attribute loop of VertexArray::add_buffer: element i goes to slot i
      with the layout's stride and the running byte offset. */
  method EnableAttributes(gl: Context, layout: VertexBufferLayout)
    modifies gl`log
    ensures gl.log == old(gl.log) + AttribCommands(layout.elements, layout.stride)
  {
    var offset: nat := 0;
    var i := 0;
    while i < |layout.elements|
      invariant 0 <= i <= |layout.elements|
      invariant offset == TotalBytes(layout.elements[..i])
      invariant gl.log == old(gl.log) + AttribCommands(layout.elements[..i], layout.stride)
    {
      var element := layout.elements[i];
      gl.log := gl.log + [EnableVertexAttribArray(i)];
      gl.log := gl.log + [VertexAttribPointer(i, element.count, element.glType, element.normalized, layout.stride, offset)];
      assert layout.elements[..i + 1][..i] == layout.elements[..i];
      offset := offset + element.count * element.glSize;
      i := i + 1;
    }
    assert layout.elements[..i] == layout.elements;
  }

  /** The layout both SubMesh::new build for a Vertex: position (3 floats),
      normal (3 floats), texture coordinates (2 floats). */
  function VertexElements(): seq<Element> {
    [ElementOf(F32, 3), ElementOf(F32, 3), ElementOf(F32, 2)]
  }

  /** The vertex layout spans exactly one Vertex, and add_buffer sends
      position to slot 0 at offset 0, the normal to slot 1 at offset 12 and
      the texture coordinates to slot 2 at offset 24, all with stride 32. */
  lemma VertexAttributes()
    ensures TotalBytes(VertexElements()) == Maths.VERTEX_SIZE
    ensures AttribCommands(VertexElements(), Maths.VERTEX_SIZE) ==
      [EnableVertexAttribArray(0), VertexAttribPointer(0, 3, FLOAT, FALSE, 32, 0),
       EnableVertexAttribArray(1), VertexAttribPointer(1, 3, FLOAT, FALSE, 32, 12),
       EnableVertexAttribArray(2), VertexAttribPointer(2, 2, FLOAT, FALSE, 32, 24)]
  {
    var es := VertexElements();
    assert es[..2][..1] == es[..1] && es[..1][..0] == [] && es[..3] == es;
    assert TotalBytes(es[..1]) == 12;
    assert TotalBytes(es[..2]) == 24;
  }

  /** The three pushes of SubMesh::new, in order, on a fresh layout. */
  method PushVertexElements(layout: VertexBufferLayout)
    requires layout.Valid() && layout.elements == []
    modifies layout
    ensures layout.Valid() && layout.elements == VertexElements() && layout.stride == Maths.VERTEX_SIZE
  {
    layout.Push(F32, 3);
    layout.Push(F32, 3);
    layout.Push(F32, 2);
  }
}
