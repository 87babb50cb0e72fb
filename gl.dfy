/** An abstract OpenGL driver: the engine's GPU calls are recorded, in order,
    in a command log; object names come from a counter; the answers the driver
    gives to queries are oracles fixed when the context is created. */
module Gl {
  import opened Maths

  newtype byte = x: int | 0 <= x < 256

  /** Object names handed out by glGen* / glCreate*; 0 means "no object". */
  type Name = n: nat | n > 0 witness 1

  // Enumerants, with the values of the OpenGL headers.
  const FALSE: nat := 0
  const TRUE: nat := 1
  const UNSIGNED_BYTE: nat := 0x1401
  const UNSIGNED_INT: nat := 0x1405
  const FLOAT: nat := 0x1406
  const ARRAY_BUFFER: nat := 0x8892
  const ELEMENT_ARRAY_BUFFER: nat := 0x8893
  const STATIC_DRAW: nat := 0x88E4
  const FRAGMENT_SHADER: nat := 0x8B30
  const VERTEX_SHADER: nat := 0x8B31
  const TEXTURE_2D: nat := 0x0DE1
  const DEPTH_BUFFER_BIT: bv32 := 0x0100
  const COLOR_BUFFER_BIT: bv32 := 0x4000

  const U32_MODULUS: nat := 0x1_0000_0000
  const I32_MODULUS: nat := 0x8000_0000

  /** Values of Rust's u32. */
  type U32 = n: nat | n < U32_MODULUS

  /** Rust's `n as u32`: keep the low 32 bits. */
  function AsU32(n: nat): (r: U32)
    ensures n < U32_MODULUS ==> r == n
    ensures n >= U32_MODULUS ==> r < n
  {
    n % U32_MODULUS
  }

  /** Rust's `n as i32` for a u32 value: reinterpret the bits as two's complement. */
  function AsI32(n: U32): (r: int)
    ensures -(I32_MODULUS as int) <= r < I32_MODULUS
    ensures r == n || r == n - U32_MODULUS
  {
    if n < I32_MODULUS then n else n - U32_MODULUS
  }

  /** One call into the driver. */
  datatype Command =
    | GenBuffers(name: nat)
    | BindBuffer(target: nat, name: nat)
    | BufferData(target: nat, size: nat, usage: nat)
    | DeleteBuffers(name: nat)
    | GenVertexArrays(name: nat)
    | BindVertexArray(name: nat)
    | EnableVertexAttribArray(index: nat)
    | VertexAttribPointer(index: nat, size: nat, glType: nat, normalized: nat, stride: nat, offset: nat)
    | CreateShader(name: nat, kind: nat)
    | ShaderSource(name: nat, source: seq<byte>)
    | CompileShader(name: nat)
    | DeleteShader(name: nat)
    | CreateProgram(program: nat)
    | AttachShader(program: nat, shader: nat)
    | LinkProgram(program: nat)
    | DetachShader(program: nat, shader: nat)
    | DeleteProgram(program: nat)
    | UseProgram(program: nat)
    | GenTextures(name: nat)
    | BindTexture(target: nat, name: nat)
    | UniformMatrix4fv(location: int, matrix: Matrix)
    | Uniform3f(location: int, vector: Vec3)
    | Uniform1f(location: int, scalar: real)
    | Uniform1ui(location: int, unsigned: nat)
    | ClearColor(red: real, green: real, blue: real, alpha: real)
    | Clear(mask: bv32)
    | DrawElements(mode: nat, count: int, indexType: nat, offset: nat)

  /** The driver's answer to a compile or link status query, and, on failure,
      the info-log length it reports and the bytes it writes into the buffer. */
  datatype Verdict = Accepted | Rejected(logLength: nat, written: string)

  /** The GL context current on the rendering thread. */
  class Context {
    var log: seq<Command>
    var nextName: Name
    /** glGetUniformLocation(program, name): fixed once a program is linked. */
    const locate: (nat, string) -> int

    constructor (locate: (nat, string) -> int)
      ensures log == [] && nextName == 1 && this.locate == locate
    {
      log := [];
      nextName := 1;
      this.locate := locate;
    }

    /** A fresh object name: never handed out before. */
    method GenName() returns (name: Name)
      modifies this`nextName
      ensures name == old(nextName) && nextName == name + 1
    {
      name := nextName;
      nextName := nextName + 1;
    }
  }

  /** The uniform uploads. */
  predicate IsUniformWrite(c: Command) {
    c.UniformMatrix4fv? || c.Uniform3f? || c.Uniform1f? || c.Uniform1ui?
  }

  /** How many commands of the log satisfy `p`. */
  function CountWhere(log: seq<Command>, p: Command -> bool): (n: nat)
    ensures n <= |log|
  {
    if log == [] then 0 else CountWhere(log[..|log| - 1], p) + (if p(log[|log| - 1]) then 1 else 0)
  }

  /** Appending two blocks to a log one after the other appends their
      concatenation. Stated on bare sequences so that callers need not
      unfold the functions that build the blocks. */
  lemma AppendAssociative(log: seq<Command>, first: seq<Command>, second: seq<Command>)
    ensures (log + first) + second == log + (first + second)
  {
  }

  /** A log that grew by `first` and then by `second` grew by their
      concatenation. */
  lemma AppendBlocks(log: seq<Command>, middle: seq<Command>, final: seq<Command>, first: seq<Command>, second: seq<Command>)
    requires middle == log + first
    requires final == middle + second
    ensures final == log + (first + second)
  {
    AppendAssociative(log, first, second);
  }
}
