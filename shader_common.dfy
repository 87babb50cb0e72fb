/** What the two shader modules share: compiling one stage, linking a program
    from its stages, the info-log buffer, and the uniform-location cache
    discipline. The src copy calls these through its gl::Gl handle, the lib
    copy through the global GL functions; both are the context passed here. */
module ShaderCommon {
  import opened Gl
  import opened Wrappers

  /** A compiled shader stage. */
  datatype Shader = Shader(id: Name)

  /** create_whitespace_cstring_with_len: `len` space characters. */
  function Whitespace(len: nat): (buffer: string)
    ensures |buffer| == len
    ensures forall i :: 0 <= i < len ==> buffer[i] == ' '
  {
    if len == 0 then [] else Whitespace(len - 1) + [' ']
  }

  /** The error text built from a failed compile or link: the whitespace
      buffer of the reported log length, overwritten from the start by what
      the driver writes into it (at most `len` characters). */
  function InfoLog(len: nat, written: string): (message: string)
    ensures |message| == len
    ensures forall i :: 0 <= i < len && i >= |written| ==> message[i] == ' '
    ensures forall i :: 0 <= i < len && i < |written| ==> message[i] == written[i]
  {
    var buffer := Whitespace(len);
    seq(len, i requires 0 <= i < len => if i < |written| then written[i] else buffer[i])
  }

  /** shader_from_source: create the shader, give it the source, compile it.
      On failure the error is the info log; the shader name is not deleted. */
  method ShaderFromSource(gl: Context, source: seq<byte>, kind: nat, verdict: Verdict)
    returns (r: Result<Name, string>)
    modifies gl
    ensures gl.nextName == old(gl.nextName) + 1
    ensures gl.log == old(gl.log)
      + [CreateShader(old(gl.nextName), kind), ShaderSource(old(gl.nextName), source), CompileShader(old(gl.nextName))]
    ensures verdict.Accepted? ==> r == Ok(old(gl.nextName))
    ensures verdict.Rejected? ==> r == Err(InfoLog(verdict.logLength, verdict.written))
  {
    var id := gl.GenName();
    gl.log := gl.log + [CreateShader(id, kind), ShaderSource(id, source), CompileShader(id)];
    if verdict.Rejected? {
      var error := InfoLog(verdict.logLength, verdict.written);
      return Err(error);
    }
    return Ok(id);
  }

  /** Shader::from_source: shader_from_source, with the name wrapped in a Shader. */
  method FromSource(gl: Context, source: seq<byte>, kind: nat, verdict: Verdict)
    returns (r: Result<Shader, string>)
    modifies gl
    ensures gl.nextName == old(gl.nextName) + 1
    ensures gl.log == old(gl.log)
      + [CreateShader(old(gl.nextName), kind), ShaderSource(old(gl.nextName), source), CompileShader(old(gl.nextName))]
    ensures verdict.Accepted? ==> r == Ok(Shader(old(gl.nextName)))
    ensures verdict.Rejected? ==> r == Err(InfoLog(verdict.logLength, verdict.written))
  {
    var id := ShaderFromSource(gl, source, kind, verdict);
    if id.Err? {
      return Err(id.error);
    }
    return Ok(Shader(id.value));
  }

  /** Drop for Shader. */
  method DropShader(gl: Context, shader: Shader)
    modifies gl`log
    ensures gl.log == old(gl.log) + [DeleteShader(shader.id)]
  {
    gl.log := gl.log + [DeleteShader(shader.id)];
  }

  /** The commands of a loop over the shaders, one per shader, in order. */
  function Attachments(program: nat, shaders: seq<Shader>): (r: seq<Command>)
    ensures |r| == |shaders|
    ensures forall i :: 0 <= i < |shaders| ==> r[i] == AttachShader(program, shaders[i].id)
  {
    seq(|shaders|, i requires 0 <= i < |shaders| => AttachShader(program, shaders[i].id))
  }

  function Detachments(program: nat, shaders: seq<Shader>): (r: seq<Command>)
    ensures |r| == |shaders|
    ensures forall i :: 0 <= i < |shaders| ==> r[i] == DetachShader(program, shaders[i].id)
  {
    seq(|shaders|, i requires 0 <= i < |shaders| => DetachShader(program, shaders[i].id))
  }

  function Deletions(shaders: seq<Shader>): (r: seq<Command>)
    ensures |r| == |shaders|
    ensures forall i :: 0 <= i < |shaders| ==> r[i] == DeleteShader(shaders[i].id)
  {
    seq(|shaders|, i requires 0 <= i < |shaders| => DeleteShader(shaders[i].id))
  }

  method AttachAll(gl: Context, program: nat, shaders: seq<Shader>)
    modifies gl`log
    ensures gl.log == old(gl.log) + Attachments(program, shaders)
  {
    var i := 0;
    while i < |shaders|
      invariant 0 <= i <= |shaders|
      invariant gl.log == old(gl.log) + Attachments(program, shaders[..i])
    {
      gl.log := gl.log + [AttachShader(program, shaders[i].id)];
      i := i + 1;
    }
    assert shaders[..i] == shaders;
  }

  method DetachAll(gl: Context, program: nat, shaders: seq<Shader>)
    modifies gl`log
    ensures gl.log == old(gl.log) + Detachments(program, shaders)
  {
    var i := 0;
    while i < |shaders|
      invariant 0 <= i <= |shaders|
      invariant gl.log == old(gl.log) + Detachments(program, shaders[..i])
    {
      gl.log := gl.log + [DetachShader(program, shaders[i].id)];
      i := i + 1;
    }
    assert shaders[..i] == shaders;
  }

  /** Dropping a Vec<Shader>: each element is dropped, in order. */
  method DropAll(gl: Context, shaders: seq<Shader>)
    modifies gl`log
    ensures gl.log == old(gl.log) + Deletions(shaders)
  {
    var i := 0;
    while i < |shaders|
      invariant 0 <= i <= |shaders|
      invariant gl.log == old(gl.log) + Deletions(shaders[..i])
    {
      DropShader(gl, shaders[i]);
      i := i + 1;
    }
    assert shaders[..i] == shaders;
  }

  /** The body of from_shaders up to building the program value: create the
      program, attach every stage, link; on failure return the info log with
      nothing detached, on success detach every stage. */
  method LinkShaders(gl: Context, shaders: seq<Shader>, verdict: Verdict) returns (r: Result<Name, string>)
    modifies gl
    ensures gl.nextName == old(gl.nextName) + 1
    ensures verdict.Rejected? ==>
      && r == Err(InfoLog(verdict.logLength, verdict.written))
      && gl.log == old(gl.log) + [CreateProgram(old(gl.nextName))]
         + Attachments(old(gl.nextName), shaders) + [LinkProgram(old(gl.nextName))]
    ensures verdict.Accepted? ==>
      && r == Ok(old(gl.nextName))
      && gl.log == old(gl.log) + [CreateProgram(old(gl.nextName))]
         + Attachments(old(gl.nextName), shaders) + [LinkProgram(old(gl.nextName))]
         + Detachments(old(gl.nextName), shaders)
  {
    var program := gl.GenName();
    gl.log := gl.log + [CreateProgram(program)];
    AttachAll(gl, program, shaders);
    gl.log := gl.log + [LinkProgram(program)];
    if verdict.Rejected? {
      var error := InfoLog(verdict.logLength, verdict.written);
      return Err(error);
    }
    DetachAll(gl, program, shaders);
    return Ok(program);
  }

  /** The uniform-location cache of program `id`, built up one driver query
      at a time: `queried` lists the names sent to glGetUniformLocation, in
      order; the newest one is cached with the driver's answer, was never
      queried before, and the rest of the cache is explained by the earlier
      queries. */
  ghost predicate CacheAgrees(cache: map<string, int>, queried: seq<string>, locate: (nat, string) -> int, id: nat)
    decreases |queried|
  {
    if queried == [] then cache == map[]
    else
      var n := |queried| - 1;
      var name := queried[n];
      && name in cache && cache[name] == locate(id, name)
      && name !in queried[..n]
      && CacheAgrees(cache - {name}, queried[..n], locate, id)
  }

  /** What an agreeing cache means: its keys are exactly the queried names,
      every cached location is the driver's answer, and no name was queried
      twice. */
  lemma {:induction false} CacheAgreesMeans(cache: map<string, int>, queried: seq<string>, locate: (nat, string) -> int, id: nat)
    requires CacheAgrees(cache, queried, locate, id)
    ensures forall name :: name in cache <==> name in queried
    ensures forall name :: name in cache ==> cache[name] == locate(id, name)
    ensures forall i, j :: 0 <= i < j < |queried| ==> queried[i] != queried[j]
    decreases |queried|
  {
    if queried != [] {
      var n := |queried| - 1;
      var name := queried[n];
      CacheAgreesMeans(cache - {name}, queried[..n], locate, id);
      assert queried == queried[..n] + [name];
      forall i, j | 0 <= i < j < |queried|
        ensures queried[i] != queried[j]
      {
        if j == n {
          assert queried[i] in queried[..n];
        } else {
          assert queried[i] == queried[..n][i] && queried[j] == queried[..n][j];
        }
      }
    }
  }

  /** A cache miss: querying a name not yet cached and storing the answer
      keeps the cache in agreement with the driver. */
  lemma CacheMiss(cache: map<string, int>, queried: seq<string>, locate: (nat, string) -> int, id: nat, name: string)
    requires CacheAgrees(cache, queried, locate, id) && name !in cache
    ensures CacheAgrees(cache[name := locate(id, name)], queried + [name], locate, id)
  {
    CacheAgreesMeans(cache, queried, locate, id);
    var q := queried + [name];
    assert q[..|q| - 1] == queried;
    assert cache[name := locate(id, name)] - {name} == cache;
  }

  /** The number of driver queries equals the number of distinct cached
      names: no name is ever asked for twice. */
  lemma {:induction false} QueriesAtMostOncePerName(cache: map<string, int>, queried: seq<string>, locate: (nat, string) -> int, id: nat)
    requires CacheAgrees(cache, queried, locate, id)
    ensures |queried| == |cache.Keys|
    decreases |queried|
  {
    if queried != [] {
      var n := |queried| - 1;
      var name := queried[n];
      QueriesAtMostOncePerName(cache - {name}, queried[..n], locate, id);
      assert (cache - {name}).Keys == cache.Keys - {name};
    }
  }
}
