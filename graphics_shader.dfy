/** Shaders of src/graphics/renderer/shader.rs: loading stages from resources,
    linking programs, and the program's uniform-location cache. */
module GraphicsShader {
  import opened Gl
  import opened Maths
  import opened Wrappers
  import opened ShaderCommon
  import Resources
  import Textures

  datatype ShaderError =
    | ResourceLoad(name: string, inner: Resources.ResourceError)
    | CanNotDetermineShaderTypeForResource(name: string)
    | CompileError(name: string, message: string)
    | LinkError(name: string, message: string)

  /** Display for ShaderError. */
  function Display(e: ShaderError): (s: string)
    ensures e.ResourceLoad? ==> s == "Could not load resource " + e.name + "."
    ensures e.CanNotDetermineShaderTypeForResource? ==> s == "Could not guess shader type from resource " + e.name + "."
    ensures e.CompileError? ==> s == "Shader " + e.name + " failed to compile: " + e.message
    ensures e.LinkError? ==> s == "Program " + e.name + " failed to link shaders: " + e.message
  {
    match e
    case ResourceLoad(name, _) => "Could not load resource " + name + "."
    case CanNotDetermineShaderTypeForResource(name) => "Could not guess shader type from resource " + name + "."
    case CompileError(name, message) => "Shader " + name + " failed to compile: " + message
    case LinkError(name, message) => "Program " + name + " failed to link shaders: " + message
  }

  predicate EndsWith(s: string, suffix: string) {
    |suffix| <= |s| && s[|s| - |suffix|..] == suffix
  }

  /** The stage kind of Shader::from_res, chosen from the resource name's extension. */
  function StageKind(name: string): (r: Result<nat, ShaderError>)
    ensures r.Ok? <==> EndsWith(name, ".vert") || EndsWith(name, ".frag")
    ensures EndsWith(name, ".vert") ==> r == Ok(VERTEX_SHADER)
    ensures EndsWith(name, ".frag") ==> r == Ok(FRAGMENT_SHADER)
    ensures r.Err? ==> r.error == CanNotDetermineShaderTypeForResource(name)
  {
    if EndsWith(name, ".vert") then Ok(VERTEX_SHADER)
    else if EndsWith(name, ".frag") then Ok(FRAGMENT_SHADER)
    else Err(CanNotDetermineShaderTypeForResource(name))
  }

  /** The resources ShaderProgram::from_res loads for `name`. */
  function ResourceNames(name: string): seq<string> {
    [name + ".vert", name + ".frag"]
  }

  /** The names from_res builds are recognised: the first as a vertex stage,
      the second as a fragment stage. */
  lemma ResourceNamesHaveKinds(name: string)
    ensures |ResourceNames(name)| == 2
    ensures StageKind(ResourceNames(name)[0]) == Ok(VERTEX_SHADER)
    ensures StageKind(ResourceNames(name)[1]) == Ok(FRAGMENT_SHADER)
  {
  }

  /** What load_cstring yields for the resource `name`. */
  function StageSource(res: Resources.Resources, name: string): Result<seq<byte>, Resources.ResourceError> {
    Resources.CString(res.read(Resources.ResourcePath(res.root, name)))
  }

  /** The commands shader_from_source issues for a stage named `id`. */
  function CompileCommands(id: nat, kind: nat, source: seq<byte>): seq<Command> {
    [CreateShader(id, kind), ShaderSource(id, source), CompileShader(id)]
  }

  /** Shader::from_res: kind from the extension, then the source, then compile;
      the first step that fails decides the error, and nothing reaches the
      driver before the source is loaded. */
  method ShaderFromRes(gl: Context, res: Resources.Resources, name: string, verdict: Verdict)
    returns (r: Result<Shader, ShaderError>)
    modifies gl
    ensures StageKind(name).Err? ==>
      r == Err(CanNotDetermineShaderTypeForResource(name)) && gl.log == old(gl.log) && gl.nextName == old(gl.nextName)
    ensures StageKind(name).Ok? && StageSource(res, name).Err? ==>
      r == Err(ResourceLoad(name, StageSource(res, name).error)) && gl.log == old(gl.log) && gl.nextName == old(gl.nextName)
    ensures StageKind(name).Ok? && StageSource(res, name).Ok? ==>
      && gl.nextName == old(gl.nextName) + 1
      && gl.log == old(gl.log) + CompileCommands(old(gl.nextName), StageKind(name).value, StageSource(res, name).value)
      && (verdict.Accepted? ==> r == Ok(Shader(old(gl.nextName))))
      && (verdict.Rejected? ==> r == Err(CompileError(name, InfoLog(verdict.logLength, verdict.written))))
  {
    var kind := StageKind(name);
    if kind.Err? {
      return Err(kind.error);
    }
    var source := Resources.LoadCString(res, name);
    if source.Err? {
      return Err(ResourceLoad(name, source.error));
    }
    var shader := FromSource(gl, source.value, kind.value, verdict);
    if shader.Err? {
      return Err(CompileError(name, shader.error));
    }
    return Ok(shader.value);
  }

  /** Shader::from_vert_source: from_source with the vertex kind. */
  method FromVertSource(gl: Context, source: seq<byte>, verdict: Verdict) returns (r: Result<Shader, string>)
    modifies gl
    ensures gl.nextName == old(gl.nextName) + 1
    ensures gl.log == old(gl.log) + CompileCommands(old(gl.nextName), VERTEX_SHADER, source)
    ensures verdict.Accepted? ==> r == Ok(Shader(old(gl.nextName)))
    ensures verdict.Rejected? ==> r == Err(InfoLog(verdict.logLength, verdict.written))
  {
    r := FromSource(gl, source, VERTEX_SHADER, verdict);
  }

  /** Shader::from_frag_source: from_source with the fragment kind. */
  method FromFragSource(gl: Context, source: seq<byte>, verdict: Verdict) returns (r: Result<Shader, string>)
    modifies gl
    ensures gl.nextName == old(gl.nextName) + 1
    ensures gl.log == old(gl.log) + CompileCommands(old(gl.nextName), FRAGMENT_SHADER, source)
    ensures verdict.Accepted? ==> r == Ok(Shader(old(gl.nextName)))
    ensures verdict.Rejected? ==> r == Err(InfoLog(verdict.logLength, verdict.written))
  {
    r := FromSource(gl, source, FRAGMENT_SHADER, verdict);
  }

  class ShaderProgram {
    const gl: Context
    const id: Name
    var cache: map<string, int>
    /** The names sent to glGetUniformLocation so far, in order. */
    ghost var queried: seq<string>
    /** The texture mesh.rs attaches; see SetTexture. */
    var texture: Option<Textures.Texture>

    ghost predicate Valid()
      reads this
    {
      CacheAgrees(cache, queried, gl.locate, id)
    }

    /** The program value from_shaders returns: an empty uniform cache. */
    constructor (gl: Context, id: Name)
      ensures this.gl == gl && this.id == id
      ensures cache == map[] && queried == [] && texture == None
      ensures Valid()
    {
      this.gl := gl;
      this.id := id;
      cache := map[];
      queried := [];
      texture := None;
    }

    /** ShaderProgram::from_shaders. */
    static method FromShaders(gl: Context, shaders: seq<Shader>, verdict: Verdict) returns (r: Result<ShaderProgram, string>)
      modifies gl
      ensures gl.nextName == old(gl.nextName) + 1
      ensures verdict.Rejected? ==>
        && r == Err(InfoLog(verdict.logLength, verdict.written))
        && gl.log == old(gl.log) + [CreateProgram(old(gl.nextName))]
           + Attachments(old(gl.nextName), shaders) + [LinkProgram(old(gl.nextName))]
      ensures verdict.Accepted? ==>
        && r.Ok? && fresh(r.value)
        && r.value.gl == gl && r.value.id == old(gl.nextName)
        && r.value.cache == map[] && r.value.texture == None && r.value.Valid()
        && gl.log == old(gl.log) + [CreateProgram(old(gl.nextName))]
           + Attachments(old(gl.nextName), shaders) + [LinkProgram(old(gl.nextName))]
           + Detachments(old(gl.nextName), shaders)
    {
      var linked := LinkShaders(gl, shaders, verdict);
      if linked.Err? {
        return Err(linked.error);
      }
      var program := new ShaderProgram(gl, linked.value);
      return Ok(program);
    }

    /** The effect of one get_uniform_location call for `name` on the cache. */
    twostate predicate Resolved(name: string)
      reads this
    {
      && cache == old(cache)[name := gl.locate(id, name)]
      && queried == old(queried) + (if name in old(cache) then [] else [name])
    }

    /** get_uniform_location: a hit answers from the cache without asking the
        driver; a miss asks once and caches the answer, -1 included. */
    method GetUniformLocation(name: string) returns (location: int)
      requires Valid()
      modifies this`cache, this`queried
      ensures Valid()
      ensures location == gl.locate(id, name)
      ensures name in old(cache) ==> cache == old(cache) && queried == old(queried)
      ensures Resolved(name)
    {
      if name in cache {
        CacheAgreesMeans(cache, queried, gl.locate, id);
        location := cache[name];
      } else {
        CacheMiss(cache, queried, gl.locate, id, name);
        location := gl.locate(id, name);
        cache := cache[name := location];
        queried := queried + [name];
      }
    }

    method SetUniformMatrix4(name: string, value: Matrix)
      requires Valid()
      modifies this`cache, this`queried, gl`log
      ensures Valid() && Resolved(name)
      ensures gl.log == old(gl.log) + [UniformMatrix4fv(gl.locate(id, name), value)]
    {
      var location := GetUniformLocation(name);
      gl.log := gl.log + [UniformMatrix4fv(location, value)];
    }

    method SetUniformFloat(name: string, value: real)
      requires Valid()
      modifies this`cache, this`queried, gl`log
      ensures Valid() && Resolved(name)
      ensures gl.log == old(gl.log) + [Uniform1f(gl.locate(id, name), value)]
    {
      var location := GetUniformLocation(name);
      gl.log := gl.log + [Uniform1f(location, value)];
    }

    method SetUniformVector3(name: string, value: Vec3)
      requires Valid()
      modifies this`cache, this`queried, gl`log
      ensures Valid() && Resolved(name)
      ensures gl.log == old(gl.log) + [Uniform3f(gl.locate(id, name), value)]
    {
      var location := GetUniformLocation(name);
      gl.log := gl.log + [Uniform3f(location, value)];
    }

    /** set_texture as mesh.rs uses it (the lib definition): flag the
        texture in the shader, then keep it. */
    method SetTexture(t: Textures.Texture)
      requires Valid()
      modifies this`cache, this`queried, this`texture, gl`log
      ensures Valid() && Resolved("u_use_texture")
      ensures gl.log == old(gl.log) + [Uniform1ui(gl.locate(id, "u_use_texture"), 1)]
      ensures texture == Some(t)
    {
      var location := GetUniformLocation("u_use_texture");
      gl.log := gl.log + [Uniform1ui(location, 1)];
      texture := Some(t);
    }

    method Bind()
      modifies gl`log
      ensures gl.log == old(gl.log) + [UseProgram(id)]
    {
      gl.log := gl.log + [UseProgram(id)];
    }

    method Unbind()
      modifies gl`log
      ensures gl.log == old(gl.log) + [UseProgram(0)]
    {
      gl.log := gl.log + [UseProgram(0)];
    }

    method Drop()
      modifies gl`log
      ensures gl.log == old(gl.log) + [DeleteProgram(id)]
    {
      gl.log := gl.log + [DeleteProgram(id)];
    }
  }

  /** ShaderProgram::from_res: load `name`.vert then `name`.frag, stopping at
      the first stage that fails, then link. Every stage that was built is
      dropped (deleted) before returning, whatever the outcome; a stage that
      failed to compile and a program that failed to link are not deleted. */
  method ProgramFromRes(gl: Context, res: Resources.Resources, name: string,
                        vertexVerdict: Verdict, fragmentVerdict: Verdict, linkVerdict: Verdict)
    returns (r: Result<ShaderProgram, ShaderError>)
    modifies gl
    ensures var vs := StageSource(res, name + ".vert");
      vs.Err? ==> r == Err(ResourceLoad(name + ".vert", vs.error)) && gl.log == old(gl.log) && gl.nextName == old(gl.nextName)
    ensures var vs := StageSource(res, name + ".vert");
      vs.Ok? && vertexVerdict.Rejected? ==>
        && r == Err(CompileError(name + ".vert", InfoLog(vertexVerdict.logLength, vertexVerdict.written)))
        && gl.nextName == old(gl.nextName) + 1
        && gl.log == old(gl.log) + CompileCommands(old(gl.nextName), VERTEX_SHADER, vs.value)
    ensures var vs, fs := StageSource(res, name + ".vert"), StageSource(res, name + ".frag");
      vs.Ok? && vertexVerdict.Accepted? && fs.Err? ==>
        && r == Err(ResourceLoad(name + ".frag", fs.error))
        && gl.nextName == old(gl.nextName) + 1
        && gl.log == old(gl.log) + CompileCommands(old(gl.nextName), VERTEX_SHADER, vs.value)
           + [DeleteShader(old(gl.nextName))]
    ensures var vs, fs := StageSource(res, name + ".vert"), StageSource(res, name + ".frag");
      vs.Ok? && vertexVerdict.Accepted? && fs.Ok? && fragmentVerdict.Rejected? ==>
        && r == Err(CompileError(name + ".frag", InfoLog(fragmentVerdict.logLength, fragmentVerdict.written)))
        && gl.nextName == old(gl.nextName) + 2
        && gl.log == old(gl.log) + CompileCommands(old(gl.nextName), VERTEX_SHADER, vs.value)
           + CompileCommands(old(gl.nextName) + 1, FRAGMENT_SHADER, fs.value)
           + [DeleteShader(old(gl.nextName))]
    ensures var vs, fs := StageSource(res, name + ".vert"), StageSource(res, name + ".frag");
      var v, f, p := old(gl.nextName), old(gl.nextName) + 1, old(gl.nextName) + 2;
      vs.Ok? && vertexVerdict.Accepted? && fs.Ok? && fragmentVerdict.Accepted? ==>
        && gl.nextName == old(gl.nextName) + 3
        && gl.log == old(gl.log) + CompileCommands(v, VERTEX_SHADER, vs.value)
           + CompileCommands(f, FRAGMENT_SHADER, fs.value)
           + LinkCommands(p, v, f, linkVerdict.Accepted?)
        && (linkVerdict.Rejected? ==> r == Err(LinkError(name, InfoLog(linkVerdict.logLength, linkVerdict.written))))
        && (linkVerdict.Accepted? ==> r.Ok? && fresh(r.value) && r.value.texture == None && r.value.id == p && r.value.gl == gl && r.value.cache == map[] && r.value.Valid())
  {
    var names := ResourceNames(name);
    ResourceNamesHaveKinds(name);
    var vertex := ShaderFromRes(gl, res, names[0], vertexVerdict);
    if vertex.Err? {
      return Err(vertex.error);
    }
    var fragment := ShaderFromRes(gl, res, names[1], fragmentVerdict);
    if fragment.Err? {
      DropShader(gl, vertex.value);
      return Err(fragment.error);
    }
    r := LinkStages(gl, name, vertex.value, fragment.value, linkVerdict);
  }

  /** What linking two compiled stages sends: create the program, attach
      both stages, link; detach both only when the link succeeded; then
      delete both stages either way. */
  function LinkCommands(p: nat, v: nat, f: nat, linked: bool): seq<Command> {
    [CreateProgram(p), AttachShader(p, v), AttachShader(p, f), LinkProgram(p)]
    + (if linked then [DetachShader(p, v), DetachShader(p, f)] else [])
    + [DeleteShader(v), DeleteShader(f)]
  }

  /** The end of from_res once both stages compiled: link them into a new
      program, then drop both stages whether or not the link succeeded. */
  method LinkStages(gl: Context, name: string, vertex: Shader, fragment: Shader, linkVerdict: Verdict)
    returns (r: Result<ShaderProgram, ShaderError>)
    modifies gl
    ensures gl.nextName == old(gl.nextName) + 1
    ensures gl.log == old(gl.log) + LinkCommands(old(gl.nextName), vertex.id, fragment.id, linkVerdict.Accepted?)
    ensures linkVerdict.Rejected? ==> r == Err(LinkError(name, InfoLog(linkVerdict.logLength, linkVerdict.written)))
    ensures linkVerdict.Accepted? ==>
      r.Ok? && fresh(r.value) && r.value.texture == None && r.value.id == old(gl.nextName)
      && r.value.gl == gl && r.value.cache == map[] && r.value.Valid()
  {
    var p := gl.nextName;
    var shaders := [vertex, fragment];
    var program := ShaderProgram.FromShaders(gl, shaders, linkVerdict);
    DropAll(gl, shaders);
    assert Attachments(p, shaders) == [AttachShader(p, vertex.id), AttachShader(p, fragment.id)];
    assert Detachments(p, shaders) == [DetachShader(p, vertex.id), DetachShader(p, fragment.id)];
    assert Deletions(shaders) == [DeleteShader(vertex.id), DeleteShader(fragment.id)];
    if program.Err? {
      return Err(LinkError(name, program.error));
    }
    return Ok(program.value);
  }
}