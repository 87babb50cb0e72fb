/** Shaders of lib/palantir-lib/src/shader.rs. Unlike the src copy, the
    program can hold a texture, which bind selects before the program. */
module LibShader {
  import opened Gl
  import opened Maths
  import opened Wrappers
  import opened ShaderCommon
  import Textures

  datatype ShaderError =
    | CompileError(name: string, message: string)
    | LinkError(name: string, message: string)

  /** Display for ShaderError. */
  function Display(e: ShaderError): (s: string)
    ensures e.CompileError? ==> s == "Shader " + e.name + " failed to compile: " + e.message
    ensures e.LinkError? ==> s == "Program " + e.name + " failed to link shaders: " + e.message
  {
    match e
    case CompileError(name, message) => "Shader " + name + " failed to compile: " + message
    case LinkError(name, message) => "Program " + name + " failed to link shaders: " + message
  }

  function BoolAsU32(value: bool): (r: nat)
    ensures r <= 1 && (r == 1 <==> value)
  {
    if value then 1 else 0
  }

  /** What binding a program holding `texture` sends: the texture's name,
      or 0 to unbind, on TEXTURE_2D, then the program. */
  function BindCommands(texture: Option<Textures.Texture>, program: nat): seq<Command> {
    [BindTexture(TEXTURE_2D, if texture.Some? then texture.value.id else 0), UseProgram(program)]
  }

  class ShaderProgram {
    const id: Name
    var cache: map<string, int>
    /** The names sent to glGetUniformLocation so far, in order. */
    ghost var queried: seq<string>
    var texture: Option<Textures.Texture>

    /** The global context answers location queries through `gl.locate`. */
    ghost predicate Valid(gl: Context)
      reads this
    {
      CacheAgrees(cache, queried, gl.locate, id)
    }

    constructor (id: Name)
      ensures this.id == id && cache == map[] && queried == [] && texture == None
    {
      this.id := id;
      cache := map[];
      queried := [];
      texture := None;
    }

    /** ShaderProgram::from_shaders: a linked program starts with an empty
        cache and no texture; stages are detached only after a successful link. */
    static method FromShaders(gl: Context, shaders: seq<Shader>, verdict: Verdict) returns (r: Result<ShaderProgram, string>)
      modifies gl
      ensures gl.nextName == old(gl.nextName) + 1
      ensures verdict.Rejected? ==>
        && r == Err(InfoLog(verdict.logLength, verdict.written))
        && gl.log == old(gl.log) + [CreateProgram(old(gl.nextName))]
           + Attachments(old(gl.nextName), shaders) + [LinkProgram(old(gl.nextName))]
      ensures verdict.Accepted? ==>
        && r.Ok? && fresh(r.value)
        && r.value.id == old(gl.nextName)
        && r.value.cache == map[] && r.value.texture == None && r.value.Valid(gl)
        && gl.log == old(gl.log) + [CreateProgram(old(gl.nextName))]
           + Attachments(old(gl.nextName), shaders) + [LinkProgram(old(gl.nextName))]
           + Detachments(old(gl.nextName), shaders)
    {
      var linked := LinkShaders(gl, shaders, verdict);
      if linked.Err? {
        return Err(linked.error);
      }
      var program := new ShaderProgram(linked.value);
      return Ok(program);
    }

    /** The effect of one get_uniform_location call for `name` on the cache. */
    twostate predicate Resolved(gl: Context, name: string)
      reads this
    {
      && cache == old(cache)[name := gl.locate(id, name)]
      && queried == old(queried) + (if name in old(cache) then [] else [name])
    }

    /** get_uniform_location: a hit answers from the cache; a miss asks the
        driver once and caches the answer. An entry is never overwritten. */
    method GetUniformLocation(gl: Context, name: string) returns (location: int)
      requires Valid(gl)
      modifies this`cache, this`queried
      ensures Valid(gl) && Resolved(gl, name)
      ensures location == gl.locate(id, name)
      ensures name in old(cache) ==> cache == old(cache) && queried == old(queried)
    {
      if name in cache {
        CacheAgreesMeans(cache, queried, gl.locate, id);
        location := cache[name];
      } else {
        CacheMiss(cache, queried, gl.locate, id, name);
        location := gl.locate(id, name);
        cache := cache[name := location];
        queried := queried + [name];
      }
    }

    method SetUniformMatrix4(gl: Context, name: string, value: Matrix)
      requires Valid(gl)
      modifies this`cache, this`queried, gl`log
      ensures Valid(gl) && Resolved(gl, name)
      ensures gl.log == old(gl.log) + [UniformMatrix4fv(gl.locate(id, name), value)]
    {
      var location := GetUniformLocation(gl, name);
      gl.log := gl.log + [UniformMatrix4fv(location, value)];
    }

    /** set_uniform_bool: the flag goes to the driver as 0 or 1. */
    method SetUniformBool(gl: Context, name: string, value: bool)
      requires Valid(gl)
      modifies this`cache, this`queried, gl`log
      ensures Valid(gl) && Resolved(gl, name)
      ensures gl.log == old(gl.log) + [Uniform1ui(gl.locate(id, name), BoolAsU32(value))]
    {
      var location := GetUniformLocation(gl, name);
      gl.log := gl.log + [Uniform1ui(location, BoolAsU32(value))];
    }

    method SetUniformFloat(gl: Context, name: string, value: real)
      requires Valid(gl)
      modifies this`cache, this`queried, gl`log
      ensures Valid(gl) && Resolved(gl, name)
      ensures gl.log == old(gl.log) + [Uniform1f(gl.locate(id, name), value)]
    {
      var location := GetUniformLocation(gl, name);
      gl.log := gl.log + [Uniform1f(location, value)];
    }

    method SetUniformVector3(gl: Context, name: string, value: Vec3)
      requires Valid(gl)
      modifies this`cache, this`queried, gl`log
      ensures Valid(gl) && Resolved(gl, name)
      ensures gl.log == old(gl.log) + [Uniform3f(gl.locate(id, name), value)]
    {
      var location := GetUniformLocation(gl, name);
      gl.log := gl.log + [Uniform3f(location, value)];
    }

    /** set_texture: first set u_use_texture to true, then keep the texture. */
    method SetTexture(gl: Context, t: Textures.Texture)
      requires Valid(gl)
      modifies this`cache, this`queried, this`texture, gl`log
      ensures Valid(gl) && Resolved(gl, "u_use_texture")
      ensures gl.log == old(gl.log) + [Uniform1ui(gl.locate(id, "u_use_texture"), 1)]
      ensures texture == Some(t)
    {
      SetUniformBool(gl, "u_use_texture", true);
      texture := Some(t);
    }

    /** bind: the held texture, or no texture, on TEXTURE_2D, and only then
        the program. */
    method Bind(gl: Context)
      modifies gl`log
      ensures texture.Some? ==> gl.log == old(gl.log) + [BindTexture(TEXTURE_2D, texture.value.id), UseProgram(id)]
      ensures texture.None? ==> gl.log == old(gl.log) + [BindTexture(TEXTURE_2D, 0), UseProgram(id)]
      ensures gl.log == old(gl.log) + BindCommands(texture, id)
    {
      match texture {
        case Some(t) => Textures.Bind(gl, t);
        case None => gl.log := gl.log + [BindTexture(TEXTURE_2D, 0)];
      }
      gl.log := gl.log + [UseProgram(id)];
    }

    method Drop(gl: Context)
      modifies gl`log
      ensures gl.log == old(gl.log) + [DeleteProgram(id)]
    {
      gl.log := gl.log + [DeleteProgram(id)];
    }
  }
}
