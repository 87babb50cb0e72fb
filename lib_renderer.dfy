/** The renderer of lib/palantir-lib/src/renderer.rs. It draws the meshes of
    this library (lib/palantir-lib/src/mesh.rs) with its shader programs
    (lib/palantir-lib/src/shader.rs), whose uniform names start with "u_" and
    whose binding also binds the program's texture. */
module LibRenderer {
  import opened Gl
  import opened Maths
  import opened Wrappers
  import opened Drawing
  import LibShader
  import LibMesh
  import LibBuffers
  import Cameras

  /** COLOR_BUFFER_BIT | DEPTH_BUFFER_BIT. */
  const CLEAR_MASK: bv32 := COLOR_BUFFER_BIT | DEPTH_BUFFER_BIT

  /** Which shader a submesh is drawn with: None for the renderer's default,
      Some(i) for mesh.shaders[i]. A mesh without shaders, and a submesh
      without a shader index, fall back to the default; an index must be in
      range of a non-empty shader list. */
  function SelectShader(shaderCount: nat, index: Option<nat>): (r: Option<nat>)
    requires shaderCount > 0 && index.Some? ==> index.value < shaderCount
    ensures r.Some? <==> shaderCount > 0 && index.Some?
    ensures r.Some? ==> r == index && r.value < shaderCount
  {
    if shaderCount == 0 then None
    else
      match index
      case Some(i) => Some(i)
      case None => None
  }

  /** The shader indexing of draw cannot fail on `mesh`. */
  ghost predicate Dispatchable(mesh: LibMesh.Mesh)
    reads mesh
  {
    |mesh.shaders| > 0 ==>
      forall s <- mesh.submeshes :: s.shaderIndex.Some? ==> s.shaderIndex.value < |mesh.shaders|
  }

  class Renderer {
    const gl: Context
    const defaultShader: LibShader.ShaderProgram

    constructor (gl: Context, defaultShader: LibShader.ShaderProgram)
      ensures this.gl == gl && this.defaultShader == defaultShader
    {
      this.gl := gl;
      this.defaultShader := defaultShader;
    }

    /** clear: the given colour with alpha 1, then clear colour and depth. */
    method Clear(r: real, g: real, b: real)
      modifies gl`log
      ensures gl.log == old(gl.log) + [ClearColor(r, g, b, 1.0), Command.Clear(CLEAR_MASK)]
    {
      gl.log := gl.log + [ClearColor(r, g, b, 1.0), Command.Clear(COLOR_BUFFER_BIT | DEPTH_BUFFER_BIT)];
    }

    /** The draw call of submesh `s` when the mesh holds `shaders`. */
    ghost function CallFor(s: LibMesh.SubMesh, shaders: seq<LibShader.ShaderProgram>): DrawCall
      requires |shaders| > 0 && s.shaderIndex.Some? ==> s.shaderIndex.value < |shaders|
      reads defaultShader`texture, shaders`texture
    {
      var p := match SelectShader(|shaders|, s.shaderIndex)
        case None => defaultShader
        case Some(i) => shaders[i];
      DrawCall(LibShader.BindCommands(p.texture, p.id), p.id, s.vertexArray.id, s.indexBuffer.id, s.indexBuffer.count)
    }

    /** The draw calls of `submeshes`, one per submesh, in order. */
    ghost function PlanOf(submeshes: seq<LibMesh.SubMesh>, shaders: seq<LibShader.ShaderProgram>): (calls: seq<DrawCall>)
      requires forall s <- submeshes :: |shaders| > 0 && s.shaderIndex.Some? ==> s.shaderIndex.value < |shaders|
      reads defaultShader`texture, shaders`texture
      ensures |calls| == |submeshes|
      ensures forall i :: 0 <= i < |submeshes| ==> calls[i] == CallFor(submeshes[i], shaders)
    {
      if submeshes == [] then []
      else
        var n := |submeshes| - 1;
        PlanOf(submeshes[..n], shaders) + [CallFor(submeshes[n], shaders)]
    }

    /** The draw calls of `mesh`. */
    ghost function Plan(mesh: LibMesh.Mesh): seq<DrawCall>
      requires Dispatchable(mesh)
      reads mesh, defaultShader`texture, mesh.shaders`texture
    {
      PlanOf(mesh.submeshes, mesh.shaders)
    }

    /** Every program draw may use agrees with the driver. */
    ghost predicate Ready(mesh: LibMesh.Mesh)
      reads mesh, defaultShader, mesh.shaders
    {
      && defaultShader.Valid(gl)
      && (forall p <- mesh.shaders :: p.Valid(gl))
    }

    /** One iteration of draw, for a submesh and the shader chosen for it. */
    method DrawSubmesh(shader: LibShader.ShaderProgram, submesh: LibMesh.SubMesh, f: Frame, drawType: nat)
      requires shader.Valid(gl)
      modifies gl`log, shader`cache, shader`queried
      ensures shader.Valid(gl)
      ensures gl.log == old(gl.log) + SubmeshCommands(
        DrawCall(LibShader.BindCommands(shader.texture, shader.id), shader.id, submesh.vertexArray.id, submesh.indexBuffer.id, submesh.indexBuffer.count),
        f, gl.locate, PREFIXED_NAMES, drawType)
    {
      shader.Bind(gl);
      WriteUniforms(shader, f);
      LibBuffers.BindVertexArray(gl, submesh.vertexArray);
      submesh.indexBuffer.Bind(gl);
      gl.log := gl.log + [DrawElements(drawType, AsI32(submesh.indexBuffer.count), UNSIGNED_INT, 0)];
    }

    /** The seven uniform writes of draw, in order. */
    method WriteUniforms(shader: LibShader.ShaderProgram, f: Frame)
      requires shader.Valid(gl)
      modifies gl`log, shader`cache, shader`queried
      ensures shader.Valid(gl)
      ensures gl.log == old(gl.log) + UniformCommands(shader.id, f, gl.locate, PREFIXED_NAMES)
    {
      WriteCamera(shader, f);
      WriteLight(shader, f.light);
    }

    /** The model, view and projection matrices. */
    method WriteCamera(shader: LibShader.ShaderProgram, f: Frame)
      requires shader.Valid(gl)
      modifies gl`log, shader`cache, shader`queried
      ensures shader.Valid(gl)
      ensures gl.log == old(gl.log) + [UniformMatrix4fv(gl.locate(shader.id, "u_model"), f.model),
                                       UniformMatrix4fv(gl.locate(shader.id, "u_view"), f.view),
                                       UniformMatrix4fv(gl.locate(shader.id, "u_projection"), f.projection)]
    {
      shader.SetUniformMatrix4(gl, "u_model", f.model);
      shader.SetUniformMatrix4(gl, "u_view", f.view);
      shader.SetUniformMatrix4(gl, "u_projection", f.projection);
    }

    /** The light's direction, colour, ambient strength and power. */
    method WriteLight(shader: LibShader.ShaderProgram, light: Light)
      requires shader.Valid(gl)
      modifies gl`log, shader`cache, shader`queried
      ensures shader.Valid(gl)
      ensures gl.log == old(gl.log) + [Uniform3f(gl.locate(shader.id, "u_light_direction"), light.direction),
                                       Uniform3f(gl.locate(shader.id, "u_light_color"), light.color),
                                       Uniform1f(gl.locate(shader.id, "u_light_ambient_strength"), light.ambientStrength),
                                       Uniform1f(gl.locate(shader.id, "u_light_power"), light.power)]
    {
      shader.SetUniformVector3(gl, "u_light_direction", light.direction);
      shader.SetUniformVector3(gl, "u_light_color", light.color);
      WriteLightScalars(shader, light);
    }

    /** The light's ambient strength and power. */
    method WriteLightScalars(shader: LibShader.ShaderProgram, light: Light)
      requires shader.Valid(gl)
      modifies gl`log, shader`cache, shader`queried
      ensures shader.Valid(gl)
      ensures gl.log == old(gl.log) + [Uniform1f(gl.locate(shader.id, "u_light_ambient_strength"), light.ambientStrength),
                                       Uniform1f(gl.locate(shader.id, "u_light_power"), light.power)]
    {
      shader.SetUniformFloat(gl, "u_light_ambient_strength", light.ambientStrength);
      shader.SetUniformFloat(gl, "u_light_power", light.power);
    }

    /** draw: for each submesh in order, bind its program (and the program's
        texture), write the frame uniforms, bind its vertex array and index
        buffer, and draw its indices. Only the programs' uniform caches change. */
    method Draw(mesh: LibMesh.Mesh, camera: Cameras.Camera, light: Light, drawType: nat)
      requires Dispatchable(mesh) && Ready(mesh)
      modifies gl`log, defaultShader`cache, defaultShader`queried, mesh.shaders`cache, mesh.shaders`queried
      ensures Ready(mesh)
      ensures gl.log == old(gl.log)
        + FrameCommands(old(Plan(mesh)), Frame(mesh.matrix, camera.ViewMatrix(), camera.ProjectionMatrix(), light), gl.locate, PREFIXED_NAMES, drawType)
    {
      var frame := Frame(mesh.matrix, camera.ViewMatrix(), camera.ProjectionMatrix(), light);
      ghost var calls := Plan(mesh);
      assert calls[..0] == [];
      for i := 0 to |mesh.submeshes|
        invariant Ready(mesh) && Plan(mesh) == calls
        invariant gl.log == old(gl.log) + FrameCommands(calls[..i], frame, gl.locate, PREFIXED_NAMES, drawType)
      {
        DrawAt(mesh, i, frame, drawType);
        FrameCommandsStep(old(gl.log), calls, i, frame, gl.locate, PREFIXED_NAMES, drawType);
      }
      assert calls[..|calls|] == calls;
    }

    /** The body of draw's loop for submesh i: choose its shader and draw it. */
    method DrawAt(mesh: LibMesh.Mesh, i: nat, frame: Frame, drawType: nat)
      requires Dispatchable(mesh) && Ready(mesh) && i < |mesh.submeshes|
      modifies gl`log, defaultShader`cache, defaultShader`queried, mesh.shaders`cache, mesh.shaders`queried
      ensures Ready(mesh) && Plan(mesh) == old(Plan(mesh))
      ensures gl.log == old(gl.log) + SubmeshCommands(old(Plan(mesh))[i], frame, gl.locate, PREFIXED_NAMES, drawType)
    {
      var submesh := mesh.submeshes[i];
      var shader;
      if |mesh.shaders| == 0 {
        shader := defaultShader;
      } else {
        match submesh.shaderIndex {
          case Some(k) => shader := mesh.shaders[k];
          case None => shader := defaultShader;
        }
      }
      DrawSubmesh(shader, submesh, frame, drawType);
      forall p <- mesh.shaders
        ensures p.Valid(gl)
      {
        if p != shader {
          assert unchanged(p);
          assert old(p.Valid(gl));
        }
      }
    }
  }

  /** One DrawElements per submesh, in order, each with that submesh's
      index count as i32, UNSIGNED_INT indices and offset 0. */
  lemma DrawsOfMesh(r: Renderer, mesh: LibMesh.Mesh, f: Frame, locate: (nat, string) -> int, drawType: nat)
    requires Dispatchable(mesh)
    ensures Draws(FrameCommands(r.Plan(mesh), f, locate, PREFIXED_NAMES, drawType))
         == seq(|mesh.submeshes|, i requires 0 <= i < |mesh.submeshes| reads mesh =>
              DrawElements(drawType, AsI32(mesh.submeshes[i].indexBuffer.count), UNSIGNED_INT, 0))
  {
    OneDrawPerSubmesh(r.Plan(mesh), f, locate, PREFIXED_NAMES, drawType);
  }
}
