/** The renderer of src/graphics/renderer/renderer.rs. */
module GraphicsRenderer {
  import opened Gl
  import opened Maths
  import opened Wrappers
  import opened Drawing
  import GraphicsShader
  import GraphicsMesh
  import Cameras

  /** COLOR_BUFFER_BIT | DEPTH_BUFFER_BIT. */
  const CLEAR_MASK: bv32 := COLOR_BUFFER_BIT | DEPTH_BUFFER_BIT

  /** Which shader a submesh is drawn with: None for the renderer's default,
      Some(i) for mesh.shaders[i]. This copy indexes the shader list with the
      submesh's index directly, so a non-empty list needs an index in range. */
  function SelectShader(shaderCount: nat, index: Option<nat>): (r: Option<nat>)
    requires shaderCount > 0 ==> index.Some? && index.value < shaderCount
    ensures shaderCount == 0 ==> r.None?
    ensures shaderCount > 0 ==> r == index && r.value < shaderCount
  {
    if shaderCount == 0 then None else index
  }

  /** The shader indexing of draw cannot fail on `mesh`. */
  ghost predicate Dispatchable(mesh: GraphicsMesh.Mesh)
    reads mesh
  {
    |mesh.shaders| > 0 ==>
      forall s <- mesh.submeshes :: s.shaderIndex.Some? && s.shaderIndex.value < |mesh.shaders|
  }

  class Renderer {
    const gl: Context
    const defaultShader: GraphicsShader.ShaderProgram

    constructor (gl: Context, defaultShader: GraphicsShader.ShaderProgram)
      ensures this.gl == gl && this.defaultShader == defaultShader
    {
      this.gl := gl;
      this.defaultShader := defaultShader;
    }

    /** clear: the given colour with alpha 1, then clear colour and depth. */
    method Clear(r: real, g: real, b: real)
      modifies gl`log
      ensures gl.log == old(gl.log) + [ClearColor(r, g, b, 1.0), Command.Clear(CLEAR_MASK)]
    {
      gl.log := gl.log + [ClearColor(r, g, b, 1.0), Command.Clear(COLOR_BUFFER_BIT | DEPTH_BUFFER_BIT)];
    }

    /** The draw call of submesh `s` when the mesh holds `shaders`. */
    ghost function CallFor(s: GraphicsMesh.SubMesh, shaders: seq<GraphicsShader.ShaderProgram>): DrawCall
      requires |shaders| > 0 ==> s.shaderIndex.Some? && s.shaderIndex.value < |shaders|
    {
      var p := match SelectShader(|shaders|, s.shaderIndex)
        case None => defaultShader
        case Some(i) => shaders[i];
      DrawCall([UseProgram(p.id)], p.id, s.vertexArray.id, s.indexBuffer.id, s.indexBuffer.count)
    }

    /** The draw calls of `mesh`, one per submesh, in order. */
    ghost function Plan(mesh: GraphicsMesh.Mesh): (calls: seq<DrawCall>)
      requires Dispatchable(mesh)
      reads mesh
      ensures |calls| == |mesh.submeshes|
    {
      var submeshes, shaders := mesh.submeshes, mesh.shaders;
      seq(|submeshes|, i requires 0 <= i < |submeshes| && (|shaders| > 0 ==> submeshes[i].shaderIndex.Some? && submeshes[i].shaderIndex.value < |shaders|) =>
        CallFor(submeshes[i], shaders))
    }

    /** Every program draw may use: the default one and the mesh's. */
    ghost predicate Ready(mesh: GraphicsMesh.Mesh)
      reads mesh, defaultShader, mesh.shaders
    {
      && defaultShader.gl == gl && defaultShader.Valid()
      && (forall p <- mesh.shaders :: p.gl == gl && p.Valid())
      && (forall s <- mesh.submeshes :: s.vertexArray.gl == gl && s.indexBuffer.gl == gl)
    }

    /** One iteration of draw, for a submesh and the shader chosen for it. */
    method DrawSubmesh(shader: GraphicsShader.ShaderProgram, submesh: GraphicsMesh.SubMesh, f: Frame, drawType: nat)
      requires shader.gl == gl && shader.Valid()
      requires submesh.vertexArray.gl == gl && submesh.indexBuffer.gl == gl
      modifies gl`log, shader`cache, shader`queried
      ensures shader.Valid()
      ensures gl.log == old(gl.log) + SubmeshCommands(
        DrawCall([UseProgram(shader.id)], shader.id, submesh.vertexArray.id, submesh.indexBuffer.id, submesh.indexBuffer.count),
        f, gl.locate, PLAIN_NAMES, drawType)
    {
      shader.Bind();
      WriteUniforms(shader, f);
      submesh.vertexArray.Bind();
      submesh.indexBuffer.Bind();
      gl.log := gl.log + [DrawElements(drawType, AsI32(submesh.indexBuffer.count), UNSIGNED_INT, 0)];
    }

    /** The seven uniform writes of draw, in order. */
    method WriteUniforms(shader: GraphicsShader.ShaderProgram, f: Frame)
      requires shader.gl == gl && shader.Valid()
      modifies gl`log, shader`cache, shader`queried
      ensures shader.Valid()
      ensures gl.log == old(gl.log) + UniformCommands(shader.id, f, gl.locate, PLAIN_NAMES)
    {
      WriteCamera(shader, f);
      WriteLight(shader, f.light);
    }

    /** The model, view and projection matrices. */
    method WriteCamera(shader: GraphicsShader.ShaderProgram, f: Frame)
      requires shader.gl == gl && shader.Valid()
      modifies gl`log, shader`cache, shader`queried
      ensures shader.Valid()
      ensures gl.log == old(gl.log) + [UniformMatrix4fv(gl.locate(shader.id, "model"), f.model),
                                       UniformMatrix4fv(gl.locate(shader.id, "view"), f.view),
                                       UniformMatrix4fv(gl.locate(shader.id, "projection"), f.projection)]
    {
      ghost var model := UniformMatrix4fv(gl.locate(shader.id, "model"), f.model);
      ghost var view := UniformMatrix4fv(gl.locate(shader.id, "view"), f.view);
      ghost var projection := UniformMatrix4fv(gl.locate(shader.id, "projection"), f.projection);
      ghost var start := gl.log;
      shader.SetUniformMatrix4("model", f.model);
      ghost var afterModel := gl.log;
      shader.SetUniformMatrix4("view", f.view);
      AppendBlocks(start, afterModel, gl.log, [model], [view]);
      ghost var afterView := gl.log;
      shader.SetUniformMatrix4("projection", f.projection);
      AppendBlocks(start, afterView, gl.log, [model] + [view], [projection]);
      assert [model] + [view] + [projection] == [model, view, projection];
    }

    /** The light's direction, colour, ambient strength and power. */
    method WriteLight(shader: GraphicsShader.ShaderProgram, light: Light)
      requires shader.gl == gl && shader.Valid()
      modifies gl`log, shader`cache, shader`queried
      ensures shader.Valid()
      ensures gl.log == old(gl.log) + [Uniform3f(gl.locate(shader.id, "light_direction"), light.direction),
                                       Uniform3f(gl.locate(shader.id, "light_color"), light.color),
                                       Uniform1f(gl.locate(shader.id, "light_ambient_strength"), light.ambientStrength),
                                       Uniform1f(gl.locate(shader.id, "light_power"), light.power)]
    {
      shader.SetUniformVector3("light_direction", light.direction);
      shader.SetUniformVector3("light_color", light.color);
      WriteLightScalars(shader, light);
    }

    /** The light's ambient strength and power. */
    method WriteLightScalars(shader: GraphicsShader.ShaderProgram, light: Light)
      requires shader.gl == gl && shader.Valid()
      modifies gl`log, shader`cache, shader`queried
      ensures shader.Valid()
      ensures gl.log == old(gl.log) + [Uniform1f(gl.locate(shader.id, "light_ambient_strength"), light.ambientStrength),
                                       Uniform1f(gl.locate(shader.id, "light_power"), light.power)]
    {
      shader.SetUniformFloat("light_ambient_strength", light.ambientStrength);
      shader.SetUniformFloat("light_power", light.power);
    }

    /** draw: for each submesh in order, bind its program, write the frame
        uniforms, bind its vertex array and index buffer, and draw its indices.
        Only the programs' uniform caches change. */
    method Draw(mesh: GraphicsMesh.Mesh, camera: Cameras.Camera, light: Light, drawType: nat)
      requires Dispatchable(mesh) && Ready(mesh)
      modifies gl`log, defaultShader`cache, defaultShader`queried, mesh.shaders`cache, mesh.shaders`queried
      ensures Ready(mesh)
      ensures gl.log == old(gl.log)
        + FrameCommands(Plan(mesh), Frame(mesh.matrix, camera.ViewMatrix(), camera.ProjectionMatrix(), light), gl.locate, PLAIN_NAMES, drawType)
    {
      var frame := Frame(mesh.matrix, camera.ViewMatrix(), camera.ProjectionMatrix(), light);
      ghost var calls := Plan(mesh);
      var i := 0;
      while i < |mesh.submeshes|
        invariant 0 <= i <= |mesh.submeshes|
        invariant Ready(mesh)
        invariant gl.log == old(gl.log) + FrameCommands(calls[..i], frame, gl.locate, PLAIN_NAMES, drawType)
      {
        DrawAt(mesh, i, frame, drawType);
        FrameCommandsStep(old(gl.log), calls, i, frame, gl.locate, PLAIN_NAMES, drawType);
        i := i + 1;
      }
      assert calls[..i] == calls;
    }

    /** The body of draw's loop for submesh i: choose its shader and draw it. */
    method DrawAt(mesh: GraphicsMesh.Mesh, i: nat, frame: Frame, drawType: nat)
      requires Dispatchable(mesh) && Ready(mesh) && i < |mesh.submeshes|
      modifies gl`log, defaultShader`cache, defaultShader`queried, mesh.shaders`cache, mesh.shaders`queried
      ensures Ready(mesh)
      ensures gl.log == old(gl.log) + SubmeshCommands(Plan(mesh)[i], frame, gl.locate, PLAIN_NAMES, drawType)
    {
      var submesh := mesh.submeshes[i];
      var shader;
      if |mesh.shaders| == 0 {
        shader := defaultShader;
      } else {
        shader := mesh.shaders[submesh.shaderIndex.value];
      }
      DrawSubmesh(shader, submesh, frame, drawType);
      forall p <- mesh.shaders
        ensures p.gl == gl && p.Valid()
      {
        if p != shader {
          assert unchanged(p);
          assert old(p.Valid());
        }
      }
    }
  }

  /** One DrawElements per submesh, in order, each with that submesh's
      index count as i32, UNSIGNED_INT indices and offset 0. */
  lemma DrawsOfMesh(r: Renderer, mesh: GraphicsMesh.Mesh, f: Frame, locate: (nat, string) -> int, drawType: nat)
    requires Dispatchable(mesh)
    ensures Draws(FrameCommands(r.Plan(mesh), f, locate, PLAIN_NAMES, drawType))
         == seq(|mesh.submeshes|, i requires 0 <= i < |mesh.submeshes| reads mesh =>
              DrawElements(drawType, AsI32(mesh.submeshes[i].indexBuffer.count), UNSIGNED_INT, 0))
  {
    OneDrawPerSubmesh(r.Plan(mesh), f, locate, PLAIN_NAMES, drawType);
  }
}
