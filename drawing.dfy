/** What one Renderer::draw call sends to the driver, shared by the two
    renderer copies: per submesh, bind the chosen program, write the seven
    frame uniforms, bind the geometry and draw it. The copies differ only in
    the uniform names and in what binding a program issues. */
module Drawing {
  import opened Gl
  import opened Maths

  /** The light as the renderer reads it: light.direction(), color,
      ambient_strength and power. */
  datatype Light = Light(direction: Vec3, color: Vec3, ambientStrength: real, power: real)

  /** The per-frame uniform values: the mesh matrix, the camera's view and
      projection, and the light. */
  datatype Frame = Frame(model: Matrix, view: Matrix, projection: Matrix, light: Light)

  /** The draw of one submesh: the commands binding its program issues, the
      program, its vertex array and index buffer, and the index count. */
  datatype DrawCall = DrawCall(bind: seq<Command>, program: nat, vertexArray: nat, indexBuffer: nat, count: U32)

  /** The names of the seven uniforms the renderer writes. */
  datatype UniformNames = UniformNames(
    model: string, view: string, projection: string,
    lightDirection: string, lightColor: string, lightAmbientStrength: string, lightPower: string)

  /** The names in the order the renderer writes them. */
  function InOrder(n: UniformNames): seq<string> {
    [n.model, n.view, n.projection, n.lightDirection, n.lightColor, n.lightAmbientStrength, n.lightPower]
  }

  /** The names the renderer of src/graphics uses. */
  const PLAIN_NAMES := UniformNames("model", "view", "projection",
    "light_direction", "light_color", "light_ambient_strength", "light_power")

  /** The names the renderer of lib/palantir-lib uses. */
  const PREFIXED_NAMES := UniformNames("u_model", "u_view", "u_projection",
    "u_light_direction", "u_light_color", "u_light_ambient_strength", "u_light_power")

  /** The two renderers write the same uniforms: the library's names are the
      plain ones with "u_" in front (matrices here, the light below). */
  lemma PrefixedCameraNames()
    ensures PREFIXED_NAMES.model == "u_" + PLAIN_NAMES.model
    ensures PREFIXED_NAMES.view == "u_" + PLAIN_NAMES.view
    ensures PREFIXED_NAMES.projection == "u_" + PLAIN_NAMES.projection
  {
  }

  lemma PrefixedLightNames()
    ensures PREFIXED_NAMES.lightDirection == "u_" + PLAIN_NAMES.lightDirection
    ensures PREFIXED_NAMES.lightColor == "u_" + PLAIN_NAMES.lightColor
  {
  }

  lemma PrefixedLightScalarNames()
    ensures PREFIXED_NAMES.lightAmbientStrength == "u_" + PLAIN_NAMES.lightAmbientStrength
    ensures PREFIXED_NAMES.lightPower == "u_" + PLAIN_NAMES.lightPower
  {
  }

  /** The seven uniform writes on `program`, in order: the model, view and
      projection matrices, then the light. */
  function UniformCommands(program: nat, f: Frame, locate: (nat, string) -> int, names: UniformNames): (r: seq<Command>)
    ensures |r| == 7
    ensures forall k :: 0 <= k < |r| ==> IsUniformWrite(r[k]) && r[k].location == locate(program, InOrder(names)[k])
  {
    [UniformMatrix4fv(locate(program, names.model), f.model),
     UniformMatrix4fv(locate(program, names.view), f.view),
     UniformMatrix4fv(locate(program, names.projection), f.projection),
     Uniform3f(locate(program, names.lightDirection), f.light.direction),
     Uniform3f(locate(program, names.lightColor), f.light.color),
     Uniform1f(locate(program, names.lightAmbientStrength), f.light.ambientStrength),
     Uniform1f(locate(program, names.lightPower), f.light.power)]
  }

  /** The command sent to draw one submesh: its index count cast to i32,
      unsigned-int indices, starting at offset 0. */
  function DrawCommand(c: DrawCall, drawType: nat): Command {
    DrawElements(drawType, AsI32(c.count), UNSIGNED_INT, 0)
  }

  function SubmeshCommands(c: DrawCall, f: Frame, locate: (nat, string) -> int, names: UniformNames, drawType: nat): seq<Command> {
    c.bind + UniformCommands(c.program, f, locate, names)
    + [BindVertexArray(c.vertexArray), BindBuffer(ELEMENT_ARRAY_BUFFER, c.indexBuffer), DrawCommand(c, drawType)]
  }

  /** The commands of a whole draw: the submesh blocks, in order. */
  function FrameCommands(calls: seq<DrawCall>, f: Frame, locate: (nat, string) -> int, names: UniformNames, drawType: nat): seq<Command> {
    if calls == [] then []
    else
      var n := |calls| - 1;
      FrameCommands(calls[..n], f, locate, names, drawType) + SubmeshCommands(calls[n], f, locate, names, drawType)
  }

  /** Drawing one more submesh appends its block to the log. */
  lemma FrameCommandsStep(log: seq<Command>, calls: seq<DrawCall>, i: nat, f: Frame, locate: (nat, string) -> int, names: UniformNames, drawType: nat)
    requires i < |calls|
    ensures log + FrameCommands(calls[..i + 1], f, locate, names, drawType)
         == (log + FrameCommands(calls[..i], f, locate, names, drawType)) + SubmeshCommands(calls[i], f, locate, names, drawType)
  {
    assert calls[..i + 1][..i] == calls[..i];
    AppendAssociative(log, FrameCommands(calls[..i], f, locate, names, drawType), SubmeshCommands(calls[i], f, locate, names, drawType));
  }

  /** The DrawElements commands of a log, in order. */
  function Draws(log: seq<Command>): (r: seq<Command>)
    ensures |r| <= |log|
  {
    if log == [] then []
    else
      var n := |log| - 1;
      Draws(log[..n]) + (if log[n].DrawElements? then [log[n]] else [])
  }

  lemma {:induction false} DrawsAppend(a: seq<Command>, b: seq<Command>)
    ensures Draws(a + b) == Draws(a) + Draws(b)
    decreases |b|
  {
    if b == [] {
      assert a + b == a;
    } else {
      var n := |b| - 1;
      assert (a + b)[..|a + b| - 1] == a + b[..n];
      DrawsAppend(a, b[..n]);
    }
  }

  lemma {:induction false} NoDraws(log: seq<Command>)
    requires forall c <- log :: !c.DrawElements?
    ensures Draws(log) == []
  {
    if log != [] {
      NoDraws(log[..|log| - 1]);
    }
  }

  /** A draw issues exactly one DrawElements per submesh, in submesh order,
      each with that submesh's index count; binding never draws. */
  lemma {:induction false} OneDrawPerSubmesh(calls: seq<DrawCall>, f: Frame, locate: (nat, string) -> int, names: UniformNames, drawType: nat)
    requires forall c <- calls, b <- c.bind :: !b.DrawElements?
    ensures Draws(FrameCommands(calls, f, locate, names, drawType))
         == seq(|calls|, i requires 0 <= i < |calls| => DrawCommand(calls[i], drawType))
  {
    if calls != [] {
      var n := |calls| - 1;
      OneDrawPerSubmesh(calls[..n], f, locate, names, drawType);
      SubmeshDraws(calls[n], f, locate, names, drawType);
      DrawsAppend(FrameCommands(calls[..n], f, locate, names, drawType), SubmeshCommands(calls[n], f, locate, names, drawType));
    }
  }

  /** One submesh block draws once, last. */
  lemma SubmeshDraws(c: DrawCall, f: Frame, locate: (nat, string) -> int, names: UniformNames, drawType: nat)
    requires forall b <- c.bind :: !b.DrawElements?
    ensures Draws(SubmeshCommands(c, f, locate, names, drawType)) == [DrawCommand(c, drawType)]
  {
    var body := c.bind + UniformCommands(c.program, f, locate, names)
      + [BindVertexArray(c.vertexArray), BindBuffer(ELEMENT_ARRAY_BUFFER, c.indexBuffer)];
    assert SubmeshCommands(c, f, locate, names, drawType) == body + [DrawCommand(c, drawType)];
    NoDraws(body);
    DrawsAppend(body, [DrawCommand(c, drawType)]);
    assert Draws([DrawCommand(c, drawType)]) == [DrawCommand(c, drawType)];
  }
}
