/** Materials of lib/palantir-lib/src/material.rs: a diffuse colour and an
    optional diffuse texture, sent to a shader as two uniforms. */
module LibMaterial {
  import opened Gl
  import opened Maths
  import opened Wrappers
  import Textures
  import LibShader

  datatype Material = Material(diffuse: Vec3, diffuseTexture: Option<Textures.Texture>)

  /** Material::new keeps both arguments as given. */
  function New(diffuse: Vec3, diffuseTexture: Option<Textures.Texture>): (m: Material)
    ensures m.diffuse == diffuse && m.diffuseTexture == diffuseTexture
  {
    Material(diffuse, diffuseTexture)
  }

  /** The commands send_to_shader issues for `m` on program `id`, whose
      uniform locations the driver answers with `locate`. */
  function MaterialCommands(m: Material, locate: (nat, string) -> int, id: nat): seq<Command> {
    [Uniform3f(locate(id, "material.diffuse"), m.diffuse)]
    + (match m.diffuseTexture
       case Some(t) => [BindTexture(TEXTURE_2D, t.id), Uniform1ui(locate(id, "material.use_diffuse_texture"), 1)]
       case None => [Uniform1ui(locate(id, "material.use_diffuse_texture"), 0)])
  }

  /** send_to_shader: the diffuse colour first, then the texture flag; the
      texture is bound only when there is one. */
  method SendToShader(gl: Context, m: Material, shader: LibShader.ShaderProgram)
    requires shader.Valid(gl)
    modifies shader`cache, shader`queried, gl`log
    ensures shader.Valid(gl)
    ensures gl.log == old(gl.log) + MaterialCommands(m, gl.locate, shader.id)
  {
    shader.SetUniformVector3(gl, "material.diffuse", m.diffuse);
    match m.diffuseTexture {
      case Some(t) =>
        Textures.Bind(gl, t);
        shader.SetUniformBool(gl, "material.use_diffuse_texture", true);
      case None =>
        shader.SetUniformBool(gl, "material.use_diffuse_texture", false);
    }
  }

  /** Whatever the material, exactly two uniforms are written: the diffuse
      colour first and the texture flag last, which is 1 iff a texture is
      present; a texture bind happens iff a texture is present. */
  lemma {:induction false} TwoUniformWrites(m: Material, locate: (nat, string) -> int, id: nat)
    ensures var cs := MaterialCommands(m, locate, id);
      && CountWhere(cs, IsUniformWrite) == 2
      && cs[0] == Uniform3f(locate(id, "material.diffuse"), m.diffuse)
      && cs[|cs| - 1] == Uniform1ui(locate(id, "material.use_diffuse_texture"), if m.diffuseTexture.Some? then 1 else 0)
      && (CountWhere(cs, (c: Command) => c.BindTexture?) == 1 <==> m.diffuseTexture.Some?)
  {
    var cs := MaterialCommands(m, locate, id);
    var isBind := (c: Command) => c.BindTexture?;
    if m.diffuseTexture.Some? {
      assert cs[..2][..1] == cs[..1] && cs[..3][..2] == cs[..2] && cs[..1][..0] == [] && cs[..3] == cs;
      assert CountWhere(cs[..1], IsUniformWrite) == 1;
      assert CountWhere(cs[..2], IsUniformWrite) == 1;
      assert CountWhere(cs[..1], isBind) == 0;
      assert CountWhere(cs[..2], isBind) == 1;
    } else {
      assert cs[..1][..0] == [] && cs[..2] == cs;
      assert CountWhere(cs[..1], IsUniformWrite) == 1;
      assert CountWhere(cs[..1], isBind) == 0;
    }
  }
}
