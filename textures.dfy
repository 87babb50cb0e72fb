/** Textures, seen from the rest of the engine as a GL texture name that can
    be bound, and the file it was read from. Decoding the image and uploading
    its pixels are not modelled. */
module Textures {
  import opened Gl

  datatype Texture = Texture(id: Name, source: seq<string>)

  /** Texture::new: a fresh texture name for the image at `path`, bound to
      TEXTURE_2D while it is set up. */
  method New(gl: Context, path: seq<string>) returns (texture: Texture)
    modifies gl
    ensures texture.source == path
    ensures texture.id == old(gl.nextName) && gl.nextName == texture.id + 1
    ensures gl.log == old(gl.log) + [GenTextures(texture.id), BindTexture(TEXTURE_2D, texture.id)]
  {
    var name := gl.GenName();
    texture := Texture(name, path);
    gl.log := gl.log + [GenTextures(name), BindTexture(TEXTURE_2D, name)];
  }

  /** Texture::bind: select the texture on TEXTURE_2D. */
  method Bind(gl: Context, texture: Texture)
    modifies gl`log
    ensures gl.log == old(gl.log) + [BindTexture(TEXTURE_2D, texture.id)]
  {
    gl.log := gl.log + [BindTexture(TEXTURE_2D, texture.id)];
  }
}
