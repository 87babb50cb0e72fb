# palantir engine core in Dafny

palantir is a small OpenGL model viewer written in Rust. Its rendering engine
exists twice: once under `src/graphics` and once as the library crate
`lib/palantir-lib`. Each copy has the same parts:

- GPU buffer wrappers: vertex buffer, index buffer, vertex array and vertex
  layout;
- shader programs with a cache of uniform locations;
- meshes made of submeshes;
- a renderer that draws a mesh with a camera and a light.

Around the engine sit:

- the orbit cameras: the current one and the older `render_gl` one;
- resource loading;
- the scene, a tree of named nodes plus the meshes loaded from OBJ files;
- procedural primitives: a disk, a cube and a plane.

This project models that core in Dafny and proves properties of the model.

**The GL driver.** The driver is a `Gl.Context` object with three parts:

- `log`, the sequence of driver calls made so far, in order;
- a name counter for `glGen*` / `glCreate*`;
- an oracle `locate` for `glGetUniformLocation`.

Each engine operation is specified by what it appends to the log and how it
moves the counter. The driver's answers to compile and link status queries
are a `Verdict` parameter: accepted, or rejected with an info-log length and
the bytes the driver writes. The src copy reaches the driver through its
cloned `gl::Gl` handle; the library copy calls the global GL functions.
Both are the same `Context` here.

**Matrices.** Matrices are a symbolic term algebra (`Maths.Matrix`). Camera
contracts state which translations and rotations are multiplied in, and on
which side. `Factors` reads a product as a word of its factors, so products
are equal up to associativity and identity.

**What is proved:**

- Every buffer, shader, mesh, texture and renderer operation issues exactly
  the driver calls the source makes, in the source's order, except the
  texture parameter, image upload and mipmap calls of `Texture::new`. This covers both
  OBJ loaders (`Mesh::from_res` and `Scene::load_obj`) and the three
  primitives.
- The OBJ loaders read each texture from the material's texture name with
  every "res://" removed, resolved under the resource root.
- The uniform-location cache always agrees with the driver. Its keys are
  exactly the names queried, and no name is ever queried twice.
- Shader loading covers every error path:
  - an unknown extension;
  - a resource that cannot be read or holds a nul byte;
  - a compile failure;
  - a link failure.
  For each path the proof gives the exact error value and the exact set of
  GL objects created and deleted.
- A draw issues exactly one `DrawElements` per submesh, in order.
- Vertex attribute offsets are prefix sums that fit inside the stride.
- Adding a scene node keeps the parent and child links consistent.
- Flattening OBJ arrays loses no position.
- Splitting a resource name and joining it back gives the name again.
- The disk fan closes on itself.
- Every cube face is wound outwards.
- The plane faces up.

## Model

| member | source | states |
|---|---|---|
| Gl.AsU32 | src/graphics/buffers/index_buffer.rs:10 | `len as u32` keeps a length below 2^32 and wraps a larger one to a smaller value below 2^32 |
| Gl.AsI32 | src/graphics/renderer/renderer.rs:53 | the u32 index count cast to i32 lies in [-2^31, 2^31) and is the count, or the count minus 2^32 |
| Gl.Context.GenName | src/graphics/buffers/vertex_buffer.rs:15 | the driver hands out the current counter value as a new name and moves the counter past it, so no name is handed out twice |
| Layout.GlTypeTable | src/graphics/buffers/vertex_buffer.rs:78-110 | f32 and u32 are 4 bytes, FLOAT and UNSIGNED_INT, not normalized; u8 is 1 byte, UNSIGNED_BYTE, normalized |
| Layout.OffsetsArePrefixSums | src/graphics/buffers/vertex_array.rs:20-35 | the first offset is 0; each offset adds the previous element's count times size; every attribute ends within the stride; the end offset is the stride |
| Layout.AttribSlot | src/graphics/buffers/vertex_array.rs:21-33 | element i is bound to slot i; that slot is enabled just before its pointer is set, with the layout's stride and the offset of the elements before it |
| Layout.VertexBufferLayout.constructor | src/graphics/buffers/vertex_buffer.rs:54-59 | a new layout has no elements and stride 0 |
| Layout.VertexBufferLayout.Push | src/graphics/buffers/vertex_buffer.rs:61-69 | push appends the element for the type and count, and the stride grows by count times the type's size, so the stride stays the sum of the element sizes |
| Layout.EnableAttributes | src/graphics/buffers/vertex_array.rs:20-35 | the attribute loop appends exactly enable then pointer for each element, in element order |
| Layout.VertexAttributes | src/graphics/mesh/mesh.rs:33-39 | the vertex layout spans 32 bytes; position, normal and uv go to slots 0, 1 and 2 at offsets 0, 12 and 24 |
| Layout.PushVertexElements | src/graphics/mesh/mesh.rs:33-35 | the three pushes give position (3 f32), normal (3 f32) and uv (2 f32) with stride 32 |
| GraphicsBuffers.VertexBuffer.constructor | src/graphics/buffers/vertex_buffer.rs:9-25 | takes a new name, binds it to ARRAY_BUFFER and uploads len·32 bytes with STATIC_DRAW |
| GraphicsBuffers.VertexBuffer.Bind | src/graphics/buffers/vertex_buffer.rs:26-28 | binds its own name to ARRAY_BUFFER |
| GraphicsBuffers.VertexBuffer.Unbind | src/graphics/buffers/vertex_buffer.rs:29-31 | binds 0 to ARRAY_BUFFER |
| GraphicsBuffers.VertexBuffer.Drop | src/graphics/buffers/vertex_buffer.rs:34-40 | deletes its own buffer name |
| GraphicsBuffers.IndexBuffer.constructor | src/graphics/buffers/index_buffer.rs:8-25 | count is the length as u32; takes a new name, binds ELEMENT_ARRAY_BUFFER and uploads len·4 bytes |
| GraphicsBuffers.IndexBuffer.Bind | src/graphics/buffers/index_buffer.rs:26-30 | binds its own name to ELEMENT_ARRAY_BUFFER |
| GraphicsBuffers.IndexBuffer.Unbind | src/graphics/buffers/index_buffer.rs:31-35 | binds 0 to ELEMENT_ARRAY_BUFFER |
| GraphicsBuffers.IndexBuffer.Drop | src/graphics/buffers/index_buffer.rs:38-44 | deletes its own buffer name |
| GraphicsBuffers.VertexArray.constructor | src/graphics/buffers/vertex_array.rs:9-16 | takes a new vertex array name |
| GraphicsBuffers.VertexArray.AddBuffer | src/graphics/buffers/vertex_array.rs:17-36 | binds the array, then the vertex buffer, then describes every attribute of the layout |
| GraphicsBuffers.VertexArray.Bind | src/graphics/buffers/vertex_array.rs:37-41 | binds its own name |
| GraphicsBuffers.VertexArray.Unbind | src/graphics/buffers/vertex_array.rs:42-46 | binds vertex array 0 |
| LibBuffers.VertexBuffer.constructor | lib/palantir-lib/src/vertex_buffer.rs:8-23 | takes a new name, binds it to ARRAY_BUFFER and uploads len·32 bytes |
| LibBuffers.VertexBuffer.Bind | lib/palantir-lib/src/vertex_buffer.rs:24-26 | binds its own name to ARRAY_BUFFER |
| LibBuffers.VertexBuffer.Drop | lib/palantir-lib/src/vertex_buffer.rs:29-35 | deletes its own buffer name |
| LibBuffers.IndexBuffer.constructor | lib/palantir-lib/src/index_buffer.rs:10-26 | count is the length as u32; takes a new name, binds ELEMENT_ARRAY_BUFFER and uploads len·4 bytes |
| LibBuffers.IndexBuffer.Clone | lib/palantir-lib/src/index_buffer.rs:3 | a clone carries the same count, name and contents and makes no driver call |
| LibBuffers.IndexBuffer.Bind | lib/palantir-lib/src/index_buffer.rs:27-31 | binds its own name to ELEMENT_ARRAY_BUFFER |
| LibBuffers.IndexBuffer.Drop | lib/palantir-lib/src/index_buffer.rs:34-40 | deletes its own buffer name |
| LibBuffers.NewVertexArray | lib/palantir-lib/src/vertex_array.rs:9-13 | takes a new vertex array name |
| LibBuffers.BindVertexArray | lib/palantir-lib/src/vertex_array.rs:34-38 | binds the array's name |
| LibBuffers.AddBuffer | lib/palantir-lib/src/vertex_array.rs:14-33 | binds the array, then the vertex buffer, then describes every attribute of the layout |
| Textures.New | lib/palantir-lib/src/texture.rs:12-51 | takes a new texture name and binds it to TEXTURE_2D |
| Textures.Bind | lib/palantir-lib/src/texture.rs:52-56 | binds the texture's name to TEXTURE_2D |
| Obj.Flatten | src/graphics/mesh/mesh.rs:72-92 | one vertex per whole position triple; vertex i takes positions 3i..3i+2, normals 3i..3i+2 and texcoords 2i..2i+1 |
| Obj.FlattenKeepsPositions | src/scene.rs:137-155 | the flattened vertices' positions, written back flat, are the input positions up to the last whole triple |
| Obj.RemoveAll | src/scene.rs:166 | removing every occurrence never makes the text longer |
| Obj.StripScheme | src/scene.rs:166 | a texture path "res://" + p becomes p when p holds no "res://" |
| Obj.RemoveAbsent | src/graphics/mesh/mesh.rs:105 | replacing a pattern that never occurs leaves the text unchanged |
| Resources.FromIo | src/resources.rs:13-17 | an I/O error becomes the Io variant holding it |
| Resources.Display | src/resources.rs:19-29 | the two fixed messages, and an I/O error shows its own text |
| Resources.FixedMessagesDiffer | src/resources.rs:22-25 | the nil-byte and exe-path messages are different |
| Resources.FromRelativeExePath | src/resources.rs:38-47 | it fails with FailedToGetExePath exactly when there is no executable path or no parent directory; otherwise the root is the parent joined with the relative path |
| Resources.Split | src/resources.rs:68 | split("/") gives at least one piece and no piece contains "/" |
| Resources.SplitRoundTrip | src/resources.rs:68 | joining the pieces with "/" gives back the name |
| Resources.SplitWithoutSeparator | src/resources.rs:68 | a name without "/" splits into itself alone |
| Resources.SplitAtSeparator | src/resources.rs:68 | splitting a + "/" + b gives the pieces of a followed by the pieces of b |
| Resources.ComponentsAppend | src/resources.rs:68-70 | joining two runs of pieces to a path is joining their components in order |
| Resources.ResourceNameToPath | src/resources.rs:65-73 | the loop joins every piece of the name to the root, in order |
| Resources.PlainNameIsOneComponent | src/resources.rs:65-73 | a name without "/" (other than "" and ".") lands directly under the root |
| Resources.ResourcePathConcatenates | src/resources.rs:65-73 | the path of a/b is the path of a followed by the components of b |
| Resources.CString | src/resources.rs:50-61 | a read error becomes Io; contents containing a 0 byte are FileContainsNil; otherwise the bytes are returned unchanged |
| Resources.LoadCString | src/resources.rs:49-62 | load_cstring reads the resolved path and applies exactly that classification |
| ShaderCommon.Whitespace | src/graphics/renderer/shader.rs:290-297 | exactly len characters, all spaces |
| ShaderCommon.InfoLog | src/graphics/renderer/shader.rs:266-285 | the error text has the reported log length; it holds the driver's bytes first, then the rest of the buffer's spaces |
| ShaderCommon.ShaderFromSource | src/graphics/renderer/shader.rs:249-288 | creates, sources and compiles a new shader; on acceptance it returns the name; on rejection it returns the info log and leaves the shader undeleted |
| ShaderCommon.FromSource | src/graphics/renderer/shader.rs:77-84 | the same calls and outcome, with the name wrapped as a Shader |
| ShaderCommon.DropShader | src/graphics/renderer/shader.rs:99-105 | deletes the shader's name |
| ShaderCommon.AttachAll | src/graphics/renderer/shader.rs:140-144 | attaches every stage to the program, in order |
| ShaderCommon.DetachAll | src/graphics/renderer/shader.rs:175-179 | detaches every stage from the program, in order |
| ShaderCommon.DropAll | src/graphics/renderer/shader.rs:126-135 | dropping the stage vector deletes every stage, in order |
| ShaderCommon.LinkShaders | src/graphics/renderer/shader.rs:137-179 | create the program, attach all stages, link; on rejection return the info log with nothing detached; on acceptance detach every stage |
| ShaderCommon.CacheAgreesMeans | src/graphics/renderer/shader.rs:220-238 | the cache's keys are exactly the queried names; every cached location is the driver's answer; no name was queried twice |
| ShaderCommon.CacheMiss | src/graphics/renderer/shader.rs:227-235 | asking the driver for an uncached name and inserting the answer keeps the cache in agreement |
| ShaderCommon.QueriesAtMostOncePerName | src/graphics/renderer/shader.rs:220-238 | the number of driver queries equals the number of cached names |
| GraphicsShader.Display | src/graphics/renderer/shader.rs:26-43 | the message of each of the four error kinds |
| GraphicsShader.StageKind | src/graphics/renderer/shader.rs:54-63 | ".vert" means a vertex stage and ".frag" a fragment stage; any other name fails with CanNotDetermineShaderTypeForResource (both directions) |
| GraphicsShader.ResourceNamesHaveKinds | src/graphics/renderer/shader.rs:119-124 | the two names from_res builds are recognised, the first as a vertex stage and the second as a fragment stage |
| GraphicsShader.ShaderFromRes | src/graphics/renderer/shader.rs:53-76 | an unknown extension fails with no driver call; an unreadable source fails with ResourceLoad and no driver call; otherwise it compiles and wraps a failure as CompileError |
| GraphicsShader.FromVertSource | src/graphics/renderer/shader.rs:86-88 | from_source with the vertex kind |
| GraphicsShader.FromFragSource | src/graphics/renderer/shader.rs:90-92 | from_source with the fragment kind |
| GraphicsShader.ShaderProgram.constructor | src/graphics/renderer/shader.rs:181-185 | a new program value has an empty uniform cache that agrees with the driver |
| GraphicsShader.ShaderProgram.FromShaders | src/graphics/renderer/shader.rs:137-186 | on a link failure, the info log with nothing detached; on success a new program with an empty cache, every stage detached |
| GraphicsShader.ShaderProgram.GetUniformLocation | src/graphics/renderer/shader.rs:220-238 | returns the driver's location; a hit changes nothing; a miss queries once and caches the answer, -1 included; agreement is kept |
| GraphicsShader.ShaderProgram.SetUniformMatrix4 | src/graphics/renderer/shader.rs:202-207 | uploads the matrix at the driver's location for the name |
| GraphicsShader.ShaderProgram.SetUniformFloat | src/graphics/renderer/shader.rs:208-213 | uploads the float at the driver's location for the name |
| GraphicsShader.ShaderProgram.SetUniformVector3 | src/graphics/renderer/shader.rs:214-219 | uploads the vector at the driver's location for the name |
| GraphicsShader.ShaderProgram.SetTexture | src/graphics/mesh/mesh.rs:107 | sets u_use_texture to 1, then holds the texture |
| GraphicsShader.ShaderProgram.Bind | src/graphics/renderer/shader.rs:192-196 | uses its own program |
| GraphicsShader.ShaderProgram.Unbind | src/graphics/renderer/shader.rs:197-201 | uses program 0 |
| GraphicsShader.ShaderProgram.Drop | src/graphics/renderer/shader.rs:241-247 | deletes its own program |
| GraphicsShader.ProgramFromRes | src/graphics/renderer/shader.rs:114-135 | loads name.vert then name.frag and stops at the first failure, returning its error; every stage built so far is deleted; the program is linked only when both stages compiled |
| GraphicsShader.LinkStages | src/graphics/renderer/shader.rs:129-135 | links the two stages into a new program, detaches them only after a successful link, and deletes both stages either way; a link failure becomes LinkError |
| LibShader.Display | lib/palantir-lib/src/shader.rs:20-37 | the message of each of the two error kinds |
| LibShader.BoolAsU32 | lib/palantir-lib/src/shader.rs:189 | `value as u32` is 1 for true and 0 for false |
| LibShader.ShaderProgram.constructor | lib/palantir-lib/src/shader.rs:159-163 | a new program value has an empty cache and no texture |
| LibShader.ShaderProgram.FromShaders | lib/palantir-lib/src/shader.rs:115-164 | on a link failure, the info log with nothing detached; on success a new program with an empty cache and no texture, every stage detached |
| LibShader.ShaderProgram.GetUniformLocation | lib/palantir-lib/src/shader.rs:204-222 | returns the driver's location; a hit changes nothing; a miss queries once and caches the answer; agreement is kept |
| LibShader.ShaderProgram.SetUniformMatrix4 | lib/palantir-lib/src/shader.rs:180-185 | uploads the matrix at the driver's location for the name |
| LibShader.ShaderProgram.SetUniformBool | lib/palantir-lib/src/shader.rs:186-191 | uploads the flag as 0 or 1 at the driver's location for the name |
| LibShader.ShaderProgram.SetUniformFloat | lib/palantir-lib/src/shader.rs:192-197 | uploads the float at the driver's location for the name |
| LibShader.ShaderProgram.SetUniformVector3 | lib/palantir-lib/src/shader.rs:198-203 | uploads the vector at the driver's location for the name |
| LibShader.ShaderProgram.SetTexture | lib/palantir-lib/src/shader.rs:166-169 | sets u_use_texture to 1 first, then holds the texture |
| LibShader.ShaderProgram.Bind | lib/palantir-lib/src/shader.rs:170-178 | binds the held texture (or texture 0) on TEXTURE_2D, and only then uses the program |
| LibShader.ShaderProgram.Drop | lib/palantir-lib/src/shader.rs:225-231 | deletes its own program |
| LibMaterial.New | lib/palantir-lib/src/material.rs:11-16 | keeps the diffuse colour and texture as given |
| LibMaterial.SendToShader | lib/palantir-lib/src/material.rs:17-26 | sends the diffuse colour, then binds the texture and sets the flag to 1 when there is a texture, otherwise sets the flag to 0 |
| LibMaterial.TwoUniformWrites | lib/palantir-lib/src/material.rs:17-26 | exactly two uniform writes: the colour first and the flag last; the flag is 1 iff a texture is present; there is one texture bind iff a texture is present |
| Cameras.ZoomedDistance | src/components/camera.rs:64 | the new distance is at least 0.01 and at least \|d - step\|, and equals one of the two |
| Cameras.Zoomed | src/components/camera.rs:61-63 | zooming multiplies the local matrix on the right by a z translation of amount·distance·0.1 |
| Cameras.Panned | src/components/camera.rs:54-59 | panning multiplies the target matrix on the left by a translation of (x, -y, 0) scaled by distance·0.1 |
| Cameras.Rotated | src/components/camera.rs:66-74 | a rotation about +Y goes on the right of the target matrix, any other axis on the left |
| Cameras.SetW | src/components/camera.rs:77 | the new w column is the given one, and the first three columns are kept |
| Cameras.FocusIdempotent | src/components/camera.rs:75-78 | focusing twice is focusing once |
| Cameras.ViewAfterRotate | src/components/camera.rs:41-43 | after a yaw the view gains the rotation on the right; after any other turn the rotation sits between the local and target factors |
| Cameras.Camera.constructor | src/components/camera.rs:15-29 | identity matrices at distance 1, then zoom(-3): the local matrix is moved back by 0.3 and the distance is 1.3 |
| Cameras.Camera.ViewMatrix | src/components/camera.rs:41-43 | local times target |
| Cameras.Camera.ProjectionMatrix | src/components/camera.rs:44-53 | the perspective of fov, aspect and the clip planes |
| Cameras.Camera.Pan | src/components/camera.rs:54-59 | the target matrix becomes Panned of the old one |
| Cameras.Camera.Zoom | src/components/camera.rs:60-65 | local matrix and distance become Zoomed and ZoomedDistance of the old ones; the distance stays at least 0.01 |
| Cameras.Camera.Rotate | src/components/camera.rs:66-74 | the target matrix becomes Rotated of the old one |
| Cameras.Camera.Focus | src/components/camera.rs:75-78 | the target's w column becomes (0, 0, 0, 1); nothing else changes |
| Cameras.Camera.SetAspectRatio | src/components/camera.rs:82-84 | only the aspect changes |
| LegacyCameras.Camera.constructor | src/render_gl/camera.rs:13-25 | identity matrices, then the local matrix moved by z = -3 |
| LegacyCameras.Camera.ViewMatrix | src/render_gl/camera.rs:36-38 | local times target |
| LegacyCameras.Camera.ProjectionMatrix | src/render_gl/camera.rs:39-41 | a perspective with aspect 1 whatever the window, and the camera's fov and clip planes |
| LegacyCameras.Camera.Zoom | src/render_gl/camera.rs:42-45 | the local matrix gains a z translation of the raw amount on the right |
| LegacyCameras.Camera.Rotate | src/render_gl/camera.rs:46-54 | a rotation about +Y goes on the right of the target, any other axis on the left |
| GraphicsMesh.SubMesh.constructor | src/graphics/mesh/mesh.rs:19-41 | three new names (vertex buffer, index buffer, vertex array); the layout is complete before add_buffer; the exact driver calls, in order |
| GraphicsMesh.Mesh.constructor | src/graphics/mesh/mesh.rs:57-63 | the given submeshes, the identity matrix, no shaders |
| GraphicsMesh.BuildSubMesh | src/graphics/mesh/mesh.rs:71-94 | one step of the model loop: a new submesh holding the flattened vertices, the model's indices and its material id, with the position/normal/uv layout; it takes three names and appends exactly the SubMesh::new block |
| GraphicsMesh.NextSubMesh | src/graphics/mesh/mesh.rs:70-95 | the submesh of model i joins the first i, each still built from the model at its position; the log holds the blocks of the first i + 1 models |
| GraphicsMesh.BuildSubMeshes | src/graphics/mesh/mesh.rs:69-95 | one new submesh per OBJ model, in order, each with the flattened vertices, the model's indices and its material id, its vertex array and index buffer on the given context; three names per model; the log gains one SubMesh::new block per model, in model order |
| GraphicsMesh.LambertProgram | src/graphics/mesh/mesh.rs:99 | the unwrapped lambert program: new, agreeing with the driver, without texture, named after its two stages; the log gains its compile and link commands |
| GraphicsMesh.SetMaterialTexture | src/graphics/mesh/mesh.rs:103-108 | a new texture read from the material's texture name with every "res://" removed, resolved under the resource root, is set on the program; the log gains GenTextures, BindTexture and u_use_texture = 1 |
| GraphicsMesh.MaterialShader | src/graphics/mesh/mesh.rs:99-108 | a new lambert program agreeing with the driver; it holds a texture iff the material names one, read from the material's texture name with every "res://" removed, resolved under the resource root; the log gains the lambert build, UseProgram and u_color = (1,1,1), then for a textured material GenTextures, BindTexture and u_use_texture = 1 |
| GraphicsMesh.MaterialsStep | src/graphics/mesh/mesh.rs:98-111 | one more material appends its block to the log of the materials before it and adds its names to theirs |
| GraphicsMesh.NextShader | src/graphics/mesh/mesh.rs:98-111 | the program of material j joins those of the first j, each still made for the material at its position; the log holds the blocks of the first j + 1 materials |
| GraphicsMesh.BuildShaders | src/graphics/mesh/mesh.rs:98-111 | one program per material, in order, each made for its material; the names and the log of all material blocks, in material order |
| GraphicsMesh.AttachShaders | src/graphics/mesh/mesh.rs:98-111 | the mesh's shaders become those programs, one per material, in order |
| GraphicsMesh.FromResSteps | src/graphics/mesh/mesh.rs:69-111 | the log after the model loop and then the material loop holds the model blocks followed by the material blocks |
| GraphicsMesh.BuildMesh | src/graphics/mesh/mesh.rs:69-112 | the mesh from_res returns: identity matrix, one submesh per model and one program per material, in order; the submeshes' buffers belong to the given context; the log is the model blocks then the material blocks |
| GraphicsMesh.FromRes | src/graphics/mesh/mesh.rs:64-113 | a loader error is returned with no driver call and no name taken; otherwise a new mesh with one submesh per model and one lambert program per material, in order, each program textured iff its material names a texture, read from that texture's resolved path; every submesh's vertex array and index buffer and every program belong to the given context; the log is the model blocks followed by the material blocks |
| MeshCommands.ModelsCommandsStep | src/graphics/mesh/mesh.rs:70-95 | building one more submesh appends its block to the blocks of the models before it |
| MeshCommands.PrefixLayout | src/graphics/mesh/mesh.rs:70-95 | the blocks of the first c models are 15 commands each, and block i starts by creating vertex buffer n + 3i |
| MeshCommands.ModelsCommandsLayout | src/graphics/mesh/mesh.rs:70-95 | every model's block is 15 commands long and starts by creating its own vertex buffer name, n + 3i |
| LibMesh.SubMesh.constructor | lib/palantir-lib/src/mesh.rs:18-34 | three new names; the layout is complete before add_buffer; the same driver calls, in the same order, as the src SubMesh::new |
| LibMesh.Mesh.constructor | lib/palantir-lib/src/mesh.rs:51-57 | the given submeshes, the identity matrix, no shaders |
| Drawing.PrefixedCameraNames | lib/palantir-lib/src/renderer.rs:36-38 | the library's matrix uniform names are the src names with "u_" in front |
| Drawing.PrefixedLightNames | lib/palantir-lib/src/renderer.rs:41-42 | the same for the light direction and colour |
| Drawing.PrefixedLightScalarNames | lib/palantir-lib/src/renderer.rs:43-47 | the same for the ambient strength and power |
| Drawing.UniformCommands | src/graphics/renderer/renderer.rs:35-46 | seven uniform writes, write k at the driver's location of the k-th name in draw's order |
| Drawing.FrameCommandsStep | src/graphics/renderer/renderer.rs:26-58 | drawing one more submesh appends exactly its block to the log |
| Drawing.OneDrawPerSubmesh | src/graphics/renderer/renderer.rs:26-58 | the draw calls of a frame are one DrawElements per submesh, in submesh order, each with that submesh's count |
| Drawing.SubmeshDraws | src/graphics/renderer/renderer.rs:33-57 | one submesh block draws exactly once, as its last command |
| GraphicsRenderer.SelectShader | src/graphics/renderer/renderer.rs:28-32 | no mesh shaders means the default shader; otherwise the submesh's index, which must be in range |
| GraphicsRenderer.Renderer.constructor | src/graphics/renderer/renderer.rs:13-18 | keeps the context and the default shader |
| GraphicsRenderer.Renderer.Clear | src/graphics/renderer/renderer.rs:19-24 | the clear colour with alpha 1, then a clear of the colour and depth bits |
| GraphicsRenderer.Renderer.Plan | src/graphics/renderer/renderer.rs:26 | one draw call per submesh |
| GraphicsRenderer.Renderer.DrawSubmesh | src/graphics/renderer/renderer.rs:33-57 | use the program, write the seven uniforms, bind vertex array and index buffer, draw count-as-i32 unsigned-int indices from offset 0 |
| GraphicsRenderer.Renderer.WriteUniforms | src/graphics/renderer/renderer.rs:35-46 | the seven uniform writes, in order |
| GraphicsRenderer.Renderer.WriteCamera | src/graphics/renderer/renderer.rs:35-37 | model, view and projection, in order |
| GraphicsRenderer.Renderer.WriteLight | src/graphics/renderer/renderer.rs:40-46 | direction, colour, ambient strength and power, in order |
| GraphicsRenderer.Renderer.WriteLightScalars | src/graphics/renderer/renderer.rs:42-46 | ambient strength, then power |
| GraphicsRenderer.Renderer.Draw | src/graphics/renderer/renderer.rs:25-59 | the log gains the submesh blocks of the plan, in order; every program still agrees with the driver; only the uniform caches change |
| GraphicsRenderer.Renderer.DrawAt | src/graphics/renderer/renderer.rs:26-57 | one loop iteration appends exactly submesh i's block |
| GraphicsRenderer.DrawsOfMesh | src/graphics/renderer/renderer.rs:50-57 | a draw issues one DrawElements per submesh, in order, with that submesh's index count as i32 |
| LibRenderer.SelectShader | lib/palantir-lib/src/renderer.rs:25-32 | a mesh shader is used iff the mesh has shaders and the submesh an index; otherwise the default shader |
| LibRenderer.Renderer.constructor | lib/palantir-lib/src/renderer.rs:11-16 | keeps the context and the default shader |
| LibRenderer.Renderer.Clear | lib/palantir-lib/src/renderer.rs:17-22 | the clear colour with alpha 1, then a clear of the colour and depth bits |
| LibRenderer.Renderer.PlanOf | lib/palantir-lib/src/renderer.rs:24-33 | one draw call per submesh, call i being the one for submesh i |
| LibRenderer.Renderer.DrawSubmesh | lib/palantir-lib/src/renderer.rs:34-58 | bind the program's texture and program, write the seven u_ uniforms, bind the geometry, draw |
| LibRenderer.Renderer.WriteUniforms | lib/palantir-lib/src/renderer.rs:36-47 | the seven u_ uniform writes, in order |
| LibRenderer.Renderer.WriteCamera | lib/palantir-lib/src/renderer.rs:36-38 | u_model, u_view and u_projection, in order |
| LibRenderer.Renderer.WriteLight | lib/palantir-lib/src/renderer.rs:41-47 | the four u_light uniforms, in order |
| LibRenderer.Renderer.WriteLightScalars | lib/palantir-lib/src/renderer.rs:43-47 | u_light_ambient_strength, then u_light_power |
| LibRenderer.Renderer.Draw | lib/palantir-lib/src/renderer.rs:23-60 | the log gains the submesh blocks of the plan, in order; every program still agrees with the driver |
| LibRenderer.Renderer.DrawAt | lib/palantir-lib/src/renderer.rs:24-58 | one loop iteration appends exactly submesh i's block and leaves the plan unchanged |
| LibRenderer.DrawsOfMesh | lib/palantir-lib/src/renderer.rs:49-58 | one DrawElements per submesh, in order, with that submesh's index count as i32 |
| Scenes.NewNode | src/scene.rs:20-27 | the node has the given id, name and parent and no children |
| Scenes.NewNodeKeepsLinks | src/scene.rs:66-84 | adding a node keeps the links (a child's parent names it, a node with a stored parent is among its children); the keys gain only the new id; only the parent's child list changes |
| Scenes.AddedLinks | src/scene.rs:74-82 | appending the new id to the parent's children and storing the new node keeps the links |
| Scenes.Scene.constructor | src/scene.rs:41-62 | exactly one node, the root, named "Root" with no parent; no meshes |
| Scenes.Scene.NewNodeIn | src/scene.rs:66-84 | a missing parent means the root; the new id is appended to the parent's children if the parent exists; the node is stored anyway; the links stay consistent |
| Scenes.Scene.RootNode | src/scene.rs:89-91 | the unwrap cannot fail: the root node, named "Root", without parent |
| Scenes.Scene.Node | src/scene.rs:92-94 | a node is found iff it is stored, and it is the stored node |
| Scenes.Scene.AddMesh | src/scene.rs:125-127 | appends the mesh |
| Scenes.Scene.LoadObj | src/scene.rs:128-179 | a loader error changes nothing and takes no name; otherwise one mesh is appended, named after the file, with one submesh per model and one white material per OBJ material, which has a texture iff the OBJ material names one, read from that texture's resolved path; the log is the submesh blocks followed by one texture block per textured material |
| Scenes.NextSubMesh | src/scene.rs:133-158 | the submesh of model i joins the first i, each still built from the model at its position; the log holds the blocks of the first i + 1 models |
| Scenes.BuildSubMeshes | src/scene.rs:132-158 | one submesh per OBJ model, in order, built from the flattened model; three names per model; the log gains one SubMesh::new block per model, in model order |
| Scenes.LoadObjSteps | src/scene.rs:132-176 | the log after the model loop and then the material loop holds the submesh blocks followed by the texture blocks |
| Scenes.TexturesStep | src/scene.rs:162-176 | one more material appends its texture block to those before it and adds its names to theirs |
| Scenes.MaterialOf | src/scene.rs:163-175 | a white material with a texture iff the OBJ material names one, read from its texture name with every "res://" removed under the resource root; exactly GenTextures and BindTexture for a textured material, nothing otherwise |
| Scenes.NextMaterial | src/scene.rs:162-176 | the material made for OBJ material j joins those of the first j; the log holds the texture blocks of the first j + 1 |
| Scenes.BuildMaterials | src/scene.rs:162-176 | one material per OBJ material, in order, each made from it; one name per texture; the log of all texture blocks, in material order |
| Scenes.AttachMaterials | src/scene.rs:162-176 | the mesh's materials become those materials, in order |
| Scenes.BuildMesh | src/scene.rs:132-176 | the mesh load_obj adds: named as given, identity matrix, no shaders, one submesh per model and one material per OBJ material; the log is the submesh blocks then the texture blocks |
| Primitives.FanIndices | src/components/primitives/disk.rs:33-44 | n triangles give 3n indices |
| Primitives.GenerateIndices | src/components/primitives/disk.rs:33-44 | the loop's indices are the fan: triangle i is (centre, next rim vertex, i) |
| Primitives.NextRim | src/components/primitives/disk.rs:37 | the if in generate_indices is "next round the circle": (i + 1) mod r |
| Primitives.FanTriangleAt | src/components/primitives/disk.rs:39-41 | triangle i sits at positions 3i .. 3i + 2 |
| Primitives.FanInRange | src/components/primitives/disk.rs:33-44 | every index is at most r: a rim vertex or the centre |
| Primitives.DiskIndices | src/components/primitives/disk.rs:33-44 | 3r indices naming only the r + 1 vertices; triangle i is (r, i + 1, i), and (r, 0, r - 1) for the last |
| Primitives.FanCloses | src/components/primitives/disk.rs:36-38 | each rim vertex is the last corner of its own triangle and the middle corner of the one before it, so the fan closes |
| Primitives.PointOnCircle | src/components/primitives/disk.rs:46-51 | the point lies in the plane y = 0 |
| Primitives.GenerateVertices | src/components/primitives/disk.rs:13-32 | r rim points in order, then the centre at the origin, all with normal (0, ±1, 0) as flip says |
| Primitives.DiskIsFlat | src/components/primitives/disk.rs:13-32 | every disk vertex is at y = 0 with a vertical unit normal |
| Primitives.NewDisk | src/components/primitives/disk.rs:6-11 | one submesh without shader index, r + 1 vertices with downward normals, the fan indices, all in range; its vertex array and index buffer on the given context; three new names and exactly the SubMesh::new block for r + 1 vertices and 3r indices |
| Primitives.CubeIndicesArePattern | src/components/primitives/cube.rs:42-55 | the index table is six rows of (4k, 4k+1, 4k+2, 4k, 4k+2, 4k+3) |
| Primitives.FacePatternAt | src/components/primitives/cube.rs:42-55 | face k's row sits at positions 6k .. 6k + 5 |
| Primitives.FacePatternInRange | src/components/primitives/cube.rs:42-55 | n faces name only their 4n vertices |
| Primitives.CubeIndexLayout | src/components/primitives/cube.rs:42-55 | 36 indices, all below 24; face k's triangles use only that face's four vertices |
| Primitives.CubeFaces | src/components/primitives/cube.rs:8-39 | vertex i carries face i/4's normal; the six normals are distinct axis unit vectors; every vertex lies at distance size along its normal |
| Primitives.CubeWinding | src/components/primitives/cube.rs:8-55 | both triangles of every face are wound counter-clockwise seen from outside |
| Primitives.TopWound | src/components/primitives/cube.rs:43-44 | the top face is wound towards +Y |
| Primitives.BottomWound | src/components/primitives/cube.rs:45-46 | the bottom face is wound towards -Y |
| Primitives.RightWound | src/components/primitives/cube.rs:47-48 | the right face is wound towards +X |
| Primitives.LeftWound | src/components/primitives/cube.rs:49-50 | the left face is wound towards -X |
| Primitives.FrontWound | src/components/primitives/cube.rs:51-52 | the front face is wound towards +Z |
| Primitives.BackWound | src/components/primitives/cube.rs:53-54 | the back face is wound towards -Z |
| Primitives.NewCube | src/components/primitives/cube.rs:6-58 | one submesh without shader index holding the 24 vertices and 36 indices, its vertex array and index buffer on the given context; three new names and exactly the SubMesh::new block for 24 vertices and 36 indices |
| Primitives.PlaneShape | src/components/primitives/plane.rs:10-32 | indices below 4; every normal is +Y and every vertex at y = 0; both triangles are wound towards +Y; uv 1 matches the +size edge |
| Primitives.NewPlane | src/components/primitives/plane.rs:9-36 | one library submesh without shader index, so it is drawn with the default shader; three new names and exactly the SubMesh::new block for 4 vertices and 6 indices |

## Left out

- The GL driver is a log of calls. Returned names come from a counter, and
  uniform locations come from a fixed oracle. Compile and link outcomes are
  parameters. Pixel uploads, texture parameters and mipmaps are not modelled.
- Floats are exact reals. f32 rounding is not modelled.
- Matrices are symbolic terms. Numeric matrix products, `to_perspective`,
  `from_axis_angle` and `look_at_dir` are not evaluated.
- `Camera::set_focal_length` and `Camera::from_focal_length` are left out in
  both camera files, because they compute `atan`.
- The scene's camera and light fields, and the light's transform, are not
  modelled.
- `Disk::get_point_on_circle` takes its cosine and sine from a `circle`
  parameter, because trigonometry is not modelled.
- Image decoding in `Texture::new` is left out. The src
  `Texture::from_path` is not part of this model.
- Fresh `Uuid::new_v4` values are a parameter, required to be unused.
- `tobj::load_obj` is an oracle from a path to models and materials.
- Resources.FromRelativeExePath: the relative path is always appended to
  the executable's directory. `PathBuf::join` replaces the base when the
  relative path is absolute. Paths here are component lists with no root
  marker, so that case has no counterpart.
- Scenes.Scene.LoadObj: the mesh is named after the last path component.
  `file_name().unwrap()` panics when that component is "..", and the model
  does not exclude that case.
- GraphicsMesh.FromRes and Scenes.Scene.LoadObj: `image::open(path).expect(..)`
  in `Texture::new` panics when a texture file is missing or cannot be
  decoded, which aborts `from_res` and `load_obj`. Image files are not
  modelled, so both return Ok in that case.
- Rust's panics (`unwrap`, out-of-range indexing) become preconditions:
  - OBJ normal and texcoord arrays must be long enough for the positions;
  - the lambert shader resources must load;
  - a renderer shader index must be in range;
  - the path given to `load_obj` must be non-empty.
- The draw type is an arbitrary natural number.
- Layout.VertexBufferLayout.Push: the u32 stride and offset arithmetic is
  unbounded, because realistic layouts stay far below 2^32.
- GraphicsMesh.MaterialShader: the lambert program is built with accepted
  compile and link verdicts, because the source unwraps that result.
- `main.rs`, `app.rs`, the GUI, `render_gl`'s thin mesh, renderer and data
  files, and `Light` are outside the modelled core.
- Ownership, borrowing and `RefCell` are not modelled. Dropping is modelled
  only where the source's own code triggers it, as in
  `ShaderProgram::from_res`.

Where the code does not agree with itself, the model follows the code that
each call reaches:

- The src `Vertex` (`src/graphics/mesh/vertex.rs:4-8`) declares position,
  color and normal: three f32 vectors, 36 bytes, and no uv. `mesh.rs` builds
  position/normal/uv vertices (`mesh.rs:87-91`) and describes them with a
  3/3/2 float layout, as the library's `Vertex` declares. `cube.rs` and
  `disk.rs` build vertices with position and normal only. The model uses the
  32-byte position/normal/uv vertex throughout and gives the primitives uv
  (0, 0). With the struct as declared, the src `VertexBuffer::new` would
  upload 36 bytes per vertex while the layout's stride is 32; the model's
  `VERTEX_SIZE` is 32, so that mismatch is not modelled.
- `cube.rs` and `disk.rs` call a three-argument `SubMesh::new`, but the src
  one takes a shader index. The model passes None.
- `src/graphics/mesh/mesh.rs` calls `set_texture` and `Texture::new`. Only
  the library defines them, so the library definitions are used.
- `resource_name_to_path` is a free function but is called as a method. The
  model calls the function on the root.
- The src renderer indexes `mesh.shaders` with the `Option` shader index
  directly. The model requires the index to be present and in range when the
  mesh has shaders.
- `scene.rs` uses `Mesh.name` and `Mesh.materials`, which the library mesh
  lacks. The model adds both fields.
- `scene.rs:156` calls the library `SubMesh::new` without a context. The
  model passes the global context.
- The library `Shader::from_res` and `ShaderProgram::from_res` are commented
  out, so only the src ones are modelled.
- The library renderer imports `crate::components` and
  `crate::graphics::{Mesh, ShaderProgram}`, which the library crate does not
  have, and draws through a cloned `gl::Gl` handle. The model resolves it to
  the library's own `Mesh` and `ShaderProgram`. Its `shader.bind()` is
  therefore the library bind, which binds the program's texture, or texture
  0 when it has none, before `UseProgram`.
- `material.rs` calls `texture.bind(0)` with an argument that `Texture::bind`
  does not take. The model binds the texture.
