# illusionGL renderer core, modelled in Dafny

illusionGL is a small C++ OpenGL renderer. A `World` owns:

- three shader programs: one for objects, one for light markers, and a helper program for the shadow modes;
- the meshes of the scene and of the light markers;
- a texture cache keyed by path;
- the offscreen target of its shadow mode.

It fills the lighting uniforms as lights are added and drives a frame loop. The GL resources sit behind owning wrappers: `Shader`, `Program`, `Texture`, `CubeTexture`, `FrameBuffer`, `FullFrameBuffer` and `Mesh`. Each holds `~0` as "nothing allocated", hands its names over on a move and releases them in its destructor.

This project models that core against an abstract GPU device (module `Gpu`). The device has five parts.

- **Name allocator.** It hands out object names. An oracle says which `glGen*` requests are refused, and a refused request gets `~0`.
- **Lease map.** A ghost map records, for each live name, its kind and the wrapper that must release it. Every release requires a live name held by the releasing wrapper. So "every release targets a live name, and no name is released twice, under any sequence of moves" is checked at each call.
- **Command trace.** An append-only trace of every command issued. Its projection `Passes` keeps the commands that shape a frame.
- **Binding state.** This covers the bound program, texture units, framebuffer, vertex array and buffers, viewport, attached shaders, and a uniform store keyed by (program, uniform name).
- **Oracles.** Shader files and their texts, which texts compile, which attached lists link, uniform locations, and which images decode.

The modules follow the source files:

| module | source | flavour |
|---|---|---|
| `Common` | — | option, `const char*`, glm vectors, symbolic transforms |
| `Gpu` | — | the device described above |
| `Fill` | tmp.h | in-place recursive writes into an array |
| `Shaders` | include/shader.h | classes `Shader`, `Program`, `ActiveCell` |
| `Textures` | include/texture.h | classes `Texture`, `CubeTexture`, `FrameBuffer`, `FullFrameBuffer` |
| `Meshes` | include/mesh.h | `Vertex` and its memory layout, class `Mesh` |
| `Builders` | include/builder.h | class `Builder` (one class tagged by shape) and the constant vertex tables |
| `Models` | include/world.h (`build_model`) | the imported scene as an input value, the breadth-first walk |
| `Worlds` | include/world.h | class `World`, its construction, lights, texture cache, model import and main loop |

## Model

| member | source | states |
|---|---|---|
| Fill.Fill | tmp.h:3-12 | slot `ptr + k` receives argument `k` for every argument; every slot outside `[ptr, ptr + n)` keeps its value; one recursion level per argument |
| Fill.FillWithReturn | tmp.h:14-23 | slot `ptr + k` receives `func(args[k])`, in argument order; nothing outside the `n` slots changes |
| Shaders.Shader.constructor | include/shader.h:16-35 | a new shader name is leased to the shader; valid iff the file is readable and its text compiles; an unreadable file is never sent to the compiler; the diagnostic is the read or the compile failure |
| Shaders.Shader.Destroy | include/shader.h:37 | only a valid shader deletes its name; a failed shader's name stays live |
| Shaders.Ids | include/shader.h:64-65 | the i-th id is `shaders[i].id()` |
| Shaders.CollectIds | include/shader.h:64-65 | the array that `fill_with_return` fills holds `args[i].id()` at slot `i` |
| Shaders.AttachCmds | include/shader.h:66 | one `glAttachShader` per id, in argument order |
| Shaders.ActiveCell.constructor | include/shader.h:51 | the shared active-program cell starts at `~0` |
| Shaders.Program.constructor | include/shader.h:55 | a new program name, valid from the start, with nothing attached and an empty location cache |
| Shaders.Program.Destroy | include/shader.h:57 | a valid program deletes its name |
| Shaders.Program.Link | include/shader.h:63-77 | every shader is attached in argument order, then linked exactly once; the result is true iff the attached texts link; `valid` is unchanged; a failure is logged |
| Shaders.Program.AttachAll | include/shader.h:66 | the attached list grows by the ids, in order, with one command each |
| Shaders.Program.Apply | include/shader.h:80-85 | afterwards the cell and the device both hold this program; `glUseProgram` is issued only if the cell held another program, so a second `apply` issues nothing |
| Shaders.Program.GetUniformLocation | include/shader.h:88-94 | the result is the device's location; the device is asked, and an unknown name logged, only on the first lookup; negative answers are cached too |
| Shaders.Program.Set | include/shader.h:98-113 | the program is applied, then the value is stored at the cached location; a write to location -1 is dropped |
| Shaders.Program.Get | include/shader.h:114-123 | reads the stored value without applying the program; no value when the name is unknown or was never written |
| Textures.Setup | include/texture.h:27-32 | a real name is bound on unit 15 and its wrap and filter parameters are set |
| Textures.CtorCmds | include/texture.h:24-33 | a texture constructor's first command is `glGenTextures` of its name |
| Textures.Texture.constructor | include/texture.h:19-34 | valid iff the generated name is not `~0`, iff the driver did not refuse; only a valid texture takes a lease and is set up |
| Textures.Texture.Empty | include/texture.h:35 | `(~0, invalid)`, touching nothing |
| Textures.Texture.Moved | include/texture.h:36 | the new wrapper has the source's name and flag and takes its lease; the source is marked invalid but keeps its stale name |
| Textures.Texture.MoveAssign | include/texture.h:37-43 | as written: takes the source's name and flag and resets the source to `(~0, invalid)`; a valid destination's old name stays live and no wrapper refers to it any more |
| Textures.Texture.MoveAssignReleasing | include/texture.h:37-43 | corrected: deletes the destination's own valid name exactly once, then takes over the source's name |
| Textures.Texture.Destroy | include/texture.h:46 | deletes the name iff valid |
| Textures.Texture.Load | include/texture.h:49-62 | binds on unit 15 and uploads; the result is true iff the image decodes; mipmaps only when asked for; name and flag unchanged; a failure is logged |
| Textures.Texture.Bind | include/texture.h:65-69 | unit `index` holds the texture afterwards, even when `index >= 15` is logged |
| Textures.CubeTexture.constructor | include/texture.h:81-95 | as for `Texture`, with the wrap mode also on R |
| Textures.CubeTexture.Empty | include/texture.h:80 | `(~0, invalid)` |
| Textures.CubeTexture.Moved | include/texture.h:96 | as `Texture.Moved` |
| Textures.CubeTexture.MoveAssign | include/texture.h:97-103 | as written: the same leak as `Texture.MoveAssign` |
| Textures.CubeTexture.MoveAssignReleasing | include/texture.h:97-103 | corrected: the destination's valid name is deleted exactly once |
| Textures.CubeTexture.Destroy | include/texture.h:106 | deletes the name iff valid |
| Textures.CubeTexture.Bind | include/texture.h:108-112 | unit `index` holds the cube map, even when `index >= 15` is logged |
| Textures.FaceImages | include/texture.h:125-127 | six images, face `i` being `GL_TEXTURE_CUBE_MAP_POSITIVE_X + i`, with no pixel data |
| Textures.AllocateFaces | include/texture.h:125-127 | the face loop issues exactly `FaceImages` |
| Textures.AttachShadow | include/texture.h:128-133 | the cube map goes on the depth attachment with no colour buffer when there is no `depth`, and on colour 0 with `depth`'s texture on the depth attachment otherwise; the default framebuffer is bound at the end |
| Textures.FrameBuffer.Empty | include/texture.h:120 | an empty cube map and the name `~0` |
| Textures.FrameBuffer.constructor | include/texture.h:124-134 | a cube map with six blank faces (depth format without `depth`), then a framebuffer with the attachments of `AttachShadow`; each of the two names may be refused independently; every earlier lease is kept |
| Textures.FrameBuffer.Moved | include/texture.h:121-123 | takes the texture and the name; the source's name becomes `~0` and its texture invalid |
| Textures.FrameBuffer.MoveAssign | include/texture.h:135-141 | deletes its own framebuffer name if it has one, then takes the source's texture (releasing assignment) and name; the source's name becomes `~0` |
| Textures.FrameBuffer.Destroy | include/texture.h:142 | deletes the framebuffer name iff not `~0`, then the texture member releases its own |
| Textures.FrameBuffer.Use | include/texture.h:143 | binds the framebuffer, then the cube map on unit `id` |
| Textures.Prepare | include/texture.h:167-178 | one cube map is bound on unit 0 and given six blank faces |
| Textures.NewCubes | include/texture.h:161-164 | the four cube maps are created in declaration order (normal, depth, colour, position) and are distinct |
| Textures.PrepareCubes | include/texture.h:167-178 | faces for depth (float depth), normal and position (float RGB), colour (byte RGB), in that order |
| Textures.MakeCubes | include/texture.h:161-178 | the cube maps are created and then given their faces |
| Textures.AttachGBuffer | include/texture.h:181-188 | position, normal and colour go on colour attachments 0, 1, 2, depth on the depth attachment, three draw buffers; the default framebuffer is bound again |
| Textures.NewGBufferFbo | include/texture.h:180-188 | a fresh framebuffer name with the G-buffer attachments; the cube maps keep their leases |
| Textures.BuildGBuffer | include/texture.h:160-189 | the whole constructor body, as `GBufferTrace` lays it out |
| Textures.FullFrameBuffer.Empty | include/texture.h:150 | four empty cube maps and the name `~0` |
| Textures.FullFrameBuffer.constructor | include/texture.h:160-189 | the trace is the four cube maps, their faces, then the framebuffer and its attachments; unit 0 holds the colour map; every earlier lease is kept |
| Textures.FullFrameBuffer.Moved | include/texture.h:151-159 | all four cube maps and the name are taken over; the source's name becomes `~0` and its maps invalid |
| Textures.FullFrameBuffer.MoveAttachments | include/texture.h:192-195 | normal, colour, position, depth are move-assigned in that order; each takes the source's name and flag |
| Textures.FullFrameBuffer.DropName | include/texture.h:191 | its own framebuffer name, if any, is deleted and leaves the live set; every map stays valid |
| Textures.FullFrameBuffer.TakeName | include/texture.h:196-197 | the framebuffer name changes hands and the source's becomes `~0` |
| Textures.FullFrameBuffer.MoveAssign | include/texture.h:190-199 | deletes its own name if it has one, then moves the four maps (name and flag each) and the name; the live set loses exactly its old framebuffer name and the names of its valid maps |
| Textures.FullFrameBuffer.Destroy | include/texture.h:200 | deletes the framebuffer name iff not `~0`; the four members release their own names; the live set loses exactly those names |
| Textures.FullFrameBuffer.Use | include/texture.h:201-204 | binds the framebuffer, then position, normal, colour and depth on units `id` to `id + 3` |
| Textures.MoveAssignLeaks | include/texture.h:37-43 | two valid textures, the first move-assigned from the second as written, then both destroyed: the first one's generated name is still live and neither wrapper holds it |
| Textures.MoveAssignReleasingFrees | include/texture.h:46 | the same sequence with the corrected assignment: both names are generated and both deleted, and the live names are as before |
| Meshes.Floats | include/mesh.h:9-12 | a vertex is eight floats, `sizeof(Vertex)` bytes |
| Meshes.Packed | include/mesh.h:36 | the vertex buffer holds `|vs| * sizeof(Vertex)` bytes of floats |
| Meshes.PackedAt | include/mesh.h:36 | vertex `i` occupies floats `8i` to `8i + 8` of the packed buffer |
| Meshes.AttribsRead | include/mesh.h:41-48 | for every vertex, attribute 0 reads its position, 1 its normal and 2 its texture coordinate |
| Meshes.OffsetFloats | include/mesh.h:42-48 | the byte offsets 0, `offsetof(normal)` and `offsetof(coord)` are floats `8i`, `8i + 3` and `8i + 6` of vertex `i` |
| Meshes.AttribsTile | include/mesh.h:41-48 | locations 0, 1, 2 carry 3, 3, 2 components laid end to end, filling the vertex exactly |
| Meshes.Generate | include/mesh.h:29-31 | three names are asked for, each refused independently, each fresh and distinct when real |
| Meshes.FillBuffers | include/mesh.h:33-39 | the vertex array is bound and both buffers are filled with `|vertices| * 32` and `|indices| * 4` bytes |
| Meshes.DescribeLayout | include/mesh.h:41-48 | the three attribute pointers, in order |
| Meshes.Upload | include/mesh.h:33-50 | the upload ends with the vertex array unbound and both buffers bound |
| Meshes.Mesh.constructor | include/mesh.h:24-52 | `indiceNum == |indices|`; the mesh records the vertex and index lists it uploads; without indices no name is asked for and all three stay `~0`; otherwise each real name is fresh and leased to the mesh |
| Meshes.Mesh.Moved | include/mesh.h:54-58 | copies every field and takes the leases; the source's three names become `~0`, so exactly one of the pair releases |
| Meshes.Mesh.Destroy | include/mesh.h:60-66 | corrected destructor: every real name is released, whichever allocations succeeded, and no `~0` is deleted |
| Meshes.DestructorsAgree | include/mesh.h:60-66 | when all three names are real or all are `~0`, the destructor as written and the corrected one issue the same commands |
| Meshes.DestructorAsWrittenLeaks | include/mesh.h:60-66 | a mesh whose vertex array was refused but whose vertex buffer was not: the destructor as written leaves the buffer live and undeletable, and the corrected one deletes it |
| Meshes.BindSampler | include/mesh.h:71-72 | the texture is on unit `unit` and the sampler uniform reads `unit`; no render pass |
| Meshes.SetQuietly | include/mesh.h:73 | `set` binds the program and stores the value; no render pass |
| Meshes.SetQuiet | include/shader.h:98-113 | the commands of a `set` add nothing to the frame's passes |
| Meshes.Mesh.BindMaterial | include/mesh.h:71-72 | each present texture is on its unit (diffuse 0, specular 1) and its sampler names that unit; with neither texture the state is unchanged; no uniform other than the two samplers changes |
| Meshes.Mesh.MaterialKept | include/mesh.h:73-74 | setting `model` and binding the vertex array leave the material in place |
| Meshes.DrawCall | include/mesh.h:74-76 | bind the vertex array, one indexed draw with the bound program, unbind |
| Meshes.Mesh.Draw | include/mesh.h:69-78 | an empty mesh issues nothing; otherwise exactly one draw of `indiceNum` indices with `prog`, with the material bound, `model` set, and the vertex array unbound last; no uniform other than the samplers and `model` changes |
| Builders.PlaneVertices | include/builder.h:37-44 | four vertices on y = 0 with normal (0, 1, 0) and corner texture coordinates |
| Builders.PlaneFrontFacing | include/builder.h:36-44 | the indices `[0,1,2,0,2,3]` are in range and form two triangles facing up |
| Builders.Rows | include/builder.h:60-106 | a triangle list laid out as table rows, three per triangle and in order |
| Builders.RowsSided | include/builder.h:60-106 | every row of triangles on one side of the cube lies on that side |
| Builders.RowsFacing | include/builder.h:59-106 | drawing the rows of facing triangles in order with `indices[i] == i` draws whole triangles, each facing along its normal |
| Builders.CubeTriangles | include/builder.h:60-104 | twelve triangles, each on the unit cube's surface and facing outwards |
| Builders.RoomTriangles | include/builder.h:121-165 | twelve triangles, each on the unit cube's surface and facing inwards |
| Builders.CubeVertices | include/builder.h:60-106 | 36 rows; every normal is an axis with normal·position = 0.5; every triangle faces outwards |
| Builders.RoomVertices | include/builder.h:121-167 | 36 rows; every normal is an axis with normal·position = -0.5; every triangle faces inwards |
| Builders.Identity | include/builder.h:58-59 | the index list `0 … n-1` |
| Builders.Resized | include/builder.h:58 | `resize` keeps the first entries and pads with zeros |
| Builders.Placement | include/builder.h:29 | the placement is made only of scalings and translations |
| Builders.PlacementMaps | include/builder.h:29 | `translate(scale(I, size), center / size)` takes `p` to `size * p + center` |
| Builders.Builder.None | include/builder.h:21-24 | no texture paths, the identity transform, empty lists |
| Builders.Builder.constructor | include/builder.h:12-13 | exactly the given diffuse and specular paths, and the placement transform (four-argument constructors, lines 31-33, 53-55, 114-116) |
| Builders.Builder.Single | include/builder.h:28-30 | one path serves as both the diffuse and the specular map (three-argument constructors, lines 50-52 and 111-113) |
| Builders.Builder.Rotate | include/builder.h:15-17 | the rotation is appended on the right, so it acts before the earlier scale and translate, which are kept |
| Builders.Builder.Build | include/builder.h:23 | `NoneBuilder` changes nothing; plane, cube and room fill their tables (lines 35-45, 57-107, 118-168) with whole, correctly facing triangles and in-range indices; cube and room have `indices[i] == i` for 36 vertices |
| Models.ForestSizeAppend | include/world.h:316-359 | node counts add up over joined queues |
| Models.QueueStep | include/world.h:319-359 | popping the front node and pushing its children shrinks the remaining forest, so the walk terminates |
| Models.ForestAppend | include/world.h:316-359 | the mesh references of joined forests add up |
| Models.BfsCoversForest | include/world.h:316-359 | the breadth-first walk meets every mesh reference of the forest, each as often as the forest holds it |
| Models.IndicesBelowAppend | include/world.h:321 | the index bound carries over to joined forests |
| Models.BfsBelow | include/world.h:321 | every index the walk meets names a mesh of the scene |
| Models.BfsAdvance | include/world.h:316-359 | one step of the walk meets the front node's meshes next; the queue that follows stays in range and gets smaller |
| Models.MeshOrderComplete | include/world.h:316-359 | `build_model` builds every mesh reference of the tree, as often as the tree holds it, and no other |
| Models.LastSlash | include/world.h:308 | the position of the last `/`, or none when there is no `/` |
| Models.Directory | include/world.h:308 | the prefix before the last `/`, or the whole path when there is none |
| Models.TexturePath | include/world.h:344 | `directory + '/' + relative` |
| Models.FirstTexture | include/world.h:341-351 | a path iff the stack is non-empty, namely the first texture next to the model file |
| Models.CoordAsWrittenConstant | include/world.h:328 | as written, every vertex of a mesh gets the same texture coordinate |
| Models.CoordAsWrittenLosesSecond | include/world.h:328 | as written, a vertex whose coordinate is (1, 1) gets (0, 0) |
| Models.Coord | include/world.h:328 | corrected: vertex `i` gets its own `x` and `y`, or (0, 0) when the mesh has no coordinate set |
| Models.CoordAsWritten | include/world.h:328 | as written: the first coordinate's `x` as both components, or (0, 0) when the mesh has no coordinate set |
| Models.VertexAt | include/world.h:325-329 | vertex `i` has the mesh's position `i` and normal `i`; its coordinate is the as-written one, the first coordinate's `x` twice, or (0, 0) without coordinates |
| Models.Vertices | include/world.h:324-330 | one vertex per position, vertex `i` being `VertexAt(m, i)` |
| Models.VerticesShareCoord | include/world.h:324-330 | every vertex the loop builds carries the same coordinate, the first coordinate's `x` twice |
| Models.FlattenAppend | include/world.h:331-334 | flattening distributes over joined face lists |
| Models.FlattenTriangles | include/world.h:331-334 | triangulated faces give three indices per face, face `k` at `3k` |
| Models.Indices | include/world.h:331-334 | the index loop yields every face's indices, face after face |
| Worlds.Digits | include/world.h:261 | `std::to_string` of a count: only decimal digits, with at least two exactly when the count is at least 10 |
| Worlds.DigitsInjective | include/world.h:261 | different counts print differently |
| Worlds.Slot | include/world.h:261 | the prefix `base[n].` begins with `base` |
| Worlds.SlotsApart | include/world.h:261 | fields of two different slots never share a uniform name |
| Worlds.PointLightNamesDistinct | include/world.h:263-270 | the eight uniforms one point light writes are all different |
| Worlds.SpotLightNamesDistinct | include/world.h:285-292 | the eight uniforms one spot light writes are all different |
| Worlds.EarlierPointLightUntouched | include/world.h:261-270 | adding point light `n` writes no field of an earlier slot |
| Worlds.EarlierSpotLightUntouched | include/world.h:283-292 | adding spot light `n` writes no field of an earlier slot |
| Worlds.WriteAllStores | include/world.h:263-270 | with distinct names, each uniform of a batch reads the value written to it |
| Worlds.WriteAllKeeps | include/world.h:263-270 | a batch leaves every other entry of the store as it was |
| Worlds.SetAll | include/world.h:263-270 | a sequence of `set` calls stores `WriteAll` and adds no render pass |
| Worlds.PointLightStored | include/world.h:261-270 | after `build_point_light`, each field uniform of slot `n` reads the light's field, and `point_light_num` reads `n + 1` |
| Worlds.PointLightKeeps | include/world.h:261-276 | earlier point-light slots, and every program other than the two written, are left alone |
| Worlds.PointLightMirrored | include/world.h:271-276 | in reflective mode the helper program's `light.*` uniforms read the light's diffuse colour and attenuation |
| Worlds.SpotLightStored | include/world.h:283-292 | each field of spot slot `n` reads the light, and `spot_light_num` reads `n + 1` |
| Worlds.SpotLightKeeps | include/world.h:283-292 | earlier spot-light slots are left alone |
| Worlds.DirNamesDistinct | include/world.h:297-301 | the five directional uniforms are different names |
| Worlds.DirLightStored | include/world.h:296-302 | every directional uniform reads the light, and `dir_light_num` reads 1 |
| Worlds.DirLightRepeat | include/world.h:296-302 | a second directional light overwrites the single block: the store is as if only the second had been built |
| Worlds.Emplace | include/world.h:252-254 | the temporary mesh is moved into the vector and destroyed empty: the stored mesh has the arguments and issues exactly the constructor's commands |
| Worlds.MakeStages | include/world.h:34-37 | each stage is valid iff its file compiles, with the file's text as its source, and the stages are distinct |
| Worlds.LinkStages | include/world.h:39-40 | `link` on a fresh program succeeds iff the stage texts, in argument order, link |
| Worlds.LinkMain | include/world.h:38-40 | the flag is set iff some stage of the object or the light program fails or one of the two does not link; the `||` chain stops at the first failure |
| Worlds.ReleaseStages | include/world.h:34-59 | the shader destructors run last-declared first, and only shader leases go |
| Worlds.LoadTexture | include/world.h:162-164 | a repeat-wrapped texture is created and loaded, then moved into the default-constructed cache slot; the moved-from temporary releases nothing |
| Worlds.NewPrograms | include/world.h:18-20 | the three programs are distinct, valid, empty and share one active cell |
| Worlds.BuildMain | include/world.h:33-58 | the main stages of the mode are built and linked; the flag is set iff they do not all build |
| Worlds.LinkHelper | include/world.h:76-85 | the helper result is ORed in only if nothing failed before, and is set iff a helper stage fails or the helper program does not link |
| Worlds.WriteDefaults | include/world.h:62-70 | the projection, shininess and three zero light counts go to the object program; the projection and white light colour to the light program |
| Worlds.BuildHelper | include/world.h:72-87 | in a shadow mode the helper program is built and the sampler units are set (13, 12, 11, 14, or 14 alone); without shadows nothing happens |
| Worlds.MakeTargets | include/world.h:41-50 | normal-shadow mode gets a depth cube map of shadow size, reflective mode a reflective shadow map; the other target stays empty |
| Worlds.Prepare | include/world.h:28-59 | the first block of the constructor: programs, empty targets, the main stages and the target of the mode |
| Worlds.MainBlock | include/world.h:33-59 | the stages of one constructor branch live until the target is built, then are destroyed |
| Worlds.Assemble | include/world.h:28-88 | the failure flag is `FailsToBuild`; the store holds the default uniforms; the object program is bound unless there is no helper program |
| Worlds.NewWorld | include/world.h:28-88 | `World(width, height, mode)`: empty registries and cache, the sticky failure flag as the short-circuit OR of stage and link failures (helper program included in the shadow modes), the default uniforms; both light counts read 0, the sizes of the empty registries |
| Worlds.DefaultCounts | include/world.h:62-70 | the default uniforms set `point_light_num` and `spot_light_num` of the object program to 0, and the later batches do not touch them |
| Worlds.World.constructor | include/world.h:28-30 | the member initialisers: the parts built on the device, the initial camera, an empty scene whose light counts read 0 |
| Worlds.DrawableAppend | include/world.h:252 | the scene stays drawable when a valid mesh of the device is appended |
| Worlds.AddMesh | include/world.h:252-254 | the new mesh is valid and the scene stays valid with it appended to any registry |
| Worlds.CacheMiss | include/world.h:161-165 | the scene stays valid with the new entry cached |
| Worlds.World.BuildTexture | include/world.h:159-167 | a cached path returns its entry and issues nothing; a new path inserts exactly one entry, creates one texture and loads it once; no other entry changes |
| Worlds.World.AddObject | include/world.h:252-254 | one textured mesh is appended to the objects |
| Worlds.World.BuildMaterial | include/world.h:253 | both paths go through the cache, diffuse first; a cached path gives its entry; equal paths give the same texture |
| Worlds.World.PlaceObject | include/world.h:252-254 | the textures are built or found and the mesh, with the given vertices and indices, joins the objects; equal paths share one texture |
| Worlds.World.BuildObject | include/world.h:250-255 | exactly one mesh is appended to the objects, with the builder's vertices, indices and transform and the cached textures of both paths (one texture when the paths are equal); the light registries are unchanged; null paths are outside the contract |
| Worlds.World.AddPointLight | include/world.h:262 | an untextured marker mesh is appended to the point lights |
| Worlds.SetPointLight | include/world.h:263-276 | the uniform writes of one point light store `PointLightUniforms`; `point_light_num` reads `n + 1` and `spot_light_num` is unchanged |
| Worlds.PointLightKeepsSpots | include/world.h:261-276 | the point-light writes leave the object program's `spot_light_num` alone |
| Worlds.World.PlacePointLight | include/world.h:261-276 | the mesh joins the point lights and slot `n` is written |
| Worlds.World.BuildPointLight | include/world.h:259-277 | one marker is appended to the point lights; slot `n` (the old count) holds the light; `point_light_num` reads `n + 1`; reflective mode mirrors the light into the helper program; objects, spot lights and the cache are unchanged |
| Worlds.World.AddSpotLight | include/world.h:284 | an untextured marker mesh is appended to the spot lights |
| Worlds.SetSpotLight | include/world.h:285-292 | the uniform writes of one spot light; `spot_light_num` reads `n + 1` and `point_light_num` is unchanged |
| Worlds.SpotLightKeepsPoints | include/world.h:283-292 | the spot-light writes leave the object program's `point_light_num` alone |
| Worlds.World.PlaceSpotLight | include/world.h:283-292 | the mesh joins the spot lights and slot `n` is written |
| Worlds.World.BuildSpotLight | include/world.h:281-293 | one marker is appended to the spot lights; slot `n` holds the light; `spot_light_num` reads `n + 1`; objects and point lights are unchanged |
| Worlds.DirKeepsCounts | include/world.h:296-302 | the directional uniforms leave both light counts alone |
| Worlds.World.BuildDirLight | include/world.h:296-302 | only the directional uniforms change; `dir_light_num` reads 1; no registry grows, and both light counts still read the registry sizes |
| Worlds.BuiltGrow | include/world.h:354-356 | one more mesh built from scene mesh `i` extends the record, and a grown cache keeps every earlier mesh's textures |
| Worlds.World.BuildMaps | include/world.h:336-356 | each named path is built or found in the cache, and a missing one gives no texture |
| Worlds.World.BuildImported | include/world.h:321-356 | one mesh per imported mesh: its vertices are `VertexAt` of each position (coordinate as written), its indices are the face indices in face order, with the scale transform and the cached first diffuse and specular textures |
| Worlds.World.BuildNode | include/world.h:320-357 | the meshes of one node are built in the node's order |
| Worlds.World.BuildScene | include/world.h:316-360 | the queue-driven walk builds exactly `MeshOrder(sc)`, appended after the existing objects |
| Worlds.World.BuildModel | include/world.h:305-361 | a failed or incomplete import, or one without a root, is reported and builds nothing; otherwise one mesh per (node, mesh) in breadth-first order, each holding its imported mesh's vertices and face indices, scaled, with textures next to the model file |
| Worlds.DrawsAreDraws | include/world.h:216-239 | drawing a mesh list issues only draws with the given program, at most one per mesh |
| Worlds.OffscreenQuiet | include/world.h:211-231 | the offscreen part draws only with the helper program, and neither presents nor polls |
| Worlds.PassOrder | include/world.h:211-241 | pieces laid out pass by pass form a frame with ranked draws and one final swap |
| Worlds.FrameShape | include/world.h:211-241 | a frame presents once, at its end, never polls, and draws helper, then objects, then point markers, then spot markers |
| Worlds.BudgetClosed | include/world.h:242 | the counter counts down to 0 and stays there; a negative counter never changes |
| Worlds.TurnPresents | include/world.h:211-242 | iteration `k` presents exactly when the presented count grows by one |
| Worlds.LoopSwaps | include/world.h:208-245 | the buffers are swapped once per presented frame: `min(times, k)` times, or every iteration when `times < 0` |
| Worlds.LoopPolls | include/world.h:244 | each iteration polls events exactly once |
| Worlds.MainloopPresents | include/world.h:183-246 | over the whole loop, the buffers are swapped exactly `Presented(times, open)` times |
| Worlds.DrawOne | include/world.h:216 | one mesh's draw adds its pass, if any |
| Worlds.DrawsStep | include/world.h:216 | one more mesh adds its pass at the end |
| Worlds.DrawNext | include/world.h:216 | one iteration of a draw loop |
| Worlds.DrawAll | include/world.h:216-239 | `for (auto& it : ms) it.draw(prog)` adds the passes of `Draws(prog, ms)` |
| Worlds.BindDepthMap | include/world.h:214 | `depth.use(14)`: the depth cube map is on unit 14 |
| Worlds.BindReflectiveMaps | include/world.h:222 | `rsm_buf.use(11)`: position, normal, flux and depth are on units 11 to 14 |
| Worlds.BindShadowMaps | include/world.h:214-222 | every sampler uniform the constructor set names the unit that holds the texture it is meant to see |
| Worlds.ShadowBegin | include/world.h:213-223 | shadow viewport, the target bound, then its clear (depth only in normal mode) |
| Worlds.ToWindow | include/world.h:217-219 | default framebuffer, window viewport, full clear |
| Worlds.ShadowPass | include/world.h:212-227 | the shadow bracket with the objects drawn by the helper program in between |
| Worlds.Offscreen | include/world.h:211-231 | the offscreen part issues exactly `OffscreenPasses` for the mode; without shadows only a grey clear |
| Worlds.ObjectPass | include/world.h:233-235 | the view uniforms, then every object drawn with the object program |
| Worlds.LightPass | include/world.h:237-239 | the view uniform, then the point markers, then the spot markers, with the light program |
| Worlds.DrawMarkers | include/world.h:238-239 | the point markers before the spot markers |
| Worlds.Screen | include/world.h:233-241 | the on-screen part issues exactly `ScreenPasses`, ending with the swap |
| Worlds.DrawScene | include/world.h:233-239 | the object pass followed by the light pass |
| Worlds.Frame | include/world.h:211-241 | one frame issues exactly `FramePasses`, and changes no uniform outside the view, eye, sampler and model names |
| Worlds.CountsApart | include/world.h:261-301 | no light batch, directional block, shadow set-up or frame writes a light count other than its own |
| Worlds.Present | include/world.h:211-243 | a frame is presented iff the counter is not 0, and the counter steps towards 0 |
| Worlds.Turn | include/world.h:209-244 | one turn of the loop: `Present`, then one event poll |
| Worlds.RunLoop | include/world.h:208-245 | after `open` turns, the counter is `Budget(times, open)` and the passes are `LoopPasses` |
| Worlds.ShadowKeepsOthers | include/world.h:187-206 | the shadow set-up writes only the face matrices, `far_plane` and `light.pos` |
| Worlds.Run | include/world.h:183-245 | the callbacks and shadow set-up, then the loop; the scene stays valid and no uniform outside the shadow and frame names changes |
| Worlds.Callbacks | include/world.h:184-185 | the resize callback always, the cursor callback only when `times < 0` |
| Worlds.CursorCallback | include/world.h:185 | one cursor-callback registration |
| Worlds.CubeFaceOrder | include/world.h:193-198 | matrices `2k` and `2k+1` look along axis `k`, positive then negative: the cube-face order +X, -X, +Y, -Y, +Z, -Z; each up vector is a unit axis other than the viewing one |
| Worlds.ShadowMatrixNames | include/world.h:199-201 | the six names `shadow_matrices[i]` |
| Worlds.ShadowMatrices | include/world.h:192-198 | six face matrices |
| Worlds.ShadowStored | include/world.h:187-206 | after the set-up the helper program holds the six face matrices, the far plane and the light position, and the object program the far plane |
| Worlds.ShadowSetup | include/world.h:188-205 | the light position is read back from the object program, the uniforms are stored as `ShadowUniforms`, and no pass is issued |
| Worlds.StartLoop | include/world.h:184-206 | the callbacks, then the shadow set-up in a shadow mode only |
| Worlds.World.Mainloop | include/world.h:183-246 | with the window open for `open` turns: the callbacks and set-up, then per turn a frame while the counter is not 0 and a poll; the counter ends at `Budget(times, open)`; the light counts still read the registry sizes |

## Left out

- Window, input and camera: `process_input`, `mouse_callback`, `set_camera`, `get_camera` and the frame clock are I/O and float trigonometry. The camera pose is constant during `mainloop`.
- `glfwWindowShouldClose` is an input: the window stays open for `open` turns.
- The finite-budget loop does not return after its last frame. It keeps polling until the window closes. The model follows the code here.
- Matrix and vector values: `glm::perspective`, `lookAt`, `rotate`, `translate` and `scale` are kept symbolic, as lists of operations.
- The shadow matrices are compared as such lists, not as numbers.
- The `std::vector` growth of `emplace_back` (reallocation and the moves it causes) is not modelled; only the one move of the new element is.
- The order in which C++ evaluates the two `build_texture` arguments is unspecified. The model builds the diffuse texture first.
- `World::instance()`, the static singleton, is not modelled: `World` is an ordinary object.
- The `World` destructor is not modelled.
- The constructor's assignments `depth = FrameBuffer(...)` and `rsm_buf = FullFrameBuffer(...)` are modelled as the member receiving a freshly built target. The move assignment itself is modelled separately by `FrameBuffer.MoveAssign` and `FullFrameBuffer.MoveAssign`.
- Worlds.World.BuildObject: a null texture path is outside the contract. The source passes it unchecked to a `std::string` constructor.
- Worlds.ShadowSetup: a light position the object program cannot read back is taken as (0, 0, 0). The GL query would leave the value undefined.
- `aiString`'s length limit on joined texture paths is not modelled.
- The `mMaterialIndex >= 0` test on an unsigned index is always true and is not modelled as a branch.
- Assimp's import is not modelled: what it reads from the path is an input value. `WellFormed` states what the importer guarantees of a scene.
- `std::ifstream`, shader compilation and linking, and `stb_image` decoding are oracles of the device.
- Driver internals are not modelled.
- The 512-character info logs are reduced to one diagnostic per failure.
- Builders.Builder.constructor: requires `size != 0`, because the source divides the centre by `size`.
- Builders.Builder.Single: requires `size != 0`, for the same reason.
- `include/light.h` is not part of this model. The light records are plain values handed to the world.
- Fill.Fill: requires at least one argument, because the templates exist only for one or more arguments.
- Fill.FillWithReturn: requires at least one argument, for the same reason.
- Textures.FrameBuffer.MoveAssign: the texture member is moved with the corrected assignment, not the one as written (see Findings).
- Textures.FullFrameBuffer.MoveAssign: its four members are moved with the corrected assignment, not the one as written (see Findings).

## Findings

| source | as written | input that shows it | evidently intended | confidence | as-written member | corrected member |
|---|---|---|---|---|---|---|
| include/texture.h:37-43 | move assignment overwrites a valid destination's name without deleting it (the same in `CubeTexture`, lines 97-103) | two textures that both received names; `a = std::move(b)`, then both destructors run | delete the destination's own name first, as the destructor would | not executed | Textures.MoveAssignLeaks (on Textures.Texture.MoveAssign) | Textures.MoveAssignReleasingFrees (on Textures.Texture.MoveAssignReleasing) |
| include/mesh.h:60-66 | the destructor checks only the vertex array before deleting all three names | a mesh whose `glGenVertexArrays` is refused (`~0`) while `glGenBuffers` is not: the buffer is never deleted | test each name on its own | not executed | Meshes.DestructorAsWrittenLeaks (on Meshes.DestroyCmdsAsWritten) | Meshes.Mesh.Destroy |
| include/world.h:328 | the texture coordinate is `mTextureCoords[0]->x` twice, read from the first vertex for every vertex | a two-vertex mesh with coordinates (0, 0) and (1, 1): the second vertex gets (0, 0) | vertex `i` gets `(mTextureCoords[0][i].x, mTextureCoords[0][i].y)` | not executed | Models.CoordAsWrittenLosesSecond (on Models.CoordAsWritten) | Models.Coord |

For the first two rows the rest of the model uses the corrected member: `World` uses the releasing texture assignment. Meshes are destroyed with the corrected destructor. Imported vertices keep the coordinate as written (`CoordAsWritten`), so the build path reproduces that discrepancy; `Coord` is the corrected definition beside it, and `CoordAsWrittenLosesSecond` shows where the two differ.
