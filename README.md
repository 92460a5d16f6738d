# SceneManager bookkeeping, modelled in Dafny

This project models the bookkeeping core of the 3D Liberty Shrine scene manager
(`SceneManager.cpp`) and proves properties about it. The core has four parts:

- **Texture registry.** It is a fixed array of 16 `{ID, tag}` entries plus a
  count. `CreateGLTexture` appends an entry after a successful 3- or
  4-channel decode. `FindTextureID` and `FindTextureSlot` are first-match
  scans that return -1 on a miss. `BindGLTextures` binds entry `i` to texture
  unit `i`.
- **Material registry.** `DefineObjectMaterials` appends the eight scene
  materials. `FindMaterial` is a first-match scan that writes into an output
  parameter.
- **Shader-sink protocol.** `SetTransformations`, `SetShaderColor`,
  `SetShaderTexture` and `SetShaderMaterial` write uniforms into the shader
  manager.
- **Render script.** `RenderScene` draws eight objects in a fixed order. Each
  object gets a transform, a colour, a texture and a material, and then its
  mesh is drawn.

The class `Scene.SceneManager` keeps the source's state:

- `textureIDs`, an `array` of 16 entries;
- `loadedTextures`, the count;
- `objectMaterials`, a `seq`;
- `shaderAttached`, which says whether the shader manager pointer is non-null.

Every call the scene manager makes on the shader manager and the mesh
library, and every texture-unit binding of `BindGLTextures`, is appended to a
ghost log `calls`. The texture binds inside `CreateGLTexture` are not logged
(see "## Left out"). Each method is
specified by a function of the state (`Register`, `SlotOf`, `IdOf`, `Find`,
`Bindings`, `RenderEvents`, …). Those functions live in the modules `Lookup`,
`Textures`, `Materials` and `Render`.

The module `Sink` gives the log its meaning:

- `After` replays uniform writes into a map from uniform name to value.
- `Draws` lists every draw call together with the uniform values last written
  before that draw.
- `BoundUnits` gives the texture bound on each unit.

The properties about frames are stated in terms of what each draw sees.

The decode result of an image file (failure, or a channel count and a GL
texture name) is an input of `CreateGLTexture`. The uninitialised local
`OBJECT_MATERIAL material` of `SetShaderMaterial` is also an input, `uninit`.
`RenderScene` takes one such value per call, in `uninits`. The colour, scale,
angle and position literals are kept as `real` values and never computed on.

What a lookup miss sends:

- A texture miss sends sampler -1 (`SceneManager.cpp:350-352`). What the
  shader then holds is up to the shader manager (see "## Left out").
- A material miss on a non-empty list still reports success
  (`SceneManager.cpp:269`), so the five material uniforms are written from the
  uninitialised local (`SceneManager.cpp:381-391`).

Only an empty material list leaves the material uniforms alone: then
`SetShaderMaterial` writes nothing (`SceneManager.cpp:379`). Nothing in
`SceneManager.cpp` calls `DefineObjectMaterials` or `SetupSceneLights`, and
`PrepareScene` (`SceneManager.cpp:585-600`) calls neither. So unless outside code
defines the materials, every frame is drawn with whatever material values the
shader already held. `Render.UnlitFrame` states this.

## Model

| member | source | states |
|---|---|---|
| Lookup.FirstIndex | 7-1_FinalProjectMilestones/Source/SceneManager.cpp:188-206 | the scan's answer is -1 or an index holding the tag, no earlier index holds it, and it is -1 exactly when the tag is absent |
| Lookup.FirstIndexSnoc | 7-1_FinalProjectMilestones/Source/SceneManager.cpp:113-115 | appending an entry never moves an existing first match; it turns a miss into a hit at the new position only for its own tag |
| Textures.SlotAfterRegister | 7-1_FinalProjectMilestones/Source/SceneManager.cpp:94-123 | after one CreateGLTexture, a slot lookup is the old hit, or the new slot when an accepted image was registered under that tag, or -1 |
| Textures.LoadThenFind | 7-1_FinalProjectMilestones/Source/SceneManager.cpp:60-124 | registering a new tag makes both lookups hit the new entry exactly when the image had 3 or 4 channels; otherwise both miss |
| Textures.IdSentinel | 7-1_FinalProjectMilestones/Source/SceneManager.cpp:162-180 | FindTextureID's -1 means a miss, except for the texture name 0xFFFFFFFF, which also reads back as -1; names below 2^31 come back unchanged |
| Textures.SceneTextureSlots | 7-1_FinalProjectMilestones/Source/SceneManager.cpp:215-231 | after loading stone, bush, ground and sky into an empty registry, each tag is found exactly when its image was accepted; with all four accepted they sit on slots 0 to 3 in load order |
| Textures.SceneSlot | 7-1_FinalProjectMilestones/Source/SceneManager.cpp:215-231 | a lookup after the four loads, unfolded into its four registrations |
| Textures.BindingsBindEachEntry | 7-1_FinalProjectMilestones/Source/SceneManager.cpp:132-140 | the binding loop leaves every registered entry bound on the unit of its own index |
| Textures.SlotDesignatesBoundTexture | 7-1_FinalProjectMilestones/Source/SceneManager.cpp:343-354 | the sampler unit SetShaderTexture sends for a registered tag is the unit where BindGLTextures bound that tag's texture, and that texture's id is the one FindTextureID reports |
| Materials.Find | 7-1_FinalProjectMilestones/Source/SceneManager.cpp:243-270 | FindMaterial reports failure only for an empty list; the first match's five shading fields reach the output; a miss leaves the output as it was; the tag field is never written |
| Materials.SceneMaterialTags | 7-1_FinalProjectMilestones/Source/SceneManager.cpp:410-495 | the eight materials are defined in the order box1, box2, box3, box4, prism, torus, topPlane, bottomPlane, and their tags are pairwise distinct |
| Materials.SceneMaterialFound | 7-1_FinalProjectMilestones/Source/SceneManager.cpp:410-495 | looking up the tag of any defined material succeeds and yields that material's own shading fields |
| Materials.Box1Lookup | 7-1_FinalProjectMilestones/Source/SceneManager.cpp:416-424 | the box1 lookup yields the literals the scene gives box1 |
| Render.MaterialEventsCases | 7-1_FinalProjectMilestones/Source/SceneManager.cpp:376-394 | SetShaderMaterial writes nothing for an empty list; otherwise it writes the five material uniforms, carrying the first match, or on a miss the uninitialised local's values |
| Render.ObjectDrawn | 7-1_FinalProjectMilestones/Source/SceneManager.cpp:621-651 | one object's calls issue exactly one draw, of its shape; with a shader attached it sees its own model matrix and colour, texturing on, its texture tag's slot and its material lookup's result; with no material defined, the draw carries every material uniform exactly as it was before the object's calls |
| Render.ObjectSingleDraw | 7-1_FinalProjectMilestones/Source/SceneManager.cpp:621-651 | one object's calls end in its only draw |
| Render.ScriptDrawn | 7-1_FinalProjectMilestones/Source/SceneManager.cpp:608-886 | a script of objects issues one draw per object, in order, each drawn as its object is scripted (for a shader that is attached whenever materials exist, as SetShaderMaterial needs) |
| Render.RenderedFrame | 7-1_FinalProjectMilestones/Source/SceneManager.cpp:608-886 | a frame is exactly eight draws (plane, plane, torus, box, box, box, box, prism), each drawn as scripted, whatever uniform values the previous frame left behind |
| Render.UnlitFrame | 7-1_FinalProjectMilestones/Source/SceneManager.cpp:376-394 | with no material defined, a frame is eight draws and each carries the five material uniforms exactly as the frame found them, set or unset |
| Render.SceneScriptTags | 7-1_FinalProjectMilestones/Source/SceneManager.cpp:608-886 | the draws use the texture tags ground, sky, bush, then stone five times, and the material tags bottomPlane, topPlane, torus, box1 to box4, prism |
| Render.FrameMaterial | 7-1_FinalProjectMilestones/Source/SceneManager.cpp:648-881 | the material drawn with object k is one of the defined materials, and its tag is the one object k's SetShaderMaterial call names |
| Render.PreparedFrame | 7-1_FinalProjectMilestones/Source/SceneManager.cpp:608-886 | after all four textures load and the materials are defined, every draw has texturing on, samples unit 2, 3, 1, then 0 five times, and is lit by the material whose tag its own SetShaderMaterial call names |
| Render.PreparedDraws | 7-1_FinalProjectMilestones/Source/SceneManager.cpp:608-886 | the per-draw sampler units and materials of a prepared frame, read off the draws |
| Render.PreparedObject | 7-1_FinalProjectMilestones/Source/SceneManager.cpp:608-886 | the slot and material lookups object k makes in a prepared scene |
| Render.MissingGroundTexture | 7-1_FinalProjectMilestones/Source/SceneManager.cpp:643-645 | when the ground image fails to load, the `objectTexture` write before the first draw is -1 |
| Scene.SceneManager.constructor | 7-1_FinalProjectMilestones/Source/SceneManager.cpp:34-38 | a new scene manager has an empty texture registry, no materials and an empty call log |
| Scene.SceneManager.CreateGLTexture | 7-1_FinalProjectMilestones/Source/SceneManager.cpp:60-124 | returns true exactly for a 3- or 4-channel decode; then writes `{ID, tag}` at the old count and adds one to it; otherwise the array and the count are unchanged |
| Scene.SceneManager.BindGLTextures | 7-1_FinalProjectMilestones/Source/SceneManager.cpp:132-140 | binds entry i on unit i, in order, for every registered entry |
| Scene.SceneManager.FindTextureID | 7-1_FinalProjectMilestones/Source/SceneManager.cpp:162-180 | returns the id of the first entry with the tag, converted to int, or -1; the registry is not changed |
| Scene.SceneManager.FindTextureSlot | 7-1_FinalProjectMilestones/Source/SceneManager.cpp:188-206 | returns the index of the first entry with the tag, or -1; the registry is not changed |
| Scene.SceneManager.LoadSceneTextures | 7-1_FinalProjectMilestones/Source/SceneManager.cpp:215-235 | registers stone, bush, ground and sky in that order, then binds every registered entry |
| Scene.SceneManager.PrepareScene | 7-1_FinalProjectMilestones/Source/SceneManager.cpp:585-600 | loads the textures, then loads the plane, torus, box, tapered-cylinder and prism meshes once each |
| Scene.SceneManager.FindMaterial | 7-1_FinalProjectMilestones/Source/SceneManager.cpp:243-270 | the scan's report and output are those of `Find`, with the list unchanged |
| Scene.SceneManager.SetTransformations | 7-1_FinalProjectMilestones/Source/SceneManager.cpp:278-308 | with a shader attached, one model-matrix write; otherwise nothing |
| Scene.SceneManager.SetShaderColor | 7-1_FinalProjectMilestones/Source/SceneManager.cpp:316-335 | with a shader attached, texturing off and then the colour; otherwise nothing |
| Scene.SceneManager.SetShaderTexture | 7-1_FinalProjectMilestones/Source/SceneManager.cpp:343-354 | with a shader attached, texturing on and then the sampler set to the slot lookup's answer, possibly -1; otherwise nothing |
| Scene.SceneManager.SetShaderMaterial | 7-1_FinalProjectMilestones/Source/SceneManager.cpp:376-394 | nothing for an empty list; otherwise the five material writes of what FindMaterial left in the local |
| Scene.SceneManager.DefineObjectMaterials | 7-1_FinalProjectMilestones/Source/SceneManager.cpp:410-495 | appends the eight scene materials to the list, in definition order |
| Scene.SceneManager.DrawSceneObject | 7-1_FinalProjectMilestones/Source/SceneManager.cpp:621-651 | one object's block: transform, colour, texture, material, then the draw of its mesh |
| Scene.SceneManager.RenderScene | 7-1_FinalProjectMilestones/Source/SceneManager.cpp:608-886 | the frame's calls are exactly the eight scripted objects' calls, in order; RenderedFrame and PreparedFrame say what each draw sees |

## Left out

- Image decoding and GL texture creation are modelled only by their outcome (`Failed` or `Decoded(channels, id)`). The calls `stbi_load`, `glGenTextures`, `glTexParameteri`, `glTexImage2D`, `glGenerateMipmap` and `stbi_image_free` are not modelled.
- The image buffer leaks on the unsupported-channel path, because line 102 returns before the free at line 109. Memory is not modelled.
- Scene.SceneManager.CreateGLTexture: requires a free slot when the image will be accepted. The source writes at `m_loadedTextures` without checking the 16-entry capacity, and an overflow is undefined behaviour, not a modelled outcome.
- The array size 16 comes from the comment at line 130 and from the hardware unit count. The header that declares `m_textureIDs` and `m_loadedTextures` is not part of this model. The constructor (lines 34-38) does not set the count; the model assumes it starts at 0.
- The texture binds inside `CreateGLTexture` are not logged: `glBindTexture(GL_TEXTURE_2D, textureID)` at line 84 and the unbind at line 110. On the unsupported-channel return at line 102 the new texture also stays bound on the active unit. `BindGLTextures` later rebinds units 0 to count-1, so `BoundUnits` after it and `SlotDesignatesBoundTexture` are unaffected. The `glActiveTexture` calls of `BindGLTextures` are folded into its `BindTexture(unit, id)` events.
- Scene.SceneManager.SetTransformations: the model matrix is recorded as its five arguments (`Transform`), not as the product of the glm scale, rotation and translation matrices. Float trigonometry inside glm is not modelled.
- Sink.After: stores every value written. GL rejects a sampler index outside 0 to units-1 (`GL_INVALID_VALUE`) and keeps the previous one, so after a texture miss the shader may still sample the earlier unit. The model records only what the scene manager sends, and the sampler clauses of `DrawnAs`, `RenderedFrame` and `MissingGroundTexture` are about the value written, not the unit in effect.
- Float values are kept as exact `real` literals. Single-precision rounding is not modelled.
- Scene.SceneManager.SetShaderMaterial: requires a shader to be attached whenever the material list is non-empty. The source dereferences `m_pShaderManager` there without a null check.
- The uninitialised `OBJECT_MATERIAL` local is an arbitrary input value. Indeterminate values are not modelled beyond that.
- `DestroyGLTextures` (lines 148-154) is not modelled. It calls `glGenTextures` where a delete is evidently meant. That writes fresh texture names into the `ID` field of every registered entry (line 152), so after it `FindTextureID` (line 172) reports names no image was uploaded to. `SetTextureUVScale` is not modelled either: `RenderScene` never calls it.
- `SetupSceneLights` (lines 503-576) is not modelled. It writes the light constants and then sets the flag `bUseLighting` to true (line 575); nothing about these writes is proved.
- The shader manager's uniform storage and the mesh library's meshes are external. They appear only as log events: uniform writes, texture bindings, mesh loads and mesh draws.
- Console logging, the destructor and the pointer management of the constructor are not modelled.
- `DrawSceneObject` does not exist in the source. It groups the five steps each object block of `RenderScene` repeats, with the literals of that block as its argument.
- The log is ghost state; it is what the external calls would observe, not data the scene manager keeps.
