/** The scene manager: it owns the texture registry (a fixed array of 16 entries
    and a count) and the material list, and drives the shader manager and the
    mesh library. Their side of each call is recorded in the ghost log `calls`,
    whose meaning the Sink module gives. */
module Scene {
  import opened Lookup
  import opened Sink
  import opened Textures
  import opened Materials
  import opened Render

  class SceneManager {
    /** The texture registry's entries; only the first loadedTextures are in use. */
    const textureIDs: array<TextureEntry>
    var loadedTextures: int
    var objectMaterials: seq<ObjectMaterial>
    /** Whether a shader manager was supplied (its pointer is not null). */
    const shaderAttached: bool
    /** Every call made so far on the shader manager and the mesh library, and every texture-unit binding of BindGLTextures. */
    ghost var calls: seq<Event>

    ghost predicate Valid()
      reads this`loadedTextures
    {
      textureIDs.Length == MaxTextureUnits && 0 <= loadedTextures <= MaxTextureUnits
    }

    /** The registered textures, in slot order. */
    ghost function Registered(): seq<TextureEntry>
      reads this`loadedTextures, textureIDs
      requires Valid()
    {
      textureIDs[..loadedTextures]
    }

    constructor (attached: bool)
      ensures Valid() && fresh(textureIDs)
      ensures Registered() == [] && objectMaterials == [] && calls == [] && shaderAttached == attached
    {
      textureIDs := new TextureEntry[MaxTextureUnits](_ => TextureEntry(0, ""));
      loadedTextures := 0;
      objectMaterials := [];
      shaderAttached := attached;
      calls := [];
    }

    /** Registers the texture decoded from an image file under `tag` when the
        image has 3 or 4 channels; any other outcome registers nothing. */
    method CreateGLTexture(image: DecodeOutcome, tag: string) returns (ok: bool)
      requires Valid()
      requires Accepts(image) ==> loadedTextures < MaxTextureUnits
      modifies this`loadedTextures, textureIDs
      ensures Valid()
      ensures ok == Accepts(image)
      ensures loadedTextures == old(loadedTextures) + (if ok then 1 else 0)
      ensures textureIDs[..] ==
        if ok then old(textureIDs[..])[old(loadedTextures) := TextureEntry(image.id, tag)] else old(textureIDs[..])
      ensures Registered() == Register(old(Registered()), image, tag)
    {
      if image.Decoded? {
        if image.channels != 3 && image.channels != 4 {
          return false;
        }
        textureIDs[loadedTextures] := TextureEntry(image.id, tag);
        loadedTextures := loadedTextures + 1;
        return true;
      }
      return false;
    }

    /** Binds registered entry i to texture unit i, for every entry in order. */
    method BindGLTextures()
      requires Valid()
      modifies this`calls
      ensures calls == old(calls) + Bindings(Registered())
    {
      for i := 0 to loadedTextures
        invariant calls == old(calls) + Bindings(Registered()[..i])
      {
        assert Registered()[..i + 1][..i] == Registered()[..i];
        calls := calls + [BindTexture(i, textureIDs[i].id)];
      }
      assert Registered()[..loadedTextures] == Registered();
    }

    /** The id of the first registered texture tagged `tag`, or -1. */
    method FindTextureID(tag: string) returns (textureID: int)
      requires Valid()
      ensures textureID == IdOf(Registered(), tag)
    {
      textureID := -1;
      var index := 0;
      var found := false;
      while index < loadedTextures && !found
        invariant 0 <= index <= loadedTextures
        invariant forall j :: 0 <= j < index ==> textureIDs[j].tag != tag
        invariant found ==> index < loadedTextures && textureIDs[index].tag == tag &&
                            textureID == AsInt(textureIDs[index].id)
        invariant !found ==> textureID == -1
        decreases loadedTextures - index, !found
      {
        if textureIDs[index].tag == tag {
          textureID := AsInt(textureIDs[index].id);
          found := true;
        } else {
          index := index + 1;
        }
      }
      assert found ==> SlotOf(Registered(), tag) == index;
    }

    /** The slot of the first registered texture tagged `tag`, or -1. */
    method FindTextureSlot(tag: string) returns (textureSlot: int)
      requires Valid()
      ensures textureSlot == SlotOf(Registered(), tag)
    {
      textureSlot := -1;
      var index := 0;
      var found := false;
      while index < loadedTextures && !found
        invariant 0 <= index <= loadedTextures
        invariant forall j :: 0 <= j < index ==> textureIDs[j].tag != tag
        invariant found ==> index < loadedTextures && textureIDs[index].tag == tag && textureSlot == index
        invariant !found ==> textureSlot == -1
        decreases loadedTextures - index, !found
      {
        if textureIDs[index].tag == tag {
          textureSlot := index;
          found := true;
        } else {
          index := index + 1;
        }
      }
    }

    /** Loads the scene's four textures, in the order stone, bush, ground, sky,
        then binds every registered texture to its unit. */
    method LoadSceneTextures(stone: DecodeOutcome, bush: DecodeOutcome, ground: DecodeOutcome, sky: DecodeOutcome)
      requires Valid()
      requires |LoadScene(Registered(), stone, bush, ground, sky)| <= MaxTextureUnits
      modifies this`loadedTextures, textureIDs, this`calls
      ensures Valid()
      ensures Registered() == LoadScene(old(Registered()), stone, bush, ground, sky)
      ensures calls == old(calls) + Bindings(Registered())
    {
      var ok := CreateGLTexture(stone, "stone");
      ok := CreateGLTexture(bush, "bush");
      ok := CreateGLTexture(ground, "ground");
      ok := CreateGLTexture(sky, "sky");
      BindGLTextures();
    }

    /** Loads the textures, then each shape's mesh once. */
    method PrepareScene(stone: DecodeOutcome, bush: DecodeOutcome, ground: DecodeOutcome, sky: DecodeOutcome)
      requires Valid()
      requires |LoadScene(Registered(), stone, bush, ground, sky)| <= MaxTextureUnits
      modifies this`loadedTextures, textureIDs, this`calls
      ensures Valid()
      ensures Registered() == LoadScene(old(Registered()), stone, bush, ground, sky)
      ensures calls == old(calls) + Bindings(Registered()) +
        [LoadMesh(Plane), LoadMesh(Torus), LoadMesh(Box), LoadMesh(TaperedCylinder), LoadMesh(Prism)]
    {
      LoadSceneTextures(stone, bush, ground, sky);
      calls := calls + [LoadMesh(Plane)];
      calls := calls + [LoadMesh(Torus)];
      calls := calls + [LoadMesh(Box)];
      calls := calls + [LoadMesh(TaperedCylinder)];
      calls := calls + [LoadMesh(Prism)];
    }

    /** What FindMaterial reports for `tag` and what it leaves in its output
        parameter, which holds `material` on entry. */
    method FindMaterial(tag: string, material: ObjectMaterial) returns (found: bool, result: ObjectMaterial)
      ensures (found, result) == Find(objectMaterials, tag, material)
    {
      result := material;
      if |objectMaterials| == 0 {
        return false, result;
      }
      var index := 0;
      var matched := false;
      while index < |objectMaterials| && !matched
        invariant 0 <= index <= |objectMaterials|
        invariant forall j :: 0 <= j < index ==> objectMaterials[j].tag != tag
        invariant matched ==> index < |objectMaterials| && objectMaterials[index].tag == tag &&
                              result == CopyShading(material, objectMaterials[index])
        invariant !matched ==> result == material
        decreases |objectMaterials| - index, !matched
      {
        if objectMaterials[index].tag == tag {
          matched := true;
          var m := objectMaterials[index];
          result := result.(ambientColor := m.ambientColor);
          result := result.(ambientStrength := m.ambientStrength);
          result := result.(diffuseColor := m.diffuseColor);
          result := result.(specularColor := m.specularColor);
          result := result.(shininess := m.shininess);
        } else {
          index := index + 1;
        }
      }
      assert matched ==> FirstIndex(Materials.Tags(objectMaterials), tag) == index;
      return true, result;
    }

    /** Pushes the model matrix built from `t`. */
    method SetTransformations(t: Transform)
      modifies this`calls
      ensures calls == old(calls) + TransformEvents(shaderAttached, t)
    {
      if shaderAttached {
        calls := calls + [SetUniform(ModelName, ModelMatrix(t))];
      }
    }

    /** Switches texturing off and sets the flat colour. */
    method SetShaderColor(color: Vec4)
      modifies this`calls
      ensures calls == old(calls) + ColorEvents(shaderAttached, color)
    {
      if shaderAttached {
        calls := calls + [SetUniform(UseTextureName, Int(0))];
        calls := calls + [SetUniform(ColorValueName, Vector4(color))];
      }
    }

    /** Switches texturing on and points the sampler at the slot of `textureTag`. */
    method SetShaderTexture(textureTag: string)
      requires Valid()
      modifies this`calls
      ensures calls == old(calls) + TextureEvents(shaderAttached, Registered(), textureTag)
    {
      if shaderAttached {
        calls := calls + [SetUniform(UseTextureName, Int(1))];
        var textureID := FindTextureSlot(textureTag);
        calls := calls + [SetUniform(TextureValueName, Sampler2D(textureID))];
      }
    }

    /** Pushes the material found for `materialTag`; the local it is looked up
        into starts out holding `uninit`. The shader manager is used without a
        null check, so it must be attached whenever a material is defined. */
    method SetShaderMaterial(materialTag: string, uninit: ObjectMaterial)
      requires |objectMaterials| > 0 ==> shaderAttached
      modifies this`calls
      ensures calls == old(calls) + MaterialEvents(objectMaterials, materialTag, uninit)
    {
      if |objectMaterials| > 0 {
        var found, material := FindMaterial(materialTag, uninit);
        if found {
          calls := calls + [SetUniform(AmbientColorName, Vector3(material.ambientColor))];
          calls := calls + [SetUniform(AmbientStrengthName, Float(material.ambientStrength))];
          calls := calls + [SetUniform(DiffuseColorName, Vector3(material.diffuseColor))];
          calls := calls + [SetUniform(SpecularColorName, Vector3(material.specularColor))];
          calls := calls + [SetUniform(ShininessName, Float(material.shininess))];
        }
      }
    }

    /** Appends the scene's eight materials to the material list. */
    method DefineObjectMaterials()
      modifies this`objectMaterials
      ensures objectMaterials == old(objectMaterials) + SceneMaterials()
    {
      objectMaterials := objectMaterials + [Box1Material];
      objectMaterials := objectMaterials + [Box2Material];
      objectMaterials := objectMaterials + [Box3Material];
      objectMaterials := objectMaterials + [Box4Material];
      objectMaterials := objectMaterials + [PrismMaterial];
      objectMaterials := objectMaterials + [TorusMaterial];
      objectMaterials := objectMaterials + [TopPlaneMaterial];
      objectMaterials := objectMaterials + [BottomPlaneMaterial];
    }

    /** The five steps every object of the frame goes through: its transform,
        its colour, its texture (which overrides the colour), its material, and
        the draw of its mesh. */
    method DrawSceneObject(o: RenderObject, uninit: ObjectMaterial)
      requires Valid()
      requires |objectMaterials| > 0 ==> shaderAttached
      modifies this`calls
      ensures calls == old(calls) + ObjectEvents(shaderAttached, Registered(), objectMaterials, o, uninit)
    {
      SetTransformations(o.transform);
      SetShaderColor(o.color);
      SetShaderTexture(o.texture);
      SetShaderMaterial(o.material, uninit);
      calls := calls + [DrawMesh(o.shape)];
    }

    /** Draws one frame: the eight objects of the scene, in order. `uninits[k]`
        is what the material local of the k-th SetShaderMaterial call holds on
        entry. */
    method RenderScene(uninits: seq<ObjectMaterial>)
      requires Valid()
      requires |uninits| == 8
      requires |objectMaterials| > 0 ==> shaderAttached
      modifies this`calls
      ensures calls == old(calls) + RenderEvents(shaderAttached, Registered(), objectMaterials, uninits)
    {
      var objs := SceneObjects();
      ghost var textures, ms := Registered(), objectMaterials;

      // bottom plane: the ground
      DrawSceneObject(objs[0], uninits[0]);
      ghost var c1 := calls;

      // top plane: the sky backdrop
      DrawSceneObject(objs[1], uninits[1]);
      ghost var c2 := calls;

      // torus: the hedge
      DrawSceneObject(objs[2], uninits[2]);
      ghost var c3 := calls;

      // box 1, the lowest block of the monument
      DrawSceneObject(objs[3], uninits[3]);
      ghost var c4 := calls;

      // box 2
      DrawSceneObject(objs[4], uninits[4]);
      ghost var c5 := calls;

      // box 3
      DrawSceneObject(objs[5], uninits[5]);
      ghost var c6 := calls;

      // box 4
      DrawSceneObject(objs[6], uninits[6]);
      ghost var c7 := calls;

      // prism on top of the structure
      DrawSceneObject(objs[7], uninits[7]);
      ghost var c8 := calls;

      ghost var logs := ObjectLogs(shaderAttached, textures, ms, objs, uninits);
      LogOfEight(old(calls), logs[0], logs[1], logs[2], logs[3], logs[4], logs[5], logs[6], logs[7],
                 c1, c2, c3, c4, c5, c6, c7, c8);
      ConcatEight(logs);
    }
  }
}
