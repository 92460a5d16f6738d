/** What the shader setters and the per-frame render script send to the shader
    manager and the mesh library, and what every draw call of a frame is drawn
    with. */
module Render {
  import opened Lookup
  import opened Sink
  import opened Textures
  import opened Materials

  /** SetTransformations: the model matrix, when a shader manager is attached. */
  function TransformEvents(attached: bool, t: Transform): seq<Event>
  {
    if attached then [SetUniform(ModelName, ModelMatrix(t))] else []
  }

  /** SetShaderColor: texturing off, then the flat colour. */
  function ColorEvents(attached: bool, c: Vec4): seq<Event>
  {
    if attached then [SetUniform(UseTextureName, Int(0)), SetUniform(ColorValueName, Vector4(c))] else []
  }

  /** SetShaderTexture: texturing on, then the sampler set to the slot lookup's
      answer, which is -1 for a tag that is not registered. */
  function TextureEvents(attached: bool, textures: seq<TextureEntry>, tag: string): seq<Event>
  {
    if attached then [SetUniform(UseTextureName, Int(1)), SetUniform(TextureValueName, Sampler2D(SlotOf(textures, tag)))]
    else []
  }

  /** The five material uniforms, written from m in this order. */
  function ShadingEvents(m: ObjectMaterial): seq<Event>
  {
    [SetUniform(AmbientColorName, Vector3(m.ambientColor)),
     SetUniform(AmbientStrengthName, Float(m.ambientStrength)),
     SetUniform(DiffuseColorName, Vector3(m.diffuseColor)),
     SetUniform(SpecularColorName, Vector3(m.specularColor)),
     SetUniform(ShininessName, Float(m.shininess))]
  }

  /** SetShaderMaterial, whose local material starts out holding `uninit`:
      nothing for an empty list, otherwise the five writes of whatever the lookup
      left in that local. */
  function MaterialEvents(ms: seq<ObjectMaterial>, tag: string, uninit: ObjectMaterial): seq<Event>
  {
    if |ms| > 0 then
      var r := Find(ms, tag, uninit);
      if r.0 then ShadingEvents(r.1) else []
    else []
  }

  /** SetShaderMaterial's two outcomes: no write for an empty list; for a
      non-empty one exactly the five material writes, carrying the first match's
      values, or, on a miss, the values the uninitialised local happened to hold. */
  lemma MaterialEventsCases(ms: seq<ObjectMaterial>, tag: string, uninit: ObjectMaterial)
    ensures |ms| == 0 ==> MaterialEvents(ms, tag, uninit) == []
    ensures |ms| > 0 && tag !in Materials.Tags(ms) ==> MaterialEvents(ms, tag, uninit) == ShadingEvents(uninit)
    ensures forall k :: 0 <= k < |ms| && ms[k].tag == tag && (forall j :: 0 <= j < k ==> ms[j].tag != tag) ==>
      MaterialEvents(ms, tag, uninit) == ShadingEvents(ms[k])
  {
  }

  /** One object of the scene script: where it goes, its colour, the texture and
      material tags it is drawn with, and its shape. */
  datatype RenderObject = RenderObject(transform: Transform, color: Vec4, texture: string, material: string, shape: Shape)

  const StructureColor := Vec4(0.871, 0.804, 0.675, 1.0)
  const White := Vec4(1.0, 1.0, 1.0, 1.0)

  /** The eight objects RenderScene draws, in drawing order. */
  function SceneObjects(): seq<RenderObject>
  {
    [RenderObject(Transform(Vec3(20.0, 1.0, 10.0), 0.0, 0.0, 0.0, Vec3(0.0, 0.0, 0.0)), White, "ground", "bottomPlane", Plane),
     RenderObject(Transform(Vec3(20.0, 1.0, 10.0), 90.0, 0.0, 0.0, Vec3(0.0, 9.0, -10.0)), White, "sky", "topPlane", Plane),
     RenderObject(Transform(Vec3(10.0, 6.0, 2.0), 90.0, 0.0, 0.0, Vec3(0.0, 0.0, 2.0)), Vec4(0.243, 0.651, 0.286, 1.0), "bush", "torus", Torus),
     RenderObject(Transform(Vec3(7.0, 4.0, 3.0), 0.0, 0.0, 0.0, Vec3(0.0, 1.0, 2.5)), StructureColor, "stone", "box1", Box),
     RenderObject(Transform(Vec3(5.0, 2.5, 3.0), 0.0, 0.0, 0.0, Vec3(0.0, 3.5, 2.5)), StructureColor, "stone", "box2", Box),
     RenderObject(Transform(Vec3(3.5, 3.0, 2.5), 0.0, 0.0, 0.0, Vec3(0.0, 6.0, 2.0)), StructureColor, "stone", "box3", Box),
     RenderObject(Transform(Vec3(2.0, 1.0, 2.5), 0.0, 0.0, 0.0, Vec3(0.0, 8.0, 2.0)), StructureColor, "stone", "box4", Box),
     RenderObject(Transform(Vec3(1.75, 2.0, 2.3), -90.0, 0.0, 0.0, Vec3(0.0, 9.3, 2.0)), StructureColor, "stone", "prism", Prism)]
  }

  /** The calls made for one object: transform, colour, texture, material, draw. */
  function ObjectEvents(attached: bool, textures: seq<TextureEntry>, ms: seq<ObjectMaterial>,
                        o: RenderObject, uninit: ObjectMaterial): seq<Event>
  {
    TransformEvents(attached, o.transform) + ColorEvents(attached, o.color) +
    TextureEvents(attached, textures, o.texture) + MaterialEvents(ms, o.material, uninit) +
    [DrawMesh(o.shape)]
  }

  /** The calls made for each of a list of objects; `uninits[k]` is what the
      material local holds before the lookup for object k. */
  function ObjectLogs(attached: bool, textures: seq<TextureEntry>, ms: seq<ObjectMaterial>,
                      objs: seq<RenderObject>, uninits: seq<ObjectMaterial>): (r: seq<seq<Event>>)
    requires |objs| == |uninits|
    ensures |r| == |objs|
    ensures forall k :: 0 <= k < |objs| ==> r[k] == ObjectEvents(attached, textures, ms, objs[k], uninits[k])
  {
    seq(|objs|, k requires 0 <= k < |objs| => ObjectEvents(attached, textures, ms, objs[k], uninits[k]))
  }

  /** Everything one RenderScene call sends to the shader manager and mesh
      library: the calls for the eight scene objects, one after the other. */
  function RenderEvents(attached: bool, textures: seq<TextureEntry>, ms: seq<ObjectMaterial>,
                        uninits: seq<ObjectMaterial>): seq<Event>
    requires |uninits| == 8
  {
    Concat(ObjectLogs(attached, textures, ms, SceneObjects(), uninits), 8)
  }

  /** Draw call c carries the five shading values of m. */
  predicate SeesShading(c: DrawCall, m: ObjectMaterial)
  {
    Sees(c, AmbientColorName, Vector3(m.ambientColor)) &&
    Sees(c, AmbientStrengthName, Float(m.ambientStrength)) &&
    Sees(c, DiffuseColorName, Vector3(m.diffuseColor)) &&
    Sees(c, SpecularColorName, Vector3(m.specularColor)) &&
    Sees(c, ShininessName, Float(m.shininess))
  }

  /** Draw call c draws object o as scripted: its shape and, with a shader
      manager attached, its own model matrix and colour, texturing switched on
      (the texture setter runs after the colour setter), the sampler of its
      texture tag, and, for a non-empty material list, the material the lookup
      of its material tag produced. */
  predicate DrawnAs(c: DrawCall, attached: bool, textures: seq<TextureEntry>, ms: seq<ObjectMaterial>,
                    o: RenderObject, uninit: ObjectMaterial)
  {
    c.shape == o.shape &&
    (attached ==>
      Sees(c, ModelName, ModelMatrix(o.transform)) &&
      Sees(c, ColorValueName, Vector4(o.color)) &&
      Sees(c, UseTextureName, Int(1)) &&
      Sees(c, TextureValueName, Sampler2D(SlotOf(textures, o.texture))) &&
      (|ms| > 0 ==> SeesShading(c, Find(ms, o.material, uninit).1)))
  }

  lemma AfterSet(u: Uniforms, e: Event)
    ensures After(u, [e]) == Apply(u, e)
  {
    assert [e][1..] == [];
  }

  lemma AfterPair(u: Uniforms, e1: Event, e2: Event)
    ensures After(u, [e1, e2]) == Apply(Apply(u, e1), e2)
  {
    assert [e1, e2] == [e1] + [e2];
    AfterAppend(u, [e1], [e2]);
    AfterSet(u, e1);
    AfterSet(Apply(u, e1), e2);
  }

  /** No call in t writes the uniform `name`. */
  predicate Untouched(t: seq<Event>, name: string)
  {
    forall i :: 0 <= i < |t| ==> !(t[i].SetUniform? && t[i].name == name)
  }

  /** A uniform no call writes keeps its value, or stays unset. */
  lemma {:induction false} UntouchedKeeps(u: Uniforms, t: seq<Event>, name: string)
    requires Untouched(t, name)
    ensures name in After(u, t) <==> name in u
    ensures name in u ==> After(u, t)[name] == u[name]
    decreases |t|
  {
    if t != [] {
      UntouchedKeeps(Apply(u, t[0]), t[1..], name);
    }
  }

  /** The five uniforms SetShaderMaterial writes. */
  const MaterialNames := [AmbientColorName, AmbientStrengthName, DiffuseColorName, SpecularColorName, ShininessName]

  /** Draw call c is drawn with uniform `name` as u holds it: set to the same
      value, or unset. */
  predicate Carries(c: DrawCall, u: Uniforms, name: string)
  {
    (name in c.uniforms <==> name in u) && (name in u ==> c.uniforms[name] == u[name])
  }

  /** After the five material writes, the uniforms hold the shading of m. */
  lemma AfterShading(u: Uniforms, m: ObjectMaterial)
    ensures SeesShading(DrawCall(Plane, After(u, ShadingEvents(m))), m)
  {
    var e := ShadingEvents(m);
    assert e == [e[0], e[1]] + [e[2], e[3]] + [e[4]];
    AfterPair(u, e[0], e[1]);
    var u2 := Apply(Apply(u, e[0]), e[1]);
    AfterPair(u2, e[2], e[3]);
    var u4 := Apply(Apply(u2, e[2]), e[3]);
    AfterSet(u4, e[4]);
    AfterAppend(u, [e[0], e[1]], [e[2], e[3]]);
    AfterAppend(u, [e[0], e[1]] + [e[2], e[3]], [e[4]]);
  }

  /** The uniforms in force after the transform, colour and texture setters. */
  lemma AfterSetters(u: Uniforms, textures: seq<TextureEntry>, o: RenderObject)
    ensures var v := After(u, TransformEvents(true, o.transform) + ColorEvents(true, o.color) +
                              TextureEvents(true, textures, o.texture));
      var c := DrawCall(o.shape, v);
      Sees(c, ModelName, ModelMatrix(o.transform)) &&
      Sees(c, ColorValueName, Vector4(o.color)) &&
      Sees(c, UseTextureName, Int(1)) &&
      Sees(c, TextureValueName, Sampler2D(SlotOf(textures, o.texture)))
  {
    var tr := TransformEvents(true, o.transform);
    var co := ColorEvents(true, o.color);
    var tx := TextureEvents(true, textures, o.texture);
    AfterSet(u, tr[0]);
    var u1 := After(u, tr);
    AfterPair(u1, co[0], co[1]);
    var u2 := After(u1, co);
    AfterPair(u2, tx[0], tx[1]);
    AfterAppend(u, tr, co);
    AfterAppend(u, tr + co, tx);
  }

  /** The material writes touch none of the uniforms the other setters write. */
  lemma MaterialUntouched(ms: seq<ObjectMaterial>, tag: string, uninit: ObjectMaterial, name: string)
    requires name in [ModelName, ColorValueName, UseTextureName, TextureValueName]
    ensures Untouched(MaterialEvents(ms, tag, uninit), name)
  {
  }

  /** The transform, colour and texture setters write no material uniform. */
  lemma SettersUntouched(attached: bool, textures: seq<TextureEntry>, o: RenderObject, name: string)
    requires name in MaterialNames
    ensures Untouched(TransformEvents(attached, o.transform) + ColorEvents(attached, o.color) +
                      TextureEvents(attached, textures, o.texture), name)
  {
  }

  /** The calls for one object issue exactly one draw, of its shape, drawn as
      scripted whatever uniform values were in force before. With no material
      defined, the draw carries the material uniforms exactly as they were
      before the object's calls. */
  lemma ObjectDrawn(u: Uniforms, attached: bool, textures: seq<TextureEntry>,
                    ms: seq<ObjectMaterial>, o: RenderObject, uninit: ObjectMaterial)
    ensures var d := Draws(u, ObjectEvents(attached, textures, ms, o, uninit));
      |d| == 1 && DrawnAs(d[0], attached, textures, ms, o, uninit) &&
      (|ms| == 0 ==> forall name :: name in MaterialNames ==> Carries(d[0], u, name))
  {
    var p1 := TransformEvents(attached, o.transform) + ColorEvents(attached, o.color) +
              TextureEvents(attached, textures, o.texture);
    var ma := MaterialEvents(ms, o.material, uninit);
    var p := p1 + ma;
    assert ObjectEvents(attached, textures, ms, o, uninit) == p + [DrawMesh(o.shape)];
    assert NoDraws(p) by {
      assert NoDraws(p1) && NoDraws(ma);
    }
    DrawAfterPrelude(u, p, o.shape);
    AfterAppend(u, p1, ma);
    var v1 := After(u, p1);
    if attached {
      AfterSetters(u, textures, o);
      MaterialUntouched(ms, o.material, uninit, ModelName);
      MaterialUntouched(ms, o.material, uninit, ColorValueName);
      MaterialUntouched(ms, o.material, uninit, UseTextureName);
      MaterialUntouched(ms, o.material, uninit, TextureValueName);
      UntouchedKeeps(v1, ma, ModelName);
      UntouchedKeeps(v1, ma, ColorValueName);
      UntouchedKeeps(v1, ma, UseTextureName);
      UntouchedKeeps(v1, ma, TextureValueName);
      if |ms| > 0 {
        AfterShading(v1, Find(ms, o.material, uninit).1);
      }
    }
    if |ms| == 0 {
      forall name | name in MaterialNames ensures Carries(DrawCall(o.shape, After(u, p)), u, name) {
        SettersUntouched(attached, textures, o, name);
        assert p == p1;
        UntouchedKeeps(u, p, name);
      }
    }
  }

  /** The calls for one object end in its one draw. */
  lemma ObjectSingleDraw(attached: bool, textures: seq<TextureEntry>, ms: seq<ObjectMaterial>,
                         o: RenderObject, uninit: ObjectMaterial)
    ensures SingleDraw(ObjectEvents(attached, textures, ms, o, uninit))
  {
    var p1 := TransformEvents(attached, o.transform) + ColorEvents(attached, o.color) +
              TextureEvents(attached, textures, o.texture);
    var ma := MaterialEvents(ms, o.material, uninit);
    var t := ObjectEvents(attached, textures, ms, o, uninit);
    assert t[..|t| - 1] == p1 + ma;
    assert NoDraws(p1) && NoDraws(ma);
  }

  /** A script of objects issues exactly one draw per object, the k-th drawing
      the k-th object as scripted. */
  lemma ScriptDrawn(u: Uniforms, attached: bool, textures: seq<TextureEntry>,
                    ms: seq<ObjectMaterial>, objs: seq<RenderObject>, uninits: seq<ObjectMaterial>)
    requires |objs| == |uninits|
    requires |ms| > 0 ==> attached
    ensures var d := Draws(u, Concat(ObjectLogs(attached, textures, ms, objs, uninits), |objs|));
      |d| == |objs| &&
      forall k :: 0 <= k < |objs| ==> DrawnAs(d[k], attached, textures, ms, objs[k], uninits[k])
  {
    var logs := ObjectLogs(attached, textures, ms, objs, uninits);
    forall j | 0 <= j < |logs| ensures SingleDraw(logs[j]) {
      ObjectSingleDraw(attached, textures, ms, objs[j], uninits[j]);
    }
    ConcatDrawCount(u, logs, |objs|);
    var d := Draws(u, Concat(logs, |objs|));
    forall k | 0 <= k < |objs| ensures DrawnAs(d[k], attached, textures, ms, objs[k], uninits[k]) {
      ConcatDrawAt(u, logs, |objs|, k);
      ObjectDrawn(After(u, Concat(logs, k)), attached, textures, ms, objs[k], uninits[k]);
    }
  }

  /** Every one of the draws d draws the matching scene object as scripted. */
  predicate FrameDrawnAs(d: seq<DrawCall>, attached: bool, textures: seq<TextureEntry>,
                         ms: seq<ObjectMaterial>, uninits: seq<ObjectMaterial>)
    requires |uninits| == 8
  {
    |d| == 8 &&
    forall k :: 0 <= k < 8 ==> DrawnAs(d[k], attached, textures, ms, SceneObjects()[k], uninits[k])
  }

  /** One frame: exactly eight draws, in the order plane, plane, torus, box, box,
      box, box, prism, each drawn as its object is scripted, whatever uniform
      values the previous frame left behind. */
  lemma RenderedFrame(u: Uniforms, attached: bool, textures: seq<TextureEntry>,
                      ms: seq<ObjectMaterial>, uninits: seq<ObjectMaterial>)
    requires |uninits| == 8
    requires |ms| > 0 ==> attached
    ensures var d := Draws(u, RenderEvents(attached, textures, ms, uninits));
      FrameDrawnAs(d, attached, textures, ms, uninits) &&
      [d[0].shape, d[1].shape, d[2].shape, d[3].shape, d[4].shape, d[5].shape, d[6].shape, d[7].shape]
        == [Plane, Plane, Torus, Box, Box, Box, Box, Prism]
  {
    ScriptDrawn(u, attached, textures, ms, SceneObjects(), uninits);
    var d := Draws(u, RenderEvents(attached, textures, ms, uninits));
    assert DrawnAs(d[0], attached, textures, ms, SceneObjects()[0], uninits[0]);
    assert DrawnAs(d[1], attached, textures, ms, SceneObjects()[1], uninits[1]);
    assert DrawnAs(d[2], attached, textures, ms, SceneObjects()[2], uninits[2]);
    assert DrawnAs(d[3], attached, textures, ms, SceneObjects()[3], uninits[3]);
    assert DrawnAs(d[4], attached, textures, ms, SceneObjects()[4], uninits[4]);
    assert DrawnAs(d[5], attached, textures, ms, SceneObjects()[5], uninits[5]);
    assert DrawnAs(d[6], attached, textures, ms, SceneObjects()[6], uninits[6]);
    assert DrawnAs(d[7], attached, textures, ms, SceneObjects()[7], uninits[7]);
  }

  /** A run of logs none of which writes `name` does not write it either. */
  lemma {:induction false} UntouchedConcat(logs: seq<seq<Event>>, n: nat, name: string)
    requires n <= |logs|
    requires forall j :: 0 <= j < |logs| ==> Untouched(logs[j], name)
    ensures Untouched(Concat(logs, n), name)
  {
    if n > 0 {
      UntouchedConcat(logs, n - 1, name);
      var a: seq<Event>, b: seq<Event> := Concat(logs, n - 1), logs[n - 1];
      var t := a + b;
      forall i | 0 <= i < |t| ensures !(t[i].SetUniform? && t[i].name == name) {
        if i < |a| { assert t[i] == a[i]; } else { assert t[i] == b[i - |a|]; }
      }
    }
  }

  /** With no material defined, a frame writes no material uniform: all eight
      draws carry the material uniforms exactly as the frame found them. No
      code in the scene manager itself defines materials; PrepareScene does
      not call DefineObjectMaterials. */
  lemma UnlitFrame(u: Uniforms, attached: bool, textures: seq<TextureEntry>, uninits: seq<ObjectMaterial>)
    requires |uninits| == 8
    ensures var d := Draws(u, RenderEvents(attached, textures, [], uninits));
      |d| == 8 &&
      forall k, name :: 0 <= k < 8 && name in MaterialNames ==> Carries(d[k], u, name)
  {
    var objs := SceneObjects();
    var logs := ObjectLogs(attached, textures, [], objs, uninits);
    forall j | 0 <= j < |logs| ensures SingleDraw(logs[j]) {
      ObjectSingleDraw(attached, textures, [], objs[j], uninits[j]);
    }
    ConcatDrawCount(u, logs, 8);
    var d := Draws(u, Concat(logs, 8));
    forall k, name | 0 <= k < 8 && name in MaterialNames ensures Carries(d[k], u, name) {
      forall j | 0 <= j < |logs| ensures Untouched(logs[j], name) {
        SettersUntouched(attached, textures, objs[j], name);
      }
      UntouchedConcat(logs, k, name);
      var v := After(u, Concat(logs, k));
      UntouchedKeeps(u, Concat(logs, k), name);
      ConcatDrawAt(u, logs, 8, k);
      ObjectDrawn(v, attached, textures, [], objs[k], uninits[k]);
    }
  }

  /** The script pairs the draws with the texture tags ground, sky, bush and then
      stone five times, and with the material tags bottomPlane, topPlane, torus,
      box1 to box4 and prism. */
  lemma SceneScriptTags()
    ensures |SceneObjects()| == 8
    ensures seq(8, k requires 0 <= k < 8 => SceneObjects()[k].texture)
      == ["ground", "sky", "bush", "stone", "stone", "stone", "stone", "stone"]
    ensures seq(8, k requires 0 <= k < 8 => SceneObjects()[k].material)
      == ["bottomPlane", "topPlane", "torus", "box1", "box2", "box3", "box4", "prism"]
  {
  }

  /** The defined material whose tag object k of the script names. */
  function FrameMaterial(k: int): (m: ObjectMaterial)
    requires 0 <= k < 8
    ensures m in SceneMaterials() && m.tag == SceneObjects()[k].material
  {
    SceneMaterials()[[7, 6, 5, 0, 1, 2, 3, 4][k]]
  }

  /** A frame rendered after the scene is prepared with all four images
      accepted and its materials defined: the ground, sky and bush objects sample
      units 2, 3 and 1 and the five stone objects unit 0, and every object is lit
      with the material of its own tag, so nothing uninitialised reaches the
      shader. */
  lemma PreparedFrame(u: Uniforms, stone: DecodeOutcome, bush: DecodeOutcome, ground: DecodeOutcome,
                      sky: DecodeOutcome, uninits: seq<ObjectMaterial>)
    requires Accepts(stone) && Accepts(bush) && Accepts(ground) && Accepts(sky)
    requires |uninits| == 8
    ensures var textures := LoadScene([], stone, bush, ground, sky);
      var d := Draws(u, RenderEvents(true, textures, SceneMaterials(), uninits));
      |d| == 8 &&
      forall k :: 0 <= k < 8 ==>
        Sees(d[k], UseTextureName, Int(1)) &&
        Sees(d[k], TextureValueName, Sampler2D([2, 3, 1, 0, 0, 0, 0, 0][k])) &&
        SeesShading(d[k], FrameMaterial(k))
    ensures forall k :: 0 <= k < 8 ==> FrameMaterial(k).tag == SceneObjects()[k].material
  {
    var textures := LoadScene([], stone, bush, ground, sky);
    RenderedFrame(u, true, textures, SceneMaterials(), uninits);
    PreparedDraws(Draws(u, RenderEvents(true, textures, SceneMaterials(), uninits)), stone, bush, ground, sky, uninits);
  }

  lemma PreparedDraws(d: seq<DrawCall>, stone: DecodeOutcome, bush: DecodeOutcome, ground: DecodeOutcome,
                      sky: DecodeOutcome, uninits: seq<ObjectMaterial>)
    requires Accepts(stone) && Accepts(bush) && Accepts(ground) && Accepts(sky)
    requires |uninits| == 8
    requires FrameDrawnAs(d, true, LoadScene([], stone, bush, ground, sky), SceneMaterials(), uninits)
    ensures |d| == 8
    ensures forall k :: 0 <= k < 8 ==>
        Sees(d[k], UseTextureName, Int(1)) &&
        Sees(d[k], TextureValueName, Sampler2D([2, 3, 1, 0, 0, 0, 0, 0][k])) &&
        SeesShading(d[k], FrameMaterial(k))
  {
    forall k | 0 <= k < 8
      ensures Sees(d[k], UseTextureName, Int(1))
      ensures Sees(d[k], TextureValueName, Sampler2D([2, 3, 1, 0, 0, 0, 0, 0][k]))
      ensures SeesShading(d[k], FrameMaterial(k))
    {
      PreparedObject(k, stone, bush, ground, sky, uninits[k]);
    }
  }

  /** The lookups object k makes in a prepared scene: its texture tag's slot and
      the material its material tag finds. */
  lemma PreparedObject(k: int, stone: DecodeOutcome, bush: DecodeOutcome, ground: DecodeOutcome,
                       sky: DecodeOutcome, uninit: ObjectMaterial)
    requires 0 <= k < 8
    requires Accepts(stone) && Accepts(bush) && Accepts(ground) && Accepts(sky)
    ensures SlotOf(LoadScene([], stone, bush, ground, sky), SceneObjects()[k].texture) == [2, 3, 1, 0, 0, 0, 0, 0][k]
    ensures Find(SceneMaterials(), SceneObjects()[k].material, uninit) == (true, CopyShading(uninit, FrameMaterial(k)))
  {
    SceneTextureSlots(stone, bush, ground, sky);
    var j := [7, 6, 5, 0, 1, 2, 3, 4][k];
    SceneMaterialFound(j, uninit);
  }

  /** When the ground image fails to load, the objectTexture write before the
      first draw is -1: the sentinel of a missed lookup is what gets sent. */
  lemma MissingGroundTexture(u: Uniforms, stone: DecodeOutcome, bush: DecodeOutcome, ground: DecodeOutcome,
                             sky: DecodeOutcome, ms: seq<ObjectMaterial>, uninits: seq<ObjectMaterial>)
    requires !Accepts(ground)
    requires |uninits| == 8
    ensures var d := Draws(u, RenderEvents(true, LoadScene([], stone, bush, ground, sky), ms, uninits));
      |d| == 8 && Sees(d[0], TextureValueName, Sampler2D(-1))
  {
    RenderedFrame(u, true, LoadScene([], stone, bush, ground, sky), ms, uninits);
    SceneTextureSlots(stone, bush, ground, sky);
  }
}
