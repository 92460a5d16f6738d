/** The material registry: the record type, what FindMaterial leaves in its
    output parameter and reports, and the eight materials the scene defines. */
module Materials {
  import opened Lookup
  import opened Sink

  /** One material: colours and strengths as written in the source, and its tag. */
  datatype ObjectMaterial = ObjectMaterial(
    ambientColor: Vec3, ambientStrength: real, diffuseColor: Vec3,
    specularColor: Vec3, shininess: real, tag: string)

  /** The tags of the material list, in order. The texture registry has the same
      projection over its own entry type, Textures.Tags. */
  function Tags(ms: seq<ObjectMaterial>): (r: seq<string>)
    ensures |r| == |ms| && forall i :: 0 <= i < |ms| ==> r[i] == ms[i].tag
  {
    seq(|ms|, i requires 0 <= i < |ms| => ms[i].tag)
  }

  /** `out` with the five shading fields of `src` copied into it; the tag is not copied. */
  function CopyShading(out: ObjectMaterial, src: ObjectMaterial): ObjectMaterial
  {
    out.(ambientColor := src.ambientColor, ambientStrength := src.ambientStrength,
         diffuseColor := src.diffuseColor, specularColor := src.specularColor,
         shininess := src.shininess)
  }

  /** The five shading fields of a and b agree. */
  predicate SameShading(a: ObjectMaterial, b: ObjectMaterial)
  {
    a.ambientColor == b.ambientColor && a.ambientStrength == b.ambientStrength &&
    a.diffuseColor == b.diffuseColor && a.specularColor == b.specularColor &&
    a.shininess == b.shininess
  }

  /** What FindMaterial reports, and what its output parameter holds afterwards,
      when it is called with `out` in that parameter. It reports failure only for
      an empty list: a miss on a non-empty list still reports success, with the
      output untouched. */
  function Find(ms: seq<ObjectMaterial>, tag: string, out: ObjectMaterial): (r: (bool, ObjectMaterial))
    ensures r.0 <==> |ms| > 0
    ensures r.1.tag == out.tag
    ensures tag !in Tags(ms) ==> r.1 == out
    ensures forall k :: 0 <= k < |ms| && ms[k].tag == tag && (forall j :: 0 <= j < k ==> ms[j].tag != tag) ==>
      SameShading(r.1, ms[k])
  {
    if |ms| == 0 then (false, out)
    else
      var k := FirstIndex(Tags(ms), tag);
      (true, if k < 0 then out else CopyShading(out, ms[k]))
  }

  // The eight materials of the scene, in the order they are defined.
  const Box1Material := ObjectMaterial(Vec3(0.1, 0.1, 0.1), 0.1, Vec3(0.6, 0.5, 0.4), Vec3(0.2, 0.3, 0.4), 0.5, "box1")
  const Box2Material := ObjectMaterial(Vec3(0.1, 0.1, 0.1), 0.1, Vec3(0.6, 0.5, 0.4), Vec3(0.2, 0.3, 0.4), 0.5, "box2")
  const Box3Material := ObjectMaterial(Vec3(0.1, 0.1, 0.1), 0.1, Vec3(0.6, 0.5, 0.4), Vec3(0.2, 0.3, 0.4), 0.5, "box3")
  const Box4Material := ObjectMaterial(Vec3(0.1, 0.1, 0.1), 0.1, Vec3(0.6, 0.5, 0.4), Vec3(0.2, 0.3, 0.4), 0.5, "box4")
  const PrismMaterial := ObjectMaterial(Vec3(0.1, 0.1, 0.1), 0.1, Vec3(0.8, 0.7, 0.5), Vec3(0.2, 0.3, 0.4), 0.5, "prism")
  const TorusMaterial := ObjectMaterial(Vec3(0.1, 0.1, 0.1), 0.1, Vec3(0.3, 0.7, 0.5), Vec3(0.2, 0.3, 0.4), 0.7, "torus")
  const TopPlaneMaterial := ObjectMaterial(Vec3(0.1, 0.1, 0.1), 0.1, Vec3(0.9, 0.9, 0.9), Vec3(0.5, 0.5, 0.5), 0.8, "topPlane")
  const BottomPlaneMaterial := ObjectMaterial(Vec3(0.1, 0.1, 0.1), 0.1, Vec3(0.3, 0.3, 0.3), Vec3(0.5, 0.5, 0.5), 0.3, "bottomPlane")

  function SceneMaterials(): seq<ObjectMaterial>
  {
    [Box1Material, Box2Material, Box3Material, Box4Material,
     PrismMaterial, TorusMaterial, TopPlaneMaterial, BottomPlaneMaterial]
  }

  /** The scene defines eight materials whose tags are pairwise distinct, in the
      order box1, box2, box3, box4, prism, torus, topPlane, bottomPlane. */
  lemma SceneMaterialTags()
    ensures Tags(SceneMaterials()) == ["box1", "box2", "box3", "box4", "prism", "torus", "topPlane", "bottomPlane"]
    ensures forall i, j :: 0 <= i < j < 8 ==> Tags(SceneMaterials())[i] != Tags(SceneMaterials())[j]
  {
    var t := Tags(SceneMaterials());
    assert t == ["box1", "box2", "box3", "box4", "prism", "torus", "topPlane", "bottomPlane"];
    // each tag differs from every other in its length or in one character
    assert t[0][3] == '1' && t[1][3] == '2' && t[2][3] == '3' && t[3][3] == '4';
    assert |t[0]| == |t[1]| == |t[2]| == |t[3]| == 4;
    assert |t[4]| == |t[5]| == 5 && t[4][0] == 'p' && t[5][0] == 't';
    assert |t[6]| == 8 && |t[7]| == 11;
  }

  /** After the scene's materials are defined in an empty list, looking up the
      tag of the k-th one finds it: success, and its five shading fields in the
      output, whatever the output held before. */
  lemma SceneMaterialFound(k: int, out: ObjectMaterial)
    requires 0 <= k < 8
    ensures Find(SceneMaterials(), SceneMaterials()[k].tag, out) == (true, CopyShading(out, SceneMaterials()[k]))
  {
    SceneMaterialTags();
    var t := Tags(SceneMaterials());
    assert FirstIndex(t, t[k]) == k;
  }

  /** The box1 lookup yields the literal values the scene gives box1. */
  lemma Box1Lookup(out: ObjectMaterial)
    ensures var r := Find(SceneMaterials(), "box1", out);
      r.0 && r.1.ambientColor == Vec3(0.1, 0.1, 0.1) && r.1.ambientStrength == 0.1 &&
      r.1.diffuseColor == Vec3(0.6, 0.5, 0.4) && r.1.specularColor == Vec3(0.2, 0.3, 0.4) &&
      r.1.shininess == 0.5
  {
    SceneMaterialFound(0, out);
  }
}
