/** The texture registry's abstract contents and what its operations mean:
    registration after a decode, the first-match lookups of slot and id, and the
    binding of every entry to the texture unit of the same number. */
module Textures {
  import opened Lookup
  import opened Sink

  /** The number of entries the registry array holds (one per texture unit). */
  const MaxTextureUnits := 16

  /** An OpenGL texture name: an unsigned 32-bit integer. */
  type GLuint = x: int | 0 <= x < 0x1_0000_0000

  /** One registry entry: the GL texture and the tag it is looked up by. */
  datatype TextureEntry = TextureEntry(id: GLuint, tag: string)

  /** What decoding the image file and creating the GL texture produced: either
      the image could not be read, or it was read with `channels` colour
      channels and GL named the new texture `id`. */
  datatype DecodeOutcome = Failed | Decoded(channels: int, id: GLuint)

  /** Only RGB (3 channels) and RGBA (4 channels) images are uploaded. */
  predicate Accepts(d: DecodeOutcome)
  {
    d.Decoded? && (d.channels == 3 || d.channels == 4)
  }

  /** The registry after one CreateGLTexture call. */
  function Register(s: seq<TextureEntry>, d: DecodeOutcome, tag: string): seq<TextureEntry>
  {
    if Accepts(d) then s + [TextureEntry(d.id, tag)] else s
  }

  /** The four textures the scene loads, in load order. */
  function LoadScene(s: seq<TextureEntry>, stone: DecodeOutcome, bush: DecodeOutcome,
                     ground: DecodeOutcome, sky: DecodeOutcome): seq<TextureEntry>
  {
    Register(Register(Register(Register(s, stone, "stone"), bush, "bush"), ground, "ground"), sky, "sky")
  }

  /** The tags of the registered entries, in slot order; Materials.Tags is the
      same projection over material records. */
  function Tags(s: seq<TextureEntry>): (r: seq<string>)
    ensures |r| == |s| && forall i :: 0 <= i < |s| ==> r[i] == s[i].tag
  {
    seq(|s|, i requires 0 <= i < |s| => s[i].tag)
  }

  /** The slot (texture unit) of the first entry tagged `tag`, or -1. */
  function SlotOf(s: seq<TextureEntry>, tag: string): int
  {
    FirstIndex(Tags(s), tag)
  }

  /** The GLuint-to-int conversion of a texture name returned as int: names of
      2^31 and above come back negative. */
  function AsInt(id: GLuint): int
  {
    if id < 0x8000_0000 then id else id - 0x1_0000_0000
  }

  /** The id of the first entry tagged `tag`, read as int, or -1. */
  function IdOf(s: seq<TextureEntry>, tag: string): int
  {
    var k := SlotOf(s, tag);
    if k < 0 then -1 else AsInt(s[k].id)
  }

  /** The texture-unit bindings of BindGLTextures: entry i on unit i, in order. */
  function Bindings(s: seq<TextureEntry>): seq<Event>
    decreases |s|
  {
    if s == [] then []
    else Bindings(s[..|s| - 1]) + [BindTexture(|s| - 1, s[|s| - 1].id)]
  }

  /** A lookup after one registration: an existing first match stays the first
      match; otherwise the tag is found at the new slot exactly when the image was
      accepted under that tag; every other tag is unaffected. */
  lemma SlotAfterRegister(s: seq<TextureEntry>, d: DecodeOutcome, tag: string, query: string)
    ensures SlotOf(Register(s, d, tag), query) ==
      if SlotOf(s, query) >= 0 then SlotOf(s, query)
      else if Accepts(d) && tag == query then |s|
      else -1
  {
    if Accepts(d) {
      assert Tags(s + [TextureEntry(d.id, tag)]) == Tags(s) + [tag];
      FirstIndexSnoc(Tags(s), tag, query);
    }
  }

  /** Registering a decoded RGB or RGBA image under a new tag makes both lookups
      of that tag hit the new entry; any other outcome leaves the tag missing. */
  lemma LoadThenFind(s: seq<TextureEntry>, d: DecodeOutcome, tag: string)
    requires tag !in Tags(s)
    ensures Accepts(d) ==> SlotOf(Register(s, d, tag), tag) == |s| && IdOf(Register(s, d, tag), tag) == AsInt(d.id)
    ensures !Accepts(d) ==> SlotOf(Register(s, d, tag), tag) == -1 && IdOf(Register(s, d, tag), tag) == -1
  {
    SlotAfterRegister(s, d, tag, tag);
  }

  /** -1 from the id lookup is a miss, except for the texture name 0xFFFFFFFF,
      which reads back as -1 too. */
  lemma IdSentinel(s: seq<TextureEntry>, tag: string)
    ensures IdOf(s, tag) == -1 <==> SlotOf(s, tag) == -1 || s[SlotOf(s, tag)].id == 0xFFFF_FFFF
    ensures SlotOf(s, tag) >= 0 && s[SlotOf(s, tag)].id < 0x8000_0000 ==> IdOf(s, tag) == s[SlotOf(s, tag)].id
  {
  }

  /** Loading the scene's four textures into an empty registry: a tag can be
      found exactly when its image was accepted, and when all four are accepted
      they sit on units 0 to 3 in load order. */
  lemma SceneTextureSlots(stone: DecodeOutcome, bush: DecodeOutcome, ground: DecodeOutcome, sky: DecodeOutcome)
    ensures var s := LoadScene([], stone, bush, ground, sky);
      (SlotOf(s, "stone") >= 0 <==> Accepts(stone)) &&
      (SlotOf(s, "bush") >= 0 <==> Accepts(bush)) &&
      (SlotOf(s, "ground") >= 0 <==> Accepts(ground)) &&
      (SlotOf(s, "sky") >= 0 <==> Accepts(sky))
    ensures Accepts(stone) && Accepts(bush) && Accepts(ground) && Accepts(sky) ==>
      var s := LoadScene([], stone, bush, ground, sky);
      SlotOf(s, "stone") == 0 && SlotOf(s, "bush") == 1 && SlotOf(s, "ground") == 2 && SlotOf(s, "sky") == 3 &&
      IdOf(s, "ground") == AsInt(ground.id)
  {
    var s0: seq<TextureEntry> := [];
    var s1 := Register(s0, stone, "stone");
    var s2 := Register(s1, bush, "bush");
    var s3 := Register(s2, ground, "ground");
    SceneSlot(s0, stone, bush, ground, sky, "stone");
    SceneSlot(s0, stone, bush, ground, sky, "bush");
    SceneSlot(s0, stone, bush, ground, sky, "ground");
    SceneSlot(s0, stone, bush, ground, sky, "sky");
    assert |s1| == if Accepts(stone) then 1 else 0;
    assert |s2| == |s1| + if Accepts(bush) then 1 else 0;
    assert |s3| == |s2| + if Accepts(ground) then 1 else 0;
  }

  /** One lookup after LoadScene, unfolded into its four registrations. */
  lemma SceneSlot(s0: seq<TextureEntry>, stone: DecodeOutcome, bush: DecodeOutcome,
                  ground: DecodeOutcome, sky: DecodeOutcome, q: string)
    ensures var s1 := Register(s0, stone, "stone");
      var s2 := Register(s1, bush, "bush");
      var s3 := Register(s2, ground, "ground");
      var s4 := LoadScene(s0, stone, bush, ground, sky);
      SlotOf(s4, q) ==
        if SlotOf(s0, q) >= 0 then SlotOf(s0, q)
        else if Accepts(stone) && q == "stone" then |s0|
        else if Accepts(bush) && q == "bush" then |s1|
        else if Accepts(ground) && q == "ground" then |s2|
        else if Accepts(sky) && q == "sky" then |s3|
        else -1
  {
    var s1 := Register(s0, stone, "stone");
    var s2 := Register(s1, bush, "bush");
    var s3 := Register(s2, ground, "ground");
    SlotAfterRegister(s0, stone, "stone", q);
    SlotAfterRegister(s1, bush, "bush", q);
    SlotAfterRegister(s2, ground, "ground", q);
    SlotAfterRegister(s3, sky, "sky", q);
  }

  /** BindGLTextures leaves every registered entry bound on the unit of its own
      index, whatever was bound before. */
  lemma {:induction false} BindingsBindEachEntry(s: seq<TextureEntry>)
    ensures |Bindings(s)| == |s|
    ensures BoundUnits(Bindings(s)) == map i | 0 <= i < |s| :: s[i].id as int
    decreases |s|
  {
    if s != [] {
      var n := |s| - 1;
      BindingsBindEachEntry(s[..n]);
      assert Bindings(s)[..|Bindings(s)| - 1] == Bindings(s[..n]);
    }
  }

  /** The unit the slot lookup returns for a registered tag is the unit on which
      BindGLTextures bound that entry, and the id bound there is the one the id
      lookup reports: the sampler index the shader receives designates the
      texture the tag names. */
  lemma SlotDesignatesBoundTexture(before: seq<Event>, s: seq<TextureEntry>, tag: string)
    requires SlotOf(s, tag) >= 0
    ensures var k := SlotOf(s, tag);
      var units := BoundUnits(before + Bindings(s));
      k in units && units[k] == s[k].id && s[k].tag == tag && IdOf(s, tag) == AsInt(units[k])
  {
    BoundUnitsAppend(before, Bindings(s));
    BindingsBindEachEntry(s);
  }
}
