/** The first-match linear scan both registries use to look a tag up. */
module Lookup {

  /** The position of the first tag equal to `tag`, or -1 when there is none. */
  function FirstIndex(tags: seq<string>, tag: string): (r: int)
    ensures -1 <= r < |tags|
    ensures r >= 0 ==> tags[r] == tag
    ensures forall j :: 0 <= j < |tags| && (r < 0 || j < r) ==> tags[j] != tag
    ensures r < 0 <==> tag !in tags
  {
    if tags == [] then -1
    else if tags[0] == tag then 0
    else
      var r := FirstIndex(tags[1..], tag);
      if r < 0 then -1 else r + 1
  }

  /** Appending a tag never moves an existing hit; it can only turn a miss on
      that very tag into a hit at the new position. */
  lemma {:induction false} FirstIndexSnoc(tags: seq<string>, added: string, tag: string)
    ensures FirstIndex(tags + [added], tag) ==
      if FirstIndex(tags, tag) >= 0 then FirstIndex(tags, tag)
      else if added == tag then |tags|
      else -1
  {
    var r0, r1 := FirstIndex(tags, tag), FirstIndex(tags + [added], tag);
    if r0 >= 0 {
      assert (tags + [added])[r0] == tag;
    } else if added == tag {
      assert (tags + [added])[|tags|] == tag;
    } else {
      forall j | 0 <= j < |tags + [added]|
        ensures (tags + [added])[j] != tag
      {
        if j < |tags| { assert (tags + [added])[j] == tags[j]; }
      }
    }
  }
}
