/** The trending-looks grid: a like button per look and its hashtag badges. */
module TrendingLooks {
  import opened JsString
  import opened ToggleMap

  /** A trending look, reduced to what the logic reads. */
  datatype Look = Look(id: int, likes: int, tags: seq<string>)

  /** A badge: the tag behind a '#'. */
  function TagLabel(tag: string): (badge: string)
    ensures StartsWith(badge, "#") && |badge| == |tag| + 1 && badge[1..] == tag
  {
    "#" + tag
  }

  function TagLabels(tags: seq<string>): (badges: seq<string>)
    ensures |badges| == |tags|
    ensures forall k :: 0 <= k < |tags| ==> badges[k] == TagLabel(tags[k])
  {
    seq(|tags|, k requires 0 <= k < |tags| => TagLabel(tags[k]))
  }

  /** Different tags give different badges. */
  lemma TagLabelInjective(a: string, b: string)
    requires TagLabel(a) == TagLabel(b)
    ensures a == b
  {
    assert a == TagLabel(a)[1..];
  }

  /** The counter shown on a look's heart button. */
  function LookLikes(look: Look, liked: Flags): (n: int)
    ensures n == look.likes + 1 <==> Truthy(liked, look.id)
    ensures n == look.likes <==> !Truthy(liked, look.id)
  {
    DisplayedLikes(look.likes, Truthy(liked, look.id))
  }

  class TrendingLooks {
    var liked: Flags

    constructor ()
      ensures liked == map[]
    {
      liked := map[];
    }

    /** toggleLike: only `id`'s like flips. */
    method ToggleLike(id: int)
      modifies this
      ensures liked == Toggle(old(liked), id)
    {
      liked := Toggle(liked, id);
    }
  }
}
