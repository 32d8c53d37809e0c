/**
 * The community beauty feed: like and save buttons per post, the like
 * counter, and the hashtag badges taken from each caption.
 */
module BeautyFeed {
  import opened JsString
  import opened ToggleMap

  /** A feed post, reduced to what the logic reads. */
  datatype Post = Post(id: int, caption: string, likes: int)

  /** `.filter((word) => word.startsWith("#"))`. */
  function Hashtags(words: seq<string>): (tags: seq<string>)
    ensures |tags| <= |words|
    ensures forall k :: 0 <= k < |tags| ==> StartsWith(tags[k], "#")
  {
    if words == [] then []
    else (if StartsWith(words[0], "#") then [words[0]] else []) + Hashtags(words[1..])
  }

  /** The badges under a caption: its space-separated words that start with '#'. */
  function CaptionTags(caption: string): (tags: seq<string>)
    ensures forall k :: 0 <= k < |tags| ==> StartsWith(tags[k], "#")
  {
    Hashtags(Split(caption, ' '))
  }

  /** Filtering keeps order: the tags of a concatenation are the tags of each part. */
  lemma {:induction false} HashtagsConcat(a: seq<string>, b: seq<string>)
    ensures Hashtags(a + b) == Hashtags(a) + Hashtags(b)
  {
    if a == [] {
      assert a + b == b;
    } else {
      assert (a + b)[0] == a[0] && (a + b)[1..] == a[1..] + b;
      HashtagsConcat(a[1..], b);
    }
  }

  /**
   * Every word that starts with '#' is kept as often as it occurs, and no
   * other word is kept.
   */
  lemma {:induction false} HashtagsCount(words: seq<string>, w: string)
    ensures multiset(Hashtags(words))[w] == if StartsWith(w, "#") then multiset(words)[w] else 0
  {
    if words != [] {
      assert words == [words[0]] + words[1..];
      HashtagsCount(words[1..], w);
    }
  }

  /** The tags of two captions joined by a space are the tags of the first, then of the second. */
  lemma CaptionTagsConcat(a: string, b: string)
    ensures CaptionTags(a + " " + b) == CaptionTags(a) + CaptionTags(b)
  {
    SplitConcat(a, b, ' ');
    HashtagsConcat(Split(a, ' '), Split(b, ' '));
  }

  /** The number of badges never exceeds the number of words. */
  lemma CaptionTagsBounded(caption: string)
    ensures |CaptionTags(caption)| <= |Split(caption, ' ')|
  {
  }

  /** The counter shown on a post's heart button. */
  function PostLikes(post: Post, liked: Flags): (n: int)
    ensures Truthy(liked, post.id) ==> n == post.likes + 1
    ensures !Truthy(liked, post.id) ==> n == post.likes
  {
    DisplayedLikes(post.likes, Truthy(liked, post.id))
  }

  class BeautyFeed {
    var liked: Flags
    var saved: Flags

    constructor ()
      ensures liked == map[] && saved == map[]
    {
      liked := map[];
      saved := map[];
    }

    /** toggleLike: only `id`'s like flips; the saved flags are untouched. */
    method ToggleLike(id: int)
      modifies this
      ensures liked == Toggle(old(liked), id) && saved == old(saved)
    {
      liked := Toggle(liked, id);
    }

    /** toggleSave: only `id`'s bookmark flips; the like flags are untouched. */
    method ToggleSave(id: int)
      modifies this
      ensures saved == Toggle(old(saved), id) && liked == old(liked)
    {
      saved := Toggle(saved, id);
    }
  }
}
