/**
 * The per-card flags of the feed and the trending looks: a
 * `Record<number, boolean>` that starts empty and is updated with
 * `{ ...prev, [id]: !prev[id] }`. A missing id reads as undefined, which is
 * falsy, so its first toggle sets it to true.
 */
module ToggleMap {
  type Flags = map<int, bool>

  /** `flags[id]` in a boolean position. */
  predicate Truthy(flags: Flags, id: int)
  {
    id in flags && flags[id]
  }

  function Toggle(flags: Flags, id: int): (r: Flags)
    ensures Truthy(r, id) == !Truthy(flags, id)
    ensures r.Keys == flags.Keys + {id}
  {
    flags[id := !Truthy(flags, id)]
  }

  /** Toggling one id leaves every other id as it was. */
  lemma ToggleIsolated(flags: Flags, id: int, other: int)
    requires other != id
    ensures Truthy(Toggle(flags, id), other) == Truthy(flags, other)
    ensures other in Toggle(flags, id) <==> other in flags
  {
  }

  /**
   * Toggling twice restores every id's truthiness; the map itself keeps the
   * id afterwards, as `false` where it was missing.
   */
  lemma ToggleTwice(flags: Flags, id: int, k: int)
    ensures Truthy(Toggle(Toggle(flags, id), id), k) == Truthy(flags, k)
    ensures Toggle(Toggle(flags, id), id) == flags[id := Truthy(flags, id)]
  {
  }

  /** The like counter: one more than the stored count while liked. */
  function DisplayedLikes(likes: int, liked: bool): (n: int)
    ensures liked <==> n == likes + 1
    ensures !liked <==> n == likes
  {
    if liked then likes + 1 else likes
  }

  /** Each click on the heart moves the displayed count by exactly one. */
  lemma ToggleMovesLikesByOne(flags: Flags, id: int, likes: int)
    ensures var before := DisplayedLikes(likes, Truthy(flags, id));
      var after := DisplayedLikes(likes, Truthy(Toggle(flags, id), id));
      after == before + 1 || after == before - 1
    ensures DisplayedLikes(likes, Truthy(Toggle(flags, id), id)) == likes + 1 <==> !Truthy(flags, id)
  {
  }
}
