/** A post card's two mutations: toggling the signed-in user's like and
    appending a comment. Both update the card's local lists first and then
    write the whole new list back to the post document. */
module Post {
  import opened Wrappers
  import opened Auth
  import opened Seqs
  import Text

  /** A comment embedded in a post's comment list. */
  datatype Comment = Comment(id: string, userId: string, userName: string, content: string, createdAt: int)

  /** The card's local state: its like list, its comment list and the
      comment being typed. */
  datatype Card = Card(likes: seq<string>, comments: seq<Comment>, draft: string)

  /** What a handler leaves behind: the card's new local state, and the list
      it writes to the post document, if it writes one. */
  datatype Effect<W> = Effect(card: Card, write: Option<W>)

  /** `xs.includes(x)`. */
  function Includes(xs: seq<string>, x: string): (r: bool)
    ensures r <==> x in xs
  {
    if xs == [] then false else xs[0] == x || Includes(xs[1..], x)
  }

  /** `isLiked`: whether the heart is drawn filled. */
  function IsLiked(user: Option<User>, likes: seq<string>): (r: bool)
    ensures r <==> user.Some? && user.value.uid in likes
  {
    match user
    case None => false
    case Some(u) => Includes(likes, u.uid)
  }

  /** `likes.filter(id => id !== uid)`: the ids other than `uid`, in their
      original order. */
  function Without(likes: seq<string>, uid: string): (r: seq<string>)
    ensures SubsequenceOf(r, likes)
    ensures multiset(r) == multiset(likes)[uid := 0]
    ensures forall x :: x in r <==> x in likes && x != uid
  {
    if likes == [] then []
    else
      assert likes == [likes[0]] + likes[1..];
      if likes[0] == uid then Without(likes[1..], uid)
      else
        var rest := Without(likes[1..], uid);
        assert ([likes[0]] + rest)[1..] == rest;
        [likes[0]] + rest
  }

  /** Filtering distributes over concatenation. */
  lemma {:induction false} WithoutAppend(a: seq<string>, b: seq<string>, uid: string)
    ensures Without(a + b, uid) == Without(a, uid) + Without(b, uid)
    decreases |a|
  {
    if a == [] {
      assert a + b == b;
    } else {
      assert (a + b)[0] == a[0];
      assert (a + b)[1..] == a[1..] + b;
      WithoutAppend(a[1..], b, uid);
    }
  }

  /** Filtering out an id that does not occur changes nothing. */
  lemma {:induction false} WithoutAbsent(likes: seq<string>, uid: string)
    requires uid !in likes
    ensures Without(likes, uid) == likes
    decreases |likes|
  {
    if likes != [] {
      assert likes == [likes[0]] + likes[1..];
      WithoutAbsent(likes[1..], uid);
    }
  }

  /** `handleLike`. With no signed-in user nothing changes and nothing is
      written. Otherwise the uid is appended when the card does not show it
      liked, and every occurrence of it is removed when it does; no other
      id's membership changes, and the written list is the new local one. */
  function ToggleLike(user: Option<User>, card: Card): (r: Effect<seq<string>>)
    ensures user.None? ==> r == Effect(card, None)
    ensures r.card.comments == card.comments && r.card.draft == card.draft
    ensures user.Some? ==> r.write == Some(r.card.likes)
    ensures user.Some? ==> (user.value.uid in r.card.likes <==> user.value.uid !in card.likes)
    ensures user.Some? ==> forall x :: x != user.value.uid ==> (x in r.card.likes <==> x in card.likes)
    ensures user.Some? && user.value.uid !in card.likes ==>
      r.card.likes == card.likes + [user.value.uid]
    ensures user.Some? && user.value.uid in card.likes ==>
      SubsequenceOf(r.card.likes, card.likes) && multiset(r.card.likes) == multiset(card.likes)[user.value.uid := 0]
  {
    match user
    case None => Effect(card, None)
    case Some(u) =>
      var updated := if IsLiked(user, card.likes) then Without(card.likes, u.uid) else card.likes + [u.uid];
      Effect(card.(likes := updated), Some(updated))
  }

  /** Toggling twice from a list without the uid gives back that list. */
  lemma ToggleTwiceRestores(u: User, card: Card)
    requires u.uid !in card.likes
    ensures ToggleLike(Some(u), ToggleLike(Some(u), card).card) == Effect(card, Some(card.likes))
  {
    var once := ToggleLike(Some(u), card).card;
    assert once.likes == card.likes + [u.uid];
    WithoutAppend(card.likes, [u.uid], u.uid);
    WithoutAbsent(card.likes, u.uid);
    assert Without([u.uid], u.uid) == [];
  }

  /** Toggling twice from a list with the uid restores the like, but the uid
      now occurs exactly once, at the end, after the other ids in their order. */
  lemma ToggleTwiceMovesToEnd(u: User, card: Card)
    requires u.uid in card.likes
    ensures var r := ToggleLike(Some(u), ToggleLike(Some(u), card).card).card.likes;
      && r == Without(card.likes, u.uid) + [u.uid]
      && r[|r| - 1] == u.uid
      && multiset(r)[u.uid] == 1
  {
  }

  /** `handleAddComment`. With no signed-in user, or a draft that is blank
      once trimmed, nothing changes and nothing is written. Otherwise one
      comment is appended after the existing ones, carrying the untrimmed
      draft, the user's uid, their name or "Anonymous", the clock readings
      `idTime` (as its decimal id) and `now`; the draft is cleared and the
      written list is the new local one. */
  function AddComment(user: Option<User>, card: Card, idTime: nat, now: int): (r: Effect<seq<Comment>>)
    ensures user.None? || Text.IsBlank(card.draft) ==> r == Effect(card, None)
    ensures user.Some? && !Text.IsBlank(card.draft) ==>
      && |r.card.comments| == |card.comments| + 1
      && r.card.comments[..|card.comments|] == card.comments
      && r.card.comments[|card.comments|] == Comment(
           Text.Decimal(idTime), user.value.uid, OrElse(user.value.displayName, "Anonymous"), card.draft, now)
      && r.card.likes == card.likes
      && r.card.draft == ""
      && r.write == Some(r.card.comments)
  {
    if user.None? || Text.IsBlank(card.draft) then Effect(card, None)
    else
      var u := user.value;
      var comment := Comment(Text.Decimal(idTime), u.uid, OrElse(u.displayName, "Anonymous"), card.draft, now);
      var updated := card.comments + [comment];
      Effect(Card(card.likes, updated, ""), Some(updated))
  }

  /** Two comments added one after the other follow the existing ones in
      the order they were added. */
  lemma AddCommentKeepsOrder(u: User, card: Card, second: string, t1: nat, n1: int, t2: nat, n2: int)
    requires !Text.IsBlank(card.draft) && !Text.IsBlank(second)
    ensures var c1 := AddComment(Some(u), card, t1, n1).card;
      var c2 := AddComment(Some(u), c1.(draft := second), t2, n2).card;
      var name := OrElse(u.displayName, "Anonymous");
      c2.comments == card.comments + [Comment(Text.Decimal(t1), u.uid, name, card.draft, n1),
                                      Comment(Text.Decimal(t2), u.uid, name, second, n2)]
  {
  }
}
