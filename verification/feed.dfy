/** The feed: every stored post that carries a creation time, newest first,
    each handed to a card with missing like and comment lists defaulted. */
module Feed {
  import opened Wrappers
  import opened Seqs
  import Post

  /** A post document as the feed reads it from the store. The store does
      not enforce a schema, so the creation time and the lists may be
      missing; `imageUrl` is optional in the post type itself. */
  datatype PostDoc = PostDoc(
    id: string,
    userId: string,
    userName: string,
    userImage: string,
    content: string,
    imageUrl: Option<string>,
    likes: Option<seq<string>>,
    comments: Option<seq<Post.Comment>>,
    createdAt: Option<int>)

  /** What the feed hands one card. */
  datatype CardProps = CardProps(
    id: string,
    userId: string,
    userName: string,
    userImage: string,
    content: string,
    imageUrl: Option<string>,
    likes: seq<string>,
    comments: seq<Post.Comment>,
    createdAt: int)

  /** The feed's state: the posts it shows and whether it is still loading. */
  datatype FeedState = FeedState(posts: seq<PostDoc>, loading: bool)

  /** Before the fetch settles: no posts, loading. */
  const Initial := FeedState([], true)

  predicate AllDated(ps: seq<PostDoc>) {
    forall i :: 0 <= i < |ps| ==> ps[i].createdAt.Some?
  }

  /** Every post carries a creation time, and no post is older than one after it. */
  predicate NewestFirst(ps: seq<PostDoc>) {
    && AllDated(ps)
    && forall i, j :: 0 <= i < j < |ps| ==> ps[i].createdAt.value >= ps[j].createdAt.value
  }

  /** `filter(post => 'createdAt' in post)`: the posts that carry a creation
      time, in their stored order, each as often as it was stored. */
  function Dated(ps: seq<PostDoc>): (r: seq<PostDoc>)
    ensures AllDated(r)
    ensures SubsequenceOf(r, ps)
    ensures forall p :: multiset(r)[p] == if p.createdAt.Some? then multiset(ps)[p] else 0
  {
    if ps == [] then []
    else
      assert ps == [ps[0]] + ps[1..];
      var rest := Dated(ps[1..]);
      if ps[0].createdAt.Some? then
        assert ([ps[0]] + rest)[1..] == rest;
        [ps[0]] + rest
      else rest
  }

  /** Places a dated post into a newest-first list, ahead of every post no
      newer than it. */
  function Insert(p: PostDoc, ps: seq<PostDoc>): (r: seq<PostDoc>)
    requires p.createdAt.Some? && NewestFirst(ps)
    ensures NewestFirst(r)
    ensures multiset(r) == multiset(ps) + multiset{p}
    ensures r[0] == p || (ps != [] && r[0] == ps[0])
  {
    if ps == [] || p.createdAt.value >= ps[0].createdAt.value then
      ConsNewest(p, ps);
      [p] + ps
    else
      assert ps == [ps[0]] + ps[1..];
      var rest := Insert(p, ps[1..]);
      ConsNewest(ps[0], rest);
      [ps[0]] + rest
  }

  /** A dated post no older than the head of a newest-first list can go in front of it. */
  lemma ConsNewest(p: PostDoc, ps: seq<PostDoc>)
    requires p.createdAt.Some? && NewestFirst(ps)
    requires ps != [] ==> p.createdAt.value >= ps[0].createdAt.value
    ensures NewestFirst([p] + ps)
  {
    var r := [p] + ps;
    forall i, j | 0 <= i < j < |r|
      ensures r[i].createdAt.value >= r[j].createdAt.value
    {
      if i == 0 {
        assert r[j] == ps[j - 1];
      } else {
        assert r[i] == ps[i - 1] && r[j] == ps[j - 1];
      }
    }
  }

  /** `sort((a, b) => b.createdAt - a.createdAt)` over dated posts: the same
      posts, newest first. Each post goes ahead of the equally old posts
      stored after it, so ties keep their stored order. */
  function SortNewestFirst(ps: seq<PostDoc>): (r: seq<PostDoc>)
    requires AllDated(ps)
    ensures NewestFirst(r)
    ensures multiset(r) == multiset(ps)
  {
    if ps == [] then []
    else
      assert ps == [ps[0]] + ps[1..];
      Insert(ps[0], SortNewestFirst(ps[1..]))
  }

  /** `fetchPosts`: a resolved fetch shows the dated posts newest first; a
      rejected one leaves the list empty. Either way loading ends. */
  function Fetch(fetched: Settled<seq<PostDoc>>): (r: FeedState)
    ensures !r.loading
    ensures fetched.Rejected? ==> r.posts == []
    ensures fetched.Resolved? ==> NewestFirst(r.posts)
    ensures fetched.Resolved? ==>
      forall p :: multiset(r.posts)[p] == if p.createdAt.Some? then multiset(fetched.value)[p] else 0
  {
    match fetched
    case Resolved(docs) => FeedState(SortNewestFirst(Dated(docs)), false)
    case Rejected => FeedState([], false)
  }

  /** The props one card receives: the stored lists, or empty ones where
      the document has none; every other field as stored. */
  function ToProps(p: PostDoc): (r: CardProps)
    requires p.createdAt.Some?
    ensures r.likes == p.likes.GetOr([]) && r.comments == p.comments.GetOr([])
    ensures p.likes.None? ==> r.likes == []
    ensures p.comments.None? ==> r.comments == []
    ensures (r.id, r.userId, r.userName, r.userImage, r.content, r.imageUrl, Some(r.createdAt))
         == (p.id, p.userId, p.userName, p.userImage, p.content, p.imageUrl, p.createdAt)
  {
    CardProps(p.id, p.userId, p.userName, p.userImage, p.content, p.imageUrl,
              p.likes.GetOr([]), p.comments.GetOr([]), p.createdAt.value)
  }

  /** `posts.map(post => <Post ... />)`: one card per shown post, in order. */
  function Render(ps: seq<PostDoc>): (r: seq<CardProps>)
    requires AllDated(ps)
    ensures |r| == |ps|
    ensures forall i :: 0 <= i < |ps| ==> r[i] == ToProps(ps[i])
  {
    seq(|ps|, i requires 0 <= i < |ps| => ToProps(ps[i]))
  }

  /** Posts stored with creation times 100, 300 and 200 are shown in the
      order 300, 200, 100. */
  lemma NewestFirstExample(a: PostDoc, b: PostDoc, c: PostDoc)
    requires a.createdAt == Some(100) && b.createdAt == Some(300) && c.createdAt == Some(200)
    ensures Fetch(Resolved([a, b, c])).posts == [b, c, a]
  {
    DatedKeepsDated(a, b, c);
    SortExample(a, b, c);
  }

  lemma DatedKeepsDated(a: PostDoc, b: PostDoc, c: PostDoc)
    requires a.createdAt.Some? && b.createdAt.Some? && c.createdAt.Some?
    ensures Dated([a, b, c]) == [a, b, c]
  {
    assert [a, b, c][1..] == [b, c];
    assert [b, c][1..] == [c];
    assert [c][1..] == [];
    assert Dated([]) == [];
    assert Dated([c]) == [c] + Dated([]);
    assert Dated([b, c]) == [b] + Dated([c]);
    assert Dated([a, b, c]) == [a] + Dated([b, c]);
  }

  lemma SortExample(a: PostDoc, b: PostDoc, c: PostDoc)
    requires a.createdAt == Some(100) && b.createdAt == Some(300) && c.createdAt == Some(200)
    ensures SortNewestFirst([a, b, c]) == [b, c, a]
  {
  }

  lemma SortOne(c: PostDoc)
    requires c.createdAt.Some?
    ensures SortNewestFirst([c]) == [c]
  {
    assert [c][1..] == [];
  }

  lemma InsertAhead(p: PostDoc, ps: seq<PostDoc>)
    requires p.createdAt.Some? && NewestFirst(ps)
    requires ps != [] ==> p.createdAt.value >= ps[0].createdAt.value
    ensures Insert(p, ps) == [p] + ps
  {
  }

  lemma InsertBehind(p: PostDoc, ps: seq<PostDoc>)
    requires p.createdAt.Some? && NewestFirst(ps)
    requires ps != [] && p.createdAt.value < ps[0].createdAt.value
    ensures Insert(p, ps) == [ps[0]] + Insert(p, ps[1..])
  {
  }

  /** A post without a creation time is never shown. */
  lemma UndatedNeverShown(docs: seq<PostDoc>, p: PostDoc)
    requires p.createdAt.None?
    ensures p !in Fetch(Resolved(docs)).posts
  {
  }
}
