/** The post-creation form: its submit guard, the disabled state of its
    button, and the post record it writes after an optional image upload. */
module CreatePost {
  import opened Wrappers
  import opened Auth
  import Text
  import Uploads
  import Post
  import Feed

  /** The form's state: the text, the picked image and whether a submission
      is in flight. */
  datatype Form = Form(content: string, image: Option<Uploads.ImageFile>, submitting: bool)

  /** The record handed to the store's `addDocument("posts", ...)`. */
  datatype NewPost = NewPost(
    userId: string,
    userName: string,
    userImage: string,
    content: string,
    imageUrl: string,
    likes: seq<string>,
    comments: seq<Post.Comment>,
    createdAt: int)

  /** What a submission did: the form afterwards, the upload path it used,
      the record it handed to the store, and whether it went to the feed. */
  datatype Submission = Submission(form: Form, uploadPath: Option<string>, record: Option<NewPost>, navigated: bool)

  /** Nothing to post: the text is blank once trimmed and no image is picked. */
  predicate NothingToPost(f: Form) {
    Text.IsBlank(f.content) && f.image.None?
  }

  /** `disabled={isSubmitting || (!content.trim() && !image)}`. */
  function SubmitDisabled(f: Form): (r: bool)
    ensures r <==> f.submitting || (f.image.None? && forall i :: 0 <= i < |f.content| ==> Text.IsSpace(f.content[i]))
  {
    Text.BlankIffAllSpace(f.content);
    f.submitting || NothingToPost(f)
  }

  /** The two early returns of `handleSubmit`. */
  predicate Ignored(user: Option<User>, f: Form) {
    NothingToPost(f) || user.None?
  }

  /** The folder post images are uploaded under. */
  const PostsFolder := "posts"

  /** `handleSubmit`. A submission the guard lets through uploads the picked
      image, if any, under the user's folder with the clock reading
      `uploadTime`; when that upload settles (or there is none) it hands the
      store a record with the user's snapshot, the verbatim text, the image
      URL or "", empty like and comment lists and the clock reading `now`.
      The form is cleared, and the feed shown, only when the store accepts
      the record; on any failure the form keeps its text and image. */
  function Submit(user: Option<User>, form: Form, uploadTime: nat, upload: Settled<string>,
                  now: int, write: Settled<string>): (r: Submission)
    ensures Ignored(user, form) ==> r == Submission(form, None, None, false)
    ensures !Ignored(user, form) ==> !r.form.submitting
    ensures !Ignored(user, form) && form.image.Some? ==>
      r.uploadPath == Some(Uploads.UploadPath(PostsFolder, user.value.uid, uploadTime, form.image.value.name))
    ensures form.image.None? ==> r.uploadPath == None
    ensures r.record.Some? <==> !Ignored(user, form) && (form.image.None? || upload.Resolved?)
    ensures r.record.Some? ==>
      var p := r.record.value;
      && p.userId == user.value.uid
      && p.userName == OrElse(user.value.displayName, "Anonymous")
      && p.userImage == OrElse(user.value.photoURL, "")
      && p.content == form.content
      && p.imageUrl == (if form.image.Some? then upload.value else "")
      && p.likes == [] && p.comments == []
      && p.createdAt == now
    ensures r.navigated <==> r.record.Some? && write.Resolved?
    ensures r.navigated ==> r.form == Form("", None, false)
    ensures !Ignored(user, form) && !r.navigated ==> r.form == form.(submitting := false)
  {
    if Ignored(user, form) then Submission(form, None, None, false)
    else
      var u := user.value;
      var path := if form.image.Some? then Some(Uploads.UploadPath(PostsFolder, u.uid, uploadTime, form.image.value.name)) else None;
      var url := if form.image.Some? then upload else Resolved("");
      match url
      case Rejected => Submission(form.(submitting := false), path, None, false)
      case Resolved(imageUrl) =>
        var record := NewPost(u.uid, OrElse(u.displayName, "Anonymous"), OrElse(u.photoURL, ""),
                              form.content, imageUrl, [], [], now);
        if write.Resolved? then Submission(Form("", None, false), path, Some(record), true)
        else Submission(form.(submitting := false), path, Some(record), false)
  }

  /** For a signed-in user and a form not already submitting, the button is
      disabled exactly when the handler would ignore the click. */
  lemma DisabledMatchesGuard(u: User, f: Form)
    requires !f.submitting
    ensures SubmitDisabled(f) <==> Ignored(Some(u), f)
  {
  }

  /** Text that is only white space is still posted, untrimmed, when an
      image is picked. */
  lemma BlankTextWithImagePosted(u: User, content: string, image: Uploads.ImageFile, t: nat, url: string, now: int, write: Settled<string>)
    requires Text.IsBlank(content)
    ensures var r := Submit(Some(u), Form(content, Some(image), false), t, Resolved(url), now, write);
      r.record.Some? && r.record.value.content == content && r.record.value.imageUrl == url
  {
  }

  /** Posting "hello" without an image hands the store a record with that
      text, no image URL and empty lists. */
  lemma HelloWithoutImage(u: User, t: nat, upload: Settled<string>, now: int, write: Settled<string>)
    ensures var r := Submit(Some(u), Form("hello", None, false), t, upload, now, write);
      && r.record.Some?
      && r.record.value.content == "hello"
      && r.record.value.imageUrl == ""
      && r.record.value.likes == [] && r.record.value.comments == []
  {
  }

  /** The post document the store holds for a record under the id it assigned. */
  function Stored(id: string, p: NewPost): (d: Feed.PostDoc)
    ensures d.createdAt.Some?
  {
    Feed.PostDoc(id, p.userId, p.userName, p.userImage, p.content, Some(p.imageUrl),
                 Some(p.likes), Some(p.comments), Some(p.createdAt))
  }

  /** Once the store holds a submitted post, a freshly loaded feed shows it,
      and its card starts with no likes and no comments. */
  lemma {:induction false} CreatedPostIsShown(docs: seq<Feed.PostDoc>, id: string, p: NewPost)
    requires p.likes == [] && p.comments == []
    ensures var shown := Feed.Fetch(Resolved(docs + [Stored(id, p)])).posts;
      && Stored(id, p) in shown
      && Feed.ToProps(Stored(id, p)).likes == []
      && Feed.ToProps(Stored(id, p)).comments == []
  {
    var d := Stored(id, p);
    var all := docs + [d];
    assert all[|docs|] == d;
    assert multiset(all)[d] > 0;
    var shown := Feed.Fetch(Resolved(all)).posts;
    assert multiset(shown)[d] > 0;
  }
}
