/** The profile form: it seeds its fields from the signed-in user, overlays
    the profile the endpoint returns, edits one field at a time, and saves
    the whole record through the endpoint after an optional photo upload.
    Its state is the JavaScript object it keeps, so fields the stored profile
    carries beyond the five it edits (`id`, `userId`, timestamps) ride along. */
module ProfileForm {
  import opened Wrappers
  import opened Auth
  import opened Json
  import Uploads
  import Store
  import ProfileRoute

  /** The five fields the form edits. */
  const EditedKeys: set<string> := {"displayName", "bio", "location", "website", "photoURL"}

  /** The inline message after a save. */
  datatype Message = NoMessage | SavedMessage | FailedMessage

  /** The form's state: the profile object, the picked photo, the message,
      and whether a save or the initial load is in flight. */
  datatype FormState = FormState(profile: Object, pendingImage: Option<Uploads.ImageFile>,
                                 message: Message, saving: bool, loading: bool)

  /** What a save did: the state afterwards, the upload path it used, and
      the profile it sent to the endpoint. */
  datatype Saving = Saving(state: FormState, uploadPath: Option<string>, sent: Option<Object>)

  /** The state before any effect runs: the five fields empty, loading. */
  const Initial := FormState(
    map["displayName" := Str(""), "bio" := Str(""), "location" := Str(""), "website" := Str(""), "photoURL" := Str("")],
    None, NoMessage, false, true)

  /** The seed from the signed-in user: their name and photo, each "" when
      missing, and empty bio, location and website. */
  function Defaults(u: User): (r: Object)
    ensures r.Keys == EditedKeys
    ensures r["displayName"] == Str(OrElse(u.displayName, ""))
    ensures r["photoURL"] == Str(OrElse(u.photoURL, ""))
    ensures r["bio"] == Str("") && r["location"] == Str("") && r["website"] == Str("")
  {
    map["displayName" := Str(OrElse(u.displayName, "")), "bio" := Str(""), "location" := Str(""),
        "website" := Str(""), "photoURL" := Str(OrElse(u.photoURL, ""))]
  }

  /** The response carries a truthy `profile`. */
  predicate CarriesProfile(data: Value) {
    !data.Null? && Truthy(Prop(data, "profile"))
  }

  /** `if (data.profile) setProfile(prev => ({ ...prev, ...data.profile }))`,
      where `fetched` is the settled `fetch(...).json()`: every key the
      stored profile has wins, every other key keeps its value. A rejected
      fetch, a `null` body or a falsy `profile` leaves `prev` as it is. */
  function Overlay(prev: Object, fetched: Settled<Value>): (r: Object)
    ensures fetched.Rejected? || !CarriesProfile(fetched.value) ==> r == prev
    ensures fetched.Resolved? && CarriesProfile(fetched.value) ==>
      var stored := Spread(Prop(fetched.value, "profile").value);
      && r.Keys == prev.Keys + stored.Keys
      && (forall k :: k in stored ==> r[k] == stored[k])
      && (forall k :: k in prev && k !in stored ==> r[k] == prev[k])
  {
    if fetched.Resolved? && CarriesProfile(fetched.value) then
      prev + Spread(Prop(fetched.value, "profile").value)
    else prev
  }

  /** The mount effect. Without a user nothing runs and the form stays
      loading; with one, the defaults are seeded, the stored profile laid
      over them, and loading ends whatever the fetch did. */
  function Load(user: Option<User>, fetched: Settled<Value>): (r: FormState)
    ensures user.None? ==> r == Initial
    ensures user.Some? ==> !r.loading && r.pendingImage.None? && r.message == NoMessage && !r.saving
    ensures user.Some? ==> EditedKeys <= r.profile.Keys
    ensures user.Some? ==> r.profile == Overlay(Defaults(user.value), fetched)
  {
    match user
    case None => Initial
    case Some(u) => FormState(Overlay(Defaults(u), fetched), None, NoMessage, false, false)
  }

  /** `handleChange`: the named field takes the typed value; every other
      field, and the rest of the state, is untouched. */
  function Change(s: FormState, name: string, value: string): (r: FormState)
    ensures Field(r.profile, name) == Some(Str(value))
    ensures forall k :: k != name ==> Field(r.profile, k) == Field(s.profile, k)
    ensures r.profile.Keys == s.profile.Keys + {name}
    ensures r.(profile := s.profile) == s
  {
    s.(profile := s.profile[name := Str(value)])
  }

  /** Typing a field's old value back undoes an edit. */
  lemma ChangeUndone(s: FormState, name: string, previous: string, value: string)
    requires name in s.profile && s.profile[name] == Str(previous)
    ensures Change(Change(s, name, value), name, previous) == s
  {
  }

  /** The folder profile photos are uploaded under. */
  const ProfilesFolder := "profiles"

  /** `handleSubmit`. Without a user nothing happens. Otherwise the picked
      photo, if any, is uploaded under the user's folder with the clock
      reading `uploadTime`; the profile is then sent with `photoURL` set to
      the upload's URL, or left as it was when no photo is picked. When the
      request resolves (`delivered`), whatever its status, the local profile
      becomes the sent one, the picked photo is dropped and the success
      message shown; when anything throws, the state is kept and the error
      message shown. */
  function Submit(user: Option<User>, s: FormState, uploadTime: nat, upload: Settled<string>, delivered: bool): (r: Saving)
    ensures user.None? ==> r == Saving(s, None, None)
    ensures user.Some? ==> !r.state.saving && r.state.loading == s.loading
    ensures user.Some? && s.pendingImage.Some? ==>
      r.uploadPath == Some(Uploads.UploadPath(ProfilesFolder, user.value.uid, uploadTime, s.pendingImage.value.name))
    ensures s.pendingImage.None? ==> r.uploadPath == None
    ensures r.sent.Some? <==> user.Some? && (s.pendingImage.None? || upload.Resolved?)
    ensures r.sent.Some? ==>
      && Field(r.sent.value, "photoURL")
         == (if s.pendingImage.Some? then Some(Str(upload.value)) else Field(s.profile, "photoURL"))
      && forall k :: k != "photoURL" ==> Field(r.sent.value, k) == Field(s.profile, k)
    ensures user.Some? && r.sent.Some? && delivered ==>
      r.state == FormState(r.sent.value, None, SavedMessage, false, s.loading)
    ensures user.Some? && !(r.sent.Some? && delivered) ==>
      r.state == s.(message := FailedMessage, saving := false)
    ensures EditedKeys <= s.profile.Keys ==> EditedKeys <= r.state.profile.Keys
  {
    match user
    case None => Saving(s, None, None)
    case Some(u) =>
      var path := if s.pendingImage.Some? then Some(Uploads.UploadPath(ProfilesFolder, u.uid, uploadTime, s.pendingImage.value.name)) else None;
      var photo := if s.pendingImage.Some? then (if upload.Resolved? then Resolved(Some(Str(upload.value))) else Rejected)
                   else Resolved(Field(s.profile, "photoURL"));
      match photo
      case Rejected => Saving(s.(message := FailedMessage, saving := false), path, None)
      case Resolved(url) =>
        var sent := if url.Some? then s.profile["photoURL" := url.value] else s.profile;
        if delivered then Saving(FormState(sent, None, SavedMessage, false, s.loading), path, Some(sent))
        else Saving(s.(message := FailedMessage, saving := false), path, Some(sent))
  }

  /** The response body a load reads from `GET /api/profile?userId=<uid>`. */
  function GetBody(u: User, docs: seq<Store.Doc>, queryOk: bool): Value {
    Obj(ProfileRoute.GetProfile(Some(u.uid), docs, queryOk).body)
  }

  /** Loading against the endpoint when the lookup fails, or when no
      profile is stored for the user: the form shows the user's defaults. */
  lemma LoadWithoutStoredProfile(u: User, docs: seq<Store.Doc>, queryOk: bool)
    requires u.uid != ""
    requires queryOk ==> forall i :: 0 <= i < |docs| ==> !Store.Matches(docs[i], "userId", Str(u.uid))
    ensures Load(Some(u), Resolved(GetBody(u, docs, queryOk))).profile == Defaults(u)
  {
    var data := GetBody(u, docs, queryOk);
    if queryOk {
      assert Prop(data, "profile") == Some(Null);
    } else {
      assert Prop(data, "profile").None?;
    }
  }

  /** Loading against the endpoint when a profile is stored for the user at
      position `k` and none before it: its fields and its document id win
      over the defaults, and the defaults fill in the rest. */
  lemma LoadStoredProfile(u: User, docs: seq<Store.Doc>, k: nat)
    requires u.uid != ""
    requires k < |docs| && Store.Matches(docs[k], "userId", Str(u.uid))
    requires forall i :: 0 <= i < k ==> !Store.Matches(docs[i], "userId", Str(u.uid))
    ensures var r := Load(Some(u), Resolved(GetBody(u, docs, true))).profile;
      && (forall f :: f in docs[k].fields ==> Field(r, f) == Some(docs[k].fields[f]))
      && ("id" !in docs[k].fields ==> Field(r, "id") == Some(Str(docs[k].id)))
      && (forall f :: f in EditedKeys && f !in docs[k].fields && f != "id" ==> Field(r, f) == Some(Defaults(u)[f]))
  {
    var stored := ProfileRoute.WithId(docs[k]);
    GetFindsStored(u, docs, k);
    var data := GetBody(u, docs, true);
    assert Prop(data, "profile") == Some(Obj(stored));
    var r := Overlay(Defaults(u), Resolved(data));
    assert r == Defaults(u) + stored;
    assert Load(Some(u), Resolved(data)).profile == r;
    UnionFields(Defaults(u), docs[k]);
  }

  /** The endpoint answers with the stored profile at `k`, id included. */
  lemma GetFindsStored(u: User, docs: seq<Store.Doc>, k: nat)
    requires u.uid != ""
    requires k < |docs| && Store.Matches(docs[k], "userId", Str(u.uid))
    requires forall i :: 0 <= i < k ==> !Store.Matches(docs[i], "userId", Str(u.uid))
    ensures GetBody(u, docs, true) == Obj(map["profile" := Obj(ProfileRoute.WithId(docs[k]))])
  {
  }

  /** Key by key, the defaults overlaid with a document's id and fields. */
  lemma UnionFields(defaults: Object, d: Store.Doc)
    ensures var r := defaults + ProfileRoute.WithId(d);
      && (forall f :: f in d.fields ==> Field(r, f) == Some(d.fields[f]))
      && ("id" !in d.fields ==> Field(r, "id") == Some(Str(d.id)))
      && (forall f :: f in defaults && f !in d.fields && f != "id" ==> Field(r, f) == Some(defaults[f]))
  {
  }

  /** The POST body a save sends: `{ userId: user.uid, profile: updatedProfile }`. */
  function RequestBody(u: User, sent: Object): Value {
    ProfileRoute.Request(Str(u.uid), Obj(sent))
  }

  /** Saving through the endpoint: when the store is reachable, the request
      succeeds, and the profile document it creates or updates (the first
      one stored for the user, or a new one at the end) holds every field the
      form sent, apart from the timestamps the endpoint sets itself. */
  lemma {:induction false} SaveReachesStore(u: User, s: FormState, t: nat, upload: Settled<string>,
                                            docs: seq<Store.Doc>, freshId: string, now: int)
    requires u.uid != ""
    requires s.pendingImage.None? || upload.Resolved?
    ensures var sent := Submit(Some(u), s, t, upload, true).sent;
      && sent.Some?
      && var saved := ProfileRoute.PostProfile(Resolved(RequestBody(u, sent.value)), docs, true, true, freshId, now);
      && saved.response.status == ProfileRoute.OK
      && var m := Store.FirstMatch(docs, "userId", Str(u.uid));
      && var i := if m.Some? then m.value else |docs|;
      && i < |saved.profiles|
      && forall k :: k in sent.value && k != "createdAt" && k != "updatedAt" ==>
           Field(saved.profiles[i].fields, k) == Some(sent.value[k])
  {
    var sent := Submit(Some(u), s, t, upload, true).sent.value;
    var body := RequestBody(u, sent);
    assert ProfileRoute.HasInput(body);
    assert ProfileRoute.UserIdOf(body) == Str(u.uid);
    assert ProfileRoute.Payload(body) == sent;
    var saved := ProfileRoute.PostProfile(Resolved(body), docs, true, true, freshId, now);
    match Store.FirstMatch(docs, "userId", Str(u.uid))
    case None =>
      assert saved == ProfileRoute.Create(docs, Str(u.uid), sent, freshId, now);
    case Some(k) =>
      assert saved == ProfileRoute.Update(docs, k, sent, now);
  }
}
