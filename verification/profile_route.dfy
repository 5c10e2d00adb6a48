/** The profile endpoint: `GET` reads the profile stored for a user id,
    `POST` creates it or updates it in place. */
module ProfileRoute {
  import opened Wrappers
  import opened Json
  import opened Store

  /** An HTTP response: its status and its JSON object body. */
  datatype Response = Response(status: int, body: Object)

  /** A `POST`'s response and the profile collection it leaves behind. */
  datatype Saved = Saved(response: Response, profiles: seq<Doc>)

  const OK := 200
  const BAD_REQUEST := 400
  const SERVER_ERROR := 500

  function Failure(status: int, message: string): Response {
    Response(status, map["error" := Str(message)])
  }

  function Success(message: string, id: string): Response {
    Response(OK, map["success" := Bool(true), "message" := Str(message), "profileId" := Str(id)])
  }

  /** `{ id: doc.id, ...doc.data() }`: the document's fields and its id,
      where a stored `id` field wins over the document id. */
  function WithId(d: Doc): (r: Object)
    ensures r.Keys == d.fields.Keys + {"id"}
    ensures forall f :: f in d.fields ==> r[f] == d.fields[f]
    ensures "id" !in d.fields ==> r["id"] == Str(d.id)
  {
    map["id" := Str(d.id)] + d.fields
  }

  /** `GET /api/profile?userId=...`; `userId` is the query parameter (`None`
      when absent) and `queryOk` whether the store's query succeeds. A
      missing or empty id is a client error; a failing lookup a server error;
      otherwise the first profile stored for the id, or `null`. */
  function GetProfile(userId: Option<string>, profiles: seq<Doc>, queryOk: bool): (r: Response)
    ensures (userId.None? || userId.value == "") ==>
      r == Failure(BAD_REQUEST, "User ID is required")
    ensures userId.Some? && userId.value != "" && !queryOk ==>
      r == Failure(SERVER_ERROR, "Failed to fetch profile")
    ensures userId.Some? && userId.value != "" && queryOk ==>
      var m := FirstMatch(profiles, "userId", Str(userId.value));
      && (m.None? ==> r == Response(OK, map["profile" := Null]))
      && (m.Some? ==> r == Response(OK, map["profile" := Obj(WithId(profiles[m.value]))]))
  {
    if userId.None? || userId.value == "" then Failure(BAD_REQUEST, "User ID is required")
    else if !queryOk then Failure(SERVER_ERROR, "Failed to fetch profile")
    else
      match FirstMatch(profiles, "userId", Str(userId.value))
      case None => Response(OK, map["profile" := Null])
      case Some(k) => Response(OK, map["profile" := Obj(WithId(profiles[k]))])
  }

  /** Without a user id the store is never consulted: the answer is the same
      whatever it holds and whether or not it is reachable. */
  lemma GetWithoutUserIdIgnoresStore(userId: Option<string>, a: seq<Doc>, okA: bool, b: seq<Doc>, okB: bool)
    requires userId.None? || userId.value == ""
    ensures GetProfile(userId, a, okA) == GetProfile(userId, b, okB)
    ensures GetProfile(userId, a, okA).status == BAD_REQUEST
  {
  }

  /** The values JavaScript treats as false: `undefined`, `null`, `false`,
      `0` and the empty string. */
  const Falsy: set<Option<Value>> := {None, Some(Null), Some(Bool(false)), Some(Num(0)), Some(Str(""))}

  /** The request carries a truthy `userId` and a truthy `profile`; only an
      object can carry either. */
  function HasInput(v: Value): (r: bool)
    ensures r <==> v.Obj? && Field(v.fields, "userId") !in Falsy && Field(v.fields, "profile") !in Falsy
  {
    !v.Null? && Truthy(Prop(v, "userId")) && Truthy(Prop(v, "profile"))
  }

  /** The fields `...profile` contributes. */
  function Payload(v: Value): Object
    requires HasInput(v)
  {
    Spread(Prop(v, "profile").value)
  }

  /** The queried user id. */
  function UserIdOf(v: Value): Value
    requires HasInput(v)
  {
    Prop(v, "userId").value
  }

  /** The fields of a created profile: `{ userId, ...profile, createdAt, updatedAt }`. */
  predicate CreatedFields(f: Object, userId: Value, payload: Object, now: int) {
    && f.Keys == payload.Keys + {"userId", "createdAt", "updatedAt"}
    && f["createdAt"] == Num(now) && f["updatedAt"] == Num(now)
    && f["userId"] == (if "userId" in payload then payload["userId"] else userId)
    && forall k :: k in payload && k != "createdAt" && k != "updatedAt" ==> f[k] == payload[k]
  }

  /** The fields of an updated profile: the stored ones, overwritten by
      `{ ...profile, updatedAt }`. A stored `createdAt` survives unless the
      payload carries one. */
  predicate UpdatedFields(f: Object, stored: Object, payload: Object, now: int) {
    && f.Keys == stored.Keys + payload.Keys + {"updatedAt"}
    && f["updatedAt"] == Num(now)
    && (forall k :: k in payload && k != "updatedAt" ==> f[k] == payload[k])
    && (forall k :: k in stored && k !in payload && k != "updatedAt" ==> f[k] == stored[k])
  }

  /** The create branch: one document added at the end under the fresh id. */
  function Create(profiles: seq<Doc>, userId: Value, payload: Object, freshId: string, now: int): (r: Saved)
    ensures r.response == Success("Profile created successfully", freshId)
    ensures |r.profiles| == |profiles| + 1 && r.profiles[..|profiles|] == profiles
    ensures r.profiles[|profiles|].id == freshId
    ensures CreatedFields(r.profiles[|profiles|].fields, userId, payload, now)
  {
    var fields := map["userId" := userId] + payload + map["createdAt" := Num(now), "updatedAt" := Num(now)];
    assert (profiles + [Doc(freshId, fields)])[..|profiles|] == profiles;
    Saved(Success("Profile created successfully", freshId), profiles + [Doc(freshId, fields)])
  }

  /** The update branch: the document at `k` merged with the payload in place. */
  function Update(profiles: seq<Doc>, k: nat, payload: Object, now: int): (r: Saved)
    requires k < |profiles|
    ensures r.response == Success("Profile updated successfully", profiles[k].id)
    ensures |r.profiles| == |profiles|
    ensures forall i :: 0 <= i < |profiles| && i != k ==> r.profiles[i] == profiles[i]
    ensures r.profiles[k].id == profiles[k].id
    ensures UpdatedFields(r.profiles[k].fields, profiles[k].fields, payload, now)
  {
    var d := profiles[k];
    var fields := d.fields + (payload + map["updatedAt" := Num(now)]);
    Saved(Success("Profile updated successfully", d.id), profiles[k := Doc(d.id, fields)])
  }

  /** `POST /api/profile`. `body` is the parsed request body (rejected when
      it does not parse), `queryOk` and `writeOk` whether the store's query
      and its write succeed, `freshId` the id the store assigns to an added
      document and `now` the clock reading. */
  function PostProfile(body: Settled<Value>, profiles: seq<Doc>, queryOk: bool, writeOk: bool,
                       freshId: string, now: int): (r: Saved)
    ensures r.response.status in {OK, BAD_REQUEST, SERVER_ERROR}
    ensures r.response.status != OK ==> r.profiles == profiles && "error" in r.response.body
    ensures body.Rejected? || body.value.Null? ==> r.response.status == SERVER_ERROR
    ensures body.Resolved? && !body.value.Null? && !HasInput(body.value) ==>
      r.response == Failure(BAD_REQUEST, "User ID and profile data are required")
    ensures body.Resolved? && HasInput(body.value) && !(queryOk && writeOk) ==>
      r.response.status == SERVER_ERROR
    ensures r.response.status == OK ==>
      && "success" in r.response.body && r.response.body["success"] == Bool(true)
      && body.Resolved? && HasInput(body.value) && queryOk && writeOk
    ensures body.Resolved? && HasInput(body.value) && queryOk && writeOk ==>
      var m := FirstMatch(profiles, "userId", UserIdOf(body.value));
      && (m.None? ==> r == Create(profiles, UserIdOf(body.value), Payload(body.value), freshId, now))
      && (m.Some? ==> r == Update(profiles, m.value, Payload(body.value), now))
  {
    match body
    case Rejected => Saved(Failure(SERVER_ERROR, "Failed to save profile"), profiles)
    case Resolved(v) =>
      if v.Null? then Saved(Failure(SERVER_ERROR, "Failed to save profile"), profiles)
      else if !HasInput(v) then
        Saved(Failure(BAD_REQUEST, "User ID and profile data are required"), profiles)
      else if !queryOk || !writeOk then Saved(Failure(SERVER_ERROR, "Failed to save profile"), profiles)
      else
        match FirstMatch(profiles, "userId", UserIdOf(v))
        case None => Create(profiles, UserIdOf(v), Payload(v), freshId, now)
        case Some(k) => Update(profiles, k, Payload(v), now)
  }

  /** The request body `{ userId, profile }`. */
  function Request(userId: Value, profile: Value): Value {
    Obj(map["userId" := userId, "profile" := profile])
  }

  /** A user's first save creates one profile whose two timestamps are the
      clock reading; their second save finds that same document, keeps its
      id and creation time and moves its update time to the second reading.
      This needs the first payload not to name a different `userId` and the
      second not to carry a `createdAt`. */
  lemma {:induction false} SecondSaveUpdatesFirst(profiles: seq<Doc>, userId: Value, first: Value, second: Value,
                                                  id1: string, t1: int, id2: string, t2: int)
    requires Truthy(Some(userId)) && Truthy(Some(first)) && Truthy(Some(second))
    requires forall i :: 0 <= i < |profiles| ==> !Matches(profiles[i], "userId", userId)
    requires "userId" in Spread(first) ==> Spread(first)["userId"] == userId
    requires "createdAt" !in Spread(second)
    ensures var s1 := PostProfile(Resolved(Request(userId, first)), profiles, true, true, id1, t1);
      var s2 := PostProfile(Resolved(Request(userId, second)), s1.profiles, true, true, id2, t2);
      && s1.response == Success("Profile created successfully", id1)
      && |s1.profiles| == |profiles| + 1
      && Field(s1.profiles[|profiles|].fields, "createdAt") == Some(Num(t1))
      && Field(s1.profiles[|profiles|].fields, "updatedAt") == Some(Num(t1))
      && s2.response == Success("Profile updated successfully", id1)
      && |s2.profiles| == |profiles| + 1
      && s2.profiles[|profiles|].id == id1
      && Field(s2.profiles[|profiles|].fields, "createdAt") == Some(Num(t1))
      && Field(s2.profiles[|profiles|].fields, "updatedAt") == Some(Num(t2))
  {
    var n := |profiles|;
    var s1 := FirstSave(profiles, userId, first, id1, t1);
    var f1 := s1.profiles[n].fields;
    assert CreatedFields(f1, userId, Spread(first), t1);
    assert f1["createdAt"] == Num(t1) && f1["updatedAt"] == Num(t1);
    var s2 := SecondSave(s1.profiles, n, userId, second, id2, t2);
    var f2 := s2.profiles[n].fields;
    assert UpdatedFields(f2, f1, Spread(second), t2);
    assert "createdAt" in f1 && "createdAt" !in Spread(second);
    assert f2["createdAt"] == Num(t1);
  }

  /** A first save is the create branch. */
  lemma FirstSave(profiles: seq<Doc>, userId: Value, first: Value, id1: string, t1: int) returns (s1: Saved)
    requires Truthy(Some(userId)) && Truthy(Some(first))
    requires forall i :: 0 <= i < |profiles| ==> !Matches(profiles[i], "userId", userId)
    requires "userId" in Spread(first) ==> Spread(first)["userId"] == userId
    ensures s1 == PostProfile(Resolved(Request(userId, first)), profiles, true, true, id1, t1)
    ensures s1 == Create(profiles, userId, Spread(first), id1, t1)
    ensures forall i :: 0 <= i < |profiles| ==> !Matches(s1.profiles[i], "userId", userId)
    ensures Matches(s1.profiles[|profiles|], "userId", userId)
  {
    var b1 := Request(userId, first);
    assert HasInput(b1) && UserIdOf(b1) == userId && Payload(b1) == Spread(first);
    assert FirstMatch(profiles, "userId", userId).None?;
    s1 := Create(profiles, userId, Spread(first), id1, t1);
    var n := |profiles|;
    forall i | 0 <= i < n
      ensures !Matches(s1.profiles[i], "userId", userId)
    {
      assert s1.profiles[i] == s1.profiles[..n][i];
    }
  }

  /** A save that finds its profile at `n` and nowhere before is the update branch. */
  lemma SecondSave(profiles: seq<Doc>, n: nat, userId: Value, second: Value, id2: string, t2: int) returns (s2: Saved)
    requires n < |profiles|
    requires Truthy(Some(userId)) && Truthy(Some(second))
    requires forall i :: 0 <= i < n ==> !Matches(profiles[i], "userId", userId)
    requires Matches(profiles[n], "userId", userId)
    ensures s2 == PostProfile(Resolved(Request(userId, second)), profiles, true, true, id2, t2)
    ensures s2 == Update(profiles, n, Spread(second), t2)
  {
    var b2 := Request(userId, second);
    assert HasInput(b2) && UserIdOf(b2) == userId && Payload(b2) == Spread(second);
    assert FirstMatch(profiles, "userId", userId) == Some(n);
    s2 := Update(profiles, n, Spread(second), t2);
  }
}
