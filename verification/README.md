# Social feed and profile logic, modelled in Dafny

The application is a small social feed. Signed-in users write posts with optional images, like posts and comment on them, and edit a profile. Almost all of it is rendering plus calls into a hosted document store and file store. This project models the few pure transformations inside its event handlers and its profile endpoint, as total functions over immutable data:

- **Post card** (`Post`): `isLiked`, the like toggle (remove every occurrence of the uid, or append it), and the guarded comment append. Each writes the whole new list back.
- **Feed** (`Feed`): drop posts without `createdAt`, sort newest first, and default missing `likes`/`comments` to empty lists.
- **Post creation** (`CreatePost`): the submit guard, the disabled-button condition, the upload path, and the new post record with its fallbacks.
- **Profile endpoint** (`ProfileRoute`): `GET` and `POST` over the profile collection. It answers 400 on missing input, 200 with `null` when nothing matches, and 500 when anything throws. It creates or updates keyed on `userId`, with the spread order deciding which fields win.
- **Profile form** (`ProfileForm`): defaults seeded from the user, the stored profile laid over them, single-field edits, and the photo URL chosen on save.

Supporting modules:

- `Wrappers`: `Option`, and `Settled`, which is how an awaited call ended.
- `Text`: JavaScript `trim`, and `Number#toString` for clock readings.
- `Seqs`: the subsequence relation.
- `Json`: JSON values, truthiness, property reads and object spread, including the index keys a spread string or array contributes.
- `Store`: documents, and the first result of an equality query.
- `Auth`: the user record and the `||` fallback.
- `Uploads`: upload paths.

The environment is passed in as parameters:

- The document store is a sequence of documents, taken to be in the order a query returns them, so "first match" is well defined. A newly added document is placed last in that order by convention (see `ProfileRoute.Create` under "## Left out").
- Clock readings (`now`, `uploadTime`, `idTime`) and the id the store assigns to a new document are plain values.
- The URL an upload returns is a plain value.
- How each awaited call ends is a parameter: a `Settled` value, or a flag such as `queryOk`, `writeOk` or `delivered`.

Where the code's behaviour is easy to misread, the model follows the code:

- A `POST` whose body parses to `null` throws while destructuring, so it gets 500, not 400.
- An update overwrites `createdAt` only when the payload carries one. The profile form sends back the whole object it loaded, so a stored profile's `id`, `userId` and `createdAt` return to the store on every save.
- A created profile has `createdAt == updatedAt` only because the model reads the clock once for both.
- A like toggle that removes the uid removes every occurrence of it, not just one.

## Model

| member | source | states |
|---|---|---|
| `Text.TrimStart` | src/components/Post.tsx:66 | the first half of `trim`: the result is a suffix of `s`, every character stripped before it is white space, and it does not start with white space |
| `Text.TrimEnd` | src/components/Post.tsx:66 | the second half of `trim`: the result is a prefix of `s`, every character stripped after it is white space, and it does not end with white space |
| `Text.Trim` | src/components/CreatePostForm.tsx:42 | `s.trim()` is no longer than `s` and neither starts nor ends with white space; what it strips is the white space `TrimStart` and `TrimEnd` remove |
| `Text.BlankIffAllSpace` | src/components/Post.tsx:66 | `!s.trim()` holds exactly when every character of `s` is JavaScript white space or a line terminator, so the empty draft is blank too |
| `Text.Decimal` | src/components/Post.tsx:69 | `Date.now().toString()` for a non-negative reading: a non-empty string of digits, one digit exactly for readings below 10, and a leading `0` only for zero |
| `Text.DecimalRoundTrip` | src/components/Post.tsx:69 | the decimal rendering of a clock reading (a comment id, a path stamp) reads back as that reading, so distinct readings give distinct strings |
| `Uploads.UploadPath` | src/components/CreatePostForm.tsx:50 | the path begins with `folder/uid/` and ends with `_` and the file name; the part between is a numeral that reads back as the clock reading |
| `Uploads.UploadPathInjective` | src/components/CreatePostForm.tsx:50 | the path is `folder/uid/time_name`; one user's uploads into one folder share a path only if both the clock reading and the file name are equal |
| `Json.Spread` | src/app/api/profile/route.ts:50-55 | `...v` copies an object's own fields; an array or string contributes its elements under the keys "0", "1", …; `null`, booleans and numbers contribute nothing |
| `Auth.OrElse` | src/components/CreatePostForm.tsx:56-57 | JavaScript's logical-or fallback on an optional string: a non-empty value is kept; a missing or empty one gives the fallback |
| `Store.FirstMatch` | src/app/api/profile/route.ts:15-23 | the position of the first document whose field equals the queried value, with no earlier document matching; `None` exactly when no document matches |
| `Post.Includes` | src/components/Post.tsx:47 | `likes.includes(uid)` holds exactly when the uid is an element of the list |
| `Post.IsLiked` | src/components/Post.tsx:47 | true exactly when a user is signed in and their uid occurs in the local like list; false with no user |
| `Post.Without` | src/components/Post.tsx:55 | the filtered list is a subsequence of the original with every occurrence of the uid removed and every other id kept as often as before |
| `Post.WithoutAppend` | src/components/Post.tsx:55 | filtering distributes over concatenation, so the kept ids stay in their original relative order |
| `Post.ToggleLike` | src/components/Post.tsx:49-62 | no user: nothing changes and nothing is written; uid absent: it is appended last and earlier ids are untouched; uid present: all its occurrences go and the others keep their order and counts; the uid's membership flips, no other id's membership changes, the written list equals the new local list, and comments and draft are untouched |
| `Post.ToggleTwiceRestores` | src/components/Post.tsx:52-57 | toggling twice from a list without the uid returns exactly the original list and writes it back |
| `Post.ToggleTwiceMovesToEnd` | src/components/Post.tsx:52-57 | toggling twice from a list with the uid restores the like, but the uid now occurs exactly once, as the last element after the other ids |
| `Post.AddComment` | src/components/Post.tsx:64-81 | with no user or a draft blank after trimming, nothing changes and nothing is written; otherwise the old comments are followed by exactly one new one holding the untrimmed draft, the uid, the name or "Anonymous", the decimal id and the time; the draft is cleared, likes are kept, and the written list equals the local one |
| `Post.AddCommentKeepsOrder` | src/components/Post.tsx:64-81 | adding two comments leaves exactly the earlier comments, then the first new comment (first id, first time, first draft), then the second, even when both drafts are equal |
| `Feed.Dated` | src/components/PostFeed.tsx:32 | keeps, in stored order and with stored multiplicity, exactly the posts carrying `createdAt`, and drops every other post |
| `Feed.Insert` | src/components/PostFeed.tsx:33 | inserting a dated post into a newest-first list gives a newest-first list with that post added |
| `Feed.SortNewestFirst` | src/components/PostFeed.tsx:33 | the result is ordered non-increasing by `createdAt` and is a permutation of its input |
| `Feed.Fetch` | src/components/PostFeed.tsx:26-41 | loading always ends; a rejected fetch leaves the list empty; a resolved one shows newest first exactly the dated posts, each as often as stored and unmodified |
| `Feed.NewestFirstExample` | src/components/PostFeed.tsx:31-33 | posts stored with `createdAt` 100, 300, 200 are shown in the order 300, 200, 100 |
| `Feed.UndatedNeverShown` | src/components/PostFeed.tsx:32 | a post without `createdAt` never appears in the feed |
| `Feed.ToProps` | src/components/PostFeed.tsx:66-77 | a card gets an empty `likes`/`comments` list when the stored field is missing and the stored list otherwise; every other prop is the stored field |
| `Feed.Render` | src/components/PostFeed.tsx:65-78 | one card per shown post, in the feed's order |
| `CreatePost.Submit` | src/components/CreatePostForm.tsx:40-74 | blank text with no image, or no user: nothing happens. Otherwise an image is uploaded under `posts/uid/time_name`. The record has the uid, the name or "Anonymous", the photo or "", the verbatim text, the upload URL or "", empty likes and comments, and the clock reading. No record is written if the upload throws. The form is cleared and the feed shown only when the write resolves; on failure the text and image are kept. Submitting always ends |
| `CreatePost.SubmitDisabled` | src/components/CreatePostForm.tsx:144 | the button is disabled exactly while submitting, or when no image is picked and every character of the text is white space |
| `CreatePost.DisabledMatchesGuard` | src/components/CreatePostForm.tsx:144 | for a signed-in user and a form not already submitting, the button is disabled exactly when the handler's guard would ignore the submission |
| `CreatePost.BlankTextWithImagePosted` | src/components/CreatePostForm.tsx:42-59 | whitespace-only text is posted untrimmed when an image is chosen, with the upload URL as `imageUrl` |
| `CreatePost.HelloWithoutImage` | src/components/CreatePostForm.tsx:54-63 | posting "hello" without an image writes `content: "hello"`, `imageUrl: ""`, `likes: []`, `comments: []` |
| `CreatePost.CreatedPostIsShown` | src/components/CreatePostForm.tsx:54-63 | once the store holds a newly created post, a freshly loaded feed shows it, and its card starts with no likes and no comments |
| `ProfileRoute.WithId` | src/app/api/profile/route.ts:25-28 | the returned profile has the document's fields plus `id`; a stored `id` field wins over the document id |
| `ProfileRoute.GetProfile` | src/app/api/profile/route.ts:6-34 | a missing or empty `userId` gives 400; a failing lookup gives 500; no match gives 200 with `profile: null`; otherwise 200 with the first match's id and fields |
| `ProfileRoute.GetWithoutUserIdIgnoresStore` | src/app/api/profile/route.ts:9-11 | without a `userId` the answer is 400 and does not depend on the store's contents or reachability, so no lookup happens |
| `ProfileRoute.HasInput` | src/app/api/profile/route.ts:38-40 | the request passes the 400 check exactly when the body is an object whose `userId` and `profile` are each none of `undefined`, `null`, `false`, `0` and `""` |
| `ProfileRoute.Create` | src/app/api/profile/route.ts:48-63 | adds exactly one document at the end under the fresh id. Its fields are the payload's plus `userId` (a payload `userId` wins); `createdAt`/`updatedAt` are the clock reading, whatever the payload says. Earlier documents are untouched, and the response has `success: true` and the new id |
| `ProfileRoute.Update` | src/app/api/profile/route.ts:64-78 | updates the matched document in place under the same id. The count is unchanged and every other document is untouched. Payload fields win, stored fields it lacks survive (so `createdAt` changes only if the payload carries one), `updatedAt` is the clock reading, and the response has `success: true` and that id |
| `ProfileRoute.PostProfile` | src/app/api/profile/route.ts:36-84 | an unparsable or `null` body, a failing query or a failing write gives 500; a falsy `userId` or `profile` gives 400; any non-200 answer leaves the collection unchanged; otherwise it creates when nothing matches and updates the first match |
| `ProfileRoute.SecondSaveUpdatesFirst` | src/app/api/profile/route.ts:45-78 | a first save creates one profile with `createdAt == updatedAt`. A second save for the same `userId` updates that same document: same id, count unchanged, `createdAt` kept, `updatedAt` moved to the new reading. This assumes the first payload names no other `userId` and the second carries no `createdAt` |
| `ProfileForm.Defaults` | src/components/ProfileForm.tsx:34-40 | the seeded profile is the user's displayName and photoURL, each "" when missing, with empty bio, location and website, and no other field |
| `ProfileForm.Overlay` | src/components/ProfileForm.tsx:43-58 | a truthy stored profile wins on every key it has, and other keys keep their value; a rejected fetch, a `null` body or a missing/`null` profile leaves the defaults unchanged |
| `ProfileForm.Load` | src/components/ProfileForm.tsx:31-63 | with no user nothing runs and the form stays loading with empty fields; with a user, loading ends, the five edited fields are present, and the stored profile is laid over the user's defaults |
| `ProfileForm.LoadWithoutStoredProfile` | src/components/ProfileForm.tsx:43-53 | loading against the endpoint when no profile is stored, or the lookup fails, shows exactly the user's defaults |
| `ProfileForm.LoadStoredProfile` | src/components/ProfileForm.tsx:48-52 | loading against the endpoint when a profile is stored shows its fields and document id, with the defaults for the edited fields it lacks |
| `ProfileForm.Change` | src/components/ProfileForm.tsx:65-71 | the named field takes the new value; every other field and the rest of the state are untouched |
| `ProfileForm.ChangeUndone` | src/components/ProfileForm.tsx:65-71 | typing a field's previous value back restores the form state exactly |
| `ProfileForm.Submit` | src/components/ProfileForm.tsx:87-128 | with no user nothing happens. The sent `photoURL` is the upload URL when a photo was chosen, and the current one otherwise; all other fields are sent unchanged. Whenever the POST resolves, whatever its status, the local profile becomes the sent one, the picked photo is cleared and the success message is shown. If anything throws, the state is kept and the error message is shown. The five edited fields stay present |
| `ProfileForm.SaveReachesStore` | src/components/ProfileForm.tsx:102-117 | a save sent to a reachable endpoint gets 200. The document it creates or updates holds every field the form sent, apart from the timestamps the endpoint sets |

## Left out

- Rendering, React state and effect scheduling, `FileReader` previews, router navigation, and date formatting. The model records only the state each handler leaves and whether it navigated.
- Picking and removing an image (`handleImageChange`, `removeImage`) only set the picked file and its preview. The picked file is part of each form's state, and previews are not modelled.
- HTTP and JSON serialisation. Request and response bodies are JSON values, and a `fetch` that resolves or rejects is a parameter.
- The document store, file store and identity provider are external services, and `firebaseUtils` is not part of this model. `updateDocument` is modelled as a shallow merge of the given fields. Dotted keys, which the store would treat as field paths, are treated as plain keys.
- JSON numbers are integers. Fractions, `NaN` and the store's int/double equality are not modelled.
- `Json.Prop` gives an object's own property only. The model reads just `userId` and `profile` this way, and strings and arrays have no own property of either name.
- `Feed.PostDoc` types every post field except `imageUrl`, `likes`, `comments` and `createdAt` as present. A `createdAt` that is present but not a number (`null`, a string) is not modelled, so the comparator's behaviour on it is left out.
- `ProfileRoute.Create`: the new document is placed last in query order. That is a modelling convention. The code queries without `orderBy`, the store orders such results by document id, and new ids are random, so the real position of a new document is arbitrary. Which document is "first" only matters once two profiles share a `userId`. A payload naming another `userId` can cause that, since it wins over the request's. The model then picks the older document, and the code guarantees neither.
- `Feed.SortNewestFirst`: its contract states order and permutation, not stability. The definition keeps ties in stored order, as JavaScript's stable sort does, but no lemma proves it.
- `ProfileRoute.Create`: the two `Date.now()` reads in one object literal are taken as a single reading `now`. The code could see two readings a millisecond apart.
- Clock monotonicity, and collisions between comment ids made in the same millisecond, are not modelled. Each clock reading is a free parameter.
- Concurrency is not modelled: last-write-wins races between overlapping like or comment writes, and duplicate profiles from concurrent first saves. A sequential model cannot state them.
- Characters count as white space for `trim` by code point. The model has no other Unicode handling.
