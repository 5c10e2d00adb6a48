/** The signed-in user as the identity provider hands it to the components. */
module Auth {
  import opened Wrappers

  /** A user: a uid, and a display name and photo URL that may be missing. */
  datatype User = User(uid: string, displayName: Option<string>, photoURL: Option<string>)

  /** `o || fallback` for an optional string: a missing or empty string is
      falsy and gives way to the fallback. */
  function OrElse(o: Option<string>, fallback: string): (r: string)
    ensures o.Some? && o.value != "" ==> r == o.value
    ensures (o.None? || o.value == "") ==> r == fallback
  {
    if o.Some? && o.value != "" then o.value else fallback
  }
}
