/** The document store as the code sees it: a collection is a sequence of
    documents, in the order an equality query returns them. */
module Store {
  import opened Wrappers
  import opened Json

  /** A stored document: the id the store assigned, and its fields. */
  datatype Doc = Doc(id: string, fields: Object)

  /** `where(key, "==", v)` selects the document. */
  predicate Matches(d: Doc, key: string, v: Value) {
    key in d.fields && d.fields[key] == v
  }

  /** Position of the first document at or after `from` that the query selects. */
  function FirstMatchFrom(docs: seq<Doc>, key: string, v: Value, from: nat): (r: Option<nat>)
    requires from <= |docs|
    ensures r.None? <==> forall i :: from <= i < |docs| ==> !Matches(docs[i], key, v)
    ensures r.Some? ==> from <= r.value < |docs| && Matches(docs[r.value], key, v)
    ensures r.Some? ==> forall i :: from <= i < r.value ==> !Matches(docs[i], key, v)
    decreases |docs| - from
  {
    if from == |docs| then None
    else if Matches(docs[from], key, v) then Some(from)
    else FirstMatchFrom(docs, key, v, from + 1)
  }

  /** `querySnapshot.docs[0]` of the query, as a position; `None` when the
      snapshot is empty. */
  function FirstMatch(docs: seq<Doc>, key: string, v: Value): (r: Option<nat>)
    ensures r.None? <==> forall i :: 0 <= i < |docs| ==> !Matches(docs[i], key, v)
    ensures r.Some? ==> r.value < |docs| && Matches(docs[r.value], key, v)
    ensures r.Some? ==> forall i :: 0 <= i < r.value ==> !Matches(docs[i], key, v)
  {
    FirstMatchFrom(docs, key, v, 0)
  }
}
