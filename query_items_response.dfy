/** `QueryItemsResponse`: the reply to a nearest-neighbour query; `toArray` drops falsy
    entries. */
module QueryItemsResponse {
  import opened Wrappers
  import opened Php

  datatype QueryItemsResponse = QueryItemsResponse(
    ids: Arr,
    embeddings: Option<Arr>,
    metadatas: Option<Arr>,
    documents: Option<Arr>,
    data: Option<Arr>,
    uris: Option<Arr>,
    distances: Option<Arr>)

  const Keys: set<string> :=
    {"ids", "embeddings", "metadatas", "documents", "data", "uris", "distances"}

  /** `from($data)`: 'ids' required, the six others default to null. */
  function From(data: Dict): (r: Option<QueryItemsResponse>)
    ensures r.Some? <==>
      "ids" in data && data["ids"].IsArray()
      && NullOrArray(data, "embeddings") && NullOrArray(data, "metadatas")
      && NullOrArray(data, "documents") && NullOrArray(data, "data")
      && NullOrArray(data, "uris") && NullOrArray(data, "distances")
    ensures r.Some? ==>
      r.value.ids == data["ids"]
      && FromNullableArr(r.value.embeddings) == Read(data, "embeddings")
      && FromNullableArr(r.value.metadatas) == Read(data, "metadatas")
      && FromNullableArr(r.value.documents) == Read(data, "documents")
      && FromNullableArr(r.value.data) == Read(data, "data")
      && FromNullableArr(r.value.uris) == Read(data, "uris")
      && FromNullableArr(r.value.distances) == Read(data, "distances")
  {
    var ids :- ReadArray(data, "ids");
    var embeddings :- ReadNullableArray(data, "embeddings");
    var metadatas :- ReadNullableArray(data, "metadatas");
    var documents :- ReadNullableArray(data, "documents");
    var items :- ReadNullableArray(data, "data");
    var uris :- ReadNullableArray(data, "uris");
    var distances :- ReadNullableArray(data, "distances");
    Some(QueryItemsResponse(ids, embeddings, metadatas, documents, items, uris, distances))
  }

  predicate Kept(a: Option<Arr>) {
    a.Some? && ArrayTruthy(a.value)
  }

  /** `toArray()`: the seven keys minus the falsy ones, `ids` included when empty. */
  function ToArray(r: QueryItemsResponse): (d: Dict)
    ensures d.Keys <= Keys
    ensures "ids" in d <==> ArrayTruthy(r.ids)
    ensures "embeddings" in d <==> Kept(r.embeddings)
    ensures "metadatas" in d <==> Kept(r.metadatas)
    ensures "documents" in d <==> Kept(r.documents)
    ensures "data" in d <==> Kept(r.data)
    ensures "uris" in d <==> Kept(r.uris)
    ensures "distances" in d <==> Kept(r.distances)
    ensures "ids" in d ==> d["ids"] == r.ids
    ensures "embeddings" in d ==> d["embeddings"] == r.embeddings.value
    ensures "metadatas" in d ==> d["metadatas"] == r.metadatas.value
    ensures "documents" in d ==> d["documents"] == r.documents.value
    ensures "data" in d ==> d["data"] == r.data.value
    ensures "uris" in d ==> d["uris"] == r.uris.value
    ensures "distances" in d ==> d["distances"] == r.distances.value
    ensures forall k :: k in d ==> Truthy(d[k])
  {
    var m := Entries(r);
    KeptEntry(m, "embeddings", r.embeddings);
    KeptEntry(m, "metadatas", r.metadatas);
    KeptEntry(m, "documents", r.documents);
    KeptEntry(m, "data", r.data);
    KeptEntry(m, "uris", r.uris);
    KeptEntry(m, "distances", r.distances);
    FilterFalsy(m)
  }

  /** A nullable array entry survives the filter exactly when it is kept, and keeps its value. */
  lemma KeptEntry(m: Dict, k: string, a: Option<Arr>)
    requires k in m && m[k] == FromNullableArr(a)
    ensures k in FilterFalsy(m) <==> Kept(a)
    ensures k in FilterFalsy(m) ==> FilterFalsy(m)[k] == a.value
  {
  }

  /** The seven entries before filtering, one per field. */
  function Entries(r: QueryItemsResponse): (m: Dict)
    ensures m.Keys == Keys
    ensures m["ids"] == r.ids
    ensures m["embeddings"] == FromNullableArr(r.embeddings)
    ensures m["metadatas"] == FromNullableArr(r.metadatas)
    ensures m["documents"] == FromNullableArr(r.documents)
    ensures m["data"] == FromNullableArr(r.data)
    ensures m["uris"] == FromNullableArr(r.uris)
    ensures m["distances"] == FromNullableArr(r.distances)
  {
    map[
      "ids" := r.ids,
      "embeddings" := FromNullableArr(r.embeddings),
      "metadatas" := FromNullableArr(r.metadatas),
      "documents" := FromNullableArr(r.documents),
      "data" := FromNullableArr(r.data),
      "uris" := FromNullableArr(r.uris),
      "distances" := FromNullableArr(r.distances)]
  }

  predicate Survives(a: Option<Arr>) {
    a.None? || ArrayTruthy(a.value)
  }

  /** The reader of one optional field, applied to a filtered entry, gives the field back when it
      was kept and null when it was dropped. */
  lemma ReadBackOptional(d: Dict, k: string, a: Option<Arr>)
    requires k in d <==> Kept(a)
    requires k in d ==> d[k] == FromNullableArr(a)
    ensures ReadNullableArray(d, k) == Some(if Kept(a) then a else None)
  {
  }

  /** A reply reads back unchanged exactly when ids is non-empty and each optional field is null
      or non-empty. */
  lemma RoundTrip(r: QueryItemsResponse)
    ensures From(ToArray(r)) == Some(r) <==>
      ArrayTruthy(r.ids) && Survives(r.embeddings) && Survives(r.metadatas)
      && Survives(r.documents) && Survives(r.data) && Survives(r.uris) && Survives(r.distances)
  {
    var d := ToArray(r);
    ReadBackOptional(d, "embeddings", r.embeddings);
    ReadBackOptional(d, "metadatas", r.metadatas);
    ReadBackOptional(d, "documents", r.documents);
    ReadBackOptional(d, "data", r.data);
    ReadBackOptional(d, "uris", r.uris);
    ReadBackOptional(d, "distances", r.distances);
  }
}
