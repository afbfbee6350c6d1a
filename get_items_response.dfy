/** `GetItemsResponse`: the reply to get and peek; `toArray` drops falsy entries. */
module GetItemsResponse {
  import opened Wrappers
  import opened Php

  datatype GetItemsResponse = GetItemsResponse(
    ids: Arr,
    metadatas: Option<Arr>,
    embeddings: Option<Arr>,
    documents: Option<Arr>)

  /** `from($data)`: 'ids' required, the others default to null. */
  function From(data: Dict): (r: Option<GetItemsResponse>)
    ensures r.Some? <==>
      "ids" in data && data["ids"].IsArray()
      && NullOrArray(data, "metadatas") && NullOrArray(data, "embeddings")
      && NullOrArray(data, "documents")
    ensures r.Some? ==>
      r.value.ids == data["ids"]
      && FromNullableArr(r.value.metadatas) == Read(data, "metadatas")
      && FromNullableArr(r.value.embeddings) == Read(data, "embeddings")
      && FromNullableArr(r.value.documents) == Read(data, "documents")
  {
    var ids :- ReadArray(data, "ids");
    var metadatas :- ReadNullableArray(data, "metadatas");
    var embeddings :- ReadNullableArray(data, "embeddings");
    var documents :- ReadNullableArray(data, "documents");
    Some(GetItemsResponse(ids, metadatas, embeddings, documents))
  }

  predicate Kept(a: Option<Arr>) {
    a.Some? && ArrayTruthy(a.value)
  }

  /** `toArray()`: the four keys minus the falsy ones, `ids` included when empty. */
  function ToArray(r: GetItemsResponse): (d: Dict)
    ensures d.Keys <= {"ids", "metadatas", "embeddings", "documents"}
    ensures "ids" in d <==> ArrayTruthy(r.ids)
    ensures "metadatas" in d <==> Kept(r.metadatas)
    ensures "embeddings" in d <==> Kept(r.embeddings)
    ensures "documents" in d <==> Kept(r.documents)
    ensures "ids" in d ==> d["ids"] == r.ids
    ensures "metadatas" in d ==> d["metadatas"] == r.metadatas.value
    ensures "embeddings" in d ==> d["embeddings"] == r.embeddings.value
    ensures "documents" in d ==> d["documents"] == r.documents.value
    ensures forall k :: k in d ==> Truthy(d[k])
  {
    FilterFalsy(map[
      "ids" := r.ids,
      "metadatas" := FromNullableArr(r.metadatas),
      "embeddings" := FromNullableArr(r.embeddings),
      "documents" := FromNullableArr(r.documents)])
  }

  predicate Survives(a: Option<Arr>) {
    a.None? || ArrayTruthy(a.value)
  }

  /** A reply reads back unchanged exactly when ids is non-empty and each optional field is null
      or non-empty. */
  lemma RoundTrip(r: GetItemsResponse)
    ensures From(ToArray(r)) == Some(r) <==>
      ArrayTruthy(r.ids) && Survives(r.metadatas) && Survives(r.embeddings) && Survives(r.documents)
  {
  }
}
