/** `UpdateEmbeddingRequest`: the body of the update call. Its `toArray` runs `array_filter`
    without a callback, so every falsy entry (null, an empty array) is dropped. */
module UpdateEmbeddingRequest {
  import opened Wrappers
  import opened Php

  datatype UpdateEmbeddingRequest = UpdateEmbeddingRequest(
    embeddings: Option<Arr>,
    ids: Arr,
    metadatas: Option<Arr>,
    documents: Option<Arr>,
    images: Option<Arr>)

  /** `create($data)`: 'ids' is required, the other four default to null. */
  function Create(data: Dict): (r: Option<UpdateEmbeddingRequest>)
    ensures r.Some? <==>
      "ids" in data && data["ids"].IsArray()
      && NullOrArray(data, "embeddings") && NullOrArray(data, "metadatas")
      && NullOrArray(data, "documents") && NullOrArray(data, "images")
    ensures r.Some? ==>
      r.value.ids == data["ids"]
      && FromNullableArr(r.value.embeddings) == Read(data, "embeddings")
      && FromNullableArr(r.value.metadatas) == Read(data, "metadatas")
      && FromNullableArr(r.value.documents) == Read(data, "documents")
      && FromNullableArr(r.value.images) == Read(data, "images")
  {
    var embeddings :- ReadNullableArray(data, "embeddings");
    var ids :- ReadArray(data, "ids");
    var metadatas :- ReadNullableArray(data, "metadatas");
    var documents :- ReadNullableArray(data, "documents");
    var images :- ReadNullableArray(data, "images");
    Some(UpdateEmbeddingRequest(embeddings, ids, metadatas, documents, images))
  }

  /** A nullable array field survives `array_filter` exactly when it is a non-empty array. */
  predicate Kept(a: Option<Arr>) {
    a.Some? && ArrayTruthy(a.value)
  }

  /** `toArray()`: 'images' is never written, and an empty or null field, `ids` included, is
      dropped. */
  function ToArray(r: UpdateEmbeddingRequest): (d: Dict)
    ensures d.Keys <= {"embeddings", "ids", "metadatas", "documents"}
    ensures "ids" in d <==> ArrayTruthy(r.ids)
    ensures "embeddings" in d <==> Kept(r.embeddings)
    ensures "metadatas" in d <==> Kept(r.metadatas)
    ensures "documents" in d <==> Kept(r.documents)
    ensures "embeddings" in d ==> d["embeddings"] == r.embeddings.value
    ensures "ids" in d ==> d["ids"] == r.ids
    ensures "metadatas" in d ==> d["metadatas"] == r.metadatas.value
    ensures "documents" in d ==> d["documents"] == r.documents.value
    ensures forall k :: k in d ==> Truthy(d[k])
  {
    FilterFalsy(map[
      "embeddings" := FromNullableArr(r.embeddings),
      "ids" := r.ids,
      "metadatas" := FromNullableArr(r.metadatas),
      "documents" := FromNullableArr(r.documents)])
  }

  /** A field reads back unchanged exactly when it is null or non-empty. */
  predicate Survives(a: Option<Arr>) {
    a.None? || ArrayTruthy(a.value)
  }

  /** `create(toArray())` gives the request back exactly when ids is non-empty, there are no
      images, and every other field is null or non-empty. */
  lemma RoundTrip(r: UpdateEmbeddingRequest)
    ensures Create(ToArray(r)) == Some(r) <==>
      ArrayTruthy(r.ids) && r.images.None?
      && Survives(r.embeddings) && Survives(r.metadatas) && Survives(r.documents)
  {
  }
}
