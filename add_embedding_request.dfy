/** `AddEmbeddingRequest`: the body of the add and upsert calls. */
module AddEmbeddingRequest {
  import opened Wrappers
  import opened Php

  datatype AddEmbeddingRequest = AddEmbeddingRequest(
    embeddings: Option<Arr>,
    metadatas: Option<Arr>,
    ids: Arr,
    documents: Option<Arr>,
    images: Option<Arr>)

  /** `create($data)`: 'ids' is required, the other four default to null. */
  function Create(data: Dict): (r: Option<AddEmbeddingRequest>)
    ensures r.Some? <==>
      "ids" in data && data["ids"].IsArray()
      && NullOrArray(data, "embeddings") && NullOrArray(data, "metadatas")
      && NullOrArray(data, "documents") && NullOrArray(data, "images")
    ensures r.Some? ==>
      r.value.ids == data["ids"]
      && FromNullableArr(r.value.embeddings) == Read(data, "embeddings")
      && FromNullableArr(r.value.metadatas) == Read(data, "metadatas")
      && FromNullableArr(r.value.documents) == Read(data, "documents")
      && FromNullableArr(r.value.images) == Read(data, "images")
  {
    var embeddings :- ReadNullableArray(data, "embeddings");
    var metadatas :- ReadNullableArray(data, "metadatas");
    var ids :- ReadArray(data, "ids");
    var documents :- ReadNullableArray(data, "documents");
    var images :- ReadNullableArray(data, "images");
    Some(AddEmbeddingRequest(embeddings, metadatas, ids, documents, images))
  }

  /** `toArray()`: four keys, nulls kept, and no 'images' key at all. */
  function ToArray(r: AddEmbeddingRequest): (d: Dict)
    ensures d.Keys == {"embeddings", "metadatas", "ids", "documents"}
    ensures "images" !in d
    ensures d["ids"] == r.ids
    ensures d["embeddings"] == FromNullableArr(r.embeddings)
    ensures d["metadatas"] == FromNullableArr(r.metadatas)
    ensures d["documents"] == FromNullableArr(r.documents)
  {
    map[
      "embeddings" := FromNullableArr(r.embeddings),
      "metadatas" := FromNullableArr(r.metadatas),
      "ids" := r.ids,
      "documents" := FromNullableArr(r.documents)]
  }

  /** Reading the serialised form back loses the images and nothing else. */
  lemma RoundTrip(r: AddEmbeddingRequest)
    ensures Create(ToArray(r)) == Some(r.(images := None))
  {
  }
}
