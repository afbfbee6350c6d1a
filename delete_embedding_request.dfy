/** `DeleteEmbeddingRequest`: the body of the delete call. */
module DeleteEmbeddingRequest {
  import opened Wrappers
  import opened Php

  datatype DeleteEmbeddingRequest = DeleteEmbeddingRequest(
    ids: Option<Arr>,
    where: Option<Arr>,
    whereDocument: Option<Arr>)

  const Keys: set<string> := {"ids", "where", "where_document"}

  /** `create($data)`: all three keys optional. */
  function Create(data: Dict): (r: Option<DeleteEmbeddingRequest>)
    ensures r.Some? <==>
      NullOrArray(data, "ids") && NullOrArray(data, "where") && NullOrArray(data, "where_document")
    ensures r.Some? ==>
      FromNullableArr(r.value.ids) == Read(data, "ids")
      && FromNullableArr(r.value.where) == Read(data, "where")
      && FromNullableArr(r.value.whereDocument) == Read(data, "where_document")
  {
    var ids :- ReadNullableArray(data, "ids");
    var where :- ReadNullableArray(data, "where");
    var whereDocument :- ReadNullableArray(data, "where_document");
    Some(DeleteEmbeddingRequest(ids, where, whereDocument))
  }

  /** `toArray()`: exactly the three keys, nulls kept. */
  function ToArray(r: DeleteEmbeddingRequest): (d: Dict)
    ensures d.Keys == Keys
    ensures d["ids"] == FromNullableArr(r.ids)
    ensures d["where"] == FromNullableArr(r.where)
    ensures d["where_document"] == FromNullableArr(r.whereDocument)
  {
    map[
      "ids" := FromNullableArr(r.ids),
      "where" := FromNullableArr(r.where),
      "where_document" := FromNullableArr(r.whereDocument)]
  }

  lemma RoundTrip(r: DeleteEmbeddingRequest)
    ensures Create(ToArray(r)) == Some(r)
  {
  }

  /** Serialising what `create` read gives the three keys, an absent key as null. */
  lemma CreateThenToArray(data: Dict)
    requires Create(data).Some?
    ensures ToArray(Create(data).value) == map k | k in Keys :: Read(data, k)
  {
  }
}
