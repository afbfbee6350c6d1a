/** `QueryEmbeddingRequest`: the body of the nearest-neighbour query. Its `toArray` drops only the
    null entries, so empty arrays and a zero `n_results` are sent. */
module QueryEmbeddingRequest {
  import opened Wrappers
  import opened Php

  datatype QueryEmbeddingRequest = QueryEmbeddingRequest(
    where: Option<Arr>,
    whereDocument: Option<Arr>,
    queryEmbeddings: Option<Arr>,
    nResults: Option<int>,
    includeFields: Option<Arr>)

  const Keys: set<string> := {"where", "where_document", "query_embeddings", "n_results", "include"}

  /** `create($data)`: every key is optional and read in snake_case. */
  function Create(data: Dict): (r: Option<QueryEmbeddingRequest>)
    ensures r.Some? <==>
      NullOrArray(data, "where") && NullOrArray(data, "where_document")
      && NullOrArray(data, "query_embeddings") && NullOrArray(data, "include")
      && (Read(data, "n_results") == JNull || Read(data, "n_results").JInt?)
    ensures r.Some? ==>
      FromNullableArr(r.value.where) == Read(data, "where")
      && FromNullableArr(r.value.whereDocument) == Read(data, "where_document")
      && FromNullableArr(r.value.queryEmbeddings) == Read(data, "query_embeddings")
      && FromNullableInt(r.value.nResults) == Read(data, "n_results")
      && FromNullableArr(r.value.includeFields) == Read(data, "include")
  {
    var where :- ReadNullableArray(data, "where");
    var whereDocument :- ReadNullableArray(data, "where_document");
    var queryEmbeddings :- ReadNullableArray(data, "query_embeddings");
    var nResults :- ReadNullableInt(data, "n_results");
    var includeFields :- ReadNullableArray(data, "include");
    Some(QueryEmbeddingRequest(where, whereDocument, queryEmbeddings, nResults, includeFields))
  }

  /** `toArray()`: the five snake_case keys, without the null ones. */
  function ToArray(r: QueryEmbeddingRequest): (d: Dict)
    ensures d.Keys <= Keys
    ensures "where" in d <==> r.where.Some?
    ensures "where_document" in d <==> r.whereDocument.Some?
    ensures "query_embeddings" in d <==> r.queryEmbeddings.Some?
    ensures "n_results" in d <==> r.nResults.Some?
    ensures "include" in d <==> r.includeFields.Some?
    ensures forall k :: k in d ==> d[k] != JNull
  {
    FilterNull(map[
      "where" := FromNullableArr(r.where),
      "where_document" := FromNullableArr(r.whereDocument),
      "query_embeddings" := FromNullableArr(r.queryEmbeddings),
      "n_results" := FromNullableInt(r.nResults),
      "include" := FromNullableArr(r.includeFields)])
  }

  /** Every request reads back unchanged from its serialised form. */
  lemma RoundTrip(r: QueryEmbeddingRequest)
    ensures Create(ToArray(r)) == Some(r)
  {
  }

  /** Serialising what `create` read gives back the input's known keys with non-null values. */
  lemma CreateThenToArray(data: Dict)
    requires Create(data).Some?
    ensures ToArray(Create(data).value) == FilterNull(Restrict(data, Keys))
  {
  }
}
