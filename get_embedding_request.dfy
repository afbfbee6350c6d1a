/** `GetEmbeddingRequest`: the body of the get and peek calls. `create` reads the document filter
    from 'where_document' but `toArray` writes it as 'whereDocument'. */
module GetEmbeddingRequest {
  import opened Wrappers
  import opened Php

  datatype GetEmbeddingRequest = GetEmbeddingRequest(
    ids: Option<Arr>,
    where: Option<Arr>,
    whereDocument: Option<Arr>,
    sort: Option<string>,
    limit: Option<int>,
    offset: Option<int>,
    includeFields: Option<Arr>)

  /** The constructor with all seven parameters left at their default, null. */
  const Empty := GetEmbeddingRequest(None, None, None, None, None, None, None)

  /** `create($data)`: every key optional; the document filter comes from 'where_document'. */
  function Create(data: Dict): (r: Option<GetEmbeddingRequest>)
    ensures r.Some? <==>
      NullOrArray(data, "ids") && NullOrArray(data, "where") && NullOrArray(data, "where_document")
      && (Read(data, "sort") == JNull || Read(data, "sort").JString?)
      && (Read(data, "limit") == JNull || Read(data, "limit").JInt?)
      && (Read(data, "offset") == JNull || Read(data, "offset").JInt?)
      && NullOrArray(data, "include")
    ensures r.Some? ==>
      FromNullableArr(r.value.ids) == Read(data, "ids")
      && FromNullableArr(r.value.where) == Read(data, "where")
      && FromNullableArr(r.value.whereDocument) == Read(data, "where_document")
      && FromNullableString(r.value.sort) == Read(data, "sort")
      && FromNullableInt(r.value.limit) == Read(data, "limit")
      && FromNullableInt(r.value.offset) == Read(data, "offset")
      && FromNullableArr(r.value.includeFields) == Read(data, "include")
  {
    var ids :- ReadNullableArray(data, "ids");
    var where :- ReadNullableArray(data, "where");
    var whereDocument :- ReadNullableArray(data, "where_document");
    var sort :- ReadNullableString(data, "sort");
    var limit :- ReadNullableInt(data, "limit");
    var offset :- ReadNullableInt(data, "offset");
    var includeFields :- ReadNullableArray(data, "include");
    Some(GetEmbeddingRequest(ids, where, whereDocument, sort, limit, offset, includeFields))
  }

  /** `toArray()`: all seven keys, nulls kept, the document filter under 'whereDocument'. */
  function ToArray(r: GetEmbeddingRequest): (d: Dict)
    ensures d.Keys == {"ids", "where", "whereDocument", "sort", "limit", "offset", "include"}
    ensures "where_document" !in d
    ensures d["whereDocument"] == FromNullableArr(r.whereDocument)
  {
    map[
      "ids" := FromNullableArr(r.ids),
      "where" := FromNullableArr(r.where),
      "whereDocument" := FromNullableArr(r.whereDocument),
      "sort" := FromNullableString(r.sort),
      "limit" := FromNullableInt(r.limit),
      "offset" := FromNullableInt(r.offset),
      "include" := FromNullableArr(r.includeFields)]
  }

  /** Because of the key mismatch the document filter does not survive a round trip. */
  lemma RoundTrip(r: GetEmbeddingRequest)
    ensures Create(ToArray(r)) == Some(r.(whereDocument := None))
  {
  }
}
