/** `CreateCollectionRequest`: the body of the create-collection call. */
module CreateCollectionRequest {
  import opened Wrappers
  import opened Php

  datatype CreateCollectionRequest = CreateCollectionRequest(
    name: string,
    metadata: Option<Arr>,
    getOrCreate: bool)

  /** The constructor with `getOrCreate` left at its default. */
  function New(name: string, metadata: Option<Arr>): (r: CreateCollectionRequest)
    ensures !r.getOrCreate
    ensures r.name == name && r.metadata == metadata
  {
    CreateCollectionRequest(name, metadata, false)
  }

  /** `create($data)`: 'name' required, 'metadata' defaults to null, 'get_or_create' to false. */
  function Create(data: Dict): (r: Option<CreateCollectionRequest>)
    ensures r.Some? <==>
      "name" in data && data["name"].JString? && NullOrArray(data, "metadata")
      && (Read(data, "get_or_create") == JNull || Read(data, "get_or_create").JBool?)
    ensures r.Some? ==>
      JString(r.value.name) == data["name"]
      && FromNullableArr(r.value.metadata) == Read(data, "metadata")
      && (r.value.getOrCreate <==> Read(data, "get_or_create") == JBool(true))
  {
    var name :- ReadString(data, "name");
    var metadata :- ReadNullableArray(data, "metadata");
    var getOrCreate :- ReadBool(data, "get_or_create", false);
    Some(CreateCollectionRequest(name, metadata, getOrCreate))
  }

  /** `toArray()`: exactly name, metadata and get_or_create, null metadata kept. */
  function ToArray(r: CreateCollectionRequest): (d: Dict)
    ensures d.Keys == {"name", "metadata", "get_or_create"}
    ensures d["name"] == JString(r.name)
    ensures d["metadata"] == FromNullableArr(r.metadata)
    ensures d["get_or_create"] == JBool(r.getOrCreate)
  {
    map[
      "name" := JString(r.name),
      "metadata" := FromNullableArr(r.metadata),
      "get_or_create" := JBool(r.getOrCreate)]
  }

  lemma RoundTrip(r: CreateCollectionRequest)
    ensures Create(ToArray(r)) == Some(r)
  {
  }
}
