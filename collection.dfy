/** `Models\Collection`: a collection as the server describes it. */
module Collection {
  import opened Wrappers
  import opened Php

  datatype Collection = Collection(name: string, id: string, metadata: Option<Arr>)

  const Keys: set<string> := {"name", "id", "metadata"}

  /** `make($data)`: 'name' and 'id' required strings, 'metadata' defaults to null. */
  function Make(data: Dict): (r: Option<Collection>)
    ensures r.Some? <==>
      "name" in data && data["name"].JString? && "id" in data && data["id"].JString?
      && NullOrArray(data, "metadata")
    ensures r.Some? ==>
      JString(r.value.name) == data["name"] && JString(r.value.id) == data["id"]
      && FromNullableArr(r.value.metadata) == Read(data, "metadata")
  {
    var name :- ReadString(data, "name");
    var id :- ReadString(data, "id");
    var metadata :- ReadNullableArray(data, "metadata");
    Some(Collection(name, id, metadata))
  }

  /** `toArray()`: exactly name, id and metadata, null metadata kept. */
  function ToArray(c: Collection): (d: Dict)
    ensures d.Keys == Keys
    ensures d["name"] == JString(c.name) && d["id"] == JString(c.id)
    ensures d["metadata"] == FromNullableArr(c.metadata)
  {
    map["name" := JString(c.name), "id" := JString(c.id), "metadata" := FromNullableArr(c.metadata)]
  }

  lemma RoundTrip(c: Collection)
    ensures Make(ToArray(c)) == Some(c)
  {
  }

  /** Keys other than the three are ignored. */
  lemma ExtraKeysIgnored(data: Dict)
    ensures Make(data) == Make(Restrict(data, Keys))
  {
  }
}
