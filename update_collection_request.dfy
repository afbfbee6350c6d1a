/** `UpdateCollectionRequest`: the body of the modify-collection call; `toArray` drops falsy
    values, so an empty or "0" name and empty metadata are not sent. */
module UpdateCollectionRequest {
  import opened Wrappers
  import opened Php

  datatype UpdateCollectionRequest = UpdateCollectionRequest(
    newName: Option<string>,
    newMetadata: Option<Arr>)

  /** `create($data)`: both keys optional. */
  function Create(data: Dict): (r: Option<UpdateCollectionRequest>)
    ensures r.Some? <==>
      (Read(data, "new_name") == JNull || Read(data, "new_name").JString?)
      && NullOrArray(data, "new_metadata")
    ensures r.Some? ==>
      FromNullableString(r.value.newName) == Read(data, "new_name")
      && FromNullableArr(r.value.newMetadata) == Read(data, "new_metadata")
  {
    var newName :- ReadNullableString(data, "new_name");
    var newMetadata :- ReadNullableArray(data, "new_metadata");
    Some(UpdateCollectionRequest(newName, newMetadata))
  }

  /** `toArray()`: new_name only when it is a truthy string, new_metadata only when non-empty. */
  function ToArray(r: UpdateCollectionRequest): (d: Dict)
    ensures d.Keys <= {"new_name", "new_metadata"}
    ensures "new_name" in d <==> r.newName.Some? && StringTruthy(r.newName.value)
    ensures "new_metadata" in d <==> r.newMetadata.Some? && ArrayTruthy(r.newMetadata.value)
    ensures "new_name" in d ==> d["new_name"] == JString(r.newName.value)
    ensures "new_metadata" in d ==> d["new_metadata"] == r.newMetadata.value
    ensures forall k :: k in d ==> Truthy(d[k])
  {
    FilterFalsy(map[
      "new_name" := FromNullableString(r.newName),
      "new_metadata" := FromNullableArr(r.newMetadata)])
  }

  /** The request reads back unchanged exactly when its name is null or truthy and its metadata is
      null or non-empty. */
  lemma RoundTrip(r: UpdateCollectionRequest)
    ensures Create(ToArray(r)) == Some(r) <==>
      (r.newName.None? || StringTruthy(r.newName.value))
      && (r.newMetadata.None? || ArrayTruthy(r.newMetadata.value))
  {
  }
}
