/** `Models\Database`: a database as the server describes it. */
module Database {
  import opened Wrappers
  import opened Php

  datatype Database = Database(id: string, name: string, tenant: Option<string>)

  const Keys: set<string> := {"id", "name", "tenant"}

  /** `make($data)`: 'id' and 'name' required strings, 'tenant' defaults to null. */
  function Make(data: Dict): (r: Option<Database>)
    ensures r.Some? <==>
      "id" in data && data["id"].JString? && "name" in data && data["name"].JString?
      && (Read(data, "tenant") == JNull || Read(data, "tenant").JString?)
    ensures r.Some? ==>
      JString(r.value.id) == data["id"] && JString(r.value.name) == data["name"]
      && FromNullableString(r.value.tenant) == Read(data, "tenant")
  {
    var id :- ReadString(data, "id");
    var name :- ReadString(data, "name");
    var tenant :- ReadNullableString(data, "tenant");
    Some(Database(id, name, tenant))
  }

  /** `toArray()`: exactly id, name and tenant, null tenant kept. */
  function ToArray(db: Database): (d: Dict)
    ensures d.Keys == Keys
    ensures d["id"] == JString(db.id) && d["name"] == JString(db.name)
    ensures d["tenant"] == FromNullableString(db.tenant)
  {
    map["id" := JString(db.id), "name" := JString(db.name), "tenant" := FromNullableString(db.tenant)]
  }

  lemma RoundTrip(db: Database)
    ensures Make(ToArray(db)) == Some(db)
  {
  }

  /** Keys other than the three are ignored. */
  lemma ExtraKeysIgnored(data: Dict)
    ensures Make(data) == Make(Restrict(data, Keys))
  {
  }
}
