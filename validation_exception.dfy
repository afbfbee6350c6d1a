/** `ValidationException`: a request-validation error as the server reports it (location, message,
    type), with HTTP code 422 unless another is given. */
module ValidationException {
  import opened Wrappers
  import opened Php

  const DefaultCode := 422

  datatype ValidationException = ValidationException(loc: Arr, message: string, errorType: string, code: int)

  /** The constructor with its default code. */
  function New(loc: Arr, message: string, errorType: string): (e: ValidationException)
    ensures e.code == 422
    ensures e.loc == loc && e.message == message && e.errorType == errorType
  {
    ValidationException(loc, message, errorType, DefaultCode)
  }

  /** `make($data)`: the message comes from key 'msg'; a missing or wrongly typed entry is the
      TypeError PHP raises (None). */
  function Make(data: Dict): (r: Option<ValidationException>)
    ensures r.Some? <==>
      "loc" in data && data["loc"].IsArray()
      && "msg" in data && data["msg"].JString?
      && "type" in data && data["type"].JString?
    ensures r.Some? ==>
      r.value.loc == data["loc"] && JString(r.value.message) == data["msg"]
      && JString(r.value.errorType) == data["type"] && r.value.code == 422
  {
    var loc :- ReadArray(data, "loc");
    var message :- ReadString(data, "msg");
    var errorType :- ReadString(data, "type");
    Some(New(loc, message, errorType))
  }

  /** `__toString`. */
  function ToString(e: ValidationException): (s: string)
    ensures |s| == |"ValidationException: "| + |e.message|
    ensures s[..21] == "ValidationException: " && s[21..] == e.message
  {
    "ValidationException: " + e.message
  }

  /** `toArray`: the message is written under 'message', not 'msg'. */
  function ToArray(e: ValidationException): (d: Dict)
    ensures d.Keys == {"loc", "message", "type"}
    ensures d["loc"] == e.loc && d["message"] == JString(e.message) && d["type"] == JString(e.errorType)
  {
    map["loc" := e.loc, "message" := JString(e.message), "type" := JString(e.errorType)]
  }

  /** Because of the key rename, `make(toArray())` never reads back an exception. */
  lemma ToArrayIsNotMakeInput(e: ValidationException)
    ensures Make(ToArray(e)) == None
  {
  }

  /** What `make` read from 'msg' comes back out under 'message'. */
  lemma MakeThenToArray(data: Dict)
    requires Make(data).Some?
    ensures ToArray(Make(data).value)
      == map["loc" := data["loc"], "message" := data["msg"], "type" := data["type"]]
  {
  }
}
