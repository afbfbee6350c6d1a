/** `ChromaApiClient`: the REST client. Modelled here are the translation of a failed call into a
    ChromaException (`handleChromaApiException`), the quote trim of `version()`, and the requests
    the collection resource hands to the client, which are recorded rather than sent. */
module ChromaApiClient {
  import opened Wrappers
  import opened Strings
  import opened Php
  import opened ChromaException
  import AddEmbeddingRequest
  import UpdateEmbeddingRequest
  import GetEmbeddingRequest
  import DeleteEmbeddingRequest
  import QueryEmbeddingRequest
  import UpdateCollectionRequest

  // ---------------------------------------------------------------------------------------------
  // Error classification

  /** The exception a call raised: a ServerException (HTTP 5xx, whose body is inspected) or any
      other client exception. */
  datatype ClientException =
    | ServerException(body: string, message: string, code: int)
    | OtherException(message: string, code: int)

  /** What the handler throws: a ChromaException, or the TypeError strict typing raises when the
      decoded 'error' or 'detail' entry is not a string. */
  datatype Thrown = Chroma(exception: ChromaException) | PhpTypeError

  /** The text the look-behind `(?<={""error":")` requires before the captured run. */
  const ErrorMarker: string := "{\"\"error\":\""

  /** `([^"]*)`: the longest prefix of `s` without a double quote. */
  function TakeUntilQuote(s: string): (r: string)
    ensures StartsWith(s, r)
    ensures '"' !in r
    ensures |r| == |s| || s[|r|] == '"'
  {
    if s == [] || s[0] == '"' then "" else [s[0]] + TakeUntilQuote(s[1..])
  }

  /** Lines 322-326: the body, or the quote-free run after the first occurrence of the marker. */
  function ExtractErrorString(body: string): (r: string)
    ensures !Contains(body, ErrorMarker) ==> r == body
    ensures IndexOf(body, ErrorMarker).Some? ==>
      var start := IndexOf(body, ErrorMarker).value + |ErrorMarker|;
      StartsWith(body[start..], r) && '"' !in r
      && (start + |r| == |body| || body[start + |r|] == '"')
  {
    match IndexOf(body, ErrorMarker)
    case Some(p) => TakeUntilQuote(body[p + |ErrorMarker|..])
    case None => body
  }

  /** `\w` without the Unicode flag. */
  predicate IsWordChar(c: char) {
    'a' <= c <= 'z' || 'A' <= c <= 'Z' || '0' <= c <= '9' || c == '_'
  }

  predicate AllWordChars(s: string) {
    forall i :: 0 <= i < |s| ==> IsWordChar(s[i])
  }

  /** The longest prefix of word characters. */
  function WordPrefix(s: string): (w: string)
    ensures StartsWith(s, w) && AllWordChars(w)
    ensures |w| < |s| ==> !IsWordChar(s[|w|])
  {
    if s == [] || !IsWordChar(s[0]) then "" else [s[0]] + WordPrefix(s[1..])
  }

  /** A string in which PCRE's `.` matches every character. */
  predicate NoNewline(s: string) {
    '\n' !in s
  }

  datatype TypedError = TypedError(errorType: string, message: string)

  /** `preg_match('/^(?P<error_type>\w+)\((?P<message>.*)\)$/', $s)`: `$` also matches before a
      final newline, and `.` does not match a newline. */
  function MatchTypedError(s: string): Option<TypedError> {
    var w := WordPrefix(s);
    if |w| == 0 || |w| == |s| || s[|w|] != '(' then None
    else MatchTail(w, s[|w| + 1..])
  }

  /** The part of the pattern after the opening parenthesis: `(.*)\)$`. */
  function MatchTail(w: string, rest: string): Option<TypedError> {
    if EndsWith(rest, ")") && NoNewline(rest[..|rest| - 1]) then
      Some(TypedError(w, rest[..|rest| - 1]))
    else if EndsWith(rest, ")\n") && NoNewline(rest[..|rest| - 2]) then
      Some(TypedError(w, rest[..|rest| - 2]))
    else None
  }

  /** The shapes the pattern accepts, spelled out. */
  predicate TypedErrorShape(s: string, t: string, m: string) {
    |t| > 0 && AllWordChars(t) && NoNewline(m)
    && (s == t + "(" + m + ")" || s == t + "(" + m + ")\n")
  }

  lemma {:induction false} WordPrefixOfWordThenOther(t: string, rest: string)
    requires AllWordChars(t)
    requires rest == [] || !IsWordChar(rest[0])
    ensures WordPrefix(t + rest) == t
  {
    if t != [] {
      assert (t + rest)[1..] == t[1..] + rest;
      WordPrefixOfWordThenOther(t[1..], rest);
    }
  }

  lemma MatchTailOfShape(w: string, m: string)
    requires NoNewline(m)
    ensures MatchTail(w, m + ")") == Some(TypedError(w, m))
    ensures MatchTail(w, m + ")\n") == Some(TypedError(w, m))
  {
    var r1 := m + ")";
    assert r1[..|r1| - 1] == m;
    var r2 := m + ")\n";
    assert r2[|r2| - 1..] == "\n";
    assert r2[|r2| - 2..] == ")\n";
    assert r2[..|r2| - 2] == m;
  }

  lemma MatchTailShape(w: string, rest: string)
    requires MatchTail(w, rest).Some?
    ensures MatchTail(w, rest).value.errorType == w
    ensures var m := MatchTail(w, rest).value.message;
      NoNewline(m) && (rest == m + ")" || rest == m + ")\n")
  {
    if EndsWith(rest, ")") && NoNewline(rest[..|rest| - 1]) {
      assert rest == rest[..|rest| - 1] + ")";
    } else {
      assert rest == rest[..|rest| - 2] + ")\n";
    }
  }

  /** Every shape is matched, with the type and message the shape names. */
  lemma ShapeIsMatched(s: string, t: string, m: string)
    requires TypedErrorShape(s, t, m)
    ensures MatchTypedError(s) == Some(TypedError(t, m))
  {
    var tail := s[|t|..];
    assert s == t + tail;
    assert tail[0] == '(';
    WordPrefixOfWordThenOther(t, tail);
    MatchTailOfShape(t, m);
    assert s[|t| + 1..] == m + ")" || s[|t| + 1..] == m + ")\n";
  }

  /** Every match is one of the shapes. */
  lemma MatchedIsShape(s: string)
    requires MatchTypedError(s).Some?
    ensures TypedErrorShape(s, MatchTypedError(s).value.errorType, MatchTypedError(s).value.message)
  {
    var w := WordPrefix(s);
    var rest := s[|w| + 1..];
    MatchTailShape(w, rest);
    assert s == s[..|w|] + [s[|w|]] + rest;
  }

  /** `MatchTypedError` finds a type and message exactly when the subject has one of the shapes,
      and then they are the ones the shape names. */
  lemma MatchTypedErrorIsShape(s: string, t: string, m: string)
    ensures MatchTypedError(s) == Some(TypedError(t, m)) <==> TypedErrorShape(s, t, m)
  {
    if TypedErrorShape(s, t, m) {
      ShapeIsMatched(s, t, m);
    }
    if MatchTypedError(s) == Some(TypedError(t, m)) {
      MatchedIsShape(s);
    }
  }

  /** Lines 342-345: one leading and one trailing single quote go, and only together. */
  function StripSingleQuotes(m: string): (r: string)
    ensures StartsWith(m, "'") && EndsWith(m, "'") && |m| >= 2 ==> m == "'" + r + "'"
    ensures m == "'" ==> r == ""
    ensures !(StartsWith(m, "'") && EndsWith(m, "'")) ==> r == m
  {
    if StartsWith(m, "'") && EndsWith(m, "'") then
      (if |m| >= 2 then m[1..|m| - 1] else "")
    else m
  }

  /** `$error[$key]` for a decoded body: only an associative array has string keys; any other
      decoded value reads as null there. */
  function Entry(error: Json, key: string): Json {
    if error.JObject? then Read(error.fields, key) else JNull
  }

  /** The ChromaException for a message whose type is guessed from its text. */
  function Inferred(message: string, code: int): ChromaException {
    ThrowSpecific(message, InferTypeFromMessage(message), code)
  }

  /** `handleChromaApiException($e)`: what it throws (it never returns). `decode` stands for
      `json_decode(..., true)`, JNull for its null. */
  function HandleChromaApiException(e: ClientException, decode: string -> Json): (t: Thrown)
    ensures t.Chroma? ==> t.exception.code == e.code
    ensures e.OtherException? ==> t == Chroma(ChromaException(Base, e.message, e.code))
    ensures e.ServerException? && decode(ExtractErrorString(e.body)) == JNull ==>
      t == Chroma(ChromaException(Base, e.message, e.code))
  {
    var generic := Chroma(ChromaException(Base, e.message, e.code));
    if e.OtherException? then generic
    else
      var error := decode(ExtractErrorString(e.body));
      if error == JNull then generic
      else
        var errorEntry := Entry(error, "error");
        var detail := Entry(error, "detail");
        if !(errorEntry.JNull? || errorEntry.JString?) then PhpTypeError
        else
          var subject := if errorEntry.JString? then errorEntry.s else "";
          match MatchTypedError(subject)
          case Some(TypedError(errorType, message)) =>
            Chroma(ThrowSpecific(StripSingleQuotes(message), errorType, e.code))
          case None =>
            if detail != JNull then
              (if detail.JString? then Chroma(Inferred(detail.s, e.code)) else PhpTypeError)
            else if errorEntry.JString? then Chroma(Inferred(errorEntry.s, e.code))
            else generic
  }

  /** First precedence: an 'error' of the form `Type(message)` names the type itself, whatever
      'detail' holds. */
  lemma TypedErrorFirst(e: ClientException, decode: string -> Json, t: string, m: string)
    requires e.ServerException?
    requires Entry(decode(ExtractErrorString(e.body)), "error") == JString(t + "(" + m + ")")
    requires |t| > 0 && AllWordChars(t) && NoNewline(m)
    ensures HandleChromaApiException(e, decode)
      == Chroma(ThrowSpecific(StripSingleQuotes(m), t, e.code))
  {
    MatchTypedErrorIsShape(t + "(" + m + ")", t, m);
  }

  /** Under `strict_types`, a non-string 'error' passed to `preg_match`, or a non-string
      'detail' passed to `inferTypeFromMessage`, raises a TypeError; nothing else does. */
  lemma NonStringEntryIsTypeError(e: ClientException, decode: string -> Json)
    requires e.ServerException? && decode(ExtractErrorString(e.body)) != JNull
    ensures var error := decode(ExtractErrorString(e.body));
      var errorEntry := Entry(error, "error");
      var detail := Entry(error, "detail");
      HandleChromaApiException(e, decode) == PhpTypeError <==>
        !(errorEntry.JNull? || errorEntry.JString?)
        || (MatchTypedError(if errorEntry.JString? then errorEntry.s else "").None?
            && !detail.JNull? && !detail.JString?)
  {
  }

  /** Second: without that shape, a string 'detail' is the message and its type is guessed. */
  lemma DetailSecond(e: ClientException, decode: string -> Json, detail: string)
    requires e.ServerException?
    requires var error := decode(ExtractErrorString(e.body));
      Entry(error, "detail") == JString(detail)
      && (Entry(error, "error") == JNull
          || (Entry(error, "error").JString? && MatchTypedError(Entry(error, "error").s).None?))
    ensures HandleChromaApiException(e, decode) == Chroma(Inferred(detail, e.code))
  {
  }

  /** Last: with no 'detail', a plain string 'error' is the message and its type is guessed. */
  lemma PlainErrorLast(e: ClientException, decode: string -> Json, message: string)
    requires e.ServerException?
    requires var error := decode(ExtractErrorString(e.body));
      Entry(error, "detail") == JNull && Entry(error, "error") == JString(message)
      && MatchTypedError(message).None?
    ensures HandleChromaApiException(e, decode) == Chroma(Inferred(message, e.code))
  {
  }

  /** A decoded body with neither entry gives the generic exception with the exception's own
      message, not the body. */
  lemma NoShapeIsGeneric(e: ClientException, decode: string -> Json)
    requires e.ServerException?
    requires var error := decode(ExtractErrorString(e.body));
      Entry(error, "detail") == JNull && Entry(error, "error") == JNull
    ensures HandleChromaApiException(e, decode) == Chroma(ChromaException(Base, e.message, e.code))
  {
    assert WordPrefix("") == "";
  }

  lemma NotFoundScenarioStrings(t: string, m: string, inner: string)
    requires t == "NotFoundError" && inner == "Collection test does not exist"
    requires m == "'" + inner + "'"
    ensures AllWordChars(t) && NoNewline(m)
    ensures StripSingleQuotes(m) == inner
  {
    assert m[1..|m| - 1] == inner;
  }

  /** The body `{"error": "NotFoundError('Collection test does not exist')"}`. */
  lemma NotFoundScenario(e: ClientException, decode: string -> Json)
    requires e.ServerException? && !Contains(e.body, ErrorMarker)
    requires decode(e.body)
      == JObject(map["error" := JString("NotFoundError" + "(" + ("'" + "Collection test does not exist" + "'") + ")")])
    ensures HandleChromaApiException(e, decode)
      == Chroma(ChromaException(NotFound, "Collection test does not exist", e.code))
  {
    var t, inner := "NotFoundError", "Collection test does not exist";
    var m := "'" + inner + "'";
    NotFoundScenarioStrings(t, m, inner);
    assert ExtractErrorString(e.body) == e.body;
    TypedErrorFirst(e, decode, t, m);
  }

  // ---------------------------------------------------------------------------------------------
  // version()

  predicate AllQuotes(s: string) {
    forall i :: 0 <= i < |s| ==> s[i] == '"'
  }

  function TrimStart(s: string): (r: string)
    ensures |r| <= |s| && r == s[|s| - |r|..] && AllQuotes(s[..|s| - |r|])
    ensures r == [] || r[0] != '"'
  {
    if s != [] && s[0] == '"' then TrimStart(s[1..]) else s
  }

  function TrimEnd(s: string): (r: string)
    ensures |r| <= |s| && r == s[..|r|] && AllQuotes(s[|r|..])
    ensures r == [] || r[|r| - 1] != '"'
  {
    if s != [] && s[|s| - 1] == '"' then TrimEnd(s[..|s| - 1]) else s
  }

  /** `trim($body, '"')` as `version()` applies it: every leading and trailing double quote goes,
      inner ones stay. */
  function TrimQuotes(s: string): (r: string)
    ensures r == [] || (r[0] != '"' && r[|r| - 1] != '"')
    ensures exists i :: (0 <= i <= |s| - |r| && s[i..i + |r|] == r
      && AllQuotes(s[..i]) && AllQuotes(s[i + |r|..]))
  {
    var a := TrimStart(s);
    var r := TrimEnd(a);
    var i := |s| - |a|;
    assert s[i..i + |r|] == r;
    assert s[i + |r|..] == a[|r|..];
    r
  }

  /** Trimming twice is trimming once. */
  lemma TrimQuotesIdempotent(s: string)
    ensures TrimQuotes(TrimQuotes(s)) == TrimQuotes(s)
  {
    var r := TrimQuotes(s);
    assert TrimStart(r) == r;
    assert TrimEnd(r) == r;
  }

  // ---------------------------------------------------------------------------------------------
  // Requests handed to the client

  /** The Guzzle client the API client wraps: its base URI and default headers. */
  class HttpClient {
    const baseUri: string
    const headers: map<string, string>

    constructor (baseUri: string, headers: map<string, string>)
      ensures this.baseUri == baseUri && this.headers == headers
    {
      this.baseUri := baseUri;
      this.headers := headers;
    }
  }

  /** One call the collection resource makes, with the collection id and request object. */
  datatype ApiCall =
    | Add(collectionId: string, addRequest: AddEmbeddingRequest.AddEmbeddingRequest)
    | Upsert(collectionId: string, addRequest: AddEmbeddingRequest.AddEmbeddingRequest)
    | Update(collectionId: string, updateRequest: UpdateEmbeddingRequest.UpdateEmbeddingRequest)
    | Get(collectionId: string, getRequest: GetEmbeddingRequest.GetEmbeddingRequest)
    | Delete(collectionId: string, deleteRequest: DeleteEmbeddingRequest.DeleteEmbeddingRequest)
    | GetNearestNeighbors(collectionId: string, queryRequest: QueryEmbeddingRequest.QueryEmbeddingRequest)
    | Count(collectionId: string)
    | UpdateCollection(collectionId: string, modifyRequest: UpdateCollectionRequest.UpdateCollectionRequest)

  class ChromaApiClient {
    const httpClient: HttpClient

    /** Every call made through this client, oldest first. */
    ghost var sent: seq<ApiCall>

    constructor (httpClient: HttpClient)
      ensures this.httpClient == httpClient && sent == []
    {
      this.httpClient := httpClient;
      sent := [];
    }

    /** Issues one call; the transport and the server's reply are not modelled. */
    method Send(call: ApiCall)
      modifies this
      ensures sent == old(sent) + [call]
    {
      sent := sent + [call];
    }
  }
}
