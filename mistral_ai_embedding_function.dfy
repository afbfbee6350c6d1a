/** `MistralAIEmbeddingFunction`: embeds texts with the MistralAI embeddings endpoint. The POST
    itself is a parameter: a function from the request body to the decoded `data` items, or to
    the message of the client exception the call raised. */
module MistralAIEmbeddingFunction {
  import opened Wrappers
  import opened Php
  import opened EmbeddingResponse

  datatype MistralAIEmbeddingFunction = MistralAIEmbeddingFunction(
    apiKey: string,
    organization: string,
    model: string)

  const BaseUri: string := "https://api.mistral.ai/v1/"

  /** The constructor with its defaults: no organization, model 'mistral-embed'. */
  function New(apiKey: string): (f: MistralAIEmbeddingFunction)
    ensures f.apiKey == apiKey && f.organization == "" && f.model == "mistral-embed"
  {
    MistralAIEmbeddingFunction(apiKey, "", "mistral-embed")
  }

  /** The headers the client is built with: a bearer token and a JSON content type. */
  function Headers(f: MistralAIEmbeddingFunction): (h: Dict)
    ensures h.Keys == {"Authorization", "Content-Type"}
    ensures h["Authorization"] == JString("Bearer " + f.apiKey)
    ensures h["Content-Type"] == JString("application/json")
  {
    map["Authorization" := JString("Bearer " + f.apiKey),
        "Content-Type" := JString("application/json")]
  }

  const ErrorPrefix: string := "Error calling MistralAI API: "

  /** `generate($texts)`: posts the texts, then orders the returned items by index and keeps their
      embeddings; a client exception becomes a RuntimeException with code 0 that names it. */
  method Generate(f: MistralAIEmbeddingFunction, texts: seq<string>,
                  post: Dict -> Result<seq<IndexedEmbedding>, string>)
    returns (r: Result<seq<Json>, RuntimeException>)
    ensures post(RequestBody(f.model, texts)).Success? ==>
      r == Success(Normalise(post(RequestBody(f.model, texts)).value))
    ensures post(RequestBody(f.model, texts)).Failure? ==>
      var message := post(RequestBody(f.model, texts)).error;
      r == Failure(RuntimeException(ErrorPrefix + message, 0, message))
  {
    var response := post(RequestBody(f.model, texts));
    match response
    case Success(items) =>
      var embeddings := NormaliseItems(items);
      r := Success(embeddings);
    case Failure(message) =>
      r := Failure(RuntimeException(ErrorPrefix + message, 0, message));
  }
}
