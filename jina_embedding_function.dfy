/** `JinaEmbeddingFunction`: embeds texts with the Jina embeddings endpoint. As for MistralAI, the
    POST is a parameter from the request body to the decoded `data` items or to the message of
    the Guzzle exception the call raised. */
module JinaEmbeddingFunction {
  import opened Wrappers
  import opened Php
  import opened EmbeddingResponse

  datatype JinaEmbeddingFunction = JinaEmbeddingFunction(apiKey: string, model: string)

  const ApiUrl: string := "https://api.jina.ai/v1/embeddings"

  /** The constructor with its default model 'jina-embeddings-v2-base-en'. */
  function New(apiKey: string): (f: JinaEmbeddingFunction)
    ensures f.apiKey == apiKey && f.model == "jina-embeddings-v2-base-en"
  {
    JinaEmbeddingFunction(apiKey, "jina-embeddings-v2-base-en")
  }

  /** The headers of the client built on each call: a bearer token, a JSON content type and no
      compression. */
  function Headers(f: JinaEmbeddingFunction): (h: Dict)
    ensures h.Keys == {"Authorization", "Content-Type", "Accept-Encoding"}
    ensures h["Authorization"] == JString("Bearer " + f.apiKey)
    ensures h["Content-Type"] == JString("application/json")
    ensures h["Accept-Encoding"] == JString("identity")
  {
    map["Authorization" := JString("Bearer " + f.apiKey),
        "Content-Type" := JString("application/json"),
        "Accept-Encoding" := JString("identity")]
  }

  const FailureMessage: string := "Failed to generate embeddings"

  /** `generate($texts)`: posts the texts, then orders the returned items by index and keeps their
      embeddings; a Guzzle exception becomes a RuntimeException with a fixed message, code 0 and
      the exception as its previous one. */
  method Generate(f: JinaEmbeddingFunction, texts: seq<string>,
                  post: Dict -> Result<seq<IndexedEmbedding>, string>)
    returns (r: Result<seq<Json>, RuntimeException>)
    ensures post(RequestBody(f.model, texts)).Success? ==>
      r == Success(Normalise(post(RequestBody(f.model, texts)).value))
    ensures post(RequestBody(f.model, texts)).Failure? ==>
      r == Failure(RuntimeException(FailureMessage, 0, post(RequestBody(f.model, texts)).error))
  {
    var response := post(RequestBody(f.model, texts));
    match response
    case Success(items) =>
      var embeddings := NormaliseItems(items);
      r := Success(embeddings);
    case Failure(message) =>
      r := Failure(RuntimeException(FailureMessage, 0, message));
  }
}
