# chromadb-php client core in Dafny

This project models the client-side logic of the PHP client for the ChromaDB vector database.
Indexing, storage and similarity search all happen on the server, so what the client itself
decides is small:

- **Batch validation and query-source selection** in `CollectionResource`. `validate` is shared by
  add, update and upsert. It resolves a batch of ids, embeddings, metadatas, documents and images,
  or fails with a fixed message. `query` picks one of three query sources. `get`, `peek` and
  `query` fill in defaults. The public methods then hand one request object to the API client.
- **Server-error classification** in `ChromaApiClient::handleChromaApiException`. This covers:
  - the body extraction;
  - the `Type(message)` pattern;
  - the quote stripping;
  - the keyword-based type inference of `ChromaException`;
  - the type-to-class maps of `ChromaException::throwSpecific` and `ChromaApiExceptionFactory::make`.
- **Provider response normalisation** in the MistralAI and Jina embedding functions. The response
  items are sorted by `index` (PHP 8's stable `usort`), then their `embedding` is projected.
- **The request, response and model (de)serialisers** (`create`/`make`/`from` and `toArray`). These
  are written over a small JSON value type, with PHP truthiness for `array_filter`.
- **`Factory`**, the fluent builder, and the message rules of `ChromaDBException` and
  `ValidationException`.

## Layout

There is one module per PHP class, plus three helper modules:
- `Wrappers` holds `Option` and `Result`.
- `Strings` holds substrings, `implode` and the decimal cast of integers.
- `Php` holds:
  - the `Json` value;
  - truthiness;
  - loose `!= null`, under which an empty array is absent;
  - the `??` lookup;
  - `array_filter`;
  - typed readers.

A PHP `TypeError` under `strict_types`, or a missing required key, is modelled as `None` from
`create`/`make`/`from`, not as a precondition.

Some parts are modelled in Dafny's imperative forms:
- `CollectionResource` and `Factory` are classes.
- The API client records the calls it is given in a ghost log, `sent`.
- The providers' in-place `usort` is an insertion sort on an `array`. It is proved equal to a
  functional stable insertion sort (`Sort`), and all sorting properties are proved about `Sort`.

The embedding function is a parameter. It maps the texts to either the embeddings or the message
of the exception it raised. `validate` and `query` also report the texts they passed to it. This
lets the model say which failures happen before any embedding is generated.

Four facts about the code that a reader might not expect; the model states each as written:
- `query`'s test at `src/Resources/CollectionResource.php:290` chains two `xor`s. PHP groups
  them left to right, so the test accepts exactly one source or all three
  (`CollectionResource.OneQuerySourceIffOdd`).
- The duplicate filter at `src/Resources/CollectionResource.php:396-399` keeps every id that
  occurs more than once, with all of its occurrences. So the message repeats an id once per
  occurrence (`CollectionResource.DuplicatesAreRepeatedOccurrences`).
- The length check at `src/Resources/CollectionResource.php:366-375` guards each list with a loose
  `!= null`. An empty list is loosely null, so it skips the check (`CollectionResource.Mismatched`).
- `throwSpecific` (`src/Generated/Exceptions/ChromaException.php:11-27`) knows exactly five type
  names. `ChromaApiExceptionFactory::make`
  (`src/Generated/Exceptions/ChromaApiExceptionFactory.php:12-17`) knows three. Every other name
  becomes the generic exception (`ChromaException.ThrowSpecific`,
  `ChromaApiExceptionFactory.Make`).

## Model

| member | source | states |
|---|---|---|
| CollectionResource.Validate | src/Resources/CollectionResource.php:347-409 | Fails with the missing-source error exactly when a source is required and embeddings, documents and images are all null (strict test). Fails with the length error exactly when that does not apply and some non-empty list's count differs from the ids' count. Neither error generates anything. Otherwise the embeddings are resolved as `ResolveEmbeddings` does, with the same generator input. A resolve error is returned as it is. When resolving succeeds, distinct ids give the batch of ids, the resolved embeddings, metadatas, documents and images, and repeated ids give the duplicate error listing `Duplicates(ids)`, which is then non-empty. |
| CollectionResource.ValidBatchAccepted | src/Resources/CollectionResource.php:347-409 | A batch with a source, matching lengths, distinct ids and embeddings that resolve is accepted unchanged, with those embeddings. |
| CollectionResource.ResolveEmbeddings | src/Resources/CollectionResource.php:377-393 | Non-empty embeddings are used as given and nothing is generated. Otherwise: with no embedding function, fail; else generate from the documents if non-empty, else from the images if non-empty, else fail. The generator is called exactly in those cases, with that input, and its error is passed through. |
| CollectionResource.UniqueKeepsCountIffDistinct | src/Resources/CollectionResource.php:395 | `count(array_unique($ids)) !== count($ids)` holds exactly when some id repeats. |
| CollectionResource.DuplicatesEmptyIffDistinct | src/Resources/CollectionResource.php:396-399 | The filtered duplicate list is empty iff the ids are distinct. |
| CollectionResource.DuplicatesListEveryOccurrence | src/Resources/CollectionResource.php:396-399 | Example: ids a, a, b give the duplicate list a, a. |
| CollectionResource.DuplicatesAreRepeatedOccurrences | src/Resources/CollectionResource.php:396-399 | For all ids, the duplicate list is a subsequence of the ids (order kept), and it holds each id as often as the ids do when that is more than once, and otherwise not at all. |
| CollectionResource.DuplicateMessageExample | src/Resources/CollectionResource.php:400 | The message for ids a, a, b is "Expected IDs to be unique, found duplicates for: a, a". |
| CollectionResource.UpdateStillNeedsASource | src/Resources/CollectionResource.php:134-141 | `update` does not require a source, yet with embeddings, documents and images all null or empty it fails without generating anything. |
| CollectionResource.DuplicatesReportedAfterGenerate | src/Resources/CollectionResource.php:377-401 | For all repeated ids with documents of matching length and an embedding function that succeeds on them, the function has already been called with the documents when the duplicate error is raised. |
| CollectionResource.OneQuerySourceIffOdd | src/Resources/CollectionResource.php:289-295 | The chained `xor` guard accepts exactly when one or three of the query sources are non-empty. |
| CollectionResource.PrepareQuery | src/Resources/CollectionResource.php:277-324 | Rejects exactly the combinations the chained `xor` rejects, before generating anything. Never raises the documents-or-images error. When the guard passes, the embeddings are resolved as `ResolveEmbeddings` does (texts before images), with the same generator input. A resolve error, such as a missing embedding function or the function's own error, is returned as it is. A resolved success gives the query embeddings as a list. On success it carries where, whereDocument and nResults unchanged, and the include list or its default. |
| CollectionResource.AllThreeSourcesUseEmbeddings | src/Resources/CollectionResource.php:289-315 | With all three sources given, the guard passes and the query embeddings are used unchanged, without generating. |
| CollectionResource.TextsAndImagesRejected | src/Resources/CollectionResource.php:289-295 | Texts and images without embeddings are rejected as ambiguous. |
| CollectionResource.QueryByTexts | src/Resources/CollectionResource.php:299-305 | Texts alone, with a function that succeeds on them, give the generated embeddings as the query embeddings, and the texts are what was sent to the function. |
| CollectionResource.QueryWithoutEmbeddingFunction | src/Resources/CollectionResource.php:299-303 | Texts or images alone without an embedding function fail with the missing-function error, and nothing is generated. |
| CollectionResource.IncludeOrDefault | src/Resources/CollectionResource.php:211 | `??=` replaces only a null include with `['embeddings', 'metadatas', 'distances']`; an empty list is kept. |
| CollectionResource.AddRequest | src/Resources/CollectionResource.php:104-110 | The add/upsert body carries the resolved embeddings and the batch's ids, metadatas, documents and images. |
| CollectionResource.UpdateRequest | src/Resources/CollectionResource.php:143-149 | The update body carries the resolved embeddings and the batch's ids, metadatas, documents and images. |
| CollectionResource.CollectionResource.Make | src/Resources/CollectionResource.php:62-73 | The resource takes its name, id and metadata from the collection and keeps the database, tenant, embedding function and API client given. |
| CollectionResource.CollectionResource.Add | src/Resources/CollectionResource.php:85-113 | Validates with a source required; sends exactly one add call with the validated batch on success and nothing on failure. |
| CollectionResource.CollectionResource.Update | src/Resources/CollectionResource.php:126-152 | Validates without requiring a source; sends one update call on success and nothing on failure. |
| CollectionResource.CollectionResource.Upsert | src/Resources/CollectionResource.php:164-190 | As add, on the upsert endpoint. |
| CollectionResource.CollectionResource.Count | src/Resources/CollectionResource.php:195-198 | Sends one count call for this collection. |
| CollectionResource.CollectionResource.Peek | src/Resources/CollectionResource.php:206-219 | Sends a get call with only the limit and the (defaulted) include list set. |
| CollectionResource.PeekWithDefaults | src/Resources/CollectionResource.php:206-218 | `peek()` without arguments asks for 10 items with include embeddings, metadatas, distances. |
| CollectionResource.CollectionResource.Get | src/Resources/CollectionResource.php:231-252 | Sends a get call with every filter passed through and the include list defaulted. |
| CollectionResource.CollectionResource.Delete | src/Resources/CollectionResource.php:261-270 | Sends one delete call with the three filters. |
| CollectionResource.CollectionResource.Query | src/Resources/CollectionResource.php:277-327 | Sends the prepared nearest-neighbour request on success and nothing on failure. |
| CollectionResource.CollectionResource.Modify | src/Resources/CollectionResource.php:334-339 | Sends one update-collection call with the new name and metadata. |
| ChromaApiClient.TakeUntilQuote | src/Generated/ChromaApiClient.php:323 | `([^"]*)` captures the longest prefix without a double quote. |
| ChromaApiClient.ExtractErrorString | src/Generated/ChromaApiClient.php:322-326 | Without the marker the body is used whole; otherwise the maximal quote-free run right after the marker's first occurrence. |
| ChromaApiClient.WordPrefix | src/Generated/ChromaApiClient.php:333 | `\w+` matches the longest prefix of word characters. |
| ChromaApiClient.MatchTypedErrorIsShape | src/Generated/ChromaApiClient.php:333-340 | The pattern yields type t and message m exactly when the subject is `t(m)` (optionally followed by one newline), with t non-empty word characters and m newline-free. |
| ChromaApiClient.StripSingleQuotes | src/Generated/ChromaApiClient.php:342-345 | One leading and one trailing single quote are removed only when both are present; otherwise the message is unchanged. |
| ChromaApiClient.HandleChromaApiException | src/Generated/ChromaApiClient.php:319-370 | Every ChromaException thrown carries the original code. A non-server exception, or a body that decodes to null, gives the generic exception with the exception's own message. |
| ChromaApiClient.TypedErrorFirst | src/Generated/ChromaApiClient.php:333-340 | An `error` of the form `Type(message)` decides the type, whatever `detail` holds. |
| ChromaApiClient.DetailSecond | src/Generated/ChromaApiClient.php:351-357 | Otherwise a string `detail` is the message and its type is inferred. |
| ChromaApiClient.PlainErrorLast | src/Generated/ChromaApiClient.php:359-365 | With no `detail`, a plain string `error` is the message and its type is inferred. |
| ChromaApiClient.NonStringEntryIsTypeError | src/Generated/ChromaApiClient.php:330-357 | For a decoded body, a `TypeError` is raised exactly when `error` is neither null nor a string (it reaches `preg_match`), or when `error` has no `Type(message)` shape and `detail` is set but not a string (it reaches `inferTypeFromMessage`). |
| ChromaApiClient.NoShapeIsGeneric | src/Generated/ChromaApiClient.php:328-369 | A decoded body with neither entry gives the generic exception with `$e->getMessage()`, not the body. |
| ChromaApiClient.NotFoundScenario | src/Generated/ChromaApiClient.php:333-345 | `{"error": "NotFoundError('Collection test does not exist')"}` gives a not-found exception with the unquoted message. |
| ChromaApiClient.TrimQuotes | src/Generated/ChromaApiClient.php:56 | The result is the input without all leading and trailing double quotes, and it neither starts nor ends with one. |
| ChromaApiClient.TrimQuotesIdempotent | src/Generated/ChromaApiClient.php:56 | Trimming twice equals trimming once. |
| ChromaException.ThrowSpecific | src/Generated/Exceptions/ChromaException.php:11-27 | A subclass is chosen iff the type is one of the five listed names, and then it is that name's subclass. Message and code are untouched. |
| ChromaException.InferTypeFromMessage | src/Generated/Exceptions/ChromaException.php:29-37 | Case-sensitive keyword tests in the order NotFoundError, UniqueConstraintError, ValueError, lower-case 'dimensionality'; the first hit wins. The result is one of five names and never TypeError. |
| ChromaException.InferredKindIsNeverType | src/Generated/Exceptions/ChromaException.php:24-37 | An inferred type never selects the type subclass, and UnknownError falls to the base class. |
| ChromaException.CapitalisedDimensionalityIsUnknown | src/Generated/Exceptions/ChromaException.php:35-36 | "Dimensionality" alone is inferred as UnknownError. |
| ChromaApiExceptionFactory.Make | src/Generated/Exceptions/ChromaApiExceptionFactory.php:10-17 | NotFoundError, ValueError and UniqueConstraintError map to their classes, each iff that name is given; message and code are kept. |
| ChromaApiExceptionFactory.AgreesWithThrowSpecific | src/Generated/Exceptions/ChromaApiExceptionFactory.php:10-17 | For every type, the factory's class is the coarsening of `throwSpecific`'s. |
| ChromaApiExceptionFactory.DimensionalityAndTypeAreGeneric | src/Generated/Exceptions/ChromaApiExceptionFactory.php:16 | DimensionalityError and TypeError map to the generic ChromaApiException. |
| EmbeddingResponse.SortIsSortedPermutation | src/Embeddings/MistralAIEmbeddingFunction.php:48 | The sorted items are ordered by ascending index and are a permutation of the response's items. |
| EmbeddingResponse.SortOfSortedIsIdentity | src/Embeddings/MistralAIEmbeddingFunction.php:48 | An already-ordered response is left as it is. |
| EmbeddingResponse.SortIsStable | src/Embeddings/MistralAIEmbeddingFunction.php:48 | The sort is stable: for every index, the items carrying it appear in the output in their input order. |
| EmbeddingResponse.Project | src/Embeddings/MistralAIEmbeddingFunction.php:50 | `output[i]` is the embedding of item i, and the length is kept. |
| EmbeddingResponse.Normalise | src/Embeddings/MistralAIEmbeddingFunction.php:46-50 | One embedding per response item. |
| EmbeddingResponse.NormaliseIsPermutation | src/Embeddings/MistralAIEmbeddingFunction.php:46-50 | The output embeddings are a permutation of the response's embeddings. |
| EmbeddingResponse.SortedRangeIsRange | src/Embeddings/MistralAIEmbeddingFunction.php:48 | An ascending permutation of lo..hi-1 is lo..hi-1 itself. |
| EmbeddingResponse.SortByTag | src/Embeddings/MistralAIEmbeddingFunction.php:48 | If the indices are 0..n-1 each once, the sorted indices are 0..n-1 in order. |
| EmbeddingResponse.NormaliseByTag | src/Embeddings/MistralAIEmbeddingFunction.php:48-50 | If the indices are 0..n-1 each once, the output at position k is the embedding tagged k, whatever the response order. |
| EmbeddingResponse.InsertAt | src/Embeddings/MistralAIEmbeddingFunction.php:48 | Inserting after the last item with a smaller or equal index places the item at that position. |
| EmbeddingResponse.InsertInPlace | src/Embeddings/MistralAIEmbeddingFunction.php:48 | Shifts the larger-indexed items right by one and places the item after the last one not larger; everything else is unchanged. |
| EmbeddingResponse.SortInPlace | src/Embeddings/MistralAIEmbeddingFunction.php:48 | The array ends as the stable sort of its old contents. |
| EmbeddingResponse.NormaliseItems | src/Embeddings/MistralAIEmbeddingFunction.php:46-50 | The embeddings equal the normalised response. |
| MistralAIEmbeddingFunction.New | src/Embeddings/MistralAIEmbeddingFunction.php:15-19 | The organization defaults to "" and the model to "mistral-embed". |
| MistralAIEmbeddingFunction.Headers | src/Embeddings/MistralAIEmbeddingFunction.php:21-24 | Bearer authorization with the key, plus a JSON content type. |
| EmbeddingResponse.RequestBody | src/Embeddings/MistralAIEmbeddingFunction.php:39-44 | The body has exactly the model and the input texts; Jina builds the same body at src/Embeddings/JinaEmbeddingFunction.php:40-43. |
| MistralAIEmbeddingFunction.Generate | src/Embeddings/MistralAIEmbeddingFunction.php:35-55 | On a reply, the normalised embeddings. On a client error, a RuntimeException "Error calling MistralAI API: " + message, code 0, with the error as previous. |
| JinaEmbeddingFunction.New | src/Embeddings/JinaEmbeddingFunction.php:17-20 | The model defaults to "jina-embeddings-v2-base-en". |
| JinaEmbeddingFunction.Headers | src/Embeddings/JinaEmbeddingFunction.php:30-36 | Bearer authorization, JSON content type and identity encoding. |
| JinaEmbeddingFunction.Generate | src/Embeddings/JinaEmbeddingFunction.php:28-53 | On a reply, the normalised embeddings. On an error, RuntimeException 'Failed to generate embeddings', code 0, with the error as previous. |
| AddEmbeddingRequest.Create | src/Generated/Requests/AddEmbeddingRequest.php:48-57 | Succeeds iff ids is an array and the other four are null or arrays; those default to null. |
| AddEmbeddingRequest.ToArray | src/Generated/Requests/AddEmbeddingRequest.php:59-67 | Exactly the keys embeddings, metadatas, ids, documents, nulls kept; no images key. |
| AddEmbeddingRequest.RoundTrip | src/Generated/Requests/AddEmbeddingRequest.php:48-67 | `create(toArray(r))` is r with the images dropped. |
| UpdateEmbeddingRequest.Create | src/Generated/Requests/UpdateEmbeddingRequest.php:50-58 | Succeeds iff ids is an array and the others are null or arrays. |
| UpdateEmbeddingRequest.ToArray | src/Generated/Requests/UpdateEmbeddingRequest.php:61-68 | Drops every falsy entry, an empty ids included; never writes images. Each kept key holds its field's value. |
| UpdateEmbeddingRequest.RoundTrip | src/Generated/Requests/UpdateEmbeddingRequest.php:50-68 | The request reads back unchanged iff ids is non-empty, images is null and every optional field is null or non-empty. |
| QueryEmbeddingRequest.Create | src/Generated/Requests/QueryEmbeddingRequest.php:47-56 | Reads the five snake_case keys; a missing key gives null. |
| QueryEmbeddingRequest.ToArray | src/Generated/Requests/QueryEmbeddingRequest.php:58-67 | Keeps exactly the non-null fields under the five keys. |
| QueryEmbeddingRequest.RoundTrip | src/Generated/Requests/QueryEmbeddingRequest.php:47-67 | `create(toArray(r)) == r` for every request. |
| QueryEmbeddingRequest.CreateThenToArray | src/Generated/Requests/QueryEmbeddingRequest.php:47-67 | `toArray(create(d))` is d restricted to the five keys, without the null entries. |
| GetEmbeddingRequest.Create | src/Generated/Requests/GetEmbeddingRequest.php:60-71 | Every key is optional; the document filter is read from 'where_document'. |
| GetEmbeddingRequest.ToArray | src/Generated/Requests/GetEmbeddingRequest.php:73-84 | All seven keys, nulls kept, with the filter under 'whereDocument'. |
| GetEmbeddingRequest.RoundTrip | src/Generated/Requests/GetEmbeddingRequest.php:60-84 | `create(toArray(r))` is r with the document filter lost. |
| DeleteEmbeddingRequest.Create | src/Generated/Requests/DeleteEmbeddingRequest.php:35-42 | The three keys are optional and default to null. |
| DeleteEmbeddingRequest.ToArray | src/Generated/Requests/DeleteEmbeddingRequest.php:44-51 | Exactly ids, where, where_document, nulls kept. |
| DeleteEmbeddingRequest.RoundTrip | src/Generated/Requests/DeleteEmbeddingRequest.php:35-51 | `create(toArray(r)) == r`. |
| DeleteEmbeddingRequest.CreateThenToArray | src/Generated/Requests/DeleteEmbeddingRequest.php:35-51 | `toArray(create(d))` is d on the three keys, an absent key as null. |
| CreateCollectionRequest.New | src/Generated/Requests/CreateCollectionRequest.php:29 | `getOrCreate` defaults to false. |
| CreateCollectionRequest.Create | src/Generated/Requests/CreateCollectionRequest.php:34-41 | 'name' is required; metadata defaults to null and get_or_create to false. |
| CreateCollectionRequest.ToArray | src/Generated/Requests/CreateCollectionRequest.php:43-50 | Exactly name, metadata, get_or_create, null metadata kept. |
| CreateCollectionRequest.RoundTrip | src/Generated/Requests/CreateCollectionRequest.php:34-50 | `create(toArray(r)) == r`. |
| UpdateCollectionRequest.Create | src/Generated/Requests/UpdateCollectionRequest.php:27-33 | Reads new_name and new_metadata; missing keys give null. |
| UpdateCollectionRequest.ToArray | src/Generated/Requests/UpdateCollectionRequest.php:35-41 | Keeps new_name iff it is a truthy string and new_metadata iff it is non-empty, each with the field's value. |
| UpdateCollectionRequest.RoundTrip | src/Generated/Requests/UpdateCollectionRequest.php:27-41 | Reads back unchanged iff the name is null or truthy and the metadata is null or non-empty. |
| GetItemsResponse.From | src/Generated/Responses/GetItemsResponse.php:45-53 | 'ids' is required; the others default to null. |
| GetItemsResponse.ToArray | src/Generated/Responses/GetItemsResponse.php:55-63 | Drops falsy entries, an empty ids included, among the four keys. Each kept key holds its field's value. |
| GetItemsResponse.RoundTrip | src/Generated/Responses/GetItemsResponse.php:45-63 | Reads back unchanged iff ids is non-empty and each optional field is null or non-empty. |
| QueryItemsResponse.From | src/Generated/Responses/QueryItemsResponse.php:67-78 | 'ids' is required; the six others default to null. |
| QueryItemsResponse.ToArray | src/Generated/Responses/QueryItemsResponse.php:80-91 | Drops falsy entries, an empty ids included, among the seven keys. Each kept key holds its field's value. |
| QueryItemsResponse.RoundTrip | src/Generated/Responses/QueryItemsResponse.php:67-91 | Reads back unchanged iff ids is non-empty and each optional field is null or non-empty. |
| Collection.Make | src/Generated/Models/Collection.php:19-26 | Name and id are required strings; metadata defaults to null. |
| Collection.ToArray | src/Generated/Models/Collection.php:28-35 | Exactly name, id, metadata, null kept. |
| Collection.RoundTrip | src/Generated/Models/Collection.php:19-35 | `make(toArray(c)) == c`. |
| Collection.ExtraKeysIgnored | src/Generated/Models/Collection.php:19-26 | Keys other than the three do not affect `make`. |
| Database.Make | src/Generated/Models/Database.php:29-36 | Id and name are required strings; tenant defaults to null. |
| Database.ToArray | src/Generated/Models/Database.php:38-45 | Exactly id, name, tenant, null kept. |
| Database.RoundTrip | src/Generated/Models/Database.php:29-45 | `make(toArray(d)) == d`. |
| Database.ExtraKeysIgnored | src/Generated/Models/Database.php:29-36 | Keys other than the three do not affect `make`. |
| ValidationException.New | src/Generated/Exceptions/ValidationException.php:10-15 | The code defaults to 422. |
| ValidationException.Make | src/Generated/Exceptions/ValidationException.php:20-27 | The message is read from 'msg', with loc and type. |
| ValidationException.ToString | src/Generated/Exceptions/ValidationException.php:29-32 | "ValidationException: " followed by the message. |
| ValidationException.ToArray | src/Generated/Exceptions/ValidationException.php:34-41 | Exactly loc, message, type, with the message under 'message'. |
| ValidationException.ToArrayIsNotMakeInput | src/Generated/Exceptions/ValidationException.php:20-41 | Because of the key rename, `make(toArray(e))` never succeeds. |
| ValidationException.MakeThenToArray | src/Generated/Exceptions/ValidationException.php:20-41 | What `make` read under 'msg' is written back under 'message'. |
| ChromaDBException.New | src/Exceptions/ChromaDBException.php:16-25 | A truthy message wins (a list joined with newlines). Otherwise the code as a string is used when truthy, otherwise 'Unknown error'. |
| ChromaDBException.ZeroCodeIsUnknown | src/Exceptions/ChromaDBException.php:18-41 | With a falsy message, code 0 or null gives 'Unknown error', and the code is returned unchanged. |
| ChromaDBException.NonZeroCodeIsMessage | src/Exceptions/ChromaDBException.php:18-41 | With a falsy message, a non-zero code becomes the message, and it reads back as that number. |
| Factory.BaseUrl | src/Factory.php:101 | The base URL starts with the host followed by ':'. |
| Factory.BaseUrlRoundTrip | src/Factory.php:101 | The base URL splits back into the host and the decimal port. |
| Factory.DefaultBaseUrl | src/Factory.php:19-101 | With the defaults, the base URL is `http://localhost:8000`. |
| Factory.Factory.constructor | src/Factory.php:14-45 | Host 'http://localhost', port 8000, database 'default_database', tenant 'default_tenant'; no HTTP client, base URL or API client yet. |
| Factory.Factory.WithHost | src/Factory.php:50-54 | Sets only the host and returns the same factory. |
| Factory.Factory.WithPort | src/Factory.php:59-63 | Sets only the port and returns the same factory. |
| Factory.Factory.WithDatabase | src/Factory.php:68-72 | Sets only the database and returns the same factory. |
| Factory.Factory.WithTenant | src/Factory.php:77-81 | Sets only the tenant and returns the same factory. |
| Factory.Factory.WithHttpClient | src/Factory.php:86-90 | Sets only the HTTP client and returns the same factory. |
| Factory.Factory.CreateApiClient | src/Factory.php:99-112 | Sets the base URL. Keeps a supplied HTTP client, or builds one on the base URL with JSON headers. Returns a new API client over that HTTP client. |
| Factory.Factory.Connect | src/Factory.php:92-97 | Stores the new API client and hands it over with the configured database and tenant. |
| Factory.ConfiguredConnection | src/Factory.php:50-112 | `withHost('http://chroma')->withPort(9000)->connect()` builds on `http://chroma:9000` with the default database and tenant. |

## Left out

- HTTP transport: every Guzzle call in `ChromaApiClient` and the providers' POSTs. The server's
  replies to count, get and query are not modelled; those methods only record the call they make.
- The JSON encoder and decoder. `json_decode` is a function parameter. The JSON body Jina sends is
  modelled as the dictionary before encoding. Key order in PHP arrays is not modelled, because
  objects are maps.
- Embedding and distance values are floats. They are opaque JSON values here, with no numeric
  claims.
- A malformed provider reply (no `data`, or an item without `index` or `embedding`) is not modelled.
  The reply is taken as a list of (index, embedding) items with integer indices.
- PCRE: `.` and `$` are modelled for strings with at most a final newline (`$` before a final
  newline is included). Unicode `\w` is not modelled.
- CollectionResource.Validate: ids are compared with plain string equality. `array_keys` in the
  duplicate listing compares loosely, so numeric strings such as "1" and "01" would also count as
  repeats there. Lists are PHP lists, not associative arrays.
- `Client`, `ChromaDB` (a static facade) and the server-side create-if-missing logic of
  `initDatabaseAndTenant`. These depend entirely on server replies. `Factory.Connect` returns the
  arguments it would pass to `Client`.
- The Ollama, HuggingFace and OpenAI embedding functions. These are a per-text network loop, a
  pass-through of the server's JSON, and a stub with two fixed vectors.
- Tenant, CreateDatabaseRequest, CreateTenantRequest, CollectionInclude, UnserializableResponse and
  the EmbeddingFunction interface. They carry no logic; the interface is the function parameter.
- Server-side semantics: dimensionality checks, upsert, filter evaluation and distances.
- Exceptions are values (`Result`/`Option` or a returned exception datatype), not control flow.
  The stack trace and `previous` chain are kept only as the message of the wrapped error.
