/** `CollectionResource`: the handle on one collection. Its `validate` (shared by add, update and
    upsert) and the source selection of `query` are decision procedures over optional lists that
    either resolve a batch or fail before anything is sent; the public methods build a request
    object and hand it to the API client, which records it. */
module CollectionResource {
  import opened Wrappers
  import opened Strings
  import opened Php
  import Collection
  import AddEmbeddingRequest
  import UpdateEmbeddingRequest
  import GetEmbeddingRequest
  import DeleteEmbeddingRequest
  import QueryEmbeddingRequest
  import UpdateCollectionRequest
  import opened ChromaApiClient

  /** `EmbeddingFunction::generate`: texts (documents, or base64 images) to embeddings, or the
      message of the exception the provider raised. */
  type EmbeddingFunction = seq<string> -> Result<seq<Json>, string>

  // ---------------------------------------------------------------------------------------------
  // Duplicate ids

  predicate Distinct(ids: seq<string>) {
    forall i, j :: 0 <= i < j < |ids| ==> ids[i] != ids[j]
  }

  /** `array_unique($ids)`: the first occurrence of each id, in order. */
  function Unique(ids: seq<string>): (r: seq<string>)
    ensures |r| <= |ids|
  {
    if ids == [] then []
    else if ids[|ids| - 1] in ids[..|ids| - 1] then Unique(ids[..|ids| - 1])
    else Unique(ids[..|ids| - 1]) + [ids[|ids| - 1]]
  }

  /** The `count(array_unique($ids)) !== count($ids)` test detects exactly a repeated id. */
  lemma {:induction false} UniqueKeepsCountIffDistinct(ids: seq<string>)
    ensures |Unique(ids)| == |ids| <==> Distinct(ids)
  {
    if ids != [] {
      var init, last := ids[..|ids| - 1], ids[|ids| - 1];
      UniqueKeepsCountIffDistinct(init);
      if last in init {
        var k :| 0 <= k < |init| && init[k] == last;
        assert ids[k] == ids[|ids| - 1];
      } else {
        assert Distinct(ids) <==> Distinct(init);
      }
    }
  }

  /** The ids for which `count(array_keys($ids, $id)) > 1`, every occurrence kept, in order: what
      the `array_filter` at the duplicate check returns. */
  function Duplicates(ids: seq<string>): seq<string> {
    DuplicatesAmong(ids, ids)
  }

  function DuplicatesAmong(xs: seq<string>, ids: seq<string>): (r: seq<string>)
    ensures forall x :: x in r <==> x in xs && multiset(ids)[x] > 1
  {
    if xs == [] then []
    else (if multiset(ids)[xs[0]] > 1 then [xs[0]] else []) + DuplicatesAmong(xs[1..], ids)
  }

  /** An id equal to an earlier one occurs at least twice. */
  lemma RepeatedCountsTwice(ids: seq<string>, i: nat, j: nat)
    requires i < j < |ids| && ids[i] == ids[j]
    ensures multiset(ids)[ids[i]] > 1
  {
    assert ids == ids[..i] + [ids[i]] + ids[i + 1..j] + [ids[j]] + ids[j + 1..];
  }

  /** In a repetition-free list every id occurs once. */
  lemma {:induction false} DistinctCountsOnce(ids: seq<string>, i: nat)
    requires Distinct(ids) && i < |ids|
    ensures multiset(ids)[ids[i]] == 1
  {
    var init, last := ids[..|ids| - 1], ids[|ids| - 1];
    assert ids == init + [last];
    if i == |ids| - 1 {
      assert last !in init;
    } else {
      assert init[i] == ids[i];
      DistinctCountsOnce(init, i);
    }
  }

  lemma {:induction false} NoneRepeatedAmong(xs: seq<string>, ids: seq<string>)
    requires forall i :: 0 <= i < |xs| ==> multiset(ids)[xs[i]] <= 1
    ensures DuplicatesAmong(xs, ids) == []
  {
    if xs != [] {
      NoneRepeatedAmong(xs[1..], ids);
    }
  }

  /** The duplicate list is empty exactly when the ids are distinct. */
  lemma DuplicatesEmptyIffDistinct(ids: seq<string>)
    ensures Duplicates(ids) == [] <==> Distinct(ids)
  {
    if Distinct(ids) {
      forall i | 0 <= i < |ids|
        ensures multiset(ids)[ids[i]] <= 1
      {
        DistinctCountsOnce(ids, i);
      }
      NoneRepeatedAmong(ids, ids);
    } else {
      var i, j :| 0 <= i < j < |ids| && ids[i] == ids[j];
      RepeatedCountsTwice(ids, i, j);
      assert ids[i] in Duplicates(ids);
    }
  }

  /** `s` is `t` with some elements left out, the rest in their original order. */
  predicate Subsequence(s: seq<string>, t: seq<string>)
    decreases |t|
  {
    if s == [] then true
    else if t == [] then false
    else (s[0] == t[0] && Subsequence(s[1..], t[1..])) || Subsequence(s, t[1..])
  }

  lemma {:induction false} DuplicatesAmongInOrder(xs: seq<string>, ids: seq<string>)
    ensures Subsequence(DuplicatesAmong(xs, ids), xs)
  {
    if xs != [] {
      DuplicatesAmongInOrder(xs[1..], ids);
      var rest := DuplicatesAmong(xs[1..], ids);
      if multiset(ids)[xs[0]] > 1 {
        assert ([xs[0]] + rest)[1..] == rest;
      } else {
        assert DuplicatesAmong(xs, ids) == rest;
      }
    }
  }

  lemma {:induction false} DuplicatesAmongCount(xs: seq<string>, ids: seq<string>, x: string)
    ensures multiset(DuplicatesAmong(xs, ids))[x] == if multiset(ids)[x] > 1 then multiset(xs)[x] else 0
  {
    if xs != [] {
      DuplicatesAmongCount(xs[1..], ids, x);
      assert xs == [xs[0]] + xs[1..];
    }
  }

  /** The duplicate list keeps the ids' order and holds every occurrence of each repeated id and
      nothing else. */
  lemma DuplicatesAreRepeatedOccurrences(ids: seq<string>)
    ensures Subsequence(Duplicates(ids), ids)
    ensures forall x ::
      multiset(Duplicates(ids))[x] == (if multiset(ids)[x] > 1 then multiset(ids)[x] else 0)
  {
    DuplicatesAmongInOrder(ids, ids);
    forall x
      ensures multiset(Duplicates(ids))[x] == if multiset(ids)[x] > 1 then multiset(ids)[x] else 0
    {
      DuplicatesAmongCount(ids, ids, x);
    }
  }

  /** Every occurrence is listed: ids a, a, b report "a, a". */
  lemma DuplicatesListEveryOccurrence()
    ensures Duplicates(["a", "a", "b"]) == ["a", "a"]
  {
    var ids := ["a", "a", "b"];
    assert multiset(ids)["a"] == 2 && multiset(ids)["b"] == 1;
    assert DuplicatesAmong(ids[2..], ids) == [];
  }

  // ---------------------------------------------------------------------------------------------
  // Errors and outcomes

  /** The exceptions `validate` and `query` raise: InvalidArgumentExceptions with fixed messages,
      or whatever the embedding function threw, passed through. */
  datatype CollectionError =
    | MissingSource
    | LengthMismatch
    | MissingEmbeddingFunction
    | MissingDocumentsOrImages
    | DuplicateIds(duplicates: seq<string>)
    | AmbiguousQuerySource
    | EmbeddingFailed(message: string)

  function Message(e: CollectionError): string {
    match e
    case MissingSource => "You must provide embeddings, documents, or images"
    case LengthMismatch =>
      "The number of ids, embeddings, metadatas, documents, and images  must be the same"
    case MissingEmbeddingFunction =>
      "You must provide an embedding function if you did not provide embeddings"
    case MissingDocumentsOrImages =>
      "If you did not provide embeddings, you must provide documents or images"
    case DuplicateIds(duplicates) =>
      "Expected IDs to be unique, found duplicates for: " + Join(duplicates, ", ")
    case AmbiguousQuerySource =>
      "You must provide only one of queryEmbeddings, queryTexts, queryImages, or queryUris"
    case EmbeddingFailed(message) => message
  }

  lemma DuplicateMessageIs(duplicates: seq<string>)
    ensures Message(DuplicateIds(duplicates))
      == "Expected IDs to be unique, found duplicates for: " + Join(duplicates, ", ")
  {
  }

  /** Ids a, a, b are rejected with the message "... found duplicates for: a, a". */
  lemma DuplicateMessageExample()
    ensures Message(DuplicateIds(Duplicates(["a", "a", "b"])))
      == "Expected IDs to be unique, found duplicates for: a, a"
  {
    DuplicatesListEveryOccurrence();
    DuplicateMessageIs(["a", "a"]);
    assert Join(["a", "a"], ", ") == "a" + ", " + "a";
  }

  /** A result together with the texts passed to `generate`, if it was called. */
  datatype Outcome<T> = Outcome(generated: Option<seq<string>>, result: Result<T, CollectionError>)

  /** What `validate` returns. */
  datatype Batch = Batch(
    ids: seq<string>,
    embeddings: seq<Json>,
    metadatas: Option<seq<Json>>,
    documents: Option<seq<string>>,
    images: Option<seq<string>>)

  /** The texts `generate` receives when no embeddings were supplied: the first of the two
      sources that is non-empty. */
  function GenerateInput(texts: Option<seq<string>>, images: Option<seq<string>>): seq<string> {
    if Supplied(texts) then texts.value else if Supplied(images) then images.value else []
  }

  /** The embeddings branch shared by `validate` (documents, images) and `query` (queryTexts,
      queryImages): supplied non-empty embeddings are used as they are; otherwise an embedding
      function is required and is applied to the first non-empty source. */
  function ResolveEmbeddings(embeddings: Option<seq<Json>>, texts: Option<seq<string>>,
                             images: Option<seq<string>>, embeddingFunction: Option<EmbeddingFunction>)
    : (o: Outcome<seq<Json>>)
    ensures Supplied(embeddings) ==> o == Outcome(None, Success(embeddings.value))
    ensures o.generated.Some? <==>
      !Supplied(embeddings) && embeddingFunction.Some? && (Supplied(texts) || Supplied(images))
    ensures o.generated.Some? ==>
      o.generated.value == GenerateInput(texts, images)
      && o.result == (match embeddingFunction.value(GenerateInput(texts, images))
                      case Success(e) => Success(e)
                      case Failure(m) => Failure(EmbeddingFailed(m)))
    ensures !Supplied(embeddings) && embeddingFunction.None? ==>
      o.result == Failure(MissingEmbeddingFunction)
    ensures !Supplied(embeddings) && embeddingFunction.Some? && !Supplied(texts) && !Supplied(images)
      ==> o.result == Failure(MissingDocumentsOrImages)
  {
    if Supplied(embeddings) then Outcome(None, Success(embeddings.value))
    else if embeddingFunction.None? then Outcome(None, Failure(MissingEmbeddingFunction))
    else if Supplied(texts) || Supplied(images) then
      var input := if Supplied(texts) then texts.value else images.value;
      var generated := match embeddingFunction.value(input)
        case Success(e) => Success(e)
        case Failure(m) => Failure(EmbeddingFailed(m));
      Outcome(Some(input), generated)
    else Outcome(None, Failure(MissingDocumentsOrImages))
  }

  /** `$x != null && count($x) != count($ids)` for one of the four lists. */
  predicate Mismatched<T>(xs: Option<seq<T>>, ids: seq<string>) {
    Supplied(xs) && |xs.value| != |ids|
  }

  predicate AnyMismatch(ids: seq<string>, embeddings: Option<seq<Json>>, metadatas: Option<seq<Json>>,
                        documents: Option<seq<string>>, images: Option<seq<string>>) {
    Mismatched(embeddings, ids) || Mismatched(metadatas, ids)
    || Mismatched(documents, ids) || Mismatched(images, ids)
  }

  /** The guard at lines 358-364: a source is required and all three are strictly null. */
  predicate NoSource(requireEmbeddingsOrDocuments: bool, embeddings: Option<seq<Json>>,
                     documents: Option<seq<string>>, images: Option<seq<string>>) {
    requireEmbeddingsOrDocuments && embeddings.None? && documents.None? && images.None?
  }

  /** `validate(...)`: the first failing check, in source order, decides the error; a batch that
      passes every check is returned with the resolved embeddings. */
  function Validate(ids: seq<string>, embeddings: Option<seq<Json>>, metadatas: Option<seq<Json>>,
                    documents: Option<seq<string>>, images: Option<seq<string>>,
                    requireEmbeddingsOrDocuments: bool, embeddingFunction: Option<EmbeddingFunction>)
    : (o: Outcome<Batch>)
    ensures o.result == Failure(MissingSource) <==>
      NoSource(requireEmbeddingsOrDocuments, embeddings, documents, images)
    ensures o.result == Failure(LengthMismatch) <==>
      !NoSource(requireEmbeddingsOrDocuments, embeddings, documents, images)
      && AnyMismatch(ids, embeddings, metadatas, documents, images)
    ensures (NoSource(requireEmbeddingsOrDocuments, embeddings, documents, images)
             || AnyMismatch(ids, embeddings, metadatas, documents, images)) ==> o.generated.None?
    ensures (!NoSource(requireEmbeddingsOrDocuments, embeddings, documents, images)
             && !AnyMismatch(ids, embeddings, metadatas, documents, images)) ==>
      var resolved := ResolveEmbeddings(embeddings, documents, images, embeddingFunction);
      o.generated == resolved.generated
      && (resolved.result.Failure? ==> o.result == Failure(resolved.result.error))
      && (resolved.result.Success? && Distinct(ids) ==>
            o.result == Success(Batch(ids, resolved.result.value, metadatas, documents, images)))
      && (resolved.result.Success? && !Distinct(ids) ==>
            o.result == Failure(DuplicateIds(Duplicates(ids))))
    ensures o.result.Success? ==>
      Distinct(ids)
      && ResolveEmbeddings(embeddings, documents, images, embeddingFunction).result
         == Success(o.result.value.embeddings)
      && o.result.value == Batch(ids, o.result.value.embeddings, metadatas, documents, images)
    ensures o.result.Success? && Supplied(embeddings) ==> o.result.value.embeddings == embeddings.value
    ensures o.result.Failure? && o.result.error.DuplicateIds? ==> o.result.error.duplicates != []
  {
    if requireEmbeddingsOrDocuments && embeddings.None? && documents.None? && images.None? then
      Outcome(None, Failure(MissingSource))
    else if AnyMismatch(ids, embeddings, metadatas, documents, images) then
      Outcome(None, Failure(LengthMismatch))
    else
      var resolved := ResolveEmbeddings(embeddings, documents, images, embeddingFunction);
      match resolved.result
      case Failure(e) => Outcome(resolved.generated, Failure(e))
      case Success(finalEmbeddings) =>
        UniqueKeepsCountIffDistinct(ids);
        DuplicatesEmptyIffDistinct(ids);
        if |Unique(ids)| != |ids| then
          Outcome(resolved.generated, Failure(DuplicateIds(Duplicates(ids))))
        else
          Outcome(resolved.generated, Success(Batch(ids, finalEmbeddings, metadatas, documents, images)))
  }

  /** `update` passes `requireEmbeddingsOrDocuments: false`, yet a call with no embeddings, no
      documents and no images still fails, before any embedding is generated. */
  lemma UpdateStillNeedsASource(ids: seq<string>, embeddings: Option<seq<Json>>,
                                metadatas: Option<seq<Json>>, documents: Option<seq<string>>,
                                images: Option<seq<string>>, embeddingFunction: Option<EmbeddingFunction>)
    requires !Supplied(embeddings) && !Supplied(documents) && !Supplied(images)
    ensures var o := Validate(ids, embeddings, metadatas, documents, images, false, embeddingFunction);
      o.result.Failure? && o.generated.None?
  {
  }

  /** Duplicate ids are only reported once the embeddings are resolved: with documents and no
      embeddings, a repeated id fails after the embedding function has run on the documents. */
  lemma DuplicatesReportedAfterGenerate(ids: seq<string>, documents: seq<string>,
                                        f: EmbeddingFunction, e: seq<Json>)
    requires !Distinct(ids) && |documents| == |ids| && f(documents) == Success(e)
    ensures var o := Validate(ids, None, None, Some(documents), None, true, Some(f));
      o.generated == Some(documents) && o.result == Failure(DuplicateIds(Duplicates(ids)))
  {
    var i, j :| 0 <= i < j < |ids| && ids[i] == ids[j];
    assert |documents| > 0;
  }

  /** A well-formed batch is accepted: distinct ids, lists of the ids' length (or empty or null),
      and embeddings given or generated. */
  lemma ValidBatchAccepted(ids: seq<string>, embeddings: Option<seq<Json>>, metadatas: Option<seq<Json>>,
                           documents: Option<seq<string>>, images: Option<seq<string>>,
                           requireEmbeddingsOrDocuments: bool, embeddingFunction: Option<EmbeddingFunction>,
                           e: seq<Json>)
    requires Distinct(ids)
    requires !NoSource(requireEmbeddingsOrDocuments, embeddings, documents, images)
    requires !AnyMismatch(ids, embeddings, metadatas, documents, images)
    requires ResolveEmbeddings(embeddings, documents, images, embeddingFunction).result == Success(e)
    ensures Validate(ids, embeddings, metadatas, documents, images, requireEmbeddingsOrDocuments,
                     embeddingFunction).result == Success(Batch(ids, e, metadatas, documents, images))
  {
  }

  // ---------------------------------------------------------------------------------------------
  // query

  /** `['embeddings', 'metadatas', 'distances']`, the include list of query, get and peek when the
      caller gives none. */
  const DefaultInclude: Arr := StringList(["embeddings", "metadatas", "distances"])

  const DefaultNResults: int := 10
  const DefaultPeekLimit: int := 10

  /** `$include ??= [...]`: only a null include is replaced; an empty one is kept. */
  function IncludeOrDefault(includeFields: Option<Arr>): (r: Arr)
    ensures includeFields.Some? ==> r == includeFields.value
    ensures includeFields.None? ==> r == DefaultInclude
  {
    if includeFields.Some? then includeFields.value else DefaultInclude
  }

  /** The guard at the top of `query`: the chained `xor` of the three loose `!= null` tests. */
  predicate OneQuerySource(queryEmbeddings: Option<seq<Json>>, queryTexts: Option<seq<string>>,
                           queryImages: Option<seq<string>>) {
    (Supplied(queryEmbeddings) != Supplied(queryTexts)) != Supplied(queryImages)
  }

  function CountTrue(a: bool, b: bool, c: bool): nat {
    (if a then 1 else 0) + (if b then 1 else 0) + (if c then 1 else 0)
  }

  /** The chained xor accepts an odd number of sources: exactly one, or all three. */
  lemma OneQuerySourceIffOdd(queryEmbeddings: Option<seq<Json>>, queryTexts: Option<seq<string>>,
                             queryImages: Option<seq<string>>)
    ensures var n := CountTrue(Supplied(queryEmbeddings), Supplied(queryTexts), Supplied(queryImages));
      OneQuerySource(queryEmbeddings, queryTexts, queryImages) <==> n == 1 || n == 3
  {
  }

  /** `query(...)` up to the request it sends to `getNearestNeighbors`. */
  function PrepareQuery(queryEmbeddings: Option<seq<Json>>, queryTexts: Option<seq<string>>,
                        queryImages: Option<seq<string>>, nResults: int, where: Option<Arr>,
                        whereDocument: Option<Arr>, includeFields: Option<Arr>,
                        embeddingFunction: Option<EmbeddingFunction>)
    : (o: Outcome<QueryEmbeddingRequest.QueryEmbeddingRequest>)
    ensures !OneQuerySource(queryEmbeddings, queryTexts, queryImages) ==>
      o == Outcome(None, Failure(AmbiguousQuerySource))
    ensures o.result != Failure(MissingDocumentsOrImages)
    ensures o.generated.Some? ==> o.generated == Some(GenerateInput(queryTexts, queryImages))
    ensures o.result.Success? ==>
      OneQuerySource(queryEmbeddings, queryTexts, queryImages)
      && o.result.value.where == where && o.result.value.whereDocument == whereDocument
      && o.result.value.nResults == Some(nResults)
      && o.result.value.includeFields == Some(IncludeOrDefault(includeFields))
      && o.result.value.queryEmbeddings.Some? && o.result.value.queryEmbeddings.value.JList?
      && ResolveEmbeddings(queryEmbeddings, queryTexts, queryImages, embeddingFunction).result
         == Success(o.result.value.queryEmbeddings.value.items)
    ensures OneQuerySource(queryEmbeddings, queryTexts, queryImages) ==>
      var resolved := ResolveEmbeddings(queryEmbeddings, queryTexts, queryImages, embeddingFunction);
      o.generated == resolved.generated
      && (resolved.result.Failure? ==> o.result == Failure(resolved.result.error))
      && (resolved.result.Success? ==>
            o.result.Success? && o.result.value.queryEmbeddings == Some(JList(resolved.result.value)))
    ensures OneQuerySource(queryEmbeddings, queryTexts, queryImages) && Supplied(queryEmbeddings) ==>
      o.result.Success? && o.generated.None?
      && o.result.value.queryEmbeddings == Some(JList(queryEmbeddings.value))
  {
    if !OneQuerySource(queryEmbeddings, queryTexts, queryImages) then
      Outcome(None, Failure(AmbiguousQuerySource))
    else
      var resolved := ResolveEmbeddings(queryEmbeddings, queryTexts, queryImages, embeddingFunction);
      match resolved.result
      case Failure(e) => Outcome(resolved.generated, Failure(e))
      case Success(finalEmbeddings) =>
        Outcome(resolved.generated, Success(QueryEmbeddingRequest.QueryEmbeddingRequest(
          where, whereDocument, Some(JList(finalEmbeddings)), Some(nResults),
          Some(IncludeOrDefault(includeFields)))))
  }

  /** Query texts alone, with an embedding function that succeeds on them, build the request from
      the generated embeddings and the defaults. */
  lemma QueryByTexts(queryTexts: seq<string>, f: EmbeddingFunction, e: seq<Json>)
    requires |queryTexts| > 0 && f(queryTexts) == Success(e)
    ensures var o := PrepareQuery(None, Some(queryTexts), None, DefaultNResults, None, None, None, Some(f));
      o.generated == Some(queryTexts)
      && o.result == Success(QueryEmbeddingRequest.QueryEmbeddingRequest(
           None, None, Some(JList(e)), Some(10), Some(DefaultInclude)))
  {
  }

  /** Texts or images without an embedding function fail before anything is generated. */
  lemma QueryWithoutEmbeddingFunction(queryTexts: Option<seq<string>>, queryImages: Option<seq<string>>,
                                      nResults: int, where: Option<Arr>, whereDocument: Option<Arr>,
                                      includeFields: Option<Arr>)
    requires Supplied(queryTexts) != Supplied(queryImages)
    ensures PrepareQuery(None, queryTexts, queryImages, nResults, where, whereDocument, includeFields, None)
      == Outcome(None, Failure(MissingEmbeddingFunction))
  {
  }

  /** All three sources together pass the guard; the query embeddings are then used as they are
      and the texts and images are ignored. */
  lemma AllThreeSourcesUseEmbeddings(queryEmbeddings: seq<Json>, queryTexts: seq<string>,
                                     queryImages: seq<string>, f: EmbeddingFunction)
    requires |queryEmbeddings| > 0 && |queryTexts| > 0 && |queryImages| > 0
    ensures var o := PrepareQuery(Some(queryEmbeddings), Some(queryTexts), Some(queryImages), 10,
                                  None, None, None, Some(f));
      o.generated.None? && o.result.Success?
      && o.result.value.queryEmbeddings == Some(JList(queryEmbeddings))
  {
    OneQuerySourceIffOdd(Some(queryEmbeddings), Some(queryTexts), Some(queryImages));
  }

  /** Texts and images without query embeddings are two sources: rejected. */
  lemma TextsAndImagesRejected(queryTexts: seq<string>, queryImages: seq<string>, f: EmbeddingFunction)
    requires |queryTexts| > 0 && |queryImages| > 0
    ensures PrepareQuery(None, Some(queryTexts), Some(queryImages), 10, None, None, None, Some(f))
      == Outcome(None, Failure(AmbiguousQuerySource))
  {
    OneQuerySourceIffOdd(None, Some(queryTexts), Some(queryImages));
  }

  // ---------------------------------------------------------------------------------------------
  // Request objects built from a validated batch

  function OptionalList(xs: Option<seq<Json>>): Option<Arr> {
    if xs.Some? then Some(JList(xs.value)) else None
  }

  function OptionalStrings(xs: Option<seq<string>>): Option<Arr> {
    if xs.Some? then Some(StringList(xs.value)) else None
  }

  /** The `AddEmbeddingRequest` of add and upsert: the batch, with the resolved embeddings. */
  function AddRequest(b: Batch): (r: AddEmbeddingRequest.AddEmbeddingRequest)
    ensures r.embeddings == Some(JList(b.embeddings)) && r.ids == StringList(b.ids)
    ensures r.metadatas == OptionalList(b.metadatas)
    ensures r.documents == OptionalStrings(b.documents) && r.images == OptionalStrings(b.images)
  {
    AddEmbeddingRequest.AddEmbeddingRequest(Some(JList(b.embeddings)), OptionalList(b.metadatas),
      StringList(b.ids), OptionalStrings(b.documents), OptionalStrings(b.images))
  }

  /** The `UpdateEmbeddingRequest` of update. */
  function UpdateRequest(b: Batch): (r: UpdateEmbeddingRequest.UpdateEmbeddingRequest)
    ensures r.embeddings == Some(JList(b.embeddings)) && r.ids == StringList(b.ids)
    ensures r.metadatas == OptionalList(b.metadatas)
    ensures r.documents == OptionalStrings(b.documents) && r.images == OptionalStrings(b.images)
  {
    UpdateEmbeddingRequest.UpdateEmbeddingRequest(Some(JList(b.embeddings)), StringList(b.ids),
      OptionalList(b.metadatas), OptionalStrings(b.documents), OptionalStrings(b.images))
  }

  // ---------------------------------------------------------------------------------------------
  // The resource

  class CollectionResource {
    const name: string
    const id: string
    const metadata: Option<Arr>
    const database: string
    const tenant: string
    const embeddingFunction: Option<EmbeddingFunction>
    const apiClient: ChromaApiClient

    constructor (name: string, id: string, metadata: Option<Arr>, database: string, tenant: string,
                 embeddingFunction: Option<EmbeddingFunction>, apiClient: ChromaApiClient)
      ensures this.name == name && this.id == id && this.metadata == metadata
      ensures this.database == database && this.tenant == tenant
      ensures this.embeddingFunction == embeddingFunction && this.apiClient == apiClient
    {
      this.name := name;
      this.id := id;
      this.metadata := metadata;
      this.database := database;
      this.tenant := tenant;
      this.embeddingFunction := embeddingFunction;
      this.apiClient := apiClient;
    }

    /** `make(...)`: the resource for a collection the server described. */
    static method Make(collection: Collection.Collection, database: string, tenant: string,
                       embeddingFunction: Option<EmbeddingFunction>, apiClient: ChromaApiClient)
      returns (r: CollectionResource)
      ensures fresh(r)
      ensures r.name == collection.name && r.id == collection.id && r.metadata == collection.metadata
      ensures r.database == database && r.tenant == tenant
      ensures r.embeddingFunction == embeddingFunction && r.apiClient == apiClient
    {
      r := new CollectionResource(collection.name, collection.id, collection.metadata, database,
                                  tenant, embeddingFunction, apiClient);
    }

    /** `add(...)`: validates (a source is required) and sends the batch; nothing is sent when
        validation fails. */
    method Add(ids: seq<string>, embeddings: Option<seq<Json>> := None,
      metadatas: Option<seq<Json>> := None, documents: Option<seq<string>> := None,
      images: Option<seq<string>> := None)
      returns (o: Outcome<Batch>)
      modifies apiClient
      ensures o == Validate(ids, embeddings, metadatas, documents, images, true, embeddingFunction)
      ensures o.result.Success? ==> apiClient.sent == old(apiClient.sent) + [ApiCall.Add(id, AddRequest(o.result.value))]
      ensures o.result.Failure? ==> apiClient.sent == old(apiClient.sent)
    {
      o := Validate(ids, embeddings, metadatas, documents, images, true, embeddingFunction);
      if o.result.Success? {
        apiClient.Send(ApiCall.Add(id, AddRequest(o.result.value)));
      }
    }

    /** `update(...)`: validates without requiring a source and sends an update request. */
    method Update(ids: seq<string>, embeddings: Option<seq<Json>> := None,
      metadatas: Option<seq<Json>> := None, documents: Option<seq<string>> := None,
      images: Option<seq<string>> := None)
      returns (o: Outcome<Batch>)
      modifies apiClient
      ensures o == Validate(ids, embeddings, metadatas, documents, images, false, embeddingFunction)
      ensures o.result.Success? ==>
        apiClient.sent == old(apiClient.sent) + [ApiCall.Update(id, UpdateRequest(o.result.value))]
      ensures o.result.Failure? ==> apiClient.sent == old(apiClient.sent)
    {
      o := Validate(ids, embeddings, metadatas, documents, images, false, embeddingFunction);
      if o.result.Success? {
        apiClient.Send(ApiCall.Update(id, UpdateRequest(o.result.value)));
      }
    }

    /** `upsert(...)`: as add, sent to the upsert endpoint. */
    method Upsert(ids: seq<string>, embeddings: Option<seq<Json>> := None,
      metadatas: Option<seq<Json>> := None, documents: Option<seq<string>> := None,
      images: Option<seq<string>> := None)
      returns (o: Outcome<Batch>)
      modifies apiClient
      ensures o == Validate(ids, embeddings, metadatas, documents, images, true, embeddingFunction)
      ensures o.result.Success? ==>
        apiClient.sent == old(apiClient.sent) + [ApiCall.Upsert(id, AddRequest(o.result.value))]
      ensures o.result.Failure? ==> apiClient.sent == old(apiClient.sent)
    {
      o := Validate(ids, embeddings, metadatas, documents, images, true, embeddingFunction);
      if o.result.Success? {
        apiClient.Send(ApiCall.Upsert(id, AddRequest(o.result.value)));
      }
    }

    /** `count()`: asks the server; the number it answers is not modelled. */
    method Count()
      modifies apiClient
      ensures apiClient.sent == old(apiClient.sent) + [ApiCall.Count(id)]
    {
      apiClient.Send(ApiCall.Count(id));
    }

    /** `peek($limit = 10, $include = null)`: a get with only a limit and the include list. */
    method Peek(limit: int := DefaultPeekLimit, includeFields: Option<Arr> := None)
      modifies apiClient
      ensures apiClient.sent == old(apiClient.sent) + [ApiCall.Get(id, GetEmbeddingRequest.Empty.(
        limit := Some(limit), includeFields := Some(IncludeOrDefault(includeFields))))]
    {
      apiClient.Send(ApiCall.Get(id, GetEmbeddingRequest.Empty.(
        limit := Some(limit), includeFields := Some(IncludeOrDefault(includeFields)))));
    }

    /** `get(...)`: every filter passed through, the include list defaulted. */
    method Get(ids: Option<Arr> := None, where: Option<Arr> := None, whereDocument: Option<Arr> := None,
               limit: Option<int> := None, offset: Option<int> := None, includeFields: Option<Arr> := None)
      modifies apiClient
      ensures apiClient.sent == old(apiClient.sent) + [ApiCall.Get(id, GetEmbeddingRequest.GetEmbeddingRequest(
        ids, where, whereDocument, None, limit, offset, Some(IncludeOrDefault(includeFields))))]
    {
      apiClient.Send(ApiCall.Get(id, GetEmbeddingRequest.GetEmbeddingRequest(
        ids, where, whereDocument, None, limit, offset, Some(IncludeOrDefault(includeFields)))));
    }

    /** `delete(...)`. */
    method Delete(ids: Option<Arr> := None, where: Option<Arr> := None, whereDocument: Option<Arr> := None)
      modifies apiClient
      ensures apiClient.sent == old(apiClient.sent) + [ApiCall.Delete(id,
        DeleteEmbeddingRequest.DeleteEmbeddingRequest(ids, where, whereDocument))]
    {
      apiClient.Send(ApiCall.Delete(id, DeleteEmbeddingRequest.DeleteEmbeddingRequest(ids, where, whereDocument)));
    }

    /** `query(...)`: sends the nearest-neighbour request when the sources resolve. */
    method Query(queryEmbeddings: Option<seq<Json>> := None, queryTexts: Option<seq<string>> := None,
                 queryImages: Option<seq<string>> := None, nResults: int := DefaultNResults,
                 where: Option<Arr> := None, whereDocument: Option<Arr> := None,
                 includeFields: Option<Arr> := None)
      returns (o: Outcome<QueryEmbeddingRequest.QueryEmbeddingRequest>)
      modifies apiClient
      ensures o == PrepareQuery(queryEmbeddings, queryTexts, queryImages, nResults, where,
                                whereDocument, includeFields, embeddingFunction)
      ensures o.result.Success? ==>
        apiClient.sent == old(apiClient.sent) + [GetNearestNeighbors(id, o.result.value)]
      ensures o.result.Failure? ==> apiClient.sent == old(apiClient.sent)
    {
      o := PrepareQuery(queryEmbeddings, queryTexts, queryImages, nResults, where, whereDocument,
                        includeFields, embeddingFunction);
      if o.result.Success? {
        apiClient.Send(GetNearestNeighbors(id, o.result.value));
      }
    }

    /** `modify($name, $metadata)`: renames and replaces the metadata of the collection. */
    method Modify(newName: string, newMetadata: Arr)
      modifies apiClient
      ensures apiClient.sent == old(apiClient.sent) + [UpdateCollection(id,
        UpdateCollectionRequest.UpdateCollectionRequest(Some(newName), Some(newMetadata)))]
    {
      apiClient.Send(UpdateCollection(id,
        UpdateCollectionRequest.UpdateCollectionRequest(Some(newName), Some(newMetadata))));
    }
  }

  /** `peek()` with no arguments asks for the first 10 items with the default include list. */
  method PeekWithDefaults(r: CollectionResource)
    modifies r.apiClient
    ensures r.apiClient.sent == old(r.apiClient.sent) + [ApiCall.Get(r.id, GetEmbeddingRequest.Empty.(
      limit := Some(10),
      includeFields := Some(StringList(["embeddings", "metadatas", "distances"]))))]
  {
    r.Peek();
  }
}
