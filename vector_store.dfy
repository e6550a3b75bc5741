/**
 * services/vectorStoreService.js over the `Vector` collection of
 * models/VectorStore.js. The collection is a sequence of records, each
 * scoped by `(userId, repository)`; `createVectorStore` replaces one scope
 * with freshly embedded chunks and `searchAndGenerate` shapes what a
 * similarity search over one scope returns. The embedding model and the
 * Atlas `knnBeta` search are parameters that may fail, and so may each
 * operation of the collection.
 */
module VectorStore {
  import opened Wrappers
  import opened Text

  type Embedding = seq<real>

  /** The embedding model: a vector for a text, or the message it rejects with. */
  type Embedder = String -> Result<Embedding, String>

  /** What a document carries from the repository walk. */
  datatype DocMeta = DocMeta(source: Option<String>, fileType: String, repoOwner: String, repoName: String)

  /** A chunk of a file, as the text splitter returns it. */
  datatype Document = Document(pageContent: String, metadata: DocMeta)

  /** The document's metadata, extended with the two fields `createVectorStore` computes. */
  datatype RecordMeta = RecordMeta(doc: DocMeta, tokenCount: nat, language: String)

  /** One document of the `Vector` collection (the schema at models/VectorStore.js). */
  datatype Record = Record(
    userId: String,
    repository: String,
    embedding: Embedding,
    metadata: RecordMeta,
    content: String,
    source: String,
    chunkId: nat)

  predicate InScope(r: Record, userId: String, repository: String) {
    r.userId == userId && r.repository == repository
  }

  function ScopeTest(userId: String, repository: String): Record -> bool {
    r => InScope(r, userId, repository)
  }

  function OutsideTest(userId: String, repository: String): Record -> bool {
    r => !InScope(r, userId, repository)
  }

  function SourceTest(userId: String, repository: String, source: String): Record -> bool {
    r => InScope(r, userId, repository) && r.source == source
  }

  /** The records of one scope, in collection order. */
  function ScopeOf(records: seq<Record>, userId: String, repository: String): seq<Record> {
    Filter(ScopeTest(userId, repository), records)
  }

  /** The records of every other scope, in collection order. */
  function OutsideScope(records: seq<Record>, userId: String, repository: String): seq<Record> {
    Filter(OutsideTest(userId, repository), records)
  }

  /** `countDocuments({userId, repository, source})` */
  function CountSource(records: seq<Record>, userId: String, repository: String, source: String): nat {
    |Filter(SourceTest(userId, repository, source), records)|
  }

  /**
   * The operations of the collection that reject, each with the message of
   * its error; an operation without a fault always succeeds.
   */
  datatype StoreFaults = StoreFaults(onCount: Option<String>, onDelete: Option<String>, onInsert: Option<String>)

  /** The collection, updated in place by `deleteMany` and `insertMany`. */
  class Collection {
    var records: seq<Record>
    const faults: StoreFaults

    constructor(faults: StoreFaults)
      ensures records == [] && this.faults == faults
    {
      records := [];
      this.faults := faults;
    }

    /** `deleteMany({userId, repository})`, reporting how many records it removed; a rejected call removes nothing. */
    method DeleteMany(userId: String, repository: String) returns (r: Result<nat, String>)
      modifies this
      ensures faults.onDelete.Some? ==> r == Failure(faults.onDelete.value) && records == old(records)
      ensures faults.onDelete.None? ==>
        records == OutsideScope(old(records), userId, repository)
        && r == Success(|ScopeOf(old(records), userId, repository)|)
        && r.value == |old(records)| - |records|
    {
      if faults.onDelete.Some? {
        return Failure(faults.onDelete.value);
      }
      ScopePartition(records, userId, repository);
      r := Success(|ScopeOf(records, userId, repository)|);
      records := OutsideScope(records, userId, repository);
    }

    /** `insertMany(batch)`: the error it rejects with, if any; a rejected call inserts nothing. */
    method InsertMany(batch: seq<Record>) returns (error: Option<String>)
      modifies this
      ensures error == faults.onInsert
      ensures records == if error.Some? then old(records) else old(records) + batch
    {
      error := faults.onInsert;
      if error.None? {
        records := records + batch;
      }
    }

    /** `countDocuments({userId, repository})` */
    function CountDocuments(userId: String, repository: String): Result<nat, String>
      reads this
    {
      if faults.onCount.Some? then Failure(faults.onCount.value) else Success(|ScopeOf(records, userId, repository)|)
    }

    /** `countDocuments({userId, repository, source})` */
    function CountSourceDocuments(userId: String, repository: String, source: String): Result<nat, String>
      reads this
    {
      if faults.onCount.Some? then Failure(faults.onCount.value) else Success(CountSource(records, userId, repository, source))
    }
  }

  /** Every record is in the scope or outside it, so the two counts add up to the collection's size. */
  lemma ScopePartition(records: seq<Record>, userId: String, repository: String)
    ensures |ScopeOf(records, userId, repository)| + |OutsideScope(records, userId, repository)| == |records|
  {
    FilterPartition(ScopeTest(userId, repository), OutsideTest(userId, repository), records);
  }

  /**
   * Deleting a scope and appending a batch of that scope leaves the batch as
   * the whole scope, in batch order, and leaves every other scope as it was.
   */
  lemma ReplaceScope(records: seq<Record>, userId: String, repository: String, batch: seq<Record>)
    requires forall i :: 0 <= i < |batch| ==> InScope(batch[i], userId, repository)
    ensures var after := OutsideScope(records, userId, repository) + batch;
      ScopeOf(after, userId, repository) == batch
      && OutsideScope(after, userId, repository) == OutsideScope(records, userId, repository)
  {
    var inside, outside := ScopeTest(userId, repository), OutsideTest(userId, repository);
    var kept := OutsideScope(records, userId, repository);
    FilterConcat(inside, kept, batch);
    FilterConcat(outside, kept, batch);
    FilterAll(inside, batch);
    FilterAll(outside, kept);
    NoneOf(inside, kept);
    NoneOf(outside, batch);
  }

  /** A filter no element of `s` passes is empty. */
  lemma NoneOf(p: Record -> bool, s: seq<Record>)
    requires forall i :: 0 <= i < |s| ==> !p(s[i])
    ensures Filter(p, s) == []
  {
  }

  /** `text.split(" ").length`: one more than the number of spaces. */
  function TokenCount(content: String): (n: nat)
    ensures n == CountChar(content, ' ') + 1
  {
    SplitCharCount(content, ' ');
    |Split(content, " ")|
  }

  /** A precomposed Hangul syllable, the class `[가-힣]`. */
  predicate IsHangulSyllable(c: char) { '가' <= c <= '힣' }

  /** `detectLanguage` */
  function DetectLanguage(text: String): (language: String)
    ensures language in {"ko", "en", "unknown"}
  {
    if Any(text, IsHangulSyllable) then "ko"
    else if Any(text, IsAsciiLetter) then "en"
    else "unknown"
  }

  /** Korean when any Hangul syllable occurs, else English when any ASCII letter does, else unknown. */
  lemma DetectLanguageClassifies(text: String)
    ensures DetectLanguage(text) == "ko" <==> exists k :: 0 <= k < |text| && IsHangulSyllable(text[k])
    ensures DetectLanguage(text) == "en" <==>
      (forall k :: 0 <= k < |text| ==> !IsHangulSyllable(text[k]))
      && exists k :: 0 <= k < |text| && IsAsciiLetter(text[k])
    ensures DetectLanguage(text) == "unknown" <==>
      forall k :: 0 <= k < |text| ==> !IsHangulSyllable(text[k]) && !IsAsciiLetter(text[k])
  {
    var hangul, letter := Any(text, IsHangulSyllable), Any(text, IsAsciiLetter);
  }

  /** `doc.metadata.source || "unknown"`: a missing or empty source becomes "unknown". */
  function SourceOf(meta: DocMeta): (source: String)
    ensures source != []
    ensures source != "unknown" ==> meta.source == Some(source)
  {
    if meta.source.Some? && meta.source.value != [] then meta.source.value else "unknown"
  }

  /**
   * The record built for the document at `index` of the batch: in the
   * scope, numbered by its index, with the document's text and source and
   * the computed token count and language.
   */
  function MakeRecord(userId: String, repository: String, doc: Document, index: nat, embedding: Embedding): (r: Record)
    ensures InScope(r, userId, repository) && r.chunkId == index && r.embedding == embedding
    ensures r.content == doc.pageContent && r.source == SourceOf(doc.metadata)
    ensures r.metadata == RecordMeta(doc.metadata, TokenCount(doc.pageContent), DetectLanguage(doc.pageContent))
  {
    Record(userId, repository, embedding,
      RecordMeta(doc.metadata, TokenCount(doc.pageContent), DetectLanguage(doc.pageContent)),
      doc.pageContent, SourceOf(doc.metadata), index)
  }

  /** The embeddings of all documents, in order, or the first failure among them. */
  function EmbedAll(embed: Embedder, documents: seq<Document>): (r: Result<seq<Embedding>, String>)
    ensures r.Success? ==> |r.value| == |documents|
    ensures r.Success? ==> forall i :: 0 <= i < |documents| ==> embed(documents[i].pageContent) == Success(r.value[i])
    ensures r.Failure? <==> exists i :: 0 <= i < |documents| && embed(documents[i].pageContent).Failure?
  {
    if documents == [] then Success([])
    else
      var init, last := documents[..|documents| - 1], documents[|documents| - 1];
      assert forall i :: 0 <= i < |init| ==> init[i] == documents[i];
      match EmbedAll(embed, init)
      case Failure(e) => Failure(e)
      case Success(vectors) =>
        match embed(last.pageContent)
        case Failure(e) => Failure(e)
        case Success(v) => Success(vectors + [v])
  }

  /** Once a prefix of the batch fails to embed, the whole batch fails with the same error. */
  lemma {:induction false} EmbedFailureSticks(embed: Embedder, documents: seq<Document>, k: nat)
    requires k <= |documents| && EmbedAll(embed, documents[..k]).Failure?
    ensures EmbedAll(embed, documents) == EmbedAll(embed, documents[..k])
    decreases |documents| - k
  {
    if k < |documents| {
      var init := documents[..|documents| - 1];
      assert init[..k] == documents[..k];
      EmbedFailureSticks(embed, init, k);
    } else {
      assert documents[..k] == documents;
    }
  }

  /**
   * The records `createVectorStore` inserts: one per document, in order,
   * all in the scope, with `chunk_id` the document's index in the whole
   * batch and `source` the document's source or "unknown".
   */
  function Batch(userId: String, repository: String, documents: seq<Document>, embeddings: seq<Embedding>): (batch: seq<Record>)
    requires |embeddings| == |documents|
    ensures |batch| == |documents|
    ensures forall i :: 0 <= i < |batch| ==> batch[i] == MakeRecord(userId, repository, documents[i], i, embeddings[i])
  {
    seq(|documents|, i requires 0 <= i < |documents| => MakeRecord(userId, repository, documents[i], i, embeddings[i]))
  }

  /** `reduce((sum, v) => sum + (v.metadata.tokenCount || 0), 0)`; a token count is never 0. */
  function SumTokens(records: seq<Record>): nat {
    if records == [] then 0 else SumTokens(records[..|records| - 1]) + records[|records| - 1].metadata.tokenCount
  }

  /** The number of spaces over the contents of the records. */
  function SpaceCount(records: seq<Record>): nat {
    if records == [] then 0 else SpaceCount(records[..|records| - 1]) + CountChar(records[|records| - 1].content, ' ')
  }

  /** The total token count is the number of records plus the number of spaces in their contents. */
  lemma {:induction false} TotalTokensCountSpaces(records: seq<Record>)
    requires forall i :: 0 <= i < |records| ==> records[i].metadata.tokenCount == TokenCount(records[i].content)
    ensures SumTokens(records) == |records| + SpaceCount(records)
    decreases |records|
  {
    if records != [] {
      var init := records[..|records| - 1];
      assert forall i :: 0 <= i < |init| ==> init[i] == records[i];
      TotalTokensCountSpaces(init);
    }
  }

  /** What `createVectorStore` resolves with. */
  datatype StoreSummary = StoreSummary(
    userId: String,
    repository: String,
    documentCount: nat,
    description: String,
    sourceType: String,
    language: String,
    totalTokens: nat)

  function Summarize(userId: String, repository: String, batch: seq<Record>): StoreSummary {
    StoreSummary(userId, repository, |batch|, "Vector store for " + repository, "github",
      if batch != [] && batch[0].metadata.language != [] then batch[0].metadata.language else "unknown",
      SumTokens(batch))
  }

  /**
   * The result `createVectorStore` settles with: the error of the delete, of
   * the first failed embedding or of the insert, in that order, or the
   * summary of the batch. An empty batch is never inserted.
   */
  function CreateOutcome(faults: StoreFaults, embed: Embedder, userId: String, repository: String, documents: seq<Document>)
    : Result<StoreSummary, String>
  {
    if faults.onDelete.Some? then Failure(faults.onDelete.value)
    else
      match EmbedAll(embed, documents)
      case Failure(e) => Failure(e)
      case Success(vectors) =>
        if documents != [] && faults.onInsert.Some? then Failure(faults.onInsert.value)
        else Success(Summarize(userId, repository, Batch(userId, repository, documents, vectors)))
  }

  /**
   * The collection after `createVectorStore`: untouched when the delete
   * fails; otherwise the scope emptied, then refilled when every embedding
   * and the insert succeed.
   */
  function StoredRecords(
    records: seq<Record>, faults: StoreFaults, embed: Embedder, userId: String, repository: String, documents: seq<Document>)
    : seq<Record>
  {
    if faults.onDelete.Some? then records
    else
      var kept := OutsideScope(records, userId, repository);
      var embedded := EmbedAll(embed, documents);
      if embedded.Failure? || faults.onInsert.Some? then kept else kept + Batch(userId, repository, documents, embedded.value)
  }

  /**
   * After a successful `createVectorStore` the scope holds exactly the new
   * batch, in document order. A rejected delete leaves the collection as it
   * was; any later failure leaves the scope empty, because the delete comes
   * first. Every other scope is as it was.
   */
  lemma CreateReplacesScope(
    records: seq<Record>, faults: StoreFaults, embed: Embedder, userId: String, repository: String, documents: seq<Document>)
    ensures var after := StoredRecords(records, faults, embed, userId, repository, documents);
      var outcome := CreateOutcome(faults, embed, userId, repository, documents);
      OutsideScope(after, userId, repository) == OutsideScope(records, userId, repository)
      && (faults.onDelete.Some? ==> after == records && outcome == Failure(faults.onDelete.value))
      && (faults.onDelete.None? && outcome.Failure? ==> ScopeOf(after, userId, repository) == [])
      && (outcome.Success? ==>
            ScopeOf(after, userId, repository) == Batch(userId, repository, documents, EmbedAll(embed, documents).value))
  {
    if faults.onDelete.None? {
      var embedded := EmbedAll(embed, documents);
      var batch := if embedded.Failure? || faults.onInsert.Some? then [] else Batch(userId, repository, documents, embedded.value);
      ReplaceScope(records, userId, repository, batch);
      assert OutsideScope(records, userId, repository) + [] == OutsideScope(records, userId, repository);
    }
  }

  /**
   * The summary of a successful store: one document per input, the first
   * document's language, and a token total of one per document plus one per
   * space.
   */
  lemma SummaryOfBatch(faults: StoreFaults, embed: Embedder, userId: String, repository: String, documents: seq<Document>)
    requires CreateOutcome(faults, embed, userId, repository, documents).Success?
    ensures EmbedAll(embed, documents).Success?
    ensures var s := CreateOutcome(faults, embed, userId, repository, documents).value;
      s.documentCount == |documents|
      && s.language == (if documents == [] then "unknown" else DetectLanguage(documents[0].pageContent))
      && s.totalTokens == |documents| + SpaceCount(Batch(userId, repository, documents, EmbedAll(embed, documents).value))
  {
    var vectors := EmbedAll(embed, documents).value;
    assert CreateOutcome(faults, embed, userId, repository, documents)
      == Success(Summarize(userId, repository, Batch(userId, repository, documents, vectors)));
    BatchSummary(userId, repository, documents, vectors);
  }

  /** The summary of a batch counts its documents, takes the first one's language and totals one token per document and space. */
  lemma BatchSummary(userId: String, repository: String, documents: seq<Document>, vectors: seq<Embedding>)
    requires |vectors| == |documents|
    ensures var batch := Batch(userId, repository, documents, vectors);
      var s := Summarize(userId, repository, batch);
      s.documentCount == |documents|
      && s.language == (if documents == [] then "unknown" else DetectLanguage(documents[0].pageContent))
      && s.totalTokens == |documents| + SpaceCount(batch)
  {
    var batch := Batch(userId, repository, documents, vectors);
    forall i | 0 <= i < |batch|
      ensures batch[i].metadata.tokenCount == TokenCount(batch[i].content)
    {
      assert batch[i] == MakeRecord(userId, repository, documents[i], i, vectors[i]);
    }
    TotalTokensCountSpaces(batch);
    if documents != [] {
      assert batch[0] == MakeRecord(userId, repository, documents[0], 0, vectors[0]);
      assert batch[0].metadata.language == DetectLanguage(documents[0].pageContent) != [];
    }
  }

  /** The batch of one more document is the batch so far and that document's record. */
  lemma BatchSnoc(userId: String, repository: String, documents: seq<Document>, embeddings: seq<Embedding>, doc: Document, embedding: Embedding)
    requires |embeddings| == |documents|
    ensures Batch(userId, repository, documents + [doc], embeddings + [embedding])
      == Batch(userId, repository, documents, embeddings) + [MakeRecord(userId, repository, doc, |documents|, embedding)]
  {
  }

  /**
   * `createVectorStore`: delete the scope, embed every document, and insert
   * the batch when it is not empty; the first rejection is rethrown. When an
   * embedding or the insert fails the scope stays deleted.
   */
  method CreateVectorStore(store: Collection, embed: Embedder, userId: String, repository: String, documents: seq<Document>)
    returns (r: Result<StoreSummary, String>)
    modifies store
    ensures r == CreateOutcome(store.faults, embed, userId, repository, documents)
    ensures store.records == StoredRecords(old(store.records), store.faults, embed, userId, repository, documents)
  {
    var deleted := store.DeleteMany(userId, repository);
    if deleted.Failure? {
      return Failure(deleted.error);
    }
    var vectors := EmbedDocuments(embed, userId, repository, documents);
    if vectors.Failure? {
      return Failure(vectors.error);
    }
    var vectorsToInsert := vectors.value;
    if |vectorsToInsert| > 0 {
      var error := store.InsertMany(vectorsToInsert);
      if error.Some? {
        return Failure(error.value);
      }
    } else {
      assert store.records == store.records + vectorsToInsert;
    }
    r := Success(Summarize(userId, repository, vectorsToInsert));
  }

  /**
   * The `Promise.all` over the documents, taken in order: the records of the
   * batch, or the first embedding failure.
   */
  method EmbedDocuments(embed: Embedder, userId: String, repository: String, documents: seq<Document>)
    returns (r: Result<seq<Record>, String>)
    ensures r.Failure? <==> EmbedAll(embed, documents).Failure?
    ensures r.Failure? ==> r.error == EmbedAll(embed, documents).error
    ensures r.Success? ==> r.value == Batch(userId, repository, documents, EmbedAll(embed, documents).value)
  {
    var embeddings: seq<Embedding> := [];
    var vectorsToInsert: seq<Record> := [];
    for index := 0 to |documents|
      invariant EmbedAll(embed, documents[..index]) == Success(embeddings)
      invariant vectorsToInsert == Batch(userId, repository, documents[..index], embeddings)
    {
      var doc := documents[index];
      assert documents[..index + 1] == documents[..index] + [doc];
      var embedding := embed(doc.pageContent);
      if embedding.Failure? {
        EmbedFailureSticks(embed, documents, index + 1);
        return Failure(embedding.error);
      }
      BatchSnoc(userId, repository, documents[..index], embeddings, doc, embedding.value);
      embeddings := embeddings + [embedding.value];
      vectorsToInsert := vectorsToInsert + [MakeRecord(userId, repository, doc, index, embedding.value)];
    }
    assert documents[..|documents|] == documents;
    r := Success(vectorsToInsert);
  }

  /** A hit of the similarity search: the projected fields of a record and its score. */
  datatype Hit = Hit(content: String, source: String, chunkId: nat, score: real)

  /** The Atlas `knnBeta` search: at most `limit` hits of the scope for a query vector, or an error. */
  type Knn = (String, String, Embedding, nat) -> Result<seq<Hit>, String>

  datatype SourceEntry = SourceEntry(source: String, similarity: real, chunkId: nat, content: String)

  datatype FileDetail = FileDetail(path: String, chunk: nat, totalChunks: nat, preview: String)

  /** What `searchAndGenerate` resolves with. */
  datatype SearchResult = SearchResult(sources: seq<SourceEntry>, relevantFiles: seq<String>, relevantFilesDetails: seq<FileDetail>)

  const NoDocumentsMessage: String := "관련 문서를 찾을 수 없습니다."

  const PreviewLength: nat := 150

  function DetailOf(hit: Hit, totalChunks: nat): FileDetail {
    FileDetail(hit.source, hit.chunkId + 1, totalChunks, Preview(hit.content, PreviewLength))
  }

  /**
   * The three lists of the result: one entry per hit, in hit order, with no
   * deduplication; `chunk` is `chunk_id + 1` and `totalChunks` the number of
   * scope records with the hit's source.
   */
  function Shape(records: seq<Record>, userId: String, repository: String, hits: seq<Hit>): (r: SearchResult)
    ensures |r.sources| == |hits| && |r.relevantFiles| == |hits| && |r.relevantFilesDetails| == |hits|
    ensures forall i :: 0 <= i < |hits| ==>
      r.sources[i] == SourceEntry(hits[i].source, hits[i].score, hits[i].chunkId, hits[i].content)
      && r.relevantFiles[i] == hits[i].source
      && r.relevantFilesDetails[i] == DetailOf(hits[i], CountSource(records, userId, repository, hits[i].source))
  {
    SearchResult(
      seq(|hits|, i requires 0 <= i < |hits| => SourceEntry(hits[i].source, hits[i].score, hits[i].chunkId, hits[i].content)),
      seq(|hits|, i requires 0 <= i < |hits| => hits[i].source),
      seq(|hits|, i requires 0 <= i < |hits| => DetailOf(hits[i], CountSource(records, userId, repository, hits[i].source))))
  }

  /** `searchAndGenerate` as a function of the collection and the two services. */
  function Search(
    records: seq<Record>, faults: StoreFaults, embed: Embedder, knn: Knn,
    userId: String, query: String, repository: String, maxResults: nat)
    : (r: Result<SearchResult, String>)
    ensures r.Success? ==> r.value.sources != [] && faults.onCount.None?
    ensures (embed(query).Success? && knn(userId, repository, embed(query).value, maxResults) == Success([]))
      ==> r == Failure(NoDocumentsMessage)
  {
    match embed(query)
    case Failure(e) => Failure(e)
    case Success(queryVector) =>
      match knn(userId, repository, queryVector, maxResults)
      case Failure(e) => Failure(e)
      case Success(hits) =>
        if hits == [] then Failure(NoDocumentsMessage)
        else if faults.onCount.Some? then Failure(faults.onCount.value)
        else Success(Shape(records, userId, repository, hits))
  }

  /** `searchAndGenerate`: the per-source counts are filled in a loop, each source counted once. */
  method SearchAndGenerate(store: Collection, embed: Embedder, knn: Knn, userId: String, query: String, repository: String, maxResults: nat)
    returns (r: Result<SearchResult, String>)
    ensures r == Search(store.records, store.faults, embed, knn, userId, query, repository, maxResults)
  {
    var queryVector := embed(query);
    if queryVector.Failure? {
      return Failure(queryVector.error);
    }
    var similarDocs := knn(userId, repository, queryVector.value, maxResults);
    if similarDocs.Failure? {
      return Failure(similarDocs.error);
    }
    var hits := similarDocs.value;
    if |hits| == 0 {
      return Failure(NoDocumentsMessage);
    }
    var fileChunks: map<String, nat> := map[];
    for i := 0 to |hits|
      invariant forall s :: s in fileChunks ==> fileChunks[s] == CountSource(store.records, userId, repository, s)
      invariant forall k :: 0 <= k < i ==> hits[k].source in fileChunks
      invariant i == 0 ==> fileChunks == map[]
      invariant i > 0 ==> store.faults.onCount.None?
    {
      var doc := hits[i];
      if doc.source !in fileChunks || fileChunks[doc.source] == 0 {
        var totalChunks := store.CountSourceDocuments(userId, repository, doc.source);
        if totalChunks.Failure? {
          return Failure(totalChunks.error);
        }
        fileChunks := fileChunks[doc.source := totalChunks.value];
      }
    }
    var sources := seq(|hits|, i requires 0 <= i < |hits| => SourceEntry(hits[i].source, hits[i].score, hits[i].chunkId, hits[i].content));
    var relevantFiles := seq(|hits|, i requires 0 <= i < |hits| => hits[i].source);
    var details := seq(|hits|, i requires 0 <= i < |hits| && hits[i].source in fileChunks => DetailOf(hits[i], fileChunks[hits[i].source]));
    r := Success(SearchResult(sources, relevantFiles, details));
    assert r.value == Shape(store.records, userId, repository, hits);
  }

  /** When every hit comes from a record of the scope, as the search promises, no file counts zero chunks. */
  lemma HitsFromScopeCountAtLeastOne(records: seq<Record>, userId: String, repository: String, hits: seq<Hit>)
    requires forall i :: 0 <= i < |hits| ==> exists k :: 0 <= k < |records| && InScope(records[k], userId, repository) && records[k].source == hits[i].source
    ensures forall i :: 0 <= i < |hits| ==> Shape(records, userId, repository, hits).relevantFilesDetails[i].totalChunks >= 1
  {
    forall i | 0 <= i < |hits|
      ensures CountSource(records, userId, repository, hits[i].source) >= 1
    {
      var k :| 0 <= k < |records| && InScope(records[k], userId, repository) && records[k].source == hits[i].source;
      assert records[k] in Filter(SourceTest(userId, repository, hits[i].source), records);
    }
  }

  /**
   * `chunk_id` numbers the whole batch, not the chunks of one file: after
   * storing a chunk of "a.js" and then one of "b.js", a hit on the "b.js"
   * chunk reports chunk 2 of a file with 1 chunk.
   */
  lemma ChunkCanExceedTotalChunks()
    ensures var docs := [Document("a", DocMeta(Some("a.js"), "js", "o", "r")), Document("b", DocMeta(Some("b.js"), "js", "o", "r"))];
      var batch := Batch("u", "o/r", docs, [[], []]);
      var hit := Hit(batch[1].content, batch[1].source, batch[1].chunkId, 1.0);
      var d := Shape(batch, "u", "o/r", [hit]).relevantFilesDetails[0];
      d.chunk == 2 && d.totalChunks == 1
  {
    var docs := [Document("a", DocMeta(Some("a.js"), "js", "o", "r")), Document("b", DocMeta(Some("b.js"), "js", "o", "r"))];
    var batch := Batch("u", "o/r", docs, [[], []]);
    var test := SourceTest("u", "o/r", "b.js");
    assert batch[..1] + [batch[1]] == batch;
    assert Filter(test, batch[..1]) == [] by {
      NoneOf(test, batch[..1]);
    }
    assert Filter(test, batch) == [batch[1]];
  }
}
