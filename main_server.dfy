/**
 * The standalone server of main.js: it loads a local source tree into an
 * in-memory vector store, rebuilds it on request, and answers a
 * recommendation request with one entry per configured model.
 */
module MainServer {
  import opened Wrappers
  import opened Text
  import opened AiUtils
  import opened CodeService

  /** The metadata of a loaded chunk: its file, its 1-based number and the file's chunk count. */
  datatype ChunkMeta = ChunkMeta(source: String, chunk: nat, totalChunks: nat)

  datatype ChunkDoc = ChunkDoc(pageContent: String, metadata: ChunkMeta)

  /**
   * A file the glob matched, by its path relative to the working directory,
   * with its text, or `None` when reading or splitting it fails.
   */
  datatype SourceFile = SourceFile(path: String, read: Option<String>)

  /** `splitText` of a splitter built with the given chunk size and overlap. */
  type SizedSplitter = (int, int, String) -> seq<String>

  /**
   * Whether the splitter's constructor accepts a chunk size and overlap; it
   * throws otherwise (an overlap that is not below the size, for one).
   */
  type SplitterCheck = (int, int) -> bool

  /** `MemoryVectorStore.fromDocuments`: whether embedding every document succeeds. */
  type Indexer = seq<ChunkDoc> -> bool

  /** An in-memory store, by the documents it was built from. */
  datatype MemoryStore = MemoryStore(docs: seq<ChunkDoc>)

  datatype ScoredDoc = ScoredDoc(doc: ChunkDoc, score: real)

  /** `similaritySearchWithScore` on a store's documents, for a query and a result count. */
  type SimilaritySearch = (seq<ChunkDoc>, String, int) -> Result<seq<ScoredDoc>, String>

  /** The chunk size and overlap of the splitter the server starts with. */
  const InitialChunkSize: int := 2000
  const InitialChunkOverlap: int := 500

  /** The documents of one file: chunk `i + 1` of `|chunks|`, in chunk order. */
  function FileDocs(path: String, chunks: seq<String>): (docs: seq<ChunkDoc>)
    ensures |docs| == |chunks|
    ensures forall i :: 0 <= i < |docs| ==>
      docs[i].pageContent == chunks[i] && docs[i].metadata.source == path
      && docs[i].metadata.chunk == i + 1 && docs[i].metadata.totalChunks == |docs|
  {
    seq(|chunks|, i requires 0 <= i < |chunks| => ChunkDoc(chunks[i], ChunkMeta(path, i + 1, |chunks|)))
  }

  function FileDocsOf(split: SizedSplitter, chunkSize: int, chunkOverlap: int): SourceFile -> seq<ChunkDoc> {
    (file: SourceFile) => if file.read.None? then [] else FileDocs(file.path, split(chunkSize, chunkOverlap, file.read.value))
  }

  /** The documents of the files, file by file in glob order; an unreadable file contributes nothing. */
  function LoadedDocs(split: SizedSplitter, chunkSize: int, chunkOverlap: int, files: seq<SourceFile>): seq<ChunkDoc> {
    FlatMap(FileDocsOf(split, chunkSize, chunkOverlap), files)
  }

  /** `loadSourceCodeAndCreateVectorStore`: `None` for no files, no documents, or a store that cannot be built. */
  function LoadOutcome(split: SizedSplitter, chunkSize: int, chunkOverlap: int, index: Indexer, files: seq<SourceFile>)
    : Option<MemoryStore>
  {
    if files == [] then None
    else
      var docs := LoadedDocs(split, chunkSize, chunkOverlap, files);
      if docs == [] || !index(docs) then None else Some(MemoryStore(docs))
  }

  /** Every loaded chunk is numbered within its file: `1 <= chunk <= totalChunks`. */
  lemma {:induction false} LoadedChunksInRange(split: SizedSplitter, chunkSize: int, chunkOverlap: int, files: seq<SourceFile>)
    ensures forall d :: d in LoadedDocs(split, chunkSize, chunkOverlap, files) ==>
      1 <= d.metadata.chunk <= d.metadata.totalChunks
    decreases |files|
  {
    if files != [] {
      var init, last := files[..|files| - 1], files[|files| - 1];
      LoadedChunksInRange(split, chunkSize, chunkOverlap, init);
      FlatMapSnoc(FileDocsOf(split, chunkSize, chunkOverlap), init, last);
      assert init + [last] == files;
      if last.read.Some? {
        var tail := FileDocs(last.path, split(chunkSize, chunkOverlap, last.read.value));
        assert FileDocsOf(split, chunkSize, chunkOverlap)(last) == tail;
        forall d | d in tail
          ensures 1 <= d.metadata.chunk <= d.metadata.totalChunks
        {
          var k :| 0 <= k < |tail| && tail[k] == d;
        }
      }
    }
  }

  /** A file that cannot be read is skipped, and the files around it load as if it were absent. */
  lemma UnreadableFileSkipped(split: SizedSplitter, chunkSize: int, chunkOverlap: int, a: seq<SourceFile>, file: SourceFile, b: seq<SourceFile>)
    requires file.read.None?
    ensures LoadedDocs(split, chunkSize, chunkOverlap, a + [file] + b) == LoadedDocs(split, chunkSize, chunkOverlap, a + b)
  {
    var f := FileDocsOf(split, chunkSize, chunkOverlap);
    FlatMapConcat(f, a + [file], b);
    FlatMapSnoc(f, a, file);
    FlatMapConcat(f, a, b);
  }

  /** The files' documents come in glob order, each file's chunks together and numbered from 1. */
  lemma LoadedFileInPlace(split: SizedSplitter, chunkSize: int, chunkOverlap: int, a: seq<SourceFile>, file: SourceFile, b: seq<SourceFile>)
    requires file.read.Some?
    ensures LoadedDocs(split, chunkSize, chunkOverlap, a + [file] + b)
      == LoadedDocs(split, chunkSize, chunkOverlap, a)
         + FileDocs(file.path, split(chunkSize, chunkOverlap, file.read.value))
         + LoadedDocs(split, chunkSize, chunkOverlap, b)
  {
    var f := FileDocsOf(split, chunkSize, chunkOverlap);
    FlatMapConcat(f, a + [file], b);
    FlatMapSnoc(f, a, file);
  }

  /** `maxResults ? parseInt(maxResults) : 5`, for a numeric field. */
  function ResultCount(maxResults: Option<int>): int {
    if maxResults.Some? && maxResults.value != 0 then maxResults.value else 5
  }

  const DisabledSuffix: String := ")은 현재 비용 절약을 위해 임시로 비활성화되어 있습니다."
  const UnknownErrorMessage: String := "알 수 없는 오류가 발생했습니다."

  /**
   * The entry of one `models` entry: the chain's text when the model is
   * enabled, an "오류: " entry when it throws, and a notice without a call
   * when it is disabled.
   */
  function TagModel(chain: Chain, entry: (String, bool), relevantCode: String, request: String): Recommendation {
    var modelName := entry.0;
    if entry.1 then
      match chain(modelName, relevantCode, request)
      case Success(text) => Recommendation(modelName, text, false, false)
      case Failure(message) => Recommendation(modelName, "오류: " + OrElse(message, UnknownErrorMessage), true, false)
    else Recommendation(modelName, "이 모델(" + modelName + DisabledSuffix, false, true)
  }

  /**
   * One entry per `models` entry, in declaration order (main.js declares
   * `models` and `MODEL_CONFIG` with the same keys in the same order).
   */
  function TaggedResults(chain: Chain, config: seq<(String, bool)>, relevantCode: String, request: String)
    : (results: seq<Recommendation>)
    ensures |results| == |config|
    ensures forall i :: 0 <= i < |config| ==>
      results[i].modelName == config[i].0
      && (results[i].disabled <==> !config[i].1)
      && (results[i].error <==> config[i].1 && chain(config[i].0, relevantCode, request).Failure?)
  {
    seq(|config|, i requires 0 <= i < |config| => TagModel(chain, config[i], relevantCode, request))
  }

  /** A disabled model is never invoked: its entry is the same whatever the chain does. */
  lemma DisabledModelNotInvoked(c1: Chain, c2: Chain, config: seq<(String, bool)>, relevantCode: String, request: String, i: nat)
    requires i < |config| && !config[i].1
    ensures TaggedResults(c1, config, relevantCode, request)[i] == TaggedResults(c2, config, relevantCode, request)[i]
  {
  }

  /** The block of one hit in `relevantCode`. */
  function CodeBlock(doc: ChunkDoc): String {
    "파일: " + doc.metadata.source + ", 청크: " + NatToString(doc.metadata.chunk) + "/" + NatToString(doc.metadata.totalChunks)
      + "\n\n" + doc.pageContent + "\n\n"
  }

  const BlockSeparator: String := "\n---\n\n"

  function RelevantCode(docs: seq<ChunkDoc>): String {
    Join(seq(|docs|, i requires 0 <= i < |docs| => CodeBlock(docs[i])), BlockSeparator)
  }

  /** `relevantCode` grows by a separator and one block per further hit. */
  lemma RelevantCodeSnoc(docs: seq<ChunkDoc>, doc: ChunkDoc)
    ensures RelevantCode(docs + [doc]) == if docs == [] then CodeBlock(doc) else RelevantCode(docs) + BlockSeparator + CodeBlock(doc)
  {
    var blocks := seq(|docs|, i requires 0 <= i < |docs| => CodeBlock(docs[i]));
    var all := docs + [doc];
    assert seq(|all|, i requires 0 <= i < |all| => CodeBlock(all[i])) == blocks + [CodeBlock(doc)];
    if docs != [] {
      JoinSnoc(blocks, CodeBlock(doc), BlockSeparator);
    }
  }

  /** `[...new Set(s)]`: the distinct elements of `s`, each where it first occurs. */
  function Dedup(s: seq<String>): (r: seq<String>)
    ensures forall x :: x in r <==> x in s
    ensures forall i, j :: 0 <= i < j < |r| ==> r[i] != r[j]
  {
    if s == [] then []
    else
      var d, x := Dedup(s[..|s| - 1]), s[|s| - 1];
      assert forall y :: y in s <==> y in s[..|s| - 1] || y == x;
      if x in d then d else d + [x]
  }

  /** The index of the first occurrence of `x` in `s`. */
  function FirstIndex(s: seq<String>, x: String): (k: nat)
    requires x in s
    ensures k < |s| && s[k] == x && x !in s[..k]
  {
    if s[0] == x then 0
    else
      assert x in s[1..] by { var j :| 0 <= j < |s| && s[j] == x; assert s[1..][j - 1] == x; }
      var k := 1 + FirstIndex(s[1..], x);
      assert s[..k] == [s[0]] + s[1..][..k - 1];
      k
  }

  /** Appending an element leaves the first occurrences of the elements already present where they were. */
  lemma FirstIndexSnoc(s: seq<String>, x: String, y: String)
    requires y in s
    ensures FirstIndex(s + [x], y) == FirstIndex(s, y)
  {
    var k, k' := FirstIndex(s, y), FirstIndex(s + [x], y);
    assert (s + [x])[..k'] == if k' <= |s| then s[..k'] else s + [x];
    assert (s + [x])[k] == y;
  }

  /** `Set` keeps insertion order: the deduplicated sources are ordered by where each first occurs. */
  lemma {:induction false} DedupFirstOccurrenceOrder(s: seq<String>)
    ensures forall i, j :: 0 <= i < j < |Dedup(s)| ==> FirstIndex(s, Dedup(s)[i]) < FirstIndex(s, Dedup(s)[j])
    decreases |s|
  {
    if s != [] {
      var init, x := s[..|s| - 1], s[|s| - 1];
      assert s == init + [x];
      DedupFirstOccurrenceOrder(init);
      var d, r := Dedup(init), Dedup(s);
      assert r == if x in d then d else d + [x];
      forall i, j | 0 <= i < j < |r|
        ensures FirstIndex(s, r[i]) < FirstIndex(s, r[j])
      {
        if j < |d| {
          assert FirstIndex(init, d[i]) < FirstIndex(init, d[j]);
          FirstIndexSnoc(init, x, d[i]);
          FirstIndexSnoc(init, x, d[j]);
        } else {
          FirstIndexSnoc(init, x, d[i]);
          FirstIndexOfNew(init, x);
        }
      }
    }
  }

  /** An element new to `s` first occurs where it is appended. */
  lemma FirstIndexOfNew(s: seq<String>, x: String)
    requires x !in s
    ensures FirstIndex(s + [x], x) == |s|
  {
  }

  /** One entry of `relevantFilesDetails` (the score's formatting is left out). */
  datatype FileInfo = FileInfo(path: String, chunk: nat, totalChunks: nat, preview: String)

  const MainPreviewLength: nat := 100

  function InfoOf(hit: ScoredDoc): FileInfo {
    FileInfo(hit.doc.metadata.source, hit.doc.metadata.chunk, hit.doc.metadata.totalChunks, Preview(hit.doc.pageContent, MainPreviewLength))
  }

  /** What a handler of main.js answers: the recommendation, an `{error}` body with a status, or a status message. */
  datatype ServerReply =
    | Answer(modelResults: seq<Recommendation>, relevantFiles: seq<String>, relevantFilesDetails: seq<FileInfo>)
    | ErrorReply(status: nat, error: String)
    | StatusReply(status: nat, success: bool, message: String)

  const EmptyRequestMessage: String := "요청 내용이 비어있습니다."
  const StoreUnavailableMessage: String := "벡터 저장소를 초기화할 수 없습니다."
  const NoRelevantCodeMessage: String := "요청과 관련된 코드를 찾을 수 없습니다."
  const RecommendErrorMessage: String := "코드 추천을 생성하는 중 오류가 발생했습니다."
  const RefreshedMessage: String := "벡터 저장소가 성공적으로 갱신되었습니다."
  const RefreshFailedMessage: String := "벡터 저장소 갱신 중 오류가 발생했습니다."

  function Sources(hits: seq<ScoredDoc>): (sources: seq<String>)
    ensures |sources| == |hits|
    ensures forall i :: 0 <= i < |hits| ==> sources[i] == hits[i].doc.metadata.source
  {
    seq(|hits|, i requires 0 <= i < |hits| => hits[i].doc.metadata.source)
  }

  /** `/api/recommend-code` once the store exists: search, then tag one entry per model. */
  function AnswerFrom(store: MemoryStore, search: SimilaritySearch, chain: Chain, request: String, resultCount: int): ServerReply {
    match search(store.docs, request, resultCount)
    case Failure(_) => ErrorReply(500, RecommendErrorMessage)
    case Success(hits) =>
      if hits == [] then ErrorReply(404, NoRelevantCodeMessage)
      else
        var docs := seq(|hits|, i requires 0 <= i < |hits| => hits[i].doc);
        Answer(
          TaggedResults(chain, ModelConfig, RelevantCode(docs), request),
          Dedup(Sources(hits)),
          seq(|hits|, i requires 0 <= i < |hits| => InfoOf(hits[i])))
  }

  /**
   * A failed search is the 500 of the outer `catch`, an empty one the 404;
   * otherwise the answer has an entry for each of the three shipped models
   * in declaration order, the last one disabled whatever the chain does,
   * the distinct sources of the hits, and one detail per hit.
   */
  lemma AnswerShape(store: MemoryStore, search: SimilaritySearch, chain: Chain, request: String, resultCount: int)
    ensures var reply := AnswerFrom(store, search, chain, request, resultCount);
      var found := search(store.docs, request, resultCount);
      (found.Failure? <==> reply == ErrorReply(500, RecommendErrorMessage))
      && (found == Success([]) <==> reply == ErrorReply(404, NoRelevantCodeMessage))
      && (reply.Answer? <==> found.Success? && found.value != [])
      && (reply.Answer? ==>
            |reply.modelResults| == 3
            && reply.modelResults[0].modelName == "gpt-4o" && !reply.modelResults[0].disabled
            && reply.modelResults[1].modelName == "gpt-o3-mini" && !reply.modelResults[1].disabled
            && reply.modelResults[2] == Recommendation("gpt-o1", "이 모델(gpt-o1" + DisabledSuffix, false, true)
            && (forall x :: x in reply.relevantFiles <==> exists i :: 0 <= i < |found.value| && found.value[i].doc.metadata.source == x)
            && |reply.relevantFilesDetails| == |found.value|
            && forall i :: 0 <= i < |found.value| ==>
                 reply.relevantFilesDetails[i].path == found.value[i].doc.metadata.source
                 && reply.relevantFilesDetails[i].preview == Preview(found.value[i].doc.pageContent, MainPreviewLength))
  {
    var found := search(store.docs, request, resultCount);
    if found.Success? && found.value != [] {
      var reply := AnswerFrom(store, search, chain, request, resultCount);
      var sources := Sources(found.value);
      forall x
        ensures x in reply.relevantFiles <==> exists i :: 0 <= i < |found.value| && found.value[i].doc.metadata.source == x
      {
        if x in sources {
          var i :| 0 <= i < |sources| && sources[i] == x;
        }
        assert (exists i :: 0 <= i < |found.value| && found.value[i].doc.metadata.source == x) ==> x in sources;
      }
    }
  }

  /**
   * When the search returns documents of the store, as its contract says,
   * every reported chunk lies within its file's chunk count, and every
   * source is reported once.
   */
  lemma AnswerChunksInRange(store: MemoryStore, search: SimilaritySearch, chain: Chain, request: String, resultCount: int,
                            split: SizedSplitter, chunkSize: int, chunkOverlap: int, files: seq<SourceFile>)
    requires store.docs == LoadedDocs(split, chunkSize, chunkOverlap, files)
    requires search(store.docs, request, resultCount).Success?
    requires forall h :: h in search(store.docs, request, resultCount).value ==> h.doc in store.docs
    ensures var reply := AnswerFrom(store, search, chain, request, resultCount);
      reply.Answer? ==>
        (forall k :: 0 <= k < |reply.relevantFilesDetails| ==>
          1 <= reply.relevantFilesDetails[k].chunk <= reply.relevantFilesDetails[k].totalChunks)
        && (forall i, j :: 0 <= i < j < |reply.relevantFiles| ==> reply.relevantFiles[i] != reply.relevantFiles[j])
        && |reply.modelResults| == |ModelConfig|
  {
    LoadedChunksInRange(split, chunkSize, chunkOverlap, files);
    var hits := search(store.docs, request, resultCount).value;
    forall k | 0 <= k < |hits|
      ensures 1 <= hits[k].doc.metadata.chunk <= hits[k].doc.metadata.totalChunks
    {
      assert hits[k] in hits;
    }
  }

  /** The server's module-level state: the current splitter settings and the store, with the services it calls. */
  class Server {
    var chunkSize: int
    var chunkOverlap: int
    var vectorStore: Option<MemoryStore>
    const files: seq<SourceFile>
    const accepts: SplitterCheck
    const split: SizedSplitter
    const index: Indexer
    const search: SimilaritySearch
    const chain: Chain

    constructor(files: seq<SourceFile>, accepts: SplitterCheck, split: SizedSplitter, index: Indexer, search: SimilaritySearch, chain: Chain)
      ensures chunkSize == InitialChunkSize && chunkOverlap == InitialChunkOverlap && vectorStore == None
      ensures this.files == files && this.accepts == accepts && this.split == split
      ensures this.index == index && this.search == search && this.chain == chain
    {
      this.files, this.accepts, this.split := files, accepts, split;
      this.index, this.search, this.chain := index, search, chain;
      chunkSize, chunkOverlap := InitialChunkSize, InitialChunkOverlap;
      vectorStore := None;
    }

    /** `loadSourceCodeAndCreateVectorStore` with the current splitter. */
    method LoadSourceCode() returns (store: Option<MemoryStore>)
      ensures store == LoadOutcome(split, chunkSize, chunkOverlap, index, files)
    {
      if |files| == 0 {
        return None;
      }
      var docs: seq<ChunkDoc> := [];
      for f := 0 to |files|
        invariant docs == LoadedDocs(split, chunkSize, chunkOverlap, files[..f])
      {
        var file := files[f];
        FlatMapSnoc(FileDocsOf(split, chunkSize, chunkOverlap), files[..f], file);
        assert files[..f + 1] == files[..f] + [file];
        if file.read.Some? {
          docs := AppendChunks(docs, file.path, split(chunkSize, chunkOverlap, file.read.value));
        }
      }
      assert files[..|files|] == files;
      if |docs| == 0 || !index(docs) {
        return None;
      }
      store := Some(MemoryStore(docs));
    }

    /**
     * `/api/refresh-vector-store`: the splitter is replaced only when both
     * fields are truthy. When its constructor throws, the `catch` answers 500
     * and the splitter and the store stay as they were.
     */
    method Refresh(newChunkSize: Option<int>, newChunkOverlap: Option<int>) returns (reply: ServerReply)
      modifies this
      ensures var replace := newChunkSize.Some? && newChunkSize.value != 0 && newChunkOverlap.Some? && newChunkOverlap.value != 0;
        var refused := replace && !accepts(newChunkSize.value, newChunkOverlap.value);
        (refused ==>
           chunkSize == old(chunkSize) && chunkOverlap == old(chunkOverlap) && vectorStore == old(vectorStore)
           && reply == StatusReply(500, false, RefreshFailedMessage))
        && (!refused ==>
              (replace ==> chunkSize == newChunkSize.value && chunkOverlap == newChunkOverlap.value)
              && (!replace ==> chunkSize == old(chunkSize) && chunkOverlap == old(chunkOverlap))
              && vectorStore == LoadOutcome(split, chunkSize, chunkOverlap, index, files)
              && reply == if vectorStore.Some? then StatusReply(200, true, RefreshedMessage)
                          else StatusReply(500, false, RefreshFailedMessage))
    {
      if newChunkSize.Some? && newChunkSize.value != 0 && newChunkOverlap.Some? && newChunkOverlap.value != 0 {
        if !accepts(newChunkSize.value, newChunkOverlap.value) {
          return StatusReply(500, false, RefreshFailedMessage);
        }
        chunkSize, chunkOverlap := newChunkSize.value, newChunkOverlap.value;
      }
      vectorStore := LoadSourceCode();
      if vectorStore.Some? {
        reply := StatusReply(200, true, RefreshedMessage);
      } else {
        reply := StatusReply(500, false, RefreshFailedMessage);
      }
    }

    /** `/api/recommend-code`: the store is loaded on first use; the splitter settings never change here. */
    method RecommendCode(request: Option<String>, maxResults: Option<int>) returns (reply: ServerReply)
      modifies this
      ensures chunkSize == old(chunkSize) && chunkOverlap == old(chunkOverlap)
      ensures !(request.Some? && request.value != []) ==>
        reply == ErrorReply(400, EmptyRequestMessage) && vectorStore == old(vectorStore)
      ensures request.Some? && request.value != [] ==>
        vectorStore == (if old(vectorStore).Some? then old(vectorStore) else LoadOutcome(split, chunkSize, chunkOverlap, index, files))
        && reply == if vectorStore.None? then ErrorReply(500, StoreUnavailableMessage)
                    else AnswerFrom(vectorStore.value, search, chain, request.value, ResultCount(maxResults))
    {
      var resultCount := ResultCount(maxResults);
      if request.None? || request.value == [] {
        return ErrorReply(400, EmptyRequestMessage);
      }
      if vectorStore.None? {
        vectorStore := LoadSourceCode();
        if vectorStore.None? {
          return ErrorReply(500, StoreUnavailableMessage);
        }
      }
      reply := AnswerFrom(vectorStore.value, search, chain, request.value, resultCount);
    }
  }

  /** The inner loop of the loader: one document per chunk, numbered from 1. */
  method AppendChunks(docs: seq<ChunkDoc>, path: String, textChunks: seq<String>) returns (result: seq<ChunkDoc>)
    ensures result == docs + FileDocs(path, textChunks)
  {
    result := docs;
    for i := 0 to |textChunks|
      invariant result == docs + FileDocs(path, textChunks)[..i]
    {
      assert FileDocs(path, textChunks)[..i + 1] == FileDocs(path, textChunks)[..i] + [FileDocs(path, textChunks)[i]];
      AppendAssoc(docs, FileDocs(path, textChunks)[..i], [FileDocs(path, textChunks)[i]]);
      result := result + [ChunkDoc(textChunks[i], ChunkMeta(path, i + 1, |textChunks|))];
    }
    assert FileDocs(path, textChunks)[..|textChunks|] == FileDocs(path, textChunks);
  }
}
