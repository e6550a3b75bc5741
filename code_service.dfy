/**
 * The recommendation service: every enabled model answers from the retrieved
 * sources, a repository can be re-vectorized, and a recommended diff can be
 * committed.
 */
module CodeService {
  import opened Wrappers
  import opened Text
  import opened VectorStore
  import opened DiffParser
  import opened GithubUtils
  import opened AiUtils

  /** `config.chunk`: the defaults the service and the routes fall back to. */
  const DefaultChunkSize: nat := 1000
  const DefaultChunkOverlap: nat := 200
  const DefaultMaxResults: nat := 5

  /** `MODEL_CONFIG`, in declaration order: the model name and its `enabled` flag. */
  const ModelConfig: seq<(String, bool)> := [("gpt-4o", true), ("gpt-o3-mini", true), ("gpt-o1", false)]

  function EnabledName(entry: (String, bool)): Option<String> {
    if entry.1 then Some(entry.0) else None
  }

  /** The names of the enabled entries, in declaration order. */
  function EnabledModels(config: seq<(String, bool)>): seq<String> {
    FilterMap(EnabledName, config)
  }

  /**
   * The recommendation chain of one model, given its name, the prompt
   * context and the request: the model's text, or the message of the error
   * it throws. The prompt template is part of the chain.
   */
  type Chain = (String, String, String) -> Result<String, String>

  const SourceSeparator: String := "\n\n---\n\n"
  const ModelFailureInfix: String := " 모델 처리 중 오류가 발생했습니다: "

  function SourceBlock(src: SourceEntry): String {
    "파일: " + src.source + "\n\n" + src.content
  }

  /** The first step of the chain: one block per source, in order. */
  function SourcesContext(sources: seq<SourceEntry>): String {
    Join(seq(|sources|, i requires 0 <= i < |sources| => SourceBlock(sources[i])), SourceSeparator)
  }

  /** The entry pushed for one model: its text, or an `error: true` entry naming the model. */
  function ModelResult(chain: Chain, modelName: String, context: String, request: String): Recommendation {
    match chain(modelName, context, request)
    case Success(text) => Recommendation(modelName, text, false, false)
    case Failure(message) => Recommendation(modelName, modelName + ModelFailureInfix + message, true, false)
  }

  /**
   * One entry per model, in the given order. Each entry depends on its own
   * model's answer only, so a failing model does not stop the others.
   */
  function ModelResults(chain: Chain, models: seq<String>, context: String, request: String): (results: seq<Recommendation>)
    ensures |results| == |models|
    ensures forall i :: 0 <= i < |models| ==>
      results[i].modelName == models[i] && !results[i].disabled
      && (results[i].error <==> chain(models[i], context, request).Failure?)
      && (chain(models[i], context, request).Success? ==> results[i].recommendation == chain(models[i], context, request).value)
  {
    seq(|models|, i requires 0 <= i < |models| => ModelResult(chain, models[i], context, request))
  }

  /** What `getCodeRecommendation` returns; the lists come straight from the search. */
  datatype CodeRecommendation = CodeRecommendation(
    modelResults: seq<Recommendation>,
    relevantFiles: seq<String>,
    relevantFilesDetails: seq<FileDetail>)

  /** `getCodeRecommendation` as a function of the collection and the services; a failed search is rethrown. */
  function RecommendationOutcome(
    records: seq<Record>, faults: StoreFaults, embed: Embedder, knn: Knn, chain: Chain,
    userId: String, request: String, maxResults: nat, repository: String)
    : Result<CodeRecommendation, String>
  {
    match Search(records, faults, embed, knn, userId, request, repository, maxResults)
    case Failure(e) => Failure(e)
    case Success(result) =>
      Success(CodeRecommendation(
        ModelResults(chain, EnabledModels(ModelConfig), SourcesContext(result.sources), request),
        result.relevantFiles, result.relevantFilesDetails))
  }

  /** `getCodeRecommendation`: search, then ask every enabled model in turn. */
  method GetCodeRecommendation(
    store: Collection, embed: Embedder, knn: Knn, chain: Chain,
    userId: String, request: String, maxResults: nat, repository: String)
    returns (r: Result<CodeRecommendation, String>)
    ensures r == RecommendationOutcome(store.records, store.faults, embed, knn, chain, userId, request, maxResults, repository)
  {
    var result := SearchAndGenerate(store, embed, knn, userId, request, repository, maxResults);
    if result.Failure? {
      return Failure(result.error);
    }
    var relevantFiles := result.value.relevantFiles;
    var relevantFilesDetails := result.value.relevantFilesDetails;
    var enabledModels := EnabledModels(ModelConfig);
    // Every chain builds the same context from the same sources.
    var context := SourcesContext(result.value.sources);
    var modelResults: seq<Recommendation> := [];
    for i := 0 to |enabledModels|
      invariant modelResults == ModelResults(chain, enabledModels[..i], context, request)
    {
      var modelName := enabledModels[i];
      var modelResponse := chain(modelName, context, request);
      match modelResponse {
        case Success(text) =>
          modelResults := modelResults + [Recommendation(modelName, text, false, false)];
        case Failure(message) =>
          modelResults := modelResults + [Recommendation(modelName, modelName + ModelFailureInfix + message, true, false)];
      }
    }
    assert enabledModels[..|enabledModels|] == enabledModels;
    r := Success(CodeRecommendation(modelResults, relevantFiles, relevantFilesDetails));
  }

  /** A name is enabled exactly when some entry lists it with `enabled: true`. */
  lemma {:induction false} EnabledModelsListed(config: seq<(String, bool)>, name: String)
    ensures name in EnabledModels(config) <==> (name, true) in config
    decreases |config|
  {
    if config != [] {
      var init := config[..|config| - 1];
      EnabledModelsListed(init, name);
      assert config == init + [config[|config| - 1]];
    }
  }

  /** With the shipped table the answers come from "gpt-4o" and then "gpt-o3-mini"; "gpt-o1" is never asked. */
  lemma ShippedModels()
    ensures EnabledModels(ModelConfig) == ["gpt-4o", "gpt-o3-mini"]
  {
    var c0, c1, c2 := ModelConfig[0], ModelConfig[1], ModelConfig[2];
    var one, two := [c0], [c0, c1];
    assert FilterMap(EnabledName, one) == [c0.0] by {
      FilterMapSnoc(EnabledName, [], c0);
      assert [] + [c0] == one;
    }
    assert FilterMap(EnabledName, two) == [c0.0, c1.0] by {
      FilterMapSnoc(EnabledName, one, c1);
      assert one + [c1] == two;
    }
    FilterMapSnoc(EnabledName, two, c2);
    assert two + [c2] == ModelConfig;
  }

  /** A successful recommendation has one entry per enabled model, in order, each failing only with its own model. */
  lemma OneResultPerEnabledModel(
    records: seq<Record>, faults: StoreFaults, embed: Embedder, knn: Knn, chain: Chain,
    userId: String, request: String, maxResults: nat, repository: String)
    requires RecommendationOutcome(records, faults, embed, knn, chain, userId, request, maxResults, repository).Success?
    ensures var results := RecommendationOutcome(records, faults, embed, knn, chain, userId, request, maxResults, repository).value.modelResults;
      |results| == 2 && results[0].modelName == "gpt-4o" && results[1].modelName == "gpt-o3-mini"
      && forall i :: 0 <= i < 2 ==> !results[i].disabled
  {
    ShippedModels();
  }

  /** The context grows by a separator and a block per further source. */
  lemma SourcesContextSnoc(sources: seq<SourceEntry>, src: SourceEntry)
    ensures SourcesContext(sources + [src])
      == if sources == [] then SourceBlock(src) else SourcesContext(sources) + SourceSeparator + SourceBlock(src)
  {
    var blocks := seq(|sources|, i requires 0 <= i < |sources| => SourceBlock(sources[i]));
    var all := sources + [src];
    assert seq(|all|, i requires 0 <= i < |all| => SourceBlock(all[i])) == blocks + [SourceBlock(src)];
    if sources != [] {
      JoinSnoc(blocks, SourceBlock(src), SourceSeparator);
    }
  }

  /** `const [owner, repo] = repository.split("/")`; a missing second piece prints as `undefined`. */
  function RepositoryParts(repository: String): (String, String) {
    var parts := Split(repository, "/");
    (parts[0], if |parts| > 1 then parts[1] else "undefined")
  }

  /** For a name with exactly one slash, `owner/repo` names the repository it came from. */
  lemma RepositoryPartsRejoin(repository: String)
    requires CountChar(repository, '/') == 1
    ensures var (owner, repo) := RepositoryParts(repository);
      owner + "/" + repo == repository
  {
    var parts := Split(repository, "/");
    SplitCharCount(repository, '/');
    JoinSplit(repository, "/");
    assert parts == [parts[0]] + [parts[1]];
    JoinCons(parts[0], [parts[1]], "/");
  }

  /** A number field of the body read with `value || fallback`: 0 and an absent field are falsy. */
  function OrDefault(value: Option<nat>, fallback: nat): nat {
    if value.Some? && value.value != 0 then value.value else fallback
  }

  /** The GitHub listing of a repository's root, by owner and name. */
  type Lister = (String, String) -> Result<seq<Item>, String>

  datatype Refreshed = Refreshed(success: bool, message: String, details: StoreSummary)

  function RefreshMessage(documentCount: nat): String {
    "벡터 저장소가 성공적으로 갱신되었습니다. " + NatToString(documentCount) + "개의 문서가 처리되었습니다."
  }

  /** `refreshVectorStore`: vectorize the repository its name splits into; errors are rethrown. */
  function RefreshOutcome(faults: StoreFaults, embed: Embedder, split: Splitter, list: Lister, userId: String, repository: String)
    : Result<Refreshed, String>
  {
    var (owner, repo) := RepositoryParts(repository);
    match VectorizeOutcome(faults, embed, split, userId, owner, repo, list(owner, repo))
    case Failure(e) => Failure(e)
    case Success(summary) => Success(Refreshed(true, RefreshMessage(summary.documentCount), summary))
  }

  method RefreshVectorStore(
    store: Collection, embed: Embedder, split: Splitter, list: Lister,
    userId: String, chunkSize: Option<nat>, chunkOverlap: Option<nat>, repository: String)
    returns (r: Result<Refreshed, String>)
    modifies store
    ensures r == RefreshOutcome(store.faults, embed, split, list, userId, repository)
    ensures var (owner, repo) := RepositoryParts(repository);
      store.records == VectorizedRecords(old(store.records), store.faults, embed, split, userId, owner, repo, list(owner, repo))
  {
    var (owner, repo) := RepositoryParts(repository);
    var result := VectorizeRepository(
      store, embed, split, userId, owner, repo, list(owner, repo),
      OrDefault(chunkSize, DefaultChunkSize), OrDefault(chunkOverlap, DefaultChunkOverlap));
    if result.Failure? {
      return Failure(result.error);
    }
    r := Success(Refreshed(true, RefreshMessage(result.value.documentCount), result.value));
  }

  /** The success message reports the number of documents, and distinct counts give distinct messages. */
  lemma RefreshMessageReportsCount(m: nat, n: nat)
    requires RefreshMessage(m) == RefreshMessage(n)
    ensures m == n
  {
    var prefix, suffix := "벡터 저장소가 성공적으로 갱신되었습니다. ", "개의 문서가 처리되었습니다.";
    var a, b := NatToString(m), NatToString(n);
    AppendAssoc(prefix, a, suffix);
    AppendAssoc(prefix, b, suffix);
    assert (prefix + (a + suffix))[|prefix|..] == a + suffix;
    assert (prefix + (b + suffix))[|prefix|..] == b + suffix;
    DigitsBeforeSuffix(a, b, suffix);
    DecimalRoundTrip(m);
    DecimalRoundTrip(n);
  }

  /** Two digit strings followed by the same text that starts with a non-digit are equal when the whole strings are. */
  lemma DigitsBeforeSuffix(a: String, b: String, suffix: String)
    requires AllDigits(a) && AllDigits(b) && suffix != [] && !IsDigit(suffix[0])
    requires a + suffix == b + suffix
    ensures a == b
  {
    if |a| == |b| {
      assert a == (a + suffix)[..|a|];
      assert b == (b + suffix)[..|b|];
    }
  }

  const NoValidChangesMessage: String := "유효한 변경사항을 찾을 수 없습니다. diff 형식이 올바른지 확인해주세요."
  const AutoCommitMessage: String := "AI 코드 추천에 따른 자동 변경사항 적용"

  datatype Applied = Applied(success: bool, message: String, changes: seq<String>)

  function Paths(changes: seq<FileChange>): (paths: seq<String>)
    ensures |paths| == |changes|
    ensures forall i :: 0 <= i < |changes| ==> paths[i] == changes[i].filePath
  {
    seq(|changes|, i requires 0 <= i < |changes| => changes[i].filePath)
  }

  /**
   * `applyCodeRecommendation` as a function of the repository: an empty
   * parse fails before any request; otherwise the changes are committed and
   * their paths reported in parse order. `describe` is the message of the
   * error a failed request throws.
   */
  function ApplyOutcome(remote: Remote, faults: Faults, recommendation: String, describe: nat -> String)
    : (Remote, Result<Applied, String>)
  {
    var changes := ParseDiff(recommendation);
    if changes == [] then (remote, Failure(NoValidChangesMessage))
    else
      var (after, committed) := CommitOutcome(remote, faults, changes, AutoCommitMessage);
      (after, if committed.Success? then Success(Applied(true, committed.value.message, Paths(changes))) else Failure(describe(committed.error)))
  }

  /** `applyCodeRecommendation` on the repository `remote` stands for. */
  method ApplyCodeRecommendation(remote: GitHubRepo, recommendation: String, describe: nat -> String)
    returns (r: Result<Applied, String>)
    modifies remote
    ensures (remote.State(), r) == ApplyOutcome(old(remote.State()), remote.faults, recommendation, describe)
  {
    var changes := ParseDiffToChanges(recommendation);
    if |changes| == 0 {
      return Failure(NoValidChangesMessage);
    }
    var result := CommitFileChanges(remote, changes, AutoCommitMessage);
    if result.Failure? {
      return Failure(describe(result.error));
    }
    r := Success(Applied(true, result.value.message, Paths(changes)));
  }

  /**
   * Applying a recommendation only writes files it names, with the automatic
   * commit message, and a success reports every named path.
   */
  lemma ApplyWritesNamedFiles(remote: Remote, faults: Faults, recommendation: String, describe: nat -> String)
    ensures var (after, r) := ApplyOutcome(remote, faults, recommendation, describe);
      var changes := ParseDiff(recommendation);
      remote.writes <= after.writes
      && (forall j :: |remote.writes| <= j < |after.writes| ==>
            after.writes[j].message == AutoCommitMessage && after.writes[j].path in Paths(changes))
      && (r.Success? ==> r.value.changes == Paths(changes) && changes != [])
  {
    var changes := ParseDiff(recommendation);
    if changes != [] {
      CommitWritesOnlyChanges(remote, faults, changes, AutoCommitMessage);
      var after := CommitAll(remote, faults, changes, AutoCommitMessage).0;
      forall j | |remote.writes| <= j < |after.writes|
        ensures after.writes[j].path in Paths(changes)
      {
        var i :| 0 <= i < |changes| && after.writes[j].path == changes[i].filePath;
        assert Paths(changes)[i] == changes[i].filePath;
      }
    }
  }
}
