/**
 * The `/api` routes: request validation, the one retry after vectorizing a
 * repository with no documents, and the two routes that count and delete
 * vector records.
 */
module Routes {
  import opened Wrappers
  import opened Text
  import opened VectorStore
  import opened GithubUtils
  import opened AiUtils
  import opened CodeService

  /** A string field of the request body is truthy when present and not empty. */
  predicate Present(field: Option<String>) {
    field.Some? && field.value != []
  }

  datatype RecommendBody = RecommendBody(request: Option<String>, maxResults: Option<nat>, repository: Option<String>)

  /** The reply of `/recommend-code`: the recommendation, or an error status with a single error entry. */
  datatype RecommendReply =
    | Recommended(result: CodeRecommendation)
    | RecommendFailed(status: nat, modelResults: seq<Recommendation>, error: String)

  /** A service call a route makes, in the order made. */
  datatype ServiceCall =
    | Recommend(request: String, maxResults: nat, repository: String)
    | Vectorize(owner: String, repo: String, chunkSize: nat, chunkOverlap: nat)

  const MissingRecommendFields: String := "요청 내용과 저장소가 필요합니다."
  const VectorizeFailedMessage: String := "저장소 벡터화 중 오류가 발생했습니다. 다시 시도해주세요."
  const RecommendFailedMessage: String := "코드 추천을 생성하는 중 오류가 발생했습니다."

  /** The single `error: true` entry of an error reply, always under "gpt-4o". */
  function ErrorEntry(message: String): seq<Recommendation> {
    [Recommendation("gpt-4o", message, true, false)]
  }

  /**
   * `/recommend-code` over the outcomes of the calls it may make: the first
   * recommendation, the vectorization and the retry. The reply comes with the
   * calls made; an outcome is consulted only when its call is made.
   */
  function RecommendCode(
    body: RecommendBody, first: Result<CodeRecommendation, String>,
    vectorized: Result<StoreSummary, String>, retried: Result<CodeRecommendation, String>)
    : (RecommendReply, seq<ServiceCall>)
  {
    if !Present(body.request) || !Present(body.repository) then
      (RecommendFailed(400, ErrorEntry(MissingRecommendFields), MissingRecommendFields), [])
    else
      var recommend := Recommend(body.request.value, OrDefault(body.maxResults, DefaultMaxResults), body.repository.value);
      var (owner, repo) := RepositoryParts(body.repository.value);
      match first
      case Success(result) => (Recommended(result), [recommend])
      case Failure(e) =>
        if e != NoDocumentsMessage then
          (RecommendFailed(500, ErrorEntry(RecommendFailedMessage), OrElse(e, RecommendFailedMessage)), [recommend])
        else
          var vectorize := Vectorize(owner, repo, DefaultChunkSize, DefaultChunkOverlap);
          match vectorized
          case Failure(e2) => (RecommendFailed(500, ErrorEntry(VectorizeFailedMessage), e2), [recommend, vectorize])
          case Success(_) =>
            match retried
            case Success(result) => (Recommended(result), [recommend, vectorize, recommend])
            case Failure(e3) => (RecommendFailed(500, ErrorEntry(VectorizeFailedMessage), e3), [recommend, vectorize, recommend])
  }

  /**
   * A valid request recommends once; only the exact "no documents" error
   * leads to one vectorization with the configured chunking, and only a
   * successful one to exactly one retry.
   */
  lemma RetryAtMostOnce(
    body: RecommendBody, first: Result<CodeRecommendation, String>,
    vectorized: Result<StoreSummary, String>, retried: Result<CodeRecommendation, String>)
    ensures var (reply, calls) := RecommendCode(body, first, vectorized, retried);
      var valid := Present(body.request) && Present(body.repository);
      var fallback := valid && first == Failure(NoDocumentsMessage);
      (!valid <==> calls == [])
      && (valid ==> calls[0].Recommend? && calls[0].repository == body.repository.value
                    && calls[0].maxResults == OrDefault(body.maxResults, DefaultMaxResults))
      && (fallback <==> |calls| >= 2)
      && (fallback ==> calls[1] == Vectorize(RepositoryParts(body.repository.value).0, RepositoryParts(body.repository.value).1,
                                             DefaultChunkSize, DefaultChunkOverlap))
      && (|calls| == 3 <==> fallback && vectorized.Success?)
      && (|calls| == 3 ==> calls[2] == calls[0])
      && |calls| <= 3
  {
  }

  /** Every failure is answered with one "gpt-4o" error entry; a missing field is a 400 and nothing else is. */
  lemma RecommendFailureShape(
    body: RecommendBody, first: Result<CodeRecommendation, String>,
    vectorized: Result<StoreSummary, String>, retried: Result<CodeRecommendation, String>)
    ensures var reply := RecommendCode(body, first, vectorized, retried).0;
      (reply.RecommendFailed? ==> |reply.modelResults| == 1 && reply.modelResults[0].modelName == "gpt-4o" && reply.modelResults[0].error)
      && (reply.RecommendFailed? && reply.status == 400 <==> !Present(body.request) || !Present(body.repository))
      && (reply.RecommendFailed? ==> reply.status in {400, 500})
      && (reply.Recommended? ==> first.Success? || retried.Success?)
  {
  }

  /**
   * `/recommend-code` wired to the services: the retry searches the
   * collection as the vectorization left it.
   */
  method RecommendCodeRoute(
    store: Collection, embed: Embedder, knn: Knn, chain: Chain, split: Splitter, list: Lister,
    userId: String, body: RecommendBody)
    returns (reply: RecommendReply)
    modifies store
    ensures Present(body.request) && Present(body.repository) ==>
      var (request, repository) := (body.request.value, body.repository.value);
      var maxResults := OrDefault(body.maxResults, DefaultMaxResults);
      var (owner, repo) := RepositoryParts(repository);
      var first := RecommendationOutcome(old(store.records), store.faults, embed, knn, chain, userId, request, maxResults, repository);
      var vectorized := VectorizeOutcome(store.faults, embed, split, userId, owner, repo, list(owner, repo));
      var revectorized := VectorizedRecords(old(store.records), store.faults, embed, split, userId, owner, repo, list(owner, repo));
      var retried := RecommendationOutcome(revectorized, store.faults, embed, knn, chain, userId, request, maxResults, repository);
      reply == RecommendCode(body, first, vectorized, retried).0
      && store.records == if first == Failure(NoDocumentsMessage) then revectorized else old(store.records)
    ensures !(Present(body.request) && Present(body.repository)) ==>
      reply == RecommendCode(body, Failure([]), Failure([]), Failure([])).0 && store.records == old(store.records)
  {
    if !Present(body.request) || !Present(body.repository) {
      return RecommendFailed(400, ErrorEntry(MissingRecommendFields), MissingRecommendFields);
    }
    var request, repository := body.request.value, body.repository.value;
    var maxResults := OrDefault(body.maxResults, DefaultMaxResults);
    var (owner, repo) := RepositoryParts(repository);
    var result := GetCodeRecommendation(store, embed, knn, chain, userId, request, maxResults, repository);
    if result.Success? {
      return Recommended(result.value);
    }
    if result.error != NoDocumentsMessage {
      return RecommendFailed(500, ErrorEntry(RecommendFailedMessage), OrElse(result.error, RecommendFailedMessage));
    }
    var vectorized := VectorizeRepository(store, embed, split, userId, owner, repo, list(owner, repo), DefaultChunkSize, DefaultChunkOverlap);
    if vectorized.Failure? {
      return RecommendFailed(500, ErrorEntry(VectorizeFailedMessage), vectorized.error);
    }
    var retried := GetCodeRecommendation(store, embed, knn, chain, userId, request, maxResults, repository);
    if retried.Failure? {
      return RecommendFailed(500, ErrorEntry(VectorizeFailedMessage), retried.error);
    }
    reply := Recommended(retried.value);
  }

  /** The reply of the other routes: the service's result, or `success: false` with a status and a message. */
  datatype Reply<T> = Ok(value: T) | Rejected(status: nat, message: String, error: Option<String>)

  const MissingRepositoryMessage: String := "저장소 정보가 필요합니다."
  const RefreshFailedMessage: String := "벡터 저장소 갱신 중 오류가 발생했습니다."

  datatype RefreshBody = RefreshBody(chunkSize: Option<nat>, chunkOverlap: Option<nat>, repository: Option<String>)

  /**
   * `/refresh-vector-store` over the refresh outcome; the chunk fields fall
   * back to the configured defaults and play no further part.
   */
  function RefreshReply(body: RefreshBody, outcome: Result<Refreshed, String>): Reply<Refreshed> {
    if !Present(body.repository) then Rejected(400, MissingRepositoryMessage, None)
    else
      match outcome
      case Success(refreshed) => Ok(refreshed)
      case Failure(e) => Rejected(500, RefreshFailedMessage, Some(e))
  }

  /** `/refresh-vector-store` wired to the service. */
  method RefreshRoute(
    store: Collection, embed: Embedder, split: Splitter, list: Lister, userId: String, body: RefreshBody)
    returns (reply: Reply<Refreshed>)
    modifies store
    ensures Present(body.repository) ==>
      var (owner, repo) := RepositoryParts(body.repository.value);
      reply == RefreshReply(body, RefreshOutcome(store.faults, embed, split, list, userId, body.repository.value))
      && store.records == VectorizedRecords(old(store.records), store.faults, embed, split, userId, owner, repo, list(owner, repo))
    ensures !Present(body.repository) ==> reply == Rejected(400, MissingRepositoryMessage, None) && store.records == old(store.records)
  {
    if !Present(body.repository) {
      return Rejected(400, MissingRepositoryMessage, None);
    }
    var chunkSize := OrDefault(body.chunkSize, DefaultChunkSize);
    var chunkOverlap := OrDefault(body.chunkOverlap, DefaultChunkOverlap);
    var result := RefreshVectorStore(store, embed, split, list, userId, Some(chunkSize), Some(chunkOverlap), body.repository.value);
    if result.Failure? {
      return Rejected(500, RefreshFailedMessage, Some(result.error));
    }
    reply := Ok(result.value);
  }

  /** The `repositories` field: absent (or falsy), a value that is not an array, or an array of repository names. */
  datatype RepositoriesField = Missing | NotArray | Names(names: seq<String>)

  datatype VectorCheck = VectorCheck(repository: String, hasVectors: bool)

  const InvalidRepositoriesMessage: String := "유효한 저장소 목록이 필요합니다."
  const CheckFailedMessage: String := "벡터 데이터 확인 중 오류가 발생했습니다."

  /**
   * `/check-vectors` as a function of the collection: a rejected count is a
   * 500 carrying its message; with no names nothing is counted.
   */
  function CheckOutcome(records: seq<Record>, faults: StoreFaults, userId: String, field: RepositoriesField)
    : Reply<seq<VectorCheck>>
  {
    match field
    case Names(names) =>
      if names != [] && faults.onCount.Some? then Rejected(500, CheckFailedMessage, faults.onCount)
      else Ok(seq(|names|, i requires 0 <= i < |names| => VectorCheck(names[i], |ScopeOf(records, userId, names[i])| > 0)))
    case _ => Rejected(400, InvalidRepositoriesMessage, None)
  }

  /** `/check-vectors`: one count per name, in input order. */
  method CheckVectors(store: Collection, userId: String, field: RepositoriesField) returns (reply: Reply<seq<VectorCheck>>)
    ensures reply == CheckOutcome(store.records, store.faults, userId, field)
  {
    if !field.Names? {
      return Rejected(400, InvalidRepositoriesMessage, None);
    }
    var repositories := field.names;
    var results: seq<VectorCheck> := [];
    for i := 0 to |repositories|
      invariant |results| == i
      invariant forall k :: 0 <= k < i ==>
        results[k] == VectorCheck(repositories[k], |ScopeOf(store.records, userId, repositories[k])| > 0)
      invariant i > 0 ==> store.faults.onCount.None?
    {
      var count := store.CountDocuments(userId, repositories[i]);
      if count.Failure? {
        return Rejected(500, CheckFailedMessage, Some(count.error));
      }
      results := results + [VectorCheck(repositories[i], count.value > 0)];
    }
    assert CheckOutcome(store.records, store.faults, userId, field).Ok?;
    assert results == CheckOutcome(store.records, store.faults, userId, field).value;
    reply := Ok(results);
  }

  /**
   * A repository is reported as having vectors exactly when some record of
   * the user is stored under that name; the check fails only when the count
   * rejects, with the count's message.
   */
  lemma HasVectorsIffStored(records: seq<Record>, faults: StoreFaults, userId: String, names: seq<String>, i: nat)
    requires i < |names|
    ensures var reply := CheckOutcome(records, faults, userId, Names(names));
      (reply.Ok? <==> faults.onCount.None?)
      && (reply.Rejected? ==> reply.status == 500 && reply.error == faults.onCount)
      && (reply.Ok? ==>
            |reply.value| == |names| && reply.value[i].repository == names[i]
            && (reply.value[i].hasVectors <==> exists r :: r in records && InScope(r, userId, names[i])))
  {
    var scope := ScopeOf(records, userId, names[i]);
    if |scope| > 0 {
      assert scope[0] in scope;
    }
  }

  const NothingToDeleteMessage: String := "삭제할 벡터 데이터가 없습니다."
  const DisconnectFailedMessage: String := "벡터 저장소 연동 해제 중 오류가 발생했습니다."

  datatype Disconnected = Disconnected(message: String, deletedCount: nat)

  function DisconnectMessage(deletedCount: nat): String {
    if deletedCount > 0 then "벡터 저장소 연동이 해제되었습니다. (" + NatToString(deletedCount) + "개 항목 삭제)"
    else NothingToDeleteMessage
  }

  /** `/disconnect-vector-store`: delete the scope and report how many records went; a rejected delete is a 500. */
  method DisconnectVectorStore(store: Collection, userId: String, repository: Option<String>)
    returns (reply: Reply<Disconnected>)
    modifies store
    ensures !Present(repository) ==> reply == Rejected(400, MissingRepositoryMessage, None) && store.records == old(store.records)
    ensures Present(repository) && store.faults.onDelete.Some? ==>
      reply == Rejected(500, DisconnectFailedMessage, store.faults.onDelete) && store.records == old(store.records)
    ensures Present(repository) && store.faults.onDelete.None? ==>
      var deleted := |ScopeOf(old(store.records), userId, repository.value)|;
      store.records == OutsideScope(old(store.records), userId, repository.value)
      && reply == Ok(Disconnected(DisconnectMessage(deleted), deleted))
  {
    if !Present(repository) {
      return Rejected(400, MissingRepositoryMessage, None);
    }
    var result := store.DeleteMany(userId, repository.value);
    if result.Failure? {
      return Rejected(500, DisconnectFailedMessage, Some(result.error));
    }
    var deletedCount := result.value;
    reply := Ok(Disconnected(DisconnectMessage(deletedCount), deletedCount));
  }

  /**
   * After a disconnect the scope is empty, every other scope is as it was,
   * and the count removed is the count the scope had.
   */
  lemma DisconnectEmptiesScope(records: seq<Record>, userId: String, repository: String)
    ensures var after := OutsideScope(records, userId, repository);
      ScopeOf(after, userId, repository) == []
      && OutsideScope(after, userId, repository) == OutsideScope(records, userId, repository)
      && |records| - |after| == |ScopeOf(records, userId, repository)|
  {
    ReplaceScope(records, userId, repository, []);
    assert OutsideScope(records, userId, repository) + [] == OutsideScope(records, userId, repository);
    ScopePartition(records, userId, repository);
  }

  /** Nothing deleted is reported with its own message, never with a count. */
  lemma DisconnectMessageDistinct(n: nat)
    requires n > 0
    ensures DisconnectMessage(n) != DisconnectMessage(0)
  {
    var m := DisconnectMessage(n);
    assert m[0] == '벡' && NothingToDeleteMessage[0] == '삭';
  }

  const MissingParametersMessage: String := "필수 파라미터가 누락되었습니다."
  const ApplyFailedMessage: String := "코드 추천 적용 중 오류가 발생했습니다."

  datatype ApplyBody = ApplyBody(repository: Option<String>, recommendation: Option<String>, modelName: Option<String>)

  /** `/apply-recommendation` over the apply outcome: all three fields are required; `modelName` is otherwise unused. */
  function ApplyReply(body: ApplyBody, outcome: Result<Applied, String>): (reply: Reply<Applied>)
    ensures reply.Rejected? && reply.status == 400 <==>
      !Present(body.repository) || !Present(body.recommendation) || !Present(body.modelName)
    ensures reply.Rejected? && reply.status == 500 ==> reply.message != []
  {
    if !Present(body.repository) || !Present(body.recommendation) || !Present(body.modelName) then
      Rejected(400, MissingParametersMessage, None)
    else
      match outcome
      case Success(applied) => Ok(applied)
      case Failure(e) => Rejected(500, OrElse(e, ApplyFailedMessage), None)
  }

  /** `/apply-recommendation` wired to the service; nothing is requested when a field is missing. */
  method ApplyRoute(remote: GitHubRepo, describe: nat -> String, body: ApplyBody) returns (reply: Reply<Applied>)
    modifies remote
    ensures var valid := Present(body.repository) && Present(body.recommendation) && Present(body.modelName);
      (!valid ==> reply == ApplyReply(body, Failure([])) && remote.State() == old(remote.State()))
      && (valid ==>
            var (after, outcome) := ApplyOutcome(old(remote.State()), remote.faults, body.recommendation.value, describe);
            reply == ApplyReply(body, outcome) && remote.State() == after)
  {
    if !Present(body.repository) || !Present(body.recommendation) || !Present(body.modelName) {
      return Rejected(400, MissingParametersMessage, None);
    }
    var result := ApplyCodeRecommendation(remote, body.recommendation.value, describe);
    if result.Failure? {
      return Rejected(500, OrElse(result.error, ApplyFailedMessage), None);
    }
    reply := Ok(result.value);
  }
}
