/**
 * utils/githubUtils.js: the depth-first walk of a repository that collects
 * the chunks of its source files (`vectorizeRepository` and its inner
 * `processContents`), and the loop that writes a batch of file changes
 * back to the repository (`commitFileChanges`). The GitHub contents API is
 * a value: each directory entry carries what fetching it returns, and the
 * remote side of a commit is a map from path to content and blob sha.
 */
module GithubUtils {
  import opened Wrappers
  import opened Text
  import opened VectorStore
  import opened DiffParser

  /**
   * An entry of a directory listing. A file carries its decoded text, or
   * `None` when fetching it fails; a directory carries its listing, or is
   * `UnreadableDir` when fetching that fails. Other entry types (symlinks,
   * submodules) are neither walked nor read.
   */
  datatype Item =
    | FileItem(path: String, fetched: Option<String>)
    | DirItem(path: String, listing: seq<Item>)
    | UnreadableDir(path: String)
    | OtherItem(path: String)

  /** The text splitter: the chunks of a text. Its algorithm is not part of this model. */
  type Splitter = String -> seq<String>

  const ExcludedDirs: seq<String> :=
    ["node_modules", ".git", "dist", "build", "target", "venv", "__pycache__", ".idea", ".vscode"]

  const SupportedExtensions: seq<String> :=
    [".js", ".jsx", ".ts", ".tsx", ".py", ".java", ".c", ".cpp", ".cs", ".go", ".rb", ".php",
     ".html", ".css", ".md", ".json", ".yml", ".yaml"]

  const NoFilesMessage: String := "저장소에서 처리할 수 있는 파일을 찾을 수 없습니다."

  /** Whether the path contains one of `names` anywhere, as a substring. */
  function ContainsAny(path: String, names: seq<String>): (r: bool)
    ensures r <==> exists i :: 0 <= i < |names| && Contains(path, names[i])
  {
    if names == [] then false
    else
      var r := Contains(path, names[0]) || ContainsAny(path, names[1..]);
      assert forall i :: 1 <= i < |names| ==> names[1..][i - 1] == names[i];
      r
  }

  /** `excludedDirs.some((dir) => item.path.includes(dir))` */
  predicate IsExcluded(path: String) {
    ContainsAny(path, ExcludedDirs)
  }

  /** The path without its trailing slashes. */
  function StripSlashes(path: String): (r: String)
    ensures r <= path
    ensures r == [] || r[|r| - 1] != '/'
  {
    if path != [] && path[|path| - 1] == '/' then StripSlashes(path[..|path| - 1]) else path
  }

  /** The last segment of a path that does not end in a slash. */
  function BaseName(path: String): (r: String)
    ensures '/' !in r
  {
    if path == [] || path[|path| - 1] == '/' then []
    else BaseName(path[..|path| - 1]) + [path[|path| - 1]]
  }

  /** The index of the last '.' in `s`. */
  function LastDot(s: String): (r: Option<nat>)
    ensures r.Some? ==> r.value < |s| && s[r.value] == '.' && '.' !in s[r.value + 1..]
    ensures r.None? ==> '.' !in s
  {
    if s == [] then None
    else if s[|s| - 1] == '.' then Some(|s| - 1)
    else
      var r := LastDot(s[..|s| - 1]);
      assert r.Some? ==> s[r.value + 1..] == s[..|s| - 1][r.value + 1..] + [s[|s| - 1]];
      r
  }

  /**
   * `path.extname` (POSIX): from the last '.' of the last segment to its
   * end; empty when that segment has no '.', starts with its only '.', or
   * is "..".
   */
  function Extname(path: String): (ext: String)
    ensures ext != [] ==> ext[0] == '.' && '/' !in ext && '.' !in ext[1..]
  {
    var base := BaseName(StripSlashes(path));
    match LastDot(base)
    case None => []
    case Some(d) => if d == 0 || base == ".." then [] else base[d..]
  }

  /** `supportedExtensions.includes(path.extname(p).toLowerCase())` */
  predicate IsSupported(path: String) {
    ToLowerAscii(Extname(path)) in SupportedExtensions
  }

  /** `ext.replace(".", "")`: the extension without its leading dot. */
  function FileType(path: String): String {
    var ext := ToLowerAscii(Extname(path));
    if ext == [] then [] else ext[1..]
  }

  /** The documents of one file: its chunks, each carrying the file's path and type and the repository. */
  function ChunkDocs(chunks: seq<String>, path: String, owner: String, repo: String): (docs: seq<Document>)
    ensures |docs| == |chunks|
    ensures forall i :: 0 <= i < |docs| ==>
      docs[i].pageContent == chunks[i] && docs[i].metadata == DocMeta(Some(path), FileType(path), owner, repo)
  {
    seq(|chunks|, i requires 0 <= i < |chunks| => Document(chunks[i], DocMeta(Some(path), FileType(path), owner, repo)))
  }

  /** What one entry contributes to the walk. */
  function WalkItem(split: Splitter, owner: String, repo: String, item: Item): seq<Document>
    decreases item, 1
  {
    if IsExcluded(item.path) then []
    else
      match item
      case FileItem(path, fetched) =>
        if !IsSupported(path) || fetched.None? then [] else ChunkDocs(split(fetched.value), path, owner, repo)
      case DirItem(_, children) => WalkItems(split, owner, repo, children)
      case UnreadableDir(_) => []
      case OtherItem(_) => []
  }

  /** What a listing contributes: its entries' documents in listing order, each directory walked in place. */
  function WalkItems(split: Splitter, owner: String, repo: String, items: seq<Item>): seq<Document>
    decreases items, 0
  {
    if items == [] then []
    else WalkItems(split, owner, repo, items[..|items| - 1]) + WalkItem(split, owner, repo, items[|items| - 1])
  }

  /** The documents the walk collects, with the chunk parameters of the call they ignore. */
  class Walker {
    const split: Splitter
    const owner: String
    const repo: String
    var documents: seq<Document>

    constructor(split: Splitter, owner: String, repo: String)
      ensures this.split == split && this.owner == owner && this.repo == repo && documents == []
    {
      this.split, this.owner, this.repo := split, owner, repo;
      documents := [];
    }

    /** `processContents`: appends the documents of the listing, depth first, skipping what fails. */
    method ProcessContents(contents: seq<Item>)
      modifies this
      ensures documents == old(documents) + WalkItems(split, owner, repo, contents)
      decreases contents, 0
    {
      for i := 0 to |contents|
        invariant documents == old(documents) + WalkItems(split, owner, repo, contents[..i])
      {
        WalkItemsSnoc(split, owner, repo, contents[..i], contents[i]);
        assert contents[..i + 1] == contents[..i] + [contents[i]];
        ProcessItem(contents[i]);
        AppendAssoc(old(documents), WalkItems(split, owner, repo, contents[..i]), WalkItem(split, owner, repo, contents[i]));
      }
      assert contents[..|contents|] == contents;
    }

    /** One pass of the loop in `processContents`. */
    method ProcessItem(item: Item)
      modifies this
      ensures documents == old(documents) + WalkItem(split, owner, repo, item)
      decreases item, 1
    {
      if IsExcluded(item.path) {
        return;
      }
      match item
      case FileItem(path, fetched) =>
        if !IsSupported(path) {
          return;
        }
        if fetched.Some? {
          var chunks := split(fetched.value);
          documents := documents + ChunkDocs(chunks, path, owner, repo);
        }
      case DirItem(_, children) =>
        ProcessContents(children);
      case UnreadableDir(_) =>
      case OtherItem(_) =>
    }
  }

  /** Every collected document comes from a file that is neither excluded nor of an unsupported type. */
  lemma {:induction false} WalkItemsFiltered(split: Splitter, owner: String, repo: String, items: seq<Item>)
    ensures forall d :: d in WalkItems(split, owner, repo, items) ==>
      d.metadata.source.Some? && !IsExcluded(d.metadata.source.value) && IsSupported(d.metadata.source.value)
    decreases items, 0
  {
    if items != [] {
      WalkItemsFiltered(split, owner, repo, items[..|items| - 1]);
      WalkItemFiltered(split, owner, repo, items[|items| - 1]);
    }
  }

  lemma {:induction false} WalkItemFiltered(split: Splitter, owner: String, repo: String, item: Item)
    ensures forall d :: d in WalkItem(split, owner, repo, item) ==>
      d.metadata.source.Some? && !IsExcluded(d.metadata.source.value) && IsSupported(d.metadata.source.value)
    decreases item, 1
  {
    match item
    case DirItem(_, children) =>
      WalkItemsFiltered(split, owner, repo, children);
    case _ =>
  }

  lemma WalkItemsSnoc(split: Splitter, owner: String, repo: String, items: seq<Item>, item: Item)
    ensures WalkItems(split, owner, repo, items + [item]) == WalkItems(split, owner, repo, items) + WalkItem(split, owner, repo, item)
  {
    assert (items + [item])[..|items|] == items;
  }

  /** Listings contribute independently: a failing entry drops out without stopping the walk of its siblings. */
  lemma {:induction false} WalkItemsConcat(split: Splitter, owner: String, repo: String, a: seq<Item>, b: seq<Item>)
    ensures WalkItems(split, owner, repo, a + b) == WalkItems(split, owner, repo, a) + WalkItems(split, owner, repo, b)
    decreases |b|
  {
    if b == [] {
      assert a + b == a;
    } else {
      var b' := b[..|b| - 1];
      assert (a + b)[..|a + b| - 1] == a + b' && (a + b)[|a + b| - 1] == b[|b| - 1];
      WalkItemsConcat(split, owner, repo, a, b');
    }
  }

  /** An entry whose fetch fails is skipped, and the entries around it are walked as if it were absent. */
  lemma FailedFetchSkipped(split: Splitter, owner: String, repo: String, a: seq<Item>, failed: Item, b: seq<Item>)
    requires (failed.FileItem? && failed.fetched.None?) || failed.UnreadableDir?
    ensures WalkItems(split, owner, repo, a + [failed] + b) == WalkItems(split, owner, repo, a + b)
  {
    WalkItemsConcat(split, owner, repo, a + [failed], b);
    WalkItemsConcat(split, owner, repo, a, b);
    WalkItemsSnoc(split, owner, repo, a, failed);
  }

  /** The blacklist is matched as a substring of the whole path, so it also catches files and unrelated names. */
  lemma ExclusionBySubstring()
    ensures IsExcluded(".github/workflows/ci.yml")
    ensures IsExcluded("src/rebuild.js")
  {
    assert OccursAt(".github/workflows/ci.yml", ".git", 0);
    assert ExcludedDirs[1] == ".git";
    assert OccursAt("src/rebuild.js", "build", 6);
    assert ExcludedDirs[3] == "build";
  }

  /** A file named `stem.e`, with `e` free of dots and slashes, has extension ".e". */
  lemma ExtnameOfName(stem: String, e: String)
    requires stem != [] && stem[|stem| - 1] != '/'
    requires e != [] && '.' !in e && '/' !in e
    ensures Extname(stem + "." + e) == "." + e
  {
    var path := stem + "." + e;
    assert path[|path| - 1] == e[|e| - 1];
    StripNoSlash(path);
    BaseNameAppend(stem, "." + e);
    assert stem + ("." + e) == path;
    var base := BaseName(path);
    assert BaseName(stem) == BaseName(stem[..|stem| - 1]) + [stem[|stem| - 1]];
    var d := |BaseName(stem)|;
    assert base[d..] == "." + e;
    LastDotOf(base, d);
    assert base[|base| - 1] == e[|e| - 1];
  }

  lemma StripNoSlash(path: String)
    requires path != [] && path[|path| - 1] != '/'
    ensures StripSlashes(path) == path
  {
  }

  /** Characters other than '/' appended to a path extend its last segment. */
  lemma {:induction false} BaseNameAppend(p: String, t: String)
    requires '/' !in t
    ensures BaseName(p + t) == BaseName(p) + t
    decreases |t|
  {
    if t == [] {
      assert p + t == p;
    } else {
      var t', c := t[..|t| - 1], t[|t| - 1];
      assert t == t' + [c];
      assert c in t;
      assert p + t == (p + t') + [c];
      BaseNameAppend(p, t');
      assert BaseName(p + t) == BaseName(p + t') + [c];
    }
  }

  lemma LastDotOf(s: String, d: nat)
    requires d < |s| && s[d] == '.' && '.' !in s[d + 1..]
    ensures LastDot(s) == Some(d)
  {
    if d < |s| - 1 {
      assert s[|s| - 1] in s[d + 1..];
      assert s[..|s| - 1][d + 1..] == s[d + 1..|s| - 1];
      LastDotOf(s[..|s| - 1], d);
    }
  }

  /** What `vectorizeRepository` settles with; the chunk parameters of the call play no part. */
  function VectorizeOutcome(
    faults: StoreFaults, embed: Embedder, split: Splitter, userId: String, owner: String, repo: String, root: Result<seq<Item>, String>)
    : Result<StoreSummary, String>
  {
    match root
    case Failure(e) => Failure(e)
    case Success(contents) =>
      var documents := WalkItems(split, owner, repo, contents);
      if documents == [] then Failure(NoFilesMessage)
      else CreateOutcome(faults, embed, userId, owner + "/" + repo, documents)
  }

  /** The collection after `vectorizeRepository`: untouched unless the walk yields documents. */
  function VectorizedRecords(
    records: seq<Record>, faults: StoreFaults, embed: Embedder, split: Splitter,
    userId: String, owner: String, repo: String, root: Result<seq<Item>, String>)
    : seq<Record>
  {
    match root
    case Failure(_) => records
    case Success(contents) =>
      var documents := WalkItems(split, owner, repo, contents);
      if documents == [] then records else StoredRecords(records, faults, embed, userId, owner + "/" + repo, documents)
  }

  /**
   * `vectorizeRepository`: list the root, walk it, and store the documents
   * under the scope `owner/repo`. A walk that yields nothing fails before the
   * store is touched. `chunkSize` and `chunkOverlap` are never passed on.
   */
  method VectorizeRepository(
    store: Collection, embed: Embedder, split: Splitter,
    userId: String, owner: String, repo: String, root: Result<seq<Item>, String>,
    chunkSize: nat, chunkOverlap: nat)
    returns (r: Result<StoreSummary, String>)
    modifies store
    ensures r == VectorizeOutcome(store.faults, embed, split, userId, owner, repo, root)
    ensures store.records == VectorizedRecords(old(store.records), store.faults, embed, split, userId, owner, repo, root)
  {
    if root.Failure? {
      return Failure(root.error);
    }
    var walker := new Walker(split, owner, repo);
    walker.ProcessContents(root.value);
    var documents := walker.documents;
    assert documents == WalkItems(split, owner, repo, root.value) by {
      assert [] + WalkItems(split, owner, repo, root.value) == WalkItems(split, owner, repo, root.value);
    }
    if |documents| == 0 {
      return Failure(NoFilesMessage);
    }
    var repository := owner + "/" + repo;
    r := CreateVectorStore(store, embed, userId, repository, documents);
  }

  /** A file's current state in the repository: its text and its blob sha. */
  datatype RemoteFile = RemoteFile(content: String, sha: String)

  /** One `createOrUpdateFileContents` request that took effect; a create when `sha` is `None`. */
  datatype Write = Write(path: String, content: String, message: String, sha: Option<String>)

  /** The files of the repository and the writes made to it, oldest first. */
  datatype Remote = Remote(files: map<String, RemoteFile>, writes: seq<Write>)

  /**
   * The requests that fail: reading a path of `onGet` fails with that HTTP
   * status, and so does writing a path of `onPut`. `blobSha` names the blob
   * a write creates.
   */
  datatype Faults = Faults(onGet: map<String, nat>, onPut: map<String, nat>, blobSha: String -> String)

  const NotFound: nat := 404

  const CommitSuccessMessage: String := "파일 변경사항이 성공적으로 커밋되었습니다."

  datatype CommitResult = CommitResult(success: bool, message: String)

  /** `getContent` of one path: the file, or the status of the failure (404 when there is no such file). */
  function Fetch(remote: Remote, faults: Faults, path: String): Result<RemoteFile, nat> {
    if path in faults.onGet then Failure(faults.onGet[path])
    else if path in remote.files then Success(remote.files[path])
    else Failure(NotFound)
  }

  /** `createOrUpdateFileContents`: the new state and, when it fails, the status. */
  function PutFile(remote: Remote, faults: Faults, path: String, content: String, message: String, sha: Option<String>)
    : (Remote, Option<nat>)
  {
    if path in faults.onPut then (remote, Some(faults.onPut[path]))
    else
      (Remote(remote.files[path := RemoteFile(content, faults.blobSha(content))], remote.writes + [Write(path, content, message, sha)]),
       None)
  }

  /**
   * One pass of the loop of `commitFileChanges`. A file with the same text is
   * left alone, a different one is updated with the sha just fetched, and a
   * missing one is created without a sha. The `catch` also sees a failed
   * update: on a 404 it retries as a create, otherwise the status escapes.
   */
  function Step(remote: Remote, faults: Faults, change: FileChange, message: String): (Remote, Option<nat>) {
    match Fetch(remote, faults, change.filePath)
    case Success(current) =>
      if current.content == change.content then (remote, None)
      else
        var (updated, failure) := PutFile(remote, faults, change.filePath, change.content, message, Some(current.sha));
        if failure == Some(NotFound) then PutFile(updated, faults, change.filePath, change.content, message, None)
        else (updated, failure)
    case Failure(status) =>
      if status == NotFound then PutFile(remote, faults, change.filePath, change.content, message, None)
      else (remote, Some(status))
  }

  /** The changes handled in order, stopping at the first failure. */
  function CommitAll(remote: Remote, faults: Faults, changes: seq<FileChange>, message: String): (Remote, Option<nat>) {
    if changes == [] then (remote, None)
    else
      var (before, failure) := CommitAll(remote, faults, changes[..|changes| - 1], message);
      if failure.Some? then (before, failure) else Step(before, faults, changes[|changes| - 1], message)
  }

  /** The remote repository a commit talks to, updated in place. */
  class GitHubRepo {
    var files: map<String, RemoteFile>
    var writes: seq<Write>
    const faults: Faults

    constructor(files: map<String, RemoteFile>, faults: Faults)
      ensures this.files == files && writes == [] && this.faults == faults
    {
      this.files, this.faults := files, faults;
      writes := [];
    }

    function State(): Remote
      reads this
    {
      Remote(files, writes)
    }

    /** `repos.getContent` for a file path. */
    function GetContent(path: String): Result<RemoteFile, nat>
      reads this
    {
      Fetch(State(), faults, path)
    }

    /** `repos.createOrUpdateFileContents` */
    method CreateOrUpdateFileContents(path: String, content: String, message: String, sha: Option<String>)
      returns (failure: Option<nat>)
      modifies this
      ensures (State(), failure) == PutFile(old(State()), faults, path, content, message, sha)
    {
      var (next, status) := PutFile(State(), faults, path, content, message, sha);
      files, writes, failure := next.files, next.writes, status;
    }
  }

  /** What `commitFileChanges` resolves with, or the status it rejects with, and the repository afterwards. */
  function CommitOutcome(remote: Remote, faults: Faults, changes: seq<FileChange>, message: String)
    : (Remote, Result<CommitResult, nat>)
  {
    var (after, failure) := CommitAll(remote, faults, changes, message);
    (after, if failure.None? then Success(CommitResult(true, CommitSuccessMessage)) else Failure(failure.value))
  }

  /** `commitFileChanges`: every change in order; the first failure that is not a missing file aborts the rest. */
  method CommitFileChanges(remote: GitHubRepo, changes: seq<FileChange>, commitMessage: String)
    returns (r: Result<CommitResult, nat>)
    modifies remote
    ensures (remote.State(), r) == CommitOutcome(old(remote.State()), remote.faults, changes, commitMessage)
  {
    for i := 0 to |changes|
      invariant CommitAll(old(remote.State()), remote.faults, changes[..i], commitMessage) == (remote.State(), None)
    {
      var change := changes[i];
      assert changes[..i + 1][..i] == changes[..i];
      ghost var expected := Step(remote.State(), remote.faults, change, commitMessage);
      var failure: Option<nat> := None;
      var current := remote.GetContent(change.filePath);
      match current {
        case Success(currentFile) =>
          if currentFile.content != change.content {
            failure := remote.CreateOrUpdateFileContents(change.filePath, change.content, commitMessage, Some(currentFile.sha));
            if failure == Some(NotFound) {
              failure := remote.CreateOrUpdateFileContents(change.filePath, change.content, commitMessage, None);
            }
          }
        case Failure(status) =>
          if status == NotFound {
            failure := remote.CreateOrUpdateFileContents(change.filePath, change.content, commitMessage, None);
          } else {
            failure := Some(status);
          }
      }
      assert (remote.State(), failure) == expected;
      if failure.Some? {
        CommitFailureSticks(old(remote.State()), remote.faults, changes, commitMessage, i + 1);
        return Failure(failure.value);
      }
    }
    assert changes[..|changes|] == changes;
    r := Success(CommitResult(true, CommitSuccessMessage));
  }

  /** Once a change fails, the changes after it are never attempted. */
  lemma {:induction false} CommitFailureSticks(remote: Remote, faults: Faults, changes: seq<FileChange>, message: String, k: nat)
    requires k <= |changes| && CommitAll(remote, faults, changes[..k], message).1.Some?
    ensures CommitAll(remote, faults, changes, message) == CommitAll(remote, faults, changes[..k], message)
    decreases |changes| - k
  {
    if k < |changes| {
      var init := changes[..|changes| - 1];
      assert init[..k] == changes[..k];
      CommitFailureSticks(remote, faults, init, message, k);
    } else {
      assert changes[..k] == changes;
    }
  }

  /** A step only ever writes the change's own path, with the commit message, and keeps every earlier write. */
  lemma StepWrites(remote: Remote, faults: Faults, change: FileChange, message: String)
    ensures var after := Step(remote, faults, change, message).0;
      remote.writes <= after.writes
      && (forall j :: |remote.writes| <= j < |after.writes| ==>
            after.writes[j].path == change.filePath && after.writes[j].content == change.content && after.writes[j].message == message)
      && (forall p :: p != change.filePath ==> (p in after.files <==> p in remote.files) && (p in remote.files ==> after.files[p] == remote.files[p]))
  {
  }

  /**
   * An update carries the sha of the file as it was just fetched, and a
   * create (after a 404) carries none. Only a failed read other than a 404
   * makes the step fail, with that status.
   */
  lemma StepShas(remote: Remote, faults: Faults, change: FileChange, message: String)
    requires change.filePath !in faults.onPut
    ensures var (after, failure) := Step(remote, faults, change, message);
      match Fetch(remote, faults, change.filePath)
      case Success(current) =>
        failure == None
        && (current.content == change.content ==> after == remote)
        && (current.content != change.content ==>
              after.writes == remote.writes + [Write(change.filePath, change.content, message, Some(current.sha))])
      case Failure(status) =>
        failure == (if status == NotFound then None else Some(status))
        && (status == NotFound ==> after.writes == remote.writes + [Write(change.filePath, change.content, message, None)])
        && (status != NotFound ==> after == remote)
  {
  }

  /** Every write of a commit is for a path among the changes, with the commit message; earlier writes stay. */
  lemma {:induction false} CommitWritesOnlyChanges(remote: Remote, faults: Faults, changes: seq<FileChange>, message: String)
    ensures var after := CommitAll(remote, faults, changes, message).0;
      remote.writes <= after.writes
      && forall j :: |remote.writes| <= j < |after.writes| ==>
        after.writes[j].message == message && exists i :: 0 <= i < |changes| && after.writes[j].path == changes[i].filePath
    decreases |changes|
  {
    if changes != [] {
      var init := changes[..|changes| - 1];
      CommitWritesOnlyChanges(remote, faults, init, message);
      var (before, failure) := CommitAll(remote, faults, init, message);
      if failure.None? {
        StepWrites(before, faults, changes[|changes| - 1], message);
      }
      var after := CommitAll(remote, faults, changes, message).0;
      forall j | |remote.writes| <= j < |after.writes|
        ensures exists i :: 0 <= i < |changes| && after.writes[j].path == changes[i].filePath
      {
        if j < |before.writes| {
          var i :| 0 <= i < |init| && before.writes[j].path == init[i].filePath;
          assert changes[i] == init[i];
        } else {
          assert after.writes[j].path == changes[|changes| - 1].filePath;
        }
      }
    }
  }

  /**
   * After a commit that succeeds, a change that no later change overrides
   * has its text in the repository.
   */
  lemma {:induction false} CommitLastWriteWins(remote: Remote, faults: Faults, changes: seq<FileChange>, message: String, i: nat)
    requires CommitAll(remote, faults, changes, message).1.None?
    requires i < |changes| && forall j :: i < j < |changes| ==> changes[j].filePath != changes[i].filePath
    ensures var after := CommitAll(remote, faults, changes, message).0;
      changes[i].filePath in after.files && after.files[changes[i].filePath].content == changes[i].content
    decreases |changes|
  {
    var n := |changes| - 1;
    var init := changes[..n];
    var before := CommitAll(remote, faults, init, message).0;
    assert CommitAll(remote, faults, init, message).1.None?;
    StepLands(before, faults, changes[n], message);
    if i < n {
      assert changes[i] == init[i];
      CommitLastWriteWins(remote, faults, init, message, i);
      StepWrites(before, faults, changes[n], message);
    }
  }

  /** A step that succeeds leaves the change's text at its path. */
  lemma StepLands(remote: Remote, faults: Faults, change: FileChange, message: String)
    requires Step(remote, faults, change, message).1.None?
    ensures var after := Step(remote, faults, change, message).0;
      change.filePath in after.files && after.files[change.filePath].content == change.content
  {
  }

  /**
   * Committing the same changes again, once a commit of them with distinct
   * paths has succeeded, writes nothing: every file already has its text.
   */
  lemma Recommit(remote: Remote, faults: Faults, changes: seq<FileChange>, message: String)
    requires forall i, j :: 0 <= i < j < |changes| ==> changes[i].filePath != changes[j].filePath
    requires forall i :: 0 <= i < |changes| ==> changes[i].filePath !in faults.onGet
    requires CommitAll(remote, faults, changes, message).1.None?
    ensures var after := CommitAll(remote, faults, changes, message).0;
      CommitAll(after, faults, changes, message) == (after, None)
  {
    forall i | 0 <= i < |changes|
      ensures var after := CommitAll(remote, faults, changes, message).0;
        changes[i].filePath in after.files && after.files[changes[i].filePath].content == changes[i].content
    {
      CommitLastWriteWins(remote, faults, changes, message, i);
    }
    UpToDateCommit(CommitAll(remote, faults, changes, message).0, faults, changes, message);
  }

  /** When every path already holds its text and reads succeed, a commit changes nothing. */
  lemma {:induction false} UpToDateCommit(remote: Remote, faults: Faults, changes: seq<FileChange>, message: String)
    requires forall i :: 0 <= i < |changes| ==>
      changes[i].filePath !in faults.onGet && changes[i].filePath in remote.files
      && remote.files[changes[i].filePath].content == changes[i].content
    ensures CommitAll(remote, faults, changes, message) == (remote, None)
    decreases |changes|
  {
    if changes != [] {
      var init := changes[..|changes| - 1];
      UpToDateCommit(remote, faults, init, message);
    }
  }
}
