# LangChainPractive core, modelled in Dafny

LangChainPractive is an Express service. It vectorises a GitHub repository into a per-user MongoDB vector collection and answers a code-change request with one recommendation per configured OpenAI model. It can also turn a recommendation written as fenced diffs back into file changes and commit them through the GitHub API. An older standalone server (`main.js`) does the same against a local source tree and an in-memory store.

The deterministic rules underneath that glue are modelled here, one Dafny module per source file:

| module | file | source |
|---|---|---|
| `DiffParser` | diff_parser.dfy | `parseDiffToChanges` of services/codeService.js |
| `CodeService` | code_service.dfy | the rest of services/codeService.js |
| `VectorStore` | vector_store.dfy | services/vectorStoreService.js, with the collection of models/VectorStore.js as a class |
| `GithubUtils` | github_utils.dfy | utils/githubUtils.js: the repository walk and the commit loop |
| `AiUtils` | ai_utils.dfy | utils/aiUtils.js |
| `Routes` | routes_api.dfy | routes/api.js |
| `MainServer` | main_server.dfy | the loader and the two API handlers of main.js |
| `Wrappers`, `Text`, `Regex` | wrappers.dfy, text.dfy, regex.dfy | `Option`/`Result`; the JavaScript string operations used (`split`, `join`, `trim`, `substring`, `toLowerCase`, `\s`); the two regular expressions of the diff parser |

Every service the code calls is a function-typed parameter that may fail:
- the text splitter;
- embeddings;
- the LLM chains;
- the Atlas kNN query;
- the GitHub listing, read and write;
- the count, delete and insert of the vector collection, each failing with the message given by the collection's `StoreFaults`;
- the validation in the constructor of the `main.js` text splitter (`MainServer.SplitterCheck`).

Code that changes things step by step is imperative Dafny:
- the loops of `parseDiffToChanges`, `getCodeRecommendation`, `processContents`, `commitFileChanges`, `searchAndGenerate`, `/check-vectors` and the `main.js` loader are methods with loop invariants;
- the vector collection (`Collection`), the remote repository (`GitHubRepo`), the walk's `documents` array (`Walker`) and the module state of `main.js` (`Server`) are classes whose methods update their fields.

Each such method is proved equal to a specification function, and the properties are proved as lemmas about that function.

Quirks of the code are modelled as written and stated as lemmas:
- a diff piece that starts with a line break is skipped, so a block in the prompt's own format yields nothing (`DiffParser.FencedBlockYieldsNothing`);
- the directory blacklist matches substrings anywhere in a path (`GithubUtils.ExclusionBySubstring`);
- `chunk_id` numbers the whole batch rather than the file, so a reported `chunk` can exceed `totalChunks` (`VectorStore.ChunkCanExceedTotalChunks`);
- `vectorizeRepository` ignores its chunk-size arguments: the walk always uses the module splitter, so `GithubUtils.VectorizeRepository`'s contract does not mention them.

Behaviours of the code that a reader might expect to be otherwise:
- Changes are not applied to a base file. The parsed content is the trimmed concatenation of the "+" and " " lines of the whole piece. A "+++" header line contributes its text minus the first "+".
- Any GitHub error other than 404 aborts the remaining changes. It is not a per-file conflict.
- `applyCodeRecommendation` reports every parsed path, including files left alone because their text was already current.
- `createVectorStore` deletes the scope before embedding. An embedding or insert failure therefore leaves the scope empty rather than untouched.
- `getCodeRecommendation` returns entries for the enabled models only. The `main.js` handler adds an entry for each disabled model.

## Model

| member | source | states |
|---|---|---|
| DiffParser.ParseDiffToChanges | services/codeService.js:205-272 | the loop over pieces returns exactly `ParseDiff`: the input split on the literal "```diff", empty pieces dropped, at most one change per piece, in piece order |
| DiffParser.ParseFileChange | services/codeService.js:209-264 | the per-piece loop over lines computes exactly `ParsePiece` |
| DiffParser.ParsePiece | services/codeService.js:212-260 | a change only when the path gate and the hunk-header gate both match; its content is non-empty and trimmed, its path trimmed and on one line, `originalContent` always null |
| DiffParser.PathEnd | services/codeService.js:212-216 | the lazy `(.+?)` capture ends at the first position on the first line where `\s+\(lines\s+\d+-\d+\)` matches, and there is no match when it returns None |
| DiffParser.PathEndFrom | services/codeService.js:212 | the same search from a given position: the first match at or after it on the line, or none |
| DiffParser.PathEndIsLazyMatch | services/codeService.js:212 | the capture end found equals the shortest capture the anchored regex accepts |
| DiffParser.PathEndNoneIsNoMatch | services/codeService.js:212-216 | no capture end exactly when no prefix of the first line is followed by a range tail |
| DiffParser.PathEndIsShortest | services/codeService.js:212 | any first matching position on the first line is the capture end found |
| DiffParser.GateMatchesRegex | services/codeService.js:212 | the deterministic matcher agrees with backtracking regex semantics on the range tail at every position |
| DiffParser.GatePatternsUnambiguous | services/codeService.js:212-223 | both gate patterns have no run followed by a token the run's class could also consume |
| DiffParser.RangeTailUnambiguous | services/codeService.js:212 | the range tail is unambiguous and has no digit literals |
| DiffParser.HunkHeaderUnambiguous | services/codeService.js:223 | the hunk header `@@ -\d+,\d+ \+\d+,\d+ @@` is unambiguous and has no digit literals |
| DiffParser.EmitLine | services/codeService.js:238-250 | a "+" or " " line adds itself minus its first character plus "\n"; every other line, "@@" and "-" included, adds nothing |
| DiffParser.EmittedConcat | services/codeService.js:238-250 | the accumulated content of a concatenation of lines is the concatenation of their contents |
| DiffParser.NonEmpty | services/codeService.js:207 | `filter(Boolean)` keeps exactly the non-empty pieces |
| DiffParser.Collect | services/codeService.js:209-265 | at most one change per piece |
| DiffParser.CollectOrigins | services/codeService.js:209-265 | every change comes from some piece that parses to it |
| DiffParser.CollectConcat | services/codeService.js:209-265 | pieces contribute independently and in order |
| DiffParser.MissingNewRangeSkipped | services/codeService.js:223-227 | a piece without the "+N,M" side of the hunk header yields no change |
| DiffParser.LineBreakFirstSkipped | services/codeService.js:212-216 | a piece whose first character is a line break fails the anchored path gate |
| DiffParser.FencedBlockYieldsNothing | services/codeService.js:207-216 | "```diff" followed by a line break and no further fence parses to no changes |
| DiffParser.GatesIgnoreDigitValues | services/codeService.js:219-220 | both gates depend only on where the digits are, not on their values |
| DiffParser.PathEndFromIgnoresDigits | services/codeService.js:219-220 | the capture search is the same on inputs that differ only in digit values |
| DiffParser.SearchIgnoresDigits | services/codeService.js:229-230 | the hunk-header search is the same on inputs that differ only in digit values |
| DiffParser.WellFormedPiece | services/codeService.js:212-260 | a block "path (lines X-Y)", "@@ -O,L +N,M @@", body yields the trimmed path and the trimmed content of the body, whatever the six numbers, and nothing when that content is blank |
| DiffParser.HeaderLinesEmitNothing | services/codeService.js:238-250 | the range line and the hunk line contribute nothing to the content |
| DiffParser.SplitTwoLines | services/codeService.js:233 | splitting on "\n" peels off two leading lines without a line break |
| DiffParser.SkipSilentLines | services/codeService.js:238-250 | lines that emit nothing can be dropped from the front |
| DiffParser.PathGate | services/codeService.js:212 | on a well-formed range line the capture ends exactly after the path |
| DiffParser.RangeLineMatches | services/codeService.js:212 | the range tail matches right after the path |
| DiffParser.NoEarlierRange | services/codeService.js:212 | no range tail matches inside a plain path |
| DiffParser.HunkGate | services/codeService.js:223 | a hunk line with four numbers matches the header gate wherever it occurs |
| DiffParser.NewRangeMatches | services/codeService.js:223 | "N,M @@" matches the new-range part of the header |
| Regex.MatchAtIsRegexMatch | services/codeService.js:212-223 | for an unambiguous pattern the greedy token matcher accepts exactly what backtracking regex matching accepts |
| Regex.MatchAtIgnoresDigitValues | services/codeService.js:219-230 | a pattern without digit literals matches the same way on inputs differing only in digit values |
| Regex.MatchAtReadsLiteral | services/codeService.js:212-223 | a match of a pattern with a literal character reads that character from the input |
| Regex.SearchFrom | services/codeService.js:223 | `String.match` without anchors: true exactly when the pattern matches at some position from the start given |
| Regex.StarRun | services/codeService.js:212 | a `\s*` run followed by a character outside its class is consumed whole |
| Regex.MatchRun | services/codeService.js:212-223 | a `\d+`/`\s+` run is consumed whole |
| Regex.MatchWord | services/codeService.js:212-223 | a literal word matches exactly the same characters |
| Regex.MatchAtShift | services/codeService.js:223 | matching at an offset into a concatenation is matching in the suffix |
| Text.Split | services/codeService.js:207 | `String.split` on a literal: at least one piece |
| Text.JoinSplit | services/codeService.js:207 | joining the pieces with the separator gives back the input |
| Text.SplitPiecesAvoidSeparator | services/codeService.js:207 | no piece contains the separator |
| Text.SplitCharCount | services/vectorStoreService.js:38 | splitting on one character gives one more piece than its occurrences |
| Text.FindFrom | services/codeService.js:207 | the first occurrence of the separator at or after a position, or none |
| Text.Contains | utils/githubUtils.js:77 | `includes`: true exactly when the substring occurs somewhere |
| Text.Trim | services/codeService.js:218 | `trim`: empty exactly when the input is all whitespace; otherwise the span between the first and last non-whitespace characters |
| Text.TrimIdempotent | services/codeService.js:252-255 | trimming the stored content again changes nothing |
| Text.TrimIgnoresTrailingSpaces | services/codeService.js:252-255 | trailing whitespace does not change the trimmed content |
| Text.TrimOneLine | services/codeService.js:218 | trimming a one-line capture keeps it on one line |
| Text.ToLowerAscii | utils/githubUtils.js:83 | `toLowerCase` on the extension: same length, each ASCII capital lowered, everything else kept |
| Text.Preview | services/vectorStoreService.js:127-129 | the first `limit` characters, with "..." appended exactly when the text is longer |
| Text.OrElse | routes/api.js:246 | a string or its fallback (`error.message` or the default message): the string when non-empty, and never empty unless the fallback is |
| Text.NatToString | services/codeService.js:195 | a number in a template literal: non-empty decimal digits without a leading zero |
| Text.DecimalRoundTrip | services/codeService.js:195 | the decimal text reads back as the number |
| Text.JoinSnoc | services/codeService.js:41-43 | `join` with one more element adds one separator and that element |
| VectorStore.Collection.DeleteMany | services/vectorStoreService.js:26 | `deleteMany({userId, repository})` removes exactly the scope and reports how many records went; a rejected delete fails with its message and removes nothing |
| VectorStore.Collection.InsertMany | services/vectorStoreService.js:50-51 | `insertMany` appends the batch, or fails with its message and inserts nothing |
| VectorStore.ScopePartition | services/vectorStoreService.js:26 | a scope and the rest of the collection share out the records |
| VectorStore.ReplaceScope | services/vectorStoreService.js:26-51 | deleting the scope and appending a batch of it leaves exactly that batch in the scope and every other record as it was |
| VectorStore.TokenCount | services/vectorStoreService.js:38 | `split(" ").length`: one more than the number of spaces |
| VectorStore.DetectLanguage | services/vectorStoreService.js:148-154 | one of "ko", "en", "unknown" |
| VectorStore.DetectLanguageClassifies | services/vectorStoreService.js:148-154 | "ko" exactly when a syllable in 가..힣 occurs; "en" when none does and an ASCII letter does; "unknown" otherwise |
| VectorStore.SourceOf | services/vectorStoreService.js:42 | the source, falling back to "unknown": never empty, and the document's source whenever it is not "unknown" |
| VectorStore.MakeRecord | services/vectorStoreService.js:30-45 | a record of the scope with `chunk_id` the batch index, the content, source, token count and language of its document |
| VectorStore.EmbedAll | services/vectorStoreService.js:29-47 | one embedding per document, in order; fails exactly when some document's embedding fails |
| VectorStore.EmbedFailureSticks | services/vectorStoreService.js:29-47 | once a prefix fails, the whole batch fails with the same error |
| VectorStore.Batch | services/vectorStoreService.js:29-47 | one record per document, the i-th built from the i-th document and embedding |
| VectorStore.BatchSnoc | services/vectorStoreService.js:29-47 | one more document adds one record at the end |
| VectorStore.TotalTokensCountSpaces | services/vectorStoreService.js:65-68 | the token total of a batch is its size plus its number of spaces |
| VectorStore.SummaryOfBatch | services/vectorStoreService.js:57-71 | a successful store had every embedding succeed; its summary counts one document per input, takes the first record's language or "unknown", and totals the tokens |
| VectorStore.CreateReplacesScope | services/vectorStoreService.js:19-76 | after `createVectorStore` other scopes are untouched; a rejected delete fails with its message and changes nothing; on success the scope holds exactly the new batch; any later failure leaves the scope empty |
| VectorStore.CreateVectorStore | services/vectorStoreService.js:19-76 | returns the summary or the first error of the delete, an embedding or the insert, and leaves the collection as `StoredRecords` says |
| VectorStore.EmbedDocuments | services/vectorStoreService.js:29-47 | the embedding loop yields the batch, or the first embedding error |
| VectorStore.Shape | services/vectorStoreService.js:115-131 | three lists of the hits' length and order, no deduplication, `chunk = chunk_id + 1`, `totalChunks` the live count of the hit's source in the scope, 150-character preview |
| VectorStore.Search | services/vectorStoreService.js:79-136 | a successful result is never empty and needs the count to succeed; an empty kNN result is the error "관련 문서를 찾을 수 없습니다." |
| VectorStore.SearchAndGenerate | services/vectorStoreService.js:79-136 | the per-source count map filled in the loop gives exactly `Search`, including a rejected count; nothing is changed |
| VectorStore.HitsFromScopeCountAtLeastOne | services/vectorStoreService.js:99-113 | when the hits come from the scope, no detail reports zero chunks |
| VectorStore.ChunkCanExceedTotalChunks | services/vectorStoreService.js:30 | with a chunk of a.js stored before one of b.js, a hit on b.js reports chunk 2 of 1 |
| GithubUtils.ContainsAny | utils/githubUtils.js:77 | `excludedDirs.some(dir => path.includes(dir))` |
| GithubUtils.ExclusionBySubstring | utils/githubUtils.js:61-79 | ".github/…" and "src/rebuild.js" are excluded, by substring |
| GithubUtils.StripSlashes | utils/githubUtils.js:83 | a prefix of the path without trailing slashes |
| GithubUtils.BaseName | utils/githubUtils.js:83 | the last path component contains no slash |
| GithubUtils.LastDot | utils/githubUtils.js:83 | the position of the last dot, or none when there is no dot |
| GithubUtils.Extname | utils/githubUtils.js:83 | `path.extname`: empty, or a dot followed by neither slash nor dot |
| GithubUtils.ExtnameOfName | utils/githubUtils.js:83 | a file named "stem.e" has extension ".e" |
| GithubUtils.LastDotOf | utils/githubUtils.js:83 | a dot with no dot after it is the last dot |
| GithubUtils.ChunkDocs | utils/githubUtils.js:102-110 | one document per chunk, each carrying the path, the file type and the repository |
| GithubUtils.Walker.ProcessContents | utils/githubUtils.js:74-133 | the loop appends exactly the listing's `WalkItems` to `documents` |
| GithubUtils.Walker.ProcessItem | utils/githubUtils.js:75-131 | one entry appends exactly its own documents, a directory being walked in place |
| GithubUtils.WalkItemsFiltered | utils/githubUtils.js:77-86 | every collected document comes from a file that is neither excluded nor of an unsupported extension |
| GithubUtils.WalkItemFiltered | utils/githubUtils.js:77-86 | the same for the documents of one entry |
| GithubUtils.WalkItemsSnoc | utils/githubUtils.js:75-131 | the documents of a listing are its entries' documents in listing order |
| GithubUtils.WalkItemsConcat | utils/githubUtils.js:110-131 | listings contribute independently and in order |
| GithubUtils.FailedFetchSkipped | utils/githubUtils.js:111-130 | a file or directory whose fetch fails is skipped, and its siblings are walked as if it were absent |
| GithubUtils.VectorizeRepository | utils/githubUtils.js:16-157 | a failed root listing is passed on; no documents is the error "저장소에서 처리할 수 있는 파일을 찾을 수 없습니다." and leaves the store untouched; otherwise the store is replaced under "owner/repo"; the chunk arguments play no part |
| GithubUtils.GitHubRepo.CreateOrUpdateFileContents | utils/githubUtils.js:200-207 | a write records the path, text, message and sha, or fails with its status and changes nothing |
| GithubUtils.CommitFileChanges | utils/githubUtils.js:160-242 | the loop over changes leaves the remote and returns exactly as `CommitOutcome` says |
| GithubUtils.CommitFailureSticks | utils/githubUtils.js:213-227 | after the first failure the remaining changes are not attempted |
| GithubUtils.StepWrites | utils/githubUtils.js:180-227 | a change only ever writes its own path, with the commit message, keeping every earlier write |
| GithubUtils.StepShas | utils/githubUtils.js:197-222 | identical text writes nothing; a different text updates with the fetched sha; a 404 creates without a sha; another error writes nothing and is the step's failure; no other case fails |
| GithubUtils.StepLands | utils/githubUtils.js:183-227 | a change handled without error leaves its text at its path |
| GithubUtils.CommitWritesOnlyChanges | utils/githubUtils.js:180-228 | every write of a commit is for a path among the changes, with the commit message |
| GithubUtils.CommitLastWriteWins | utils/githubUtils.js:180-234 | after a successful commit, each change not overridden later has its text in the repository |
| GithubUtils.UpToDateCommit | utils/githubUtils.js:197-212 | when every path already holds its text, a commit changes nothing |
| GithubUtils.Recommit | utils/githubUtils.js:180-234 | committing the same distinct-path changes a second time writes nothing |
| AiUtils.GetRecommendation | utils/aiUtils.js:10-88 | never fails. "gpt-4o" goes to gpt-4 with 2000 tokens and "gpt-o3-mini" to gpt-3.5-turbo with 1000. A completion's text is returned, or "오류가 발생했습니다: " plus its error. "gpt-o1" is disabled without a call. Any other name is an error result "지원하지 않는 모델입니다." |
| AiUtils.OnlyDispatchedModelsCall | utils/aiUtils.js:17-36 | for any name other than the two dispatched models, the result does not depend on the completion service |
| AiUtils.TaggingIsExclusive | utils/aiUtils.js:28-87 | no result is both error and disabled; a plain result exactly when the model is dispatched and its completion succeeds |
| AiUtils.ContextSnoc | utils/aiUtils.js:39-41 | the context is "파일: source\ncontent" per document, joined by a blank line |
| CodeService.ModelResults | services/codeService.js:137-162 | one entry per model in order, never disabled, error exactly when that model's chain fails, its text when it succeeds |
| CodeService.GetCodeRecommendation | services/codeService.js:92-174 | the model loop returns exactly `RecommendationOutcome`; a search error is passed on; nothing is changed |
| CodeService.EnabledModelsListed | services/codeService.js:133-135 | a model is in the enabled list exactly when the config lists it as enabled |
| CodeService.ShippedModels | services/codeService.js:29-33 | the shipped configuration enables "gpt-4o" and "gpt-o3-mini", in that order |
| CodeService.OneResultPerEnabledModel | services/codeService.js:133-162 | a successful recommendation holds exactly the two entries "gpt-4o", "gpt-o3-mini", neither disabled |
| CodeService.SourcesContextSnoc | services/codeService.js:41-43 | the context is "파일: source\n\ncontent" per source, joined by "\n\n---\n\n" |
| CodeService.RepositoryPartsRejoin | services/codeService.js:179 | for a name with one slash, owner + "/" + repo is the name |
| CodeService.RefreshVectorStore | services/codeService.js:177-202 | vectorises the repository the name splits into, reporting the document count, or passes the error on |
| CodeService.RefreshMessageReportsCount | services/codeService.js:193-197 | different document counts give different messages |
| CodeService.Paths | services/codeService.js:309 | the changes' paths, in parse order |
| CodeService.ApplyCodeRecommendation | services/codeService.js:275-315 | the remote and the result are exactly `ApplyOutcome`: nothing is written when the parse is empty |
| CodeService.ApplyWritesNamedFiles | services/codeService.js:285-310 | every write is of a parsed path with the automatic commit message; a success reports the parsed paths and there was at least one |
| Routes.RetryAtMostOnce | routes/api.js:32-92 | a valid request recommends once; only the exact "no documents" error vectorises with the configured chunking, and only a successful vectorisation retries, once |
| Routes.RecommendFailureShape | routes/api.js:18-105 | every failure carries one "gpt-4o" error entry; the status is 400 exactly when a field is missing, otherwise 500 |
| Routes.RecommendCodeRoute | routes/api.js:14-106 | wired to the services, the retry searches the collection as vectorisation left it, and the store changes only on the fallback |
| Routes.RefreshRoute | routes/api.js:109-136 | 400 without touching the store when the repository is missing; otherwise the refresh's result or a 500 |
| Routes.CheckVectors | routes/api.js:139-177 | 400 when `repositories` is missing or not an array; a rejected count is a 500 with "벡터 데이터 확인 중 오류가 발생했습니다." and its message; otherwise one entry per name, in order |
| Routes.HasVectorsIffStored | routes/api.js:150-176 | the check succeeds exactly when the count does not reject, and is otherwise a 500 carrying the count's message; `hasVectors` holds exactly when some record of the user is stored under that name |
| Routes.DisconnectVectorStore | routes/api.js:180-218 | deletes the scope and reports the count deleted; 400 without deleting when the repository is missing; a rejected delete is a 500 with "벡터 저장소 연동 해제 중 오류가 발생했습니다." and its message, with nothing deleted |
| Routes.DisconnectEmptiesScope | routes/api.js:192-195 | afterwards the scope is empty, other scopes are untouched, and the count is the scope's former size |
| Routes.DisconnectMessageDistinct | routes/api.js:197-209 | deleting nothing is reported with its own message |
| Routes.ApplyReply | routes/api.js:227-248 | 400 exactly when one of the three fields is missing; a 500 always carries a message |
| Routes.ApplyRoute | routes/api.js:221-249 | nothing is written when a field is missing; otherwise the reply to the apply outcome |
| MainServer.FileDocs | main.js:144-151 | a file's n chunks are numbered 1..n in order, each with `totalChunks` n and the file's path |
| MainServer.AppendChunks | main.js:144-151 | the inner loop appends exactly the file's documents |
| MainServer.Server.LoadSourceCode | main.js:106-179 | null for no files, no documents, or a store that cannot be built; otherwise the store of every readable file's chunks, file by file |
| MainServer.LoadedChunksInRange | main.js:142-151 | every loaded chunk has 1 <= chunk <= totalChunks |
| MainServer.UnreadableFileSkipped | main.js:133-158 | an unreadable file is skipped and the others load as if it were absent |
| MainServer.LoadedFileInPlace | main.js:132-155 | a readable file's chunks appear together, between those of the files before and after it |
| MainServer.Server.Refresh | main.js:238-273 | the splitter settings change only when both fields are truthy; settings the splitter's constructor refuses give 500 and leave the settings and the store unchanged; otherwise the store is reloaded, 200 when it loads and 500 when it does not |
| MainServer.Server.RecommendCode | main.js:276-420 | an empty request is a 400 and loads nothing; the store is loaded only when missing, and a failed load is a 500; otherwise the answer of `AnswerFrom` |
| MainServer.AnswerShape | main.js:305-418 | a failed search is a 500 and an empty one a 404; otherwise three model entries in declaration order, "gpt-o1" disabled, the hits' distinct sources, one detail per hit with a 100-character preview |
| MainServer.AnswerChunksInRange | main.js:396-411 | for hits from the loaded store, every detail has 1 <= chunk <= totalChunks and no file is listed twice |
| MainServer.TaggedResults | main.js:350-391 | one entry per model in declaration order; disabled exactly when the config disables it; error exactly when an enabled model's chain throws |
| MainServer.DisabledModelNotInvoked | main.js:382-389 | a disabled model's entry is the same whatever its chain would do |
| MainServer.RelevantCodeSnoc | main.js:339-343 | `relevantCode` is "파일: s, 청크: c/t\n\ncontent\n\n" per hit, joined by "\n---\n\n" |
| MainServer.Dedup | main.js:409-411 | `[...new Set(sources)]` has the same members and no repeats |
| MainServer.DedupFirstOccurrenceOrder | main.js:409-411 | the distinct sources are ordered by where each first occurs |
| MainServer.Sources | main.js:410 | the hits' sources, in hit order |

## Left out

- The LangChain text splitter, OpenAI embeddings and chat models, the Atlas kNN query and Octokit are uninterpreted function parameters. Nothing is claimed about chunk reconstruction, overlap or ranking.
- A splitter failure inside the per-file `try` of the walks is modelled as a failed read. Both drop the file.
- The prompt templates of `createRecommendationChain` (services/codeService.js:51-87) and the `main.js` prompt are inside the chain oracle. The system message and temperatures of utils/aiUtils.js:56-74 are inside the completion oracle.
- `Promise.all` fan-out is modelled sequentially in input order (services/vectorStoreService.js:29, routes/api.js:150, main.js:351).
- Similarity scores are opaque. `score.toFixed(4)` and the details' `score` field are not modelled.
- Timestamps (`new Date()`), `lastUpdated` and logging are left out.
- Lengths and previews count Dafny characters. JavaScript counts UTF-16 code units, which differ for characters outside the Basic Multilingual Plane.
- `maxResults`, `chunkSize` and `chunkOverlap` are modelled as numbers. `parseInt` of a string is not modelled, and a field that is present but falsy (0 or "") counts as absent.
- GithubUtils.VectorizeRepository: base64 decoding and the access token are not modelled. A file fetch yields the file's text or fails.
- GithubUtils.Step: a PUT fault is keyed by path and applies to both attempts on that path. An update that answers 404 followed by a create that succeeds (utils/githubUtils.js:213-222) is not represented.
- VectorStore.Collection: a fault is fixed per operation, so a failing operation fails on every call. A rejected `insertMany` inserts nothing, although MongoDB may have stored part of the batch.
- GithubUtils.CommitFileChanges: the unused default-branch lookup (utils/githubUtils.js:172-177) is not modelled. Its failure would abort before any change.
- CodeService.GetCodeRecommendation: the `!result` branch (services/codeService.js:110-123) is unreachable, because `searchAndGenerate` resolves with an object or rejects. It is not modelled.
- Routes.RecommendCodeRoute: the `result.error` 404 branch (routes/api.js:44-46) is unreachable, because a recommendation never carries a top-level `error`. It is not modelled.
- CodeService.ApplyCodeRecommendation: the text of a rethrown GitHub error is the parameter `describe` of its status.
- MainServer.TaggedResults: a successful entry is `{modelName, recommendation}` without `error`/`disabled` keys. The model reports both as false.
- MainServer: `main.js` declares its own `MODEL_CONFIG`, identical to the one in services/codeService.js. The model uses the one constant `CodeService.ModelConfig` for both.
- Authentication, sessions, the HTML pages of `main.js`, the frontend and server bootstrap are not part of this model.
