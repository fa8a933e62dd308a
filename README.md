# Waterfall agent pipeline and GitHub tool parsers, in Dafny

This project models the deterministic core of a multi-agent "waterfall"
software-engineering assistant. Four language-model roles (analyst,
architect, programmer, tester) take turns on one shared message history.
They call GitHub tools through a tool node. The model covers three parts:

- **The message window** (`Window`, on top of `Messages`).
  - `_recent` cuts the last `k` messages of the history. It repairs a cut
    that starts on a tool reply by reaching back to the tool caller, or by
    dropping the orphaned replies. It also drops a trailing tool caller.
  - `_sanitize_for_openai` puts the role's system message in front. It
    makes the same repairs against the full history.
  - Both are methods with the source's loops. Each is proved equal to a
    specification function, and the shape of that function's output is
    proved in lemmas.
- **The routing state machine** (`RoleGraph`).
  - `step_router`, the `next_step` each role writes, the conditional edge
    table, and `label_for_message`.
  - The graph state as a class whose node methods update it.
  - A driver that runs the graph up to a step limit. It is proved to
    follow the workflow's shape and to keep tool replies attached to
    their callers.
- **The tool wrappers' input parsers** (`TypedFileContents`, `RepoTools`,
  `IssueTools`, `UserTools`, `PullRequestTools`, on top of `ToolPayload`
  and `PyStr`).
  - Each wrapper turns a `|`-, `;`- or `key=value`-encoded string into the
    request it would send, as `Call(tool, payload)`. When no request is
    sent, the result is either the reply it returns (`Reply(text)`) or the
    exception its `try` block reports (`Raised(prefix, error kind)`).
  - Wrappers that build their payload by loops or guarded in-place writes
    are methods proved equal to a specification function.
  - Each specification function has a lemma that reads a well-formed
    input back to its fields (the round trip), plus lemmas for the
    defaults, error paths and precedence rules of that wrapper.

`PyStr` models the Python string operations the parsers rely on:
`split`, `split` with `maxsplit`, `join`, `strip(chars)`, `replace`
deleting one character, ASCII `lower`/`upper`, `int()` and `str(int)`.
Its round-trip lemmas (`Join(Split(s)) == s`, `Split(Join(parts)) ==
parts`, `ParseInt(IntToStr(i)) == Some(i)`) are what the tool lemmas
build on.

## Model

| member | source | states |
|---|---|---|
| Messages.LastCallerBefore | src/waterfall_model_agents.py:52-57 | the backward scan finds the largest index below `n` holding an AI message with tool calls, or reports that there is none below `n` |
| Messages.LastCallerFound | src/waterfall_model_agents.py:52-57 | a tool caller with no other tool caller after it below `n` is exactly the one the scan returns |
| Messages.DropLeadingTools | src/waterfall_model_agents.py:58-61 | the `tmp` loop leaves a suffix of its input that is empty or starts with a non-tool message, and everything it dropped was a tool message |
| Messages.DropLeadingToolsUnique | src/waterfall_model_agents.py:58-61 | that suffix is the only one with those three properties |
| Messages.FirstIndex | src/waterfall_model_agents.py:79 | `list.index` returns the first position holding the message |
| Messages.ToolAnchored | src/waterfall_model_agents.py:48-61 | in a history where tool replies follow their callers, every tool message has a tool caller before it with only tool messages in between |
| Messages.SliceFollows | src/waterfall_model_agents.py:56 | a slice that does not start with a tool message keeps tool replies attached to callers |
| Messages.SliceNoAdjacent | src/waterfall_model_agents.py:85 | a slice of a history without two adjacent tool callers has none either |
| Messages.DropTrailingCallerClean | src/waterfall_model_agents.py:103-104 | without two adjacent tool callers, dropping one trailing caller leaves a list that does not end on a tool caller |
| Window.CutStart | src/waterfall_model_agents.py:46 | `msgs[-k:]` holds `min(k, len(msgs))` messages |
| Window.FixLeadingToolShape | src/waterfall_model_agents.py:48-61 | `fix_leading_tool` returns a suffix of the history that does not start with a tool message |
| Window.RecentWindowShape | src/waterfall_model_agents.py:42-72 | an empty history gives an empty window; the window never starts with a tool message and is a suffix of the history, or that suffix without its last message |
| Window.RecentExtendsBack | src/waterfall_model_agents.py:48-70 | a cut starting on a tool reply is extended back to the last tool caller before the cut, so the window can be longer than `k` |
| Window.RecentStripsOrphans | src/waterfall_model_agents.py:58-63 | with no tool caller before the cut, the leading tool replies of the cut are dropped instead |
| Window.RecentPlainCut | src/waterfall_model_agents.py:65-72 | a cut that starts on a non-tool message loses exactly its last message when that message is a tool caller, and is otherwise returned whole |
| Window.RecentLongerThanK | src/waterfall_model_agents.py:42-72 | a concrete history whose window for `k = 1` has three messages |
| Window.RecentKeepsToolsAnchored | src/waterfall_model_agents.py:42-72 | the window of a history whose tool replies follow their callers keeps that property |
| Window.FixLeadingToolScan | src/waterfall_model_agents.py:48-61 | the `while i >= 0` scan and the `tmp` loop compute `fix_leading_tool` |
| Window.Recent | src/waterfall_model_agents.py:42-72 | `_recent` as written equals the window function and never starts with a tool message |
| Window.RebaseShape | src/waterfall_model_agents.py:78-90 | the leading-tool loop ends on a list that does not start with a tool message and is a suffix of `recent` or a slice of the full history |
| Window.SanitizedNoLeadingTool | src/waterfall_model_agents.py:75-106 | the sanitized body never starts with a tool message |
| Window.SanitizeKeepsCleanWindow | src/waterfall_model_agents.py:92-106 | a `recent` that neither starts with a tool message nor ends on a tool caller is returned unchanged |
| Window.SanitizeAfterRecent | src/waterfall_model_agents.py:142-143 | sanitizing the window `_recent` built is always defined and only drops a trailing tool caller |
| Window.RebaseNoAdjacent | src/waterfall_model_agents.py:85 | rebasing onto the full history keeps "no two adjacent tool callers" |
| Window.SanitizedEndsClean | src/waterfall_model_agents.py:103-104 | without adjacent tool callers the prompt never ends on a tool caller |
| Window.RecentWindowSlice | src/waterfall_model_agents.py:42-72 | the window is one contiguous slice `msgs[lo:hi]` of the history |
| Window.RecentApart | src/waterfall_model_agents.py:42-72 | the window of a history without adjacent tool callers has none either |
| Window.RecentBodyEndsClean | src/waterfall_model_agents.py:142-143 | for a history without adjacent tool callers, the sanitized window is defined and never ends on a tool caller |
| Window.SanitizeNotIdempotent | src/waterfall_model_agents.py:75-106 | a concrete history with two adjacent tool callers loses one more message when sanitized twice |
| Window.ScanBackForCaller | src/waterfall_model_agents.py:82-88 | the inner `while j >= 0` loop finds the last tool caller before the index |
| Window.CopyCleaned | src/waterfall_model_agents.py:92-100 | the `cleaned` loop appends in both branches, so it copies `recent` in order |
| Window.Sanitize | src/waterfall_model_agents.py:75-106 | the prompt is the system message followed by the sanitized body, and its second message is never a tool reply |
| RoleGraph.StepRouter | src/waterfall_model_agents.py:114-115 | the routing key is `next_step` when set and non-empty, otherwise `"end"` |
| RoleGraph.EdgeFollowsShape | src/waterfall_model_agents.py:242-272 | every edge of the table goes along the backbone or through the tool node |
| RoleGraph.ShapeHasEdge | src/waterfall_model_agents.py:242-272 | every step of the backbone and of each tool detour has its key in the table |
| RoleGraph.ToolsReturnToRole | src/waterfall_model_agents.py:266-272 | the tool node routes `<role>_tools` back to the same role |
| RoleGraph.DoneIsFinal | src/waterfall_model_agents.py:235-272 | `done` has no outgoing edge and no edge leads back to the client |
| RoleGraph.MissingStepEnds | src/waterfall_model_agents.py:114-115 | a missing `next_step` ends the run from the tester or the tool node and matches no edge elsewhere |
| RoleGraph.RoleRouting | src/waterfall_model_agents.py:127-224 | a role routes to the tool node iff its response has tool calls, otherwise to its successor |
| RoleGraph.LabelForMessage | src/waterfall_model_agents.py:19-26 | tool replies are labelled `tools`, human messages `client`, anything else the step's agent when one is named and non-empty, and `unknown` otherwise |
| RoleGraph.ResponseLabelledByRole | src/waterfall_model_agents.py:282-285 | a role's response is logged under that role's name |
| RoleGraph.ToolReplies | src/waterfall_model_agents.py:237-238 | the tool node answers each tool call, in order, with a tool message carrying its id |
| RoleGraph.AppendNonTool | src/waterfall_model_agents.py:145 | appending a non-tool message keeps tool replies attached to callers |
| RoleGraph.AppendReplies | src/waterfall_model_agents.py:237-238 | appending tool replies after a tool caller keeps them attached |
| RoleGraph.PromptEndsClean | src/waterfall_model_agents.py:140-145 | in a history without adjacent tool callers, the prompt a role sends is non-empty and never ends on an unanswered tool caller |
| RoleGraph.AppendAfterAnswered | src/waterfall_model_agents.py:145 | a response appended after a message that is not a tool caller keeps tool callers apart |
| RoleGraph.AppendRepliesApart | src/waterfall_model_agents.py:237-238 | appending tool replies keeps tool callers apart, and a non-empty batch leaves the history ending on a reply |
| RoleGraph.ClientReady | src/waterfall_model_agents.py:118-124 | after the client node the analyst is ready: one human message and the `analyst` step |
| RoleGraph.ToolsReady | src/waterfall_model_agents.py:237-272 | after the tool node the calling role is ready: replies attached, callers apart, the history ending on a reply, and the edge back to that role |
| RoleGraph.RoleReady | src/waterfall_model_agents.py:127-224 | after a role's response the node its routing picks is ready: a role only when the response has no tool calls, the tool node only after a tool caller |
| RoleGraph.ReadyPromptClean | src/waterfall_model_agents.py:127-147 | every role the pipeline is ready to run sends a prompt that does not end on an unanswered tool caller |
| RoleGraph.PipelineState.constructor | src/waterfall_model_agents.py:279 | the run starts with no messages, no `next_step` and no agent |
| RoleGraph.PipelineState.ClientNode | src/waterfall_model_agents.py:118-124 | the client appends the issue as one human message and routes to the analyst |
| RoleGraph.PipelineState.RoleNode | src/waterfall_model_agents.py:127-147 | a role appends exactly its one response to the unchanged history and records its `next_step` and name; when no tool caller follows another in the history, the prompt it sends does not end on a tool caller |
| RoleGraph.PipelineState.ToolsNode | src/waterfall_model_agents.py:237-238 | the tool node appends one reply per call of the last message and leaves the routing fields alone |
| RoleGraph.PipelineState.Step | src/waterfall_model_agents.py:227-272 | one node execution follows the edge its `next_step` selects, along the workflow's shape, the tool node goes back to the role that called it, and the next node is ready: no tool caller follows another and a role never runs on an unanswered tool caller |
| RoleGraph.PipelineState.Run | src/waterfall_model_agents.py:277-290 | the trace starts at the client, follows the shape, returns from tools to the calling role, stops at `done` or the step limit, and the history starts with the issue, keeps tool replies attached and never holds two tool callers in a row |
| TypedFileContents.NormalizePath | src/tools/repository_management/get_file_contents.py:10-14 | a missing or blank path becomes `/`; any other path is kept untrimmed |
| TypedFileContents.NormalizePathIdempotent | src/tools/repository_management/get_file_contents.py:10-14 | a normalised path is not blank and normalises to itself |
| TypedFileContents.NormalizeRef | src/tools/repository_management/get_file_contents.py:18-32 | the ref is dropped iff it is missing or blank |
| TypedFileContents.NormalizeRefShape | src/tools/repository_management/get_file_contents.py:16-32 | a kept ref is a SHA or starts with `refs/`; SHAs and `refs/` names are kept, `heads/x` gains `refs/`, anything else gains `refs/heads/` |
| TypedFileContents.RefsNotSha | src/tools/repository_management/get_file_contents.py:16 | a name starting with `refs/` is never read as a SHA |
| TypedFileContents.NormalFormFixed | src/tools/repository_management/get_file_contents.py:23-29 | an unpadded SHA or `refs/` name normalises to itself |
| TypedFileContents.NormalizedUnpadded | src/tools/repository_management/get_file_contents.py:22-32 | a normalised ref has no surrounding blanks |
| TypedFileContents.NormalizeRefIdempotent | src/tools/repository_management/get_file_contents.py:18-32 | normalising a ref twice equals normalising it once |
| TypedFileContents.FirstTextChunk | src/tools/repository_management/get_file_contents.py:34-39 | the status text is the `text` of the first text chunk, and is absent iff there is none |
| TypedFileContents.FirstResourceText | src/tools/repository_management/get_file_contents.py:41-50 | the first resource body, absent iff no item carries one |
| TypedFileContents.ResourceBeatsText | src/tools/repository_management/get_file_contents.py:41-53 | the first resource body is the payload text, whatever text chunks come before it |
| TypedFileContents.TextChunkFallback | src/tools/repository_management/get_file_contents.py:51-53 | without a resource body the payload text is the first text chunk |
| TypedFileContents.BuildPayload | src/tools/repository_management/get_file_contents.py:74-79 | the payload always names owner, repo and the normalised path, and holds `ref` iff the normalised ref is present |
| TypedFileContents.ListingPaths | src/tools/repository_management/get_file_contents.py:111-118 | a listing has at most one path per entry |
| TypedFileContents.ListingPathsAppend | src/tools/repository_management/get_file_contents.py:113-118 | the paths of a joined listing are the paths of each part, in order |
| TypedFileContents.ListingPathsEmpty | src/tools/repository_management/get_file_contents.py:113-121 | no path is found iff no entry is a path object or a string |
| TypedFileContents.CollectPaths | src/tools/repository_management/get_file_contents.py:113-118 | the append loop collects exactly the listing's paths |
| TypedFileContents.ReadBody | src/tools/repository_management/get_file_contents.py:103-143 | text that is not JSON is returned as it is, a listing answer always holds a path, and reading the body never raises a domain or transport error |
| TypedFileContents.ClassifyContent | src/tools/repository_management/get_file_contents.py:92-143 | a crash iff the flag is unset and the status is truthy but not a string; a domain error iff the flag is set or the string status mentions an error or exception, with `status or raw or 'unknown error'` as message; otherwise the answer of reading the payload text |
| TypedFileContents.Classify | src/tools/repository_management/get_file_contents.py:81-101 | a transport error iff the envelope's `error` field is a dict (any other `error` value, a non-dict envelope or `result`, or uniterable content raises); otherwise the classification of the envelope's flag and content items |
| TypedFileContents.DomainErrorRule | src/tools/repository_management/get_file_contents.py:89-101 | for every readable envelope with a string or absent status: a domain error iff `FlagsError(isError, status)`, with the status, else the body, else `unknown error` as message |
| TypedFileContents.ErrorFlagWins | src/tools/repository_management/get_file_contents.py:89-98 | an `isError` flag at either level makes any readable envelope a domain error |
| TypedFileContents.ErrorStatusWins | src/tools/repository_management/get_file_contents.py:89-98 | a status mentioning "error" or "exception" in any case is a domain error with that status as message, even when a file body came with it |
| TypedFileContents.ContentNotAList | src/tools/repository_management/get_file_contents.py:90-101 | a string or dict `content` holds no chunk: unflagged it is unexpected content, flagged it is the `unknown error` domain error |
| TypedFileContents.ListingAnswer | src/tools/repository_management/get_file_contents.py:111-121 | a JSON array answers with its paths, or with the bad-listing error when it has none |
| RepoTools.RootIfBlank | tools/repository_management/get_file_contents.py:22-25 | an empty, `.` or `./` path becomes `/`; any other stripped path is kept |
| RepoTools.RawPath | tools/repository_management/get_file_contents.py:22 | a missing path field reads as empty |
| RepoTools.ContentsPath | tools/repository_management/get_file_contents.py:22-25 | the path sent is never empty, `.` or `./`, and is `/` when the path field is missing |
| RepoTools.ContentsFields | tools/repository_management/get_file_contents.py:16 | the input always splits into at least one field |
| RepoTools.CleanName | tools/repository_management/get_file_contents.py:33-34 | a cleaned name holds exactly the characters of the trimmed field that are not quotes or backticks |
| RepoTools.RefFor | tools/repository_management/get_file_contents.py:41 | the ref is empty iff the branch is, and otherwise is `refs/heads/` followed by the branch |
| RepoTools.ContentsCall | tools/repository_management/get_file_contents.py:37-42 | the request carries exactly owner, repo, path and ref |
| RepoTools.ContentsFromFields | tools/repository_management/get_file_contents.py:16-42 | a repository without `/` gets the format reply, a bad split raises, and a request always carries a usable path and an empty or `refs/heads/` ref |
| RepoTools.ContentsNamesUnquoted | tools/repository_management/get_file_contents.py:31-34 | the owner and repository names sent never hold a quote |
| RepoTools.ContentsNeedsBranch | tools/repository_management/get_file_contents.py:19-20 | an input without `|` raises an index error |
| RepoTools.ContentsFieldsJoined | tools/repository_management/get_file_contents.py:16 | `|`-joined fields read back as the same fields |
| RepoTools.ContentsNeedsSlash | tools/repository_management/get_file_contents.py:27-28 | a repository without `/` gets the format reply before any request |
| RepoTools.Unquote | tools/repository_management/get_file_contents.py:34 | the quote removal keeps exactly the characters that are not quotes |
| RepoTools.UnquoteAppend | tools/repository_management/get_file_contents.py:34 | quote removal works part by part, keeping the order of what remains |
| RepoTools.UnquoteChar | tools/repository_management/get_file_contents.py:34 | a single character is dropped iff it is one of the four quotes |
| RepoTools.CleanNameKeeps | tools/repository_management/get_file_contents.py:33-34 | a plain name is its own cleaning |
| RepoTools.ContentsRepository | tools/repository_management/get_file_contents.py:31-34 | `owner/repo` splits back into the two names |
| RepoTools.ContentsFromWellFormed | tools/repository_management/get_file_contents.py:16-42 | well-formed fields give the request for the same owner, repository, path and branch ref |
| RepoTools.ContentsRoundTrip | tools/repository_management/get_file_contents.py:16-42 | a well-formed joined input gives that same request |
| RepoTools.ContentsRootFromFields | tools/repository_management/get_file_contents.py:22-25 | two fields ask for the root path `/` |
| RepoTools.EntryPaths | tools/repository_management/get_file_contents.py:64-65 | a listing of objects maps to each entry's `path`, `unknown` when absent, one per entry |
| RepoTools.ContentsReply | tools/repository_management/get_file_contents.py:54-71 | an error result gives the failure text; a path list only comes from a result without error |
| RepoTools.ListingReply | tools/repository_management/get_file_contents.py:59-71 | a decoded list of objects answers with their paths in order; any other entry makes the handler report an exception |
| RepoTools.ShaAndContent | tools/repository_management/get_file.py:6-46 | only a file body yields a sha; a non-file names the path; every other failure text starts with `[` |
| RepoTools.FileAnswer | tools/repository_management/get_file.py:70 | the content is returned iff it is non-empty and does not start with `[`, otherwise prefixed with `Error: ` |
| RepoTools.FileAnswerFailures | tools/repository_management/get_file.py:36-46 | decode errors, bad statuses and exceptions are reported as errors; the non-file message is returned as it is |
| RepoTools.FileRequestOf | tools/repository_management/get_file.py:58-63 | a wrong number of `|` fields or `/` segments is an unpacking error; every parsed part is stripped of quotes and blanks |
| RepoTools.FileRequestOfWellFormed | tools/repository_management/get_file.py:58-63 | well-formed fields read back as the same owner, repository, path and branch |
| RepoTools.FileRequestJoined | tools/repository_management/get_file.py:58 | `|`-joined fields are parsed as those fields |
| RepoTools.CacheAfter | tools/repository_management/get_file.py:65-68 | a parsed call stores the fetched text under `owner/repo/path`, replacing any earlier entry, and leaves every other entry alone |
| RepoTools.FileOutcome | tools/repository_management/get_file.py:58-72 | a parse failure is reported as `Error: ` with its exception; otherwise the answer rule is applied to the fetched text |
| RepoTools.CacheIgnoresBranch | tools/repository_management/get_file.py:67-68 | two calls on different branches share one cache key |
| RepoTools.FileCache.constructor | tools/repository_management/get_file.py:48 | the cache starts empty |
| RepoTools.FileCache.GetFile | tools/repository_management/get_file.py:55-72 | one call answers as the outcome rule says and updates the cache as the cache rule says |
| RepoTools.FileCache.FetchAndStore | tools/repository_management/get_file.py:65-70 | a parsed call stores the fetched text and sha under `owner/repo/path` and answers with the text unless it is empty or starts with `[` |
| RepoTools.ParseFiles | tools/repository_management/push_files.py:20-29 | all segments parse into one entry each, or the bad segment is one without `:::` |
| RepoTools.ParseFilesOk | tools/repository_management/push_files.py:20-29 | when every segment has `:::`, the entries are the segments parsed in order |
| RepoTools.BadEntryIsFirst | tools/repository_management/push_files.py:22-24 | the error names the first segment without `:::` |
| RepoTools.PushOf | tools/repository_management/push_files.py:17-47 | only four-field inputs are sent; the request carries branch and message untrimmed and at least one file |
| RepoTools.CollectFiles | tools/repository_management/push_files.py:20-29 | the segment loop builds the entries or stops at the first bad one |
| RepoTools.PushFiles | tools/repository_management/push_files.py:14-47 | the wrapper as written equals the request function |
| RepoTools.EntryRoundTrip | tools/repository_management/push_files.py:25-29 | `path:::content` reads back as its path and content |
| RepoTools.EntryOfParts | tools/repository_management/push_files.py:25-27 | a segment is cut at the first `:::` after a colon-free path, and the path is trimmed |
| RepoTools.FileEntrySplit | tools/repository_management/push_files.py:25 | the entry is the segment split once at `:::` into two halves, with the first half trimmed |
| RepoTools.EntryTexts | tools/repository_management/push_files.py:20-29 | each entry is written as `path:::content` |
| RepoTools.EntriesRoundTrip | tools/repository_management/push_files.py:20-29 | a `###`-joined blob reads back as the same entries in order |
| RepoTools.PushJoined | tools/repository_management/push_files.py:17 | `split("|", 3)` of joined fields gives the fields back, pipes in the blob included |
| RepoTools.PushRoundTrip | tools/repository_management/push_files.py:17-37 | well-formed fields push exactly the named files to the named branch |
| RepoTools.PushReportsBadEntry | tools/repository_management/push_files.py:22-24 | a blob without `:::` is reported by name and nothing is pushed |
| RepoTools.RepositoryOf | tools/repository_management/create_repository.py:12-23 | name and description are taken verbatim; `private` and `autoInit` default to true and are otherwise whether the field reads `true` |
| RepoTools.RepositoryJoined | tools/repository_management/create_repository.py:12 | `|`-joined fields are read as those fields |
| RepoTools.RepositoryDefaults | tools/repository_management/create_repository.py:13-23 | a bare name creates a private, initialised repository without description |
| RepoTools.BranchRequest | tools/repository_management/create_branch.py:12-25 | an input without `|` gets the format reply; a bad repository raises an unpacking error; the request has exactly four keys |
| RepoTools.BranchFields | tools/repository_management/create_branch.py:16-25 | well-formed fields create the branch from the given source, `main` by default |
| IssueTools.RepoFieldStripped | tools/issues/update_issue.py:24-31 | an `owner/repo` field survives both strips and splits at its `/` into the two names |
| IssueTools.NumberStripped | tools/issues/update_issue.py:25 | a written number survives both strips and parses back |
| IssueTools.NonBlank | tools/issues/update_issue.py:41-44 | list items are trimmed and blank ones dropped |
| IssueTools.Trimmed | tools/issues/list_issues.py:44-45 | label items are trimmed one for one, blanks kept |
| IssueTools.NonBlankKeeps | tools/issues/update_issue.py:41-44 | trimmed non-blank items pass through unchanged |
| IssueTools.CommaListRoundTrip | tools/issues/update_issue.py:41-44 | a comma-joined list of items reads back as those items |
| IssueTools.CommaListKeepsBlanks | tools/issues/list_issues.py:44-45 | a comma-joined label list reads back item for item, blanks kept |
| IssueTools.UpdateRule | tools/issues/update_issue.py:33-48 | a field never sets `issue_number` |
| IssueTools.UpdatePair | tools/issues/update_issue.py:40-48 | `issue_number` is skipped; list keys get a list, any other key its value |
| IssueTools.UpdateRuleField | tools/issues/update_issue.py:34-40 | `key=value` is split at the first `=` and trimmed |
| IssueTools.KeyValueField | tools/issues/update_issue.py:38-40 | `key=value` splits back into the key and the value |
| IssueTools.UpdateField | tools/issues/update_issue.py:45-48 | a plain key is set to its value verbatim |
| IssueTools.UpdateListField | tools/issues/update_issue.py:41-44 | `assignees` and `labels` are set to their comma-separated items |
| IssueTools.ListKeyShape | tools/issues/update_issue.py:41 | the list keys have no `=` and no padding |
| IssueTools.UpdateListPair | tools/issues/update_issue.py:41-44 | a list key with a comma-joined value is set to those items |
| IssueTools.CommaListUnpadded | tools/issues/update_issue.py:41-44 | a comma-joined list of trimmed items has no surrounding blanks |
| IssueTools.UpdatesSkipNumber | tools/issues/update_issue.py:45-46 | no field sets `issue_number` |
| IssueTools.IssuePayload | tools/issues/update_issue.py:50-55 | the base payload names owner, repo and issue number and nothing else |
| IssueTools.UpdateFromTexts | tools/issues/update_issue.py:24-55 | a bad number raises a value error, a repository without `/` gets the format reply, and a request carries the parsed number |
| IssueTools.UpdateOf | tools/issues/update_issue.py:21-22 | fewer than three fields gets the format reply |
| IssueTools.UpdateIssue | tools/issues/update_issue.py:14-69 | the field loop as written equals the request function |
| IssueTools.UpdateJoined | tools/issues/update_issue.py:19-20 | joined fields survive the outer strip and split back |
| IssueTools.UpdateFromWellFormed | tools/issues/update_issue.py:24-55 | well-formed fields update that issue with the fields of `parts[2]` only |
| IssueTools.UpdateBaseNames | tools/issues/update_issue.py:28-31 | the base payload names the repository's two names |
| IssueTools.UpdateFieldsStripped | tools/issues/update_issue.py:24-26 | well-formed fields are read as the three texts |
| IssueTools.UpdateFromParsed | tools/issues/update_issue.py:28-55 | a parsed number and repository give the request merging base and updates |
| IssueTools.UpdateRoundTrip | tools/issues/update_issue.py:19-55 | a joined well-formed input updates that issue with those fields |
| IssueTools.UpdateLastFieldWins | tools/issues/update_issue.py:33-55 | a later field overrides an earlier one with the same key, and overrides the base |
| IssueTools.FilterRule | tools/issues/list_issues.py:37-47 | a filter only ever sets `labels`, `state`, `sort` or `direction` |
| IssueTools.TextFilterField | tools/issues/list_issues.py:46-47 | `state`, `sort` and `direction` take their trimmed value |
| IssueTools.FirstPage | tools/issues/list_issues.py:30-35 | the base payload asks for the first page of ten issues |
| IssueTools.FiltersKeepBase | tools/issues/list_issues.py:37-47 | no filter changes the repository, the page or the page size |
| IssueTools.ListOf | tools/issues/list_issues.py:22-47 | a repository without `/` gets the format reply; a request always asks for page 1 of 10 and holds only listing keys |
| IssueTools.ListIssues | tools/issues/list_issues.py:14-66 | the filter loop as written equals the request function |
| IssueTools.ListRepositoryOnly | tools/issues/list_issues.py:25-35 | a bare repository field lists its first page |
| IssueTools.ListFieldsBare | tools/issues/list_issues.py:20 | a bare `owner/repo` input is one field |
| IssueTools.NameFieldOneLine | tools/issues/list_issues.py:20 | `owner/repo` holds no line breaks to remove |
| IssueTools.ListDefaults | tools/issues/list_issues.py:20-35 | an input of just `owner/repo` lists the first page of ten |
| IssueTools.ListFilterLastWins | tools/issues/list_issues.py:37-47 | the last filter setting a key gives its value |
| IssueTools.IssuesReply | tools/issues/list_issues.py:57-58 | no issues gives the "no issues" reply |
| IssueTools.IssuesReplyCap | tools/issues/list_issues.py:60-63 | the reply has one line per issue, at most ten |
| IssueTools.CreatePayload | tools/issues/create_issue.py:28-33 | the payload has exactly owner, repo, title and body |
| IssueTools.CreateOf | tools/issues/create_issue.py:19-33 | fewer than three fields gets the format reply, a repository without `/` raises, and the body is every later field glued back with `|` and trimmed |
| IssueTools.CreateFromWellFormed | tools/issues/create_issue.py:19-33 | well-formed fields create that issue |
| IssueTools.CreateKeepsPipes | tools/issues/create_issue.py:19-25 | a body containing `|` is sent whole |
| IssueTools.CommentPayload | tools/issues/add_issue_comment.py:30-35 | the payload has exactly owner, repo, issue number and body |
| IssueTools.CommentOf | tools/issues/add_issue_comment.py:17-35 | fewer than three fields or a repository without `/` get their replies, a bad number raises, and the body is every later field glued back |
| IssueTools.CommentFromWellFormed | tools/issues/add_issue_comment.py:17-35 | well-formed fields comment on that issue |
| IssueTools.CommentInputUnpadded | tools/issues/add_issue_comment.py:17 | a well-formed input survives the outer strip |
| IssueTools.CommentKeepsPipes | tools/issues/add_issue_comment.py:17-35 | a comment containing `|` is sent whole |
| UserTools.EntryRule | tools/user/search_users.py:19 | an entry counts iff it has `=`, and its key is the text before the first `=` |
| UserTools.EntryField | tools/user/search_users.py:19 | `key=value` reads back as that key and value |
| UserTools.EntriesJoined | tools/user/search_users.py:18-19 | `;`-joined entries are read one by one |
| UserTools.EntriesLastWins | tools/user/search_users.py:19 | a later entry for a key overrides an earlier one |
| UserTools.EntriesOnlyNamed | tools/user/search_users.py:19 | a key no entry names is absent |
| UserTools.CopiedBy | tools/user/list_notifications.py:28-37 | exactly the whitelisted keys present are copied, each through the given trim |
| UserTools.CopiedByStep | tools/user/list_notifications.py:28-37 | one more guarded copy adds exactly that key |
| UserTools.CopiedByBeneath | tools/user/search_users.py:24-31 | a guarded copy after the `query` write gives the same dict as copying first and writing `query` last |
| UserTools.Copied | tools/user/list_notifications.py:28-37 | exactly the whitelisted keys present are copied, trimmed |
| UserTools.CopyTrimmed | tools/user/list_notifications.py:28-29 | one guarded copy sets the trimmed value iff the key is present |
| UserTools.CopiedStep | tools/user/list_notifications.py:28-37 | the chain of guarded copies builds the whitelist copy |
| UserTools.WithInt | tools/user/search_users.py:32-35 | a present key is rewritten as the canonical decimal text of `int(...)`, or raises a value error iff it does not parse; other keys are untouched |
| UserTools.Paged | tools/user/list_notifications.py:38-41 | paging fails iff `page` or `perPage` is present and not an integer, `page` reported first |
| UserTools.PagedCanonical | tools/user/list_notifications.py:38-41 | a paging value sent parses to the same integer as the one given |
| UserTools.PagedKeys | tools/user/list_notifications.py:38-41 | paging leaves every other key alone |
| UserTools.SearchBase | tools/user/search_users.py:24-31 | the base holds the trimmed query and the trimmed `sort` and `order` when given |
| UserTools.SearchOf | tools/user/search_users.py:21-35 | a missing query gets its reply; a bad page raises a value error; a request holds only given keys of the five allowed |
| UserTools.SearchOfPaged | tools/user/search_users.py:24-35 | a search with a query is the paging of its base |
| UserTools.SearchPayload | tools/user/search_users.py:21-38 | the guarded writes as written equal the request function |
| UserTools.SearchUsers | tools/user/search_users.py:15-38 | the wrapper as written equals the request function |
| UserTools.SingleEntry | tools/user/search_users.py:18-19 | a single `key=value` entry is that one key |
| UserTools.QueryOnlyBase | tools/user/search_users.py:24-26 | a lone query is the whole base |
| UserTools.SearchQueryOnly | tools/user/search_users.py:21-38 | a lone query sends just the trimmed query |
| UserTools.UsersReply | tools/user/search_users.py:47-48 | no users gives the "no users" reply |
| UserTools.UsersReplyCap | tools/user/search_users.py:50-53 | the reply has one line per user, at most five |
| UserTools.NotificationsFrom | tools/user/list_notifications.py:25-43 | never a format reply; a bad page raises a value error; a request holds only whitelisted keys |
| UserTools.NotificationsOf | tools/user/list_notifications.py:21-43 | an empty cleaned input sends an empty payload |
| UserTools.CopiedLastWins | tools/user/list_notifications.py:25-37 | a whitelisted key is sent trimmed with its last entry's value |
| UserTools.TextKeyNotPaging | tools/user/list_notifications.py:28-41 | the copied keys are not the paging keys |
| UserTools.NotificationsFromCall | tools/user/list_notifications.py:28-43 | the request payload is the paged whitelist copy |
| UserTools.PagedCall | tools/user/list_notifications.py:38-43 | the paging writes raise or give the paged request |
| UserTools.NotificationsPayload | tools/user/list_notifications.py:25-43 | the guarded writes as written equal the request function |
| UserTools.ListNotifications | tools/user/list_notifications.py:20-43 | the wrapper as written equals the request function |
| UserTools.NotificationsTextKey | tools/user/list_notifications.py:28-37 | a whitelisted key that is given is sent |
| UserTools.NotificationsReply | tools/user/list_notifications.py:48-54 | empty content or an empty list gives the "no notifications" reply |
| UserTools.NotificationsReplyCap | tools/user/list_notifications.py:56-64 | the reply has one line per notification, at most ten |
| ToolPayload.FieldOr | tools/repository_management/create_repository.py:14 | a field that is there, or the default |
| ToolPayload.IntField | tools/pull_requests/get_pull_request_files.py:25-28 | `int(s)` gives a payload integer iff `s` parses |
| ToolPayload.CanonicalIntText | tools/pull_requests/list_pull_requests.py:29-30 | `str(int(s))` is defined iff `s` parses; it is the canonical decimal text of that integer and parses back to it |
| ToolPayload.CappedLines | tools/issues/list_issues.py:60-63 | one line per item, at most the cap, in order |
| ToolPayload.RenderLines | tools/user/list_notifications.py:56-62 | the append loop renders the capped lines |
| ToolPayload.CappedListingLines | tools/issues/list_issues.py:60-63 | the joined reply splits back into its lines |
| ToolPayload.SplitRepo | tools/pull_requests/create_pull_request.py:17 | `owner/repo` splits into the two names |
| ToolPayload.JoinedFields | tools/pull_requests/create_pull_request.py:12-13 | joined fields survive the outer strip and split back |
| ToolPayload.RepoField | tools/issues/create_issue.py:23-26 | a field of two names splits back into them |
| ToolPayload.SingleField | tools/repository_management/create_repository.py:12 | an input without `|` is one field |
| ToolPayload.SplitOnceShape | tools/issues/update_issue.py:31 | a split at the first separator glues back to the input |
| ToolPayload.SplitOnceJoin | tools/issues/update_issue.py:31 | glued parts split back at the first separator |
| ToolPayload.Assigned | tools/issues/update_issue.py:33-48 | a key loop only ever adds keys |
| ToolPayload.AssignedKeys | tools/issues/update_issue.py:33-48 | a key is set iff it was there or some field sets it |
| ToolPayload.AssignedUnset | tools/issues/list_issues.py:37-47 | a key no field sets keeps its value |
| ToolPayload.LastWins | tools/issues/update_issue.py:33-48 | the last field setting a key gives its value |
| ToolPayload.AssignFields | tools/issues/list_issues.py:37-47 | the loop as written equals the key-setting function |
| ToolPayload.TailField | tools/issues/create_issue.py:25 | every field after the second, glued back with `|`, is the tail of the input |
| ToolPayload.CleanToken | tools/user/search_users.py:17 | a one-line token is its own cleaning |
| PyStr.FindFrom | tools/issues/update_issue.py:31 | the first occurrence from a position, or none |
| PyStr.Split | tools/issues/create_issue.py:19 | `split` always gives at least one field |
| PyStr.SplitN | tools/repository_management/push_files.py:17 | `split(sep, n)` gives between one and `n + 1` fields |
| PyStr.JoinSplit | tools/issues/create_issue.py:25 | joining the fields of a split gives the input back |
| PyStr.SplitJoin | tools/issues/create_issue.py:19 | splitting joined fields without the separator gives them back |
| PyStr.SplitNJoin | tools/repository_management/push_files.py:17 | a bounded split gives joined fields back, the last may hold the separator |
| PyStr.SplitCount | tools/repository_management/create_branch.py:12-14 | one field iff the separator does not occur |
| PyStr.StripShape | tools/pull_requests/list_pull_requests.py:12 | a strip keeps a contiguous piece `s[lo:hi]` of its input and removes only characters of the given set, from the two ends |
| PyStr.StripLeavesUnpadded | tools/pull_requests/list_pull_requests.py:12 | a strip leaves no character of the given set at either end |
| PyStr.StripIdempotent | tools/pull_requests/list_pull_requests.py:12 | stripping twice equals stripping once |
| PyStr.RemoveMembers | tools/user/search_users.py:17 | `replace(c, "")` removes every `c` and nothing else |
| PyStr.RemoveAppend | tools/user/search_users.py:17 | `replace(c, "")` of a concatenation is the concatenation of each part's, so order and repetitions are kept |
| PyStr.RemoveChar | tools/user/search_users.py:17 | a single character is dropped iff it is `c` |
| PyStr.Lower | tools/repository_management/create_repository.py:15-16 | ASCII lower case, character by character |
| PyStr.Upper | tools/pull_requests/create_and_submit_pull_request_review.py:20 | ASCII upper case, character by character |
| PyStr.ParseIntToStr | tools/user/search_users.py:32-35 | `int(str(i)) == i` |
| PyStr.CanonicalInt | tools/user/search_users.py:32-35 | `str(int(s))` parses to the same integer as `s` |
| PullRequestTools.Converted | tools/pull_requests/list_pull_requests.py:28-32 | a field's payload value: verbatim, a flag, an integer, or the integer's canonical decimal text, raising a value error iff `int()` fails |
| PullRequestTools.Step | tools/pull_requests/update_pull_request.py:26-35 | a guarded write changes nothing for an absent or empty field and nothing after an exception |
| PullRequestTools.WrittenSnoc | tools/pull_requests/update_pull_request.py:26-35 | one more guarded write is one more step |
| PullRequestTools.WrittenFails | tools/pull_requests/list_pull_requests.py:26-32 | the writes raise iff some present field fails its conversion |
| PullRequestTools.WrittenFirstError | tools/pull_requests/list_pull_requests.py:26-32 | the exception reported is the first failing field's |
| PullRequestTools.WrittenFailStays | tools/pull_requests/list_pull_requests.py:26-32 | once an exception is raised nothing more is written |
| PullRequestTools.WrittenKeys | tools/pull_requests/list_pull_requests.py:26-32 | a key is in the payload iff it was there or its field is present |
| PullRequestTools.WrittenUnset | tools/pull_requests/list_pull_requests.py:21-32 | a key whose fields are all absent keeps its value |
| PullRequestTools.WrittenLastWins | tools/pull_requests/list_pull_requests.py:26-32 | the last present field for a key gives its converted value |
| PullRequestTools.SlotWritten | tools/pull_requests/list_pull_requests.py:26-32 | with distinct keys, a key is written iff its field is present, holding the converted field |
| PullRequestTools.KeyKept | tools/pull_requests/search_pull_requests.py:17-26 | a key no slot writes keeps its value |
| PullRequestTools.WrittenPair | tools/pull_requests/add_pull_request_review_comment_to_pending_review.py:38-41 | two guarded writes are two steps |
| PullRequestTools.WrittenErrorFrom | tools/pull_requests/list_pull_requests.py:26-32 | an exception comes from some present field's conversion |
| PullRequestTools.WrittenRaisesInt | tools/pull_requests/list_pull_requests.py:29-30 | the only exception the writes raise is an `int()` value error |
| PullRequestTools.WriteSlots | tools/pull_requests/list_pull_requests.py:26-32 | the `enumerate` loop as written performs the guarded writes |
| PullRequestTools.WriteSlot | tools/pull_requests/merge_pull_request.py:26-27 | one guarded write as written |
| PullRequestTools.RepoPayload | tools/pull_requests/list_pull_requests.py:21-24 | the base payload has exactly owner and repo |
| PullRequestTools.PullPayload | tools/pull_requests/merge_pull_request.py:20-24 | the base payload has exactly owner, repo and pull number |
| PullRequestTools.RepoNames | tools/pull_requests/create_pull_request.py:17 | unpacking `owner/repo` fails iff it has other than two segments |
| PullRequestTools.RepoNamesOf | tools/pull_requests/create_pull_request.py:17 | two names without `/` unpack to themselves |
| PullRequestTools.PullHeader | tools/pull_requests/update_pull_request.py:17-24 | the header fails with the unpacking error first, then with a bad pull number; otherwise it names the pull request |
| PullRequestTools.PullHeaderOf | tools/pull_requests/update_pull_request.py:17-24 | well-formed fields give that pull request's header |
| PullRequestTools.StrippedFields | tools/pull_requests/update_pull_request.py:12-13 | the stripped input splits into at least one field |
| PullRequestTools.StrippedJoined | tools/pull_requests/update_pull_request.py:12-13 | joined fields survive the strip and split back |
| PullRequestTools.ResultText | tools/pull_requests/list_pull_requests.py:34-38 | an error gives the failure text, otherwise `result` or the default text |
| PullRequestTools.ListPullsOf | tools/pull_requests/list_pull_requests.py:17-32 | a repository without exactly two segments gets its reply; only a bad page raises; otherwise a list request |
| PullRequestTools.ListPullRequests | tools/pull_requests/list_pull_requests.py:11-34 | the wrapper as written equals the request function |
| PullRequestTools.ListPullsSlotsDistinct | tools/pull_requests/list_pull_requests.py:26 | the optional keys are distinct and not owner or repo |
| PullRequestTools.ListPullsCall | tools/pull_requests/list_pull_requests.py:21-34 | a good repository sends the guarded writes' payload or raises their exception |
| PullRequestTools.ListPullsFields | tools/pull_requests/list_pull_requests.py:21-32 | the payload names the repository, and each option is sent iff its position is present, converted |
| PullRequestTools.ListPullsOnlyKnown | tools/pull_requests/list_pull_requests.py:26-32 | positions beyond seven are ignored: only the known keys are sent |
| PullRequestTools.VerbatimNeverBreaks | tools/pull_requests/list_pull_requests.py:31-32 | a verbatim or flag field never raises |
| PullRequestTools.ListPullsSlotsShape | tools/pull_requests/list_pull_requests.py:26-32 | the first five options are verbatim and `page` is converted |
| PullRequestTools.ListPullsBadPage | tools/pull_requests/list_pull_requests.py:29-30 | a page that is not an integer raises a value error |
| PullRequestTools.ListPullsJoined | tools/pull_requests/list_pull_requests.py:12-13 | joined fields are read as those fields |
| PullRequestTools.SearchPullsOf | tools/pull_requests/search_pull_requests.py:12-28 | never a format reply; only a bad page raises; a request always carries the query |
| PullRequestTools.SearchPullRequests | tools/pull_requests/search_pull_requests.py:11-28 | the guarded writes as written equal the request function |
| PullRequestTools.SearchPullsQuery | tools/pull_requests/search_pull_requests.py:16-19 | the query sent is the first field verbatim |
| PullRequestTools.SearchPullsSlotsFresh | tools/pull_requests/search_pull_requests.py:21-26 | no optional position overwrites the query |
| PullRequestTools.CreatePullPayload | tools/pull_requests/create_pull_request.py:24-32 | the payload has exactly the seven keys |
| PullRequestTools.DraftFlag | tools/pull_requests/create_pull_request.py:22 | draft iff the sixth field reads `true` in any case |
| PullRequestTools.CreatePullOf | tools/pull_requests/create_pull_request.py:12-32 | fewer than four fields gets the format reply, a bad repository raises, otherwise the seven-key request with body and draft defaults |
| PullRequestTools.CreatePullDefaults | tools/pull_requests/create_pull_request.py:21-22 | four fields open a non-draft pull request with an empty body |
| PullRequestTools.CreatePullRoundTrip | tools/pull_requests/create_pull_request.py:12-32 | a joined well-formed input opens that pull request |
| PullRequestTools.DraftAnyCase | tools/pull_requests/create_pull_request.py:22 | `true` in any mix of cases marks a draft |
| PullRequestTools.PullWithSlots | tools/pull_requests/update_pull_request.py:12-35 | too few fields gets the format reply, a bad header raises, and a request holds the header with the guarded writes |
| PullRequestTools.WriteUpdateSlots | tools/pull_requests/update_pull_request.py:26-35 | the guarded writes of positions 2 to 6 as written |
| PullRequestTools.WriteMergeSlots | tools/pull_requests/merge_pull_request.py:26-31 | the guarded writes of positions 2 to 4 as written |
| PullRequestTools.WriteFilesSlots | tools/pull_requests/get_pull_request_files.py:25-28 | the guarded writes of `page` and `perPage` as written |
| PullRequestTools.UpdatePull | tools/pull_requests/update_pull_request.py:11-37 | the wrapper as written equals the request function |
| PullRequestTools.MergePull | tools/pull_requests/merge_pull_request.py:11-33 | the wrapper as written equals the request function |
| PullRequestTools.GetPullFiles | tools/pull_requests/get_pull_request_files.py:11-30 | the wrapper as written equals the request function |
| PullRequestTools.TextSlotsNeverRaise | tools/pull_requests/update_pull_request.py:26-35 | verbatim and flag writes never raise |
| PullRequestTools.PullWithSlotsOf | tools/pull_requests/update_pull_request.py:12-35 | well-formed header fields send the header's guarded writes |
| PullRequestTools.PullSlotWritten | tools/pull_requests/update_pull_request.py:20-35 | the pull number is kept and each option is sent iff present, converted |
| PullRequestTools.TextSlotsFresh | tools/pull_requests/merge_pull_request.py:20-31 | the optional keys are distinct and never overwrite owner, repo or pull number |
| PullRequestTools.TextSlotsShape | tools/pull_requests/update_pull_request.py:26-35 | update fields are verbatim or a flag, merge fields verbatim, file paging integers |
| PullRequestTools.UpdatePullFields | tools/pull_requests/update_pull_request.py:12-35 | a joined well-formed update is sent, each option present iff its position is non-empty, `maintainer_can_modify` as a flag |
| PullRequestTools.MergePullFields | tools/pull_requests/merge_pull_request.py:12-31 | a joined well-formed merge is sent, each option verbatim iff its position is non-empty |
| PullRequestTools.PullFilesPaging | tools/pull_requests/get_pull_request_files.py:16-28 | `page` and `perPage` are sent as integers iff their positions are non-empty |
| PullRequestTools.PullFilesJoined | tools/pull_requests/get_pull_request_files.py:12 | the untrimmed input is read as its fields |
| PullRequestTools.ReviewPayload | tools/pull_requests/create_and_submit_pull_request_review.py:27-34 | the header's keys plus event and body |
| PullRequestTools.ReviewOf | tools/pull_requests/create_and_submit_pull_request_review.py:13-34 | too few fields or an unknown event get their replies, a bad header raises, and a request carries the upper-cased event, commit id and body |
| PullRequestTools.PendingOf | tools/pull_requests/submit_pending_pull_request_review.py:13-31 | the same rules for submitting a pending review, with an optional body |
| PullRequestTools.EventsUpper | tools/pull_requests/create_and_submit_pull_request_review.py:24 | the accepted events read as themselves |
| PullRequestTools.EventLowerCase | tools/pull_requests/create_and_submit_pull_request_review.py:20 | lower-case events are accepted |
| PullRequestTools.PendingAccepted | tools/pull_requests/submit_pending_pull_request_review.py:18-31 | a good header and event give the request |
| PullRequestTools.ReviewAccepted | tools/pull_requests/create_and_submit_pull_request_review.py:18-34 | a good header and event give the request |
| PullRequestTools.PendingRoundTrip | tools/pull_requests/submit_pending_pull_request_review.py:13-31 | a joined well-formed input submits that review |
| PullRequestTools.ReviewRoundTrip | tools/pull_requests/create_and_submit_pull_request_review.py:13-34 | a joined well-formed input creates and submits that review |
| PullRequestTools.CommentPayload | tools/pull_requests/add_pull_request_review_comment_to_pending_review.py:27-36 | the required payload: exactly the header's keys plus path, body, subject type, side and line, with the header's other values unchanged |
| PullRequestTools.CommentBase | tools/pull_requests/add_pull_request_review_comment_to_pending_review.py:19-36 | the header error first, then a bad line number, otherwise the required payload |
| PullRequestTools.CommentOf | tools/pull_requests/add_pull_request_review_comment_to_pending_review.py:13-43 | fewer than seven fields gets the format reply, parse errors raise, and a request is the required payload with the two guarded additions |
| PullRequestTools.AddReviewComment | tools/pull_requests/add_pull_request_review_comment_to_pending_review.py:12-43 | the wrapper as written equals the request function |
| PullRequestTools.SendComment | tools/pull_requests/add_pull_request_review_comment_to_pending_review.py:19-43 | the required payload and the two guarded writes as written |
| PullRequestTools.CommentStartLine | tools/pull_requests/add_pull_request_review_comment_to_pending_review.py:40-41 | a given start line is sent as its stripped integer, and raises iff it does not parse |

## Left out

- Language-model calls (`ChatOpenAI`, `bind_tools`, `invoke`) are a function parameter `llm` from prompt to completion. The tool node's execution is a parameter `execute` from tool call to reply text.
- LangGraph's runtime (`compile`, `stream`, the `add_messages` reducer) is replaced by `PipelineState.Step` and `PipelineState.Run` over the edge table. The recursion limit of 60 is the `limit` parameter of `Run`.
- Console and file I/O are not modelled: `input()` becomes the `issue` parameter; `print`, `append_log`, `datetime.now()` and `os.makedirs` are left out.
- The role system prompts are reduced to a short text per role. Their wording steers the model and has no effect on the graph.
- `call_mcp`, HTTP, `requests.get`, `json.loads` and base64 decoding are function parameters (`parse`, `b64`, `decode`, `fetch`, `line`, `show`) or left out. The tool wrappers are modelled up to the request they send.
- Exception messages `str(e)` are not rendered. A raised exception is `Raised(prefix, kind)`, where the kind is an unpacking error with its counts, an index error, or an `int()` value error with its text. `AttributeError` and `TypeError` on malformed JSON are one `Crash` answer.
- Replies formatted from decoded JSON after the remote call are not rendered: only the empty-result texts and the caps on the number of lines (5 users, 10 issues, 10 notifications) are modelled.
- `Lower` and `Upper` cover ASCII letters only; `StripWs` strips the full set of characters Python's `str.isspace` accepts. `ParseInt` accepts ASCII digits with single underscores, but not Unicode digits.
- In `_recent` the test of `msgs[after_last]` is dead code, because `after_last` always equals `len(msgs)`. The model drops a trailing tool caller unconditionally.
- `_recent` and `_sanitize_for_openai` find a tool reply's caller by message kind, not by `tool_call_id`. The model does the same, so a reply can be rebased onto a caller that did not issue it.
- `_sanitize_for_openai` is not idempotent: `Window.SanitizeNotIdempotent` exhibits two adjacent tool callers of which only one is dropped per pass. No idempotence lemma is stated.
- Messages.FirstIndex: messages carry no id, so two messages with the same kind and content are equal in the model. LangChain messages in the graph state carry distinct ids, so `full_history.index(recent[0])` there finds the message itself. Where the history holds an earlier duplicate, the model can rebase onto that earlier position instead.
- Window.Sanitize: requires `SanitizeDefined`, which holds exactly when every `full_history.index(recent[0])` the loop reaches finds the message. The `ValueError` raised otherwise is not modelled.
- The `len(parts) < 1` branches of the list, search and update wrappers are unreachable, since `split` always returns a field. They are not modelled.
- RepoTools.FileEntryOf: has no contract of its own. What it computes is stated by `RepoTools.FileEntrySplit`, `RepoTools.EntryRoundTrip` and `RepoTools.ParseFilesOk`.
- RepoTools.ContentsReply: only the error and path-list cases are contract clauses, and `RepoTools.ListingReply` covers decoded lists. The file-object, invalid-JSON and unexpected-content branches follow the source without a lemma of their own.
- TypedFileContents.ReadBody: states only the non-JSON fallback and that listings are non-empty. The file-object and base64 branches follow the source through the `b64` parameter without a lemma of their own.
- TypedFileContents.Classify: a domain error carries the JSON value whose `str()` follows `MCP domain error: `, not the rendered text, and a transport error carries no message. `str()` of a non-string value is not modelled.
- The fixed-arity wrappers are not modelled: get_issue, get_issue_comments, search_issues, list_commits, list_branches, delete_file, create_or_update_file, search_repositories, get_pull_request, its diff, reviews and status, create_pending and delete_pending reviews, get_me and run_workflow. Each does one split, at most one `int()` and a remote call.
- The typed wrappers under `src/tools` other than `get_file_contents` are not modelled. They only copy keyword arguments into a dictionary.
- The top-level agent scripts, the vector-store retriever, the tool registries and `__init__` files are not part of this model.
