/**
 * The repository-management wrappers: `get_file_contents` (string form),
 * `get_file` with its module-level file cache, `push_multiple_files`,
 * `create_repository` and `create_branch`. Each reads one `|`-separated
 * input string; the model states what each makes of it.
 */
module RepoTools {
  import opened PyStr
  import opened ToolPayload

  // ---------------------------------------------------------------------
  // get_file_contents: 'owner/repo|branch|[path]'
  // ---------------------------------------------------------------------

  const ContentsPrefix: string := "Exception in get_file_contents_tool: "
  const RepoFormatError: string := "Error: Repository must be in format 'owner/repo'"

  /** The quotes `strip("'\"")` removes from the whole input. */
  const OuterQuotes: set<char> := {'\'', '"'}

  /** The quotes deleted from anywhere inside an owner or repository name. */
  const NameQuotes: set<char> := {'\U{2019}', '\U{2018}', '\'', '`'}

  /** `path in ("", ".", "./")` means the repository's root "/". */
  function RootIfBlank(p: string): (path: string)
    requires Unpadded(p, QuotesAndBlanks)
    ensures path != "" && path != "." && path != "./"
    ensures Unpadded(path, QuotesAndBlanks)
    ensures p == "" ==> path == "/"
    ensures p != "" && p != "." && p != "./" ==> path == p
  {
    if p == "" || p == "." || p == "./" then "/" else p
  }

  /** The path field as given, trimmed of white space; empty when absent. */
  function RawPath(parts: seq<string>): (raw: string)
    ensures |parts| <= 2 ==> raw == ""
  {
    if |parts| > 2 then StripWs(parts[2]) else ""
  }

  /** The path field: trimmed of blanks, quotes and backticks, with an
      empty path, "." and "./" all meaning the root "/". */
  function ContentsPath(parts: seq<string>): (path: string)
    ensures path != "" && path != "." && path != "./"
    ensures Unpadded(path, QuotesAndBlanks)
    ensures |parts| <= 2 ==> path == "/"
  {
    StripLeavesUnpadded(RawPath(parts), QuotesAndBlanks);
    RootIfBlank(Strip(RawPath(parts), QuotesAndBlanks))
  }

  /** The `|`-separated fields of a `get_file_contents` input, after the
      input is trimmed of white space and of straight quotes. */
  function ContentsFields(input: string): (parts: seq<string>)
    ensures |parts| >= 1
  {
    Split(Strip(StripWs(input), OuterQuotes), "|")
  }

  /** One half of `owner/repo`, trimmed and rid of straight, curly and back
      quotes wherever they occur. */
  function CleanName(part: string): (name: string)
    ensures forall c :: c in name <==> c in StripWs(part) && c !in NameQuotes
  {
    Unquote(StripWs(part))
  }

  /** The four `replace(q, "")` calls of the name cleaning. */
  function Unquote(s: string): (r: string)
    ensures forall c :: c in r <==> c in s && c !in NameQuotes
  {
    var s1 := Remove(s, '\U{2019}');
    var s2 := Remove(s1, '\U{2018}');
    var s3 := Remove(s2, '\'');
    RemoveMembers(s, '\U{2019}');
    RemoveMembers(s1, '\U{2018}');
    RemoveMembers(s2, '\'');
    RemoveMembers(s3, '`');
    Remove(s3, '`')
  }

  /** Unquoting a concatenation unquotes each part, in order. */
  lemma UnquoteAppend(a: string, b: string)
    ensures Unquote(a + b) == Unquote(a) + Unquote(b)
  {
    RemoveAppend(a, b, '\U{2019}');
    var a1, b1 := Remove(a, '\U{2019}'), Remove(b, '\U{2019}');
    RemoveAppend(a1, b1, '\U{2018}');
    var a2, b2 := Remove(a1, '\U{2018}'), Remove(b1, '\U{2018}');
    RemoveAppend(a2, b2, '\'');
    var a3, b3 := Remove(a2, '\''), Remove(b2, '\'');
    RemoveAppend(a3, b3, '`');
  }

  /** A single character is dropped iff it is a quote; with `UnquoteAppend`
      this fixes the cleaning, order and repetitions included. */
  lemma UnquoteChar(x: char)
    ensures Unquote([x]) == if x in NameQuotes then [] else [x]
  {
    RemoveChar(x, '\U{2019}');
    RemoveChar(x, '\U{2018}');
    RemoveChar(x, '\'');
    RemoveChar(x, '`');
  }

  /** The `ref` sent for a branch: its full name, or none for no branch. */
  function RefFor(branch: string): (ref: string)
    ensures ref == "" <==> branch == ""
    ensures ref != "" ==> StartsWith(ref, "refs/heads/") && ref[11..] == branch
  {
    if branch != "" then "refs/heads/" + branch else ""
  }

  /** The `get_file_contents` call for cleaned names, a path and a ref. */
  function ContentsCall(owner: string, repo: string, path: string, ref: string): (r: Outcome)
    ensures r.Call? && r.tool == "get_file_contents" && r.payload.Keys == {"owner", "repo", "path", "ref"}
    ensures r.payload["owner"] == Str(owner) && r.payload["repo"] == Str(repo)
    ensures r.payload["path"] == Str(path) && r.payload["ref"] == Str(ref)
  {
    Call("get_file_contents", map["owner" := Str(owner), "repo" := Str(repo), "path" := Str(path), "ref" := Str(ref)])
  }

  /** The request `get_file_contents_tool` sends for the fields of its
      input, or why it sends none. */
  function ContentsFromFields(parts: seq<string>): (r: Outcome)
    requires |parts| >= 1
    ensures r.Raised? ==> r.prefix == ContentsPrefix
    ensures r.Reply? ==> r.text == RepoFormatError
    ensures r.Call? ==> r.tool == "get_file_contents" && r.payload.Keys == {"owner", "repo", "path", "ref"}
    ensures r.Call? ==> r.payload["owner"].Str? && r.payload["repo"].Str?
    ensures r.Call? ==> r.payload["path"].Str? && r.payload["ref"].Str?
    ensures r.Call? ==> r.payload["path"].s != "" && r.payload["path"].s != "." && r.payload["path"].s != "./"
    ensures r.Call? ==> r.payload["ref"].s == "" || StartsWith(r.payload["ref"].s, "refs/heads/")
  {
    if |parts| < 2 then Raised(ContentsPrefix, IndexError)
    else if '/' !in StripWs(parts[0]) then Reply(RepoFormatError)
    else
      var pieces := Split(StripWs(parts[0]), "/");
      if |pieces| != 2 then Raised(ContentsPrefix, Unpack(2, |pieces|))
      else ContentsCall(CleanName(pieces[0]), CleanName(pieces[1]), ContentsPath(parts), RefFor(StripWs(parts[1])))
  }

  /** `get_file_contents_tool` up to the `call_mcp` call.
      It only composes the field split with `ContentsFromFields`. */
  function ContentsRequest(input: string): (r: Outcome) {
    ContentsFromFields(ContentsFields(input))
  }

  /** The owner and repository names sent never hold a quote of any kind. */
  lemma ContentsNamesUnquoted(parts: seq<string>)
    requires |parts| >= 1 && ContentsFromFields(parts).Call?
    ensures forall c :: c in NameQuotes ==>
      c !in ContentsFromFields(parts).payload["owner"].s && c !in ContentsFromFields(parts).payload["repo"].s
  {
    var pieces := Split(StripWs(parts[0]), "/");
    assert ContentsFromFields(parts) == ContentsCall(CleanName(pieces[0]), CleanName(pieces[1]),
      ContentsPath(parts), RefFor(StripWs(parts[1])));
  }

  /** An input without a `|` has no branch field. */
  lemma ContentsNeedsBranch(input: string)
    requires '|' !in input
    ensures ContentsRequest(input) == Raised(ContentsPrefix, IndexError)
  {
    SingleField(input, OuterQuotes);
  }

  /** The fields of a well-formed input are its `|`-joined parts. */
  lemma ContentsFieldsJoined(parts: seq<string>)
    requires |parts| >= 1 && forall i :: 0 <= i < |parts| ==> '|' !in parts[i]
    requires Token(parts[0]) && Token(parts[|parts| - 1])
    ensures ContentsFields(Join("|", parts)) == parts
    ensures ContentsRequest(Join("|", parts)) == ContentsFromFields(parts)
  {
    var j := Join("|", parts);
    JoinedFields(parts, OuterQuotes);
    assert StripWs(j) == j;
    assert Strip(StripWs(j), OuterQuotes) == j;
  }

  /** A repository field without a slash is refused with the format hint. */
  lemma ContentsNeedsSlash(repository: string, branch: string)
    requires Token(repository) && '/' !in repository && Token(branch)
    ensures ContentsRequest(repository + "|" + branch) == Reply(RepoFormatError)
  {
    var parts := [repository, branch];
    JoinPair("|", repository, branch);
    ContentsFieldsJoined(parts);
    StripToken(repository, Whitespace);
    assert StripWs(parts[0]) == repository;
  }

  /** A name is left alone by the name cleaning. */
  lemma CleanNameKeeps(name: string)
    requires Name(name)
    ensures CleanName(name) == name
  {
    NameToken(name);
    StripToken(name, Whitespace);
    assert forall c :: c in NameQuotes ==> c in Padding;
    RemoveAbsent(name, '\U{2019}');
    RemoveAbsent(name, '\U{2018}');
    RemoveAbsent(name, '\'');
    RemoveAbsent(name, '`');
  }

  /** The `owner/repo` field of a well-formed input is read as its names. */
  lemma ContentsRepository(owner: string, repo: string, parts: seq<string>)
    requires Name(owner) && Name(repo) && |parts| >= 2 && parts[0] == owner + "/" + repo
    ensures Token(parts[0])
    ensures '/' in StripWs(parts[0]) && Split(StripWs(parts[0]), "/") == [owner, repo]
    ensures CleanName(owner) == owner && CleanName(repo) == repo
  {
    RepoField(owner, repo);
    StripToken(parts[0], Whitespace);
    CleanNameKeeps(owner);
    CleanNameKeeps(repo);
  }

  /** Well-formed fields give the call with the names, the path and the
      branch's reference as written. */
  lemma ContentsFromWellFormed(owner: string, repo: string, parts: seq<string>)
    requires Name(owner) && Name(repo) && |parts| >= 3 && parts[0] == owner + "/" + repo
    requires parts[1] == "" || Token(parts[1])
    requires Token(parts[2]) && parts[2] != "." && parts[2] != "./"
    ensures ContentsFromFields(parts) == ContentsCall(owner, repo, parts[2], RefFor(parts[1]))
  {
    ContentsRepository(owner, repo, parts);
    if parts[1] != "" {
      StripToken(parts[1], Whitespace);
    }
    StripToken(parts[2], QuotesAndBlanks);
    assert RawPath(parts) == parts[2];
  }

  /** The documented input format reads back: owner, repository and path
      as written, and the branch as a full `refs/heads/` reference, or no
      reference at all when the branch field is empty; fields after the
      path are ignored. */
  lemma ContentsRoundTrip(owner: string, repo: string, fields: seq<string>)
    requires Name(owner) && Name(repo) && |fields| >= 3 && fields[0] == owner + "/" + repo
    requires forall i :: 0 <= i < |fields| ==> '|' !in fields[i]
    requires fields[1] == "" || Token(fields[1])
    requires Token(fields[2]) && fields[2] != "." && fields[2] != "./"
    requires Token(fields[|fields| - 1])
    ensures ContentsRequest(Join("|", fields)) ==
      ContentsCall(owner, repo, fields[2], if fields[1] == "" then "" else "refs/heads/" + fields[1])
  {
    ContentsRepository(owner, repo, fields);
    ContentsFieldsJoined(fields);
    ContentsFromWellFormed(owner, repo, fields);
  }

  /** Fields without a path give the call for the repository's root. */
  lemma ContentsRootFromFields(owner: string, repo: string, parts: seq<string>)
    requires Name(owner) && Name(repo) && |parts| == 2 && parts[0] == owner + "/" + repo
    requires Token(parts[1])
    ensures Token(parts[0])
    ensures ContentsFromFields(parts) == ContentsCall(owner, repo, "/", RefFor(parts[1]))
  {
    ContentsRepository(owner, repo, parts);
    StripToken(parts[1], Whitespace);
  }

  /** What `get_file_contents_tool` answers once `call_mcp` has returned. */
  datatype ContentsAnswer =
    | PathList(paths: seq<Json>)     // the listed entries' paths
    | FetchFailed(error: Json)       // "Failed to fetch file list: ..."
    | InvalidJson(text: string)      // "Invalid JSON in response: ..."
    | UnexpectedParsed(parsed: Json) // "Unexpected parsed content format: ..."
    | UnexpectedContent(content: Json) // "Unexpected response content: ..."
    | ContentsCrash                  // an attribute or type error, caught

  /** `[entry.get("path", "unknown") for entry in parsed]`: every entry's
      path, or nothing when an entry is not a dict (which raises). */
  function EntryPaths(items: seq<Json>): (r: Option<seq<Json>>)
    ensures r.Some? <==> forall i :: 0 <= i < |items| ==> items[i].JObj?
    ensures r.Some? ==> |r.value| == |items|
    ensures r.Some? ==> forall i :: 0 <= i < |items| ==>
      r.value[i] == Get(items[i].fields, "path", JStr("unknown"))
    decreases |items|
  {
    if items == [] then Some([])
    else if !items[0].JObj? then None
    else match EntryPaths(items[1..])
      case None => None
      case Some(rest) => Some([Get(items[0].fields, "path", JStr("unknown"))] + rest)
  }

  /** The answer to a `call_mcp` result; `parse` stands for `json.loads`. */
  function ContentsReply(result: map<string, Json>, parse: string -> Option<Json>): (a: ContentsAnswer)
    ensures "error" in result ==> a == FetchFailed(result["error"])
    ensures a.PathList? ==> "error" !in result && "result" in result && result["result"].JObj?
  {
    if "error" in result then FetchFailed(result["error"])
    else
      var inner := Get(result, "result", JObj(map[]));
      if !inner.JObj? then ContentsCrash
      else
        var content := Get(inner.fields, "content", JList([]));
        if content.JList? && content.items != [] && content.items[0].JObj? && "text" in content.items[0].fields then
          var text := content.items[0].fields["text"];
          if !text.JStr? then ContentsCrash
          else match parse(text.s)
            case None => InvalidJson(text.s)
            case Some(parsed) =>
              if parsed.JList? then
                match EntryPaths(parsed.items)
                case Some(paths) => PathList(paths)
                case None => ContentsCrash
              else if parsed.JObj? && Get(parsed.fields, "type", JNull) == JStr("file") then
                PathList([Get(parsed.fields, "path", JStr("unknown"))])
              else UnexpectedParsed(parsed)
        else UnexpectedContent(content)
  }

  /** A listing whose entries are all dicts answers with one path per
      entry, "unknown" where an entry has none; one non-dict entry makes
      the whole answer an exception. */
  lemma ListingReply(result: map<string, Json>, parse: string -> Option<Json>, text: string, items: seq<Json>)
    requires "error" !in result && "result" in result && result["result"].JObj?
    requires var inner := result["result"].fields;
      "content" in inner && inner["content"].JList? && inner["content"].items != []
      && inner["content"].items[0] == JObj(map["text" := JStr(text)])
    requires parse(text) == Some(JList(items))
    ensures (forall i :: 0 <= i < |items| ==> items[i].JObj?) ==>
      ContentsReply(result, parse).PathList? && |ContentsReply(result, parse).paths| == |items|
    ensures (forall i :: 0 <= i < |items| ==> items[i].JObj?) ==>
      forall i :: 0 <= i < |items| ==>
        ContentsReply(result, parse).paths[i] == Get(items[i].fields, "path", JStr("unknown"))
    ensures (exists i :: 0 <= i < |items| && !items[i].JObj?) ==> ContentsReply(result, parse) == ContentsCrash
  {
    var content := result["result"].fields["content"];
    assert "text" in content.items[0].fields;
  }

  // ---------------------------------------------------------------------
  // get_file: 'owner/repo|path|branch', with the module-level file cache
  // ---------------------------------------------------------------------

  /** What the GitHub contents request for one path came back with. */
  datatype Fetch =
    | FileBody(sha: string, content: string) // a file, its content decoded
    | DecodeFailure(detail: string)          // the base64/UTF-8 decoding raised
    | NotAFile                               // a JSON object whose type is not "file"
    | HttpStatus(code: int, text: string)    // any status but 200
    | Unhandled(detail: string)              // the request raised, or the body was no JSON object

  /** `get_github_sha_and_content`: the sha and the text handed back; every
      failure is reported in the text, with an empty sha. */
  function ShaAndContent(path: string, f: Fetch): (r: (string, string))
    ensures f.FileBody? ==> r == (f.sha, f.content)
    ensures !f.FileBody? ==> r.0 == ""
    ensures f.NotAFile? ==> r.1 == "Path '" + path + "' is not a file."
    ensures !f.FileBody? && !f.NotAFile? ==> StartsWith(r.1, "[")
  {
    match f
    case FileBody(sha, content) => (sha, content)
    case DecodeFailure(d) => ("", "[decode error]: " + d)
    case NotAFile => ("", "Path '" + path + "' is not a file.")
    case HttpStatus(code, text) => ("", "[" + IntToStr(code) + "] " + text)
    case Unhandled(d) => ("", "[exception] " + d)
  }

  /** What `get_file_tool` returns for the text it fetched. */
  function FileAnswer(content: string): (answer: string)
    ensures answer == content <==> content != "" && content[0] != '['
    ensures answer != content ==> answer == "Error: " + content
  {
    if content != "" && content[0] != '[' then content else "Error: " + content
  }

  /** Every failed fetch other than "not a file" is answered as an error;
      so is a file that is empty or whose text starts with '['. */
  lemma FileAnswerFailures(path: string, f: Fetch)
    ensures !f.FileBody? && !f.NotAFile? ==>
      FileAnswer(ShaAndContent(path, f).1) == "Error: " + ShaAndContent(path, f).1
    ensures f.NotAFile? ==> FileAnswer(ShaAndContent(path, f).1) == "Path '" + path + "' is not a file."
    ensures f.FileBody? && (f.content == "" || f.content[0] == '[') ==>
      FileAnswer(ShaAndContent(path, f).1) == "Error: " + f.content
  {
    if !f.FileBody? && !f.NotAFile? {
      var c := ShaAndContent(path, f).1;
      assert c[0] == '[';
    }
  }

  /** The four fields of a `get_file` input, trimmed. */
  datatype FileRequest = FileRequest(owner: string, repo: string, path: string, branch: string)

  /** The request read from the `|`-fields of a `get_file` input: exactly
      three fields and an `owner/repo` of exactly two names, else the
      unpacking error. */
  function FileRequestOf(fields: seq<string>): (r: Parse<FileRequest>)
    ensures r.Fail? ==> r.error.Unpack? && r.error.got != r.error.expected
    ensures r.Fail? && r.error.expected == 3 <==> |fields| != 3
    ensures r.Ok? ==> Unpadded(r.value.owner, QuotesAndBlanks) && Unpadded(r.value.repo, QuotesAndBlanks)
    ensures r.Ok? ==> Unpadded(r.value.path, QuotesAndBlanks) && Unpadded(r.value.branch, QuotesAndBlanks)
  {
    if |fields| != 3 then Fail(Unpack(3, |fields|))
    else
      var pieces := Split(fields[0], "/");
      if |pieces| != 2 then Fail(Unpack(2, |pieces|))
      else
        StripLeavesUnpadded(pieces[0], QuotesAndBlanks);
        StripLeavesUnpadded(pieces[1], QuotesAndBlanks);
        StripLeavesUnpadded(fields[1], QuotesAndBlanks);
        StripLeavesUnpadded(StripWs(fields[2]), QuotesAndBlanks);
        Ok(FileRequest(
          Strip(pieces[0], QuotesAndBlanks), Strip(pieces[1], QuotesAndBlanks),
          Strip(fields[1], QuotesAndBlanks), Strip(StripWs(fields[2]), QuotesAndBlanks)))
  }

  /** The parsing of a `get_file` input. */
  function ParseFileRequest(input: string): Parse<FileRequest> {
    FileRequestOf(Split(input, "|"))
  }

  /** Well-formed fields give the request field for field. */
  lemma FileRequestOfWellFormed(owner: string, repo: string, fields: seq<string>)
    requires Name(owner) && Name(repo) && |fields| == 3 && fields[0] == owner + "/" + repo
    requires Token(fields[1]) && Token(fields[2])
    ensures FileRequestOf(fields) == Ok(FileRequest(owner, repo, fields[1], fields[2]))
  {
    RepoField(owner, repo);
    NameToken(owner);
    NameToken(repo);
    StripToken(owner, QuotesAndBlanks);
    StripToken(repo, QuotesAndBlanks);
    StripToken(fields[1], QuotesAndBlanks);
    StripToken(fields[2], QuotesAndBlanks);
  }

  /** An input is read through its `|`-fields. */
  lemma FileRequestJoined(fields: seq<string>)
    requires |fields| >= 1 && forall i :: 0 <= i < |fields| ==> '|' !in fields[i]
    ensures ParseFileRequest(Join("|", fields)) == FileRequestOf(fields)
  {
    assert forall p :: p in fields ==> '|' !in p;
    SplitJoin(fields, "|");
  }

  /** The key a fetched file is cached under: the branch is not part of it. */
  function CacheKey(req: FileRequest): string {
    req.owner + "/" + req.repo + "/" + req.path
  }

  /** One cache entry. */
  datatype CacheEntry = CacheEntry(content: string, sha: string)

  /** The stand-in for the HTTP request: owner, repository, path, branch. */
  type Fetcher = (string, string, string, string) -> Fetch

  /** The sha and text fetched for a request: path and branch are trimmed
      of white space once more on the way out. */
  function Fetched(req: FileRequest, fetch: Fetcher): (string, string) {
    var p := StripWs(req.path);
    ShaAndContent(p, fetch(req.owner, req.repo, p, StripWs(req.branch)))
  }

  /** The cache after one call: unchanged when the input did not parse,
      otherwise with the fetched text and sha stored under the request's
      key, whatever was there before. */
  function CacheAfter(cache: map<string, CacheEntry>, parsed: Parse<FileRequest>, fetch: Fetcher)
    : (after: map<string, CacheEntry>)
    ensures parsed.Fail? ==> after == cache
    ensures parsed.Ok? ==> after.Keys == cache.Keys + {CacheKey(parsed.value)}
    ensures parsed.Ok? ==> after[CacheKey(parsed.value)].content == Fetched(parsed.value, fetch).1
    ensures forall k :: k in cache && (parsed.Fail? || k != CacheKey(parsed.value)) ==> after[k] == cache[k]
  {
    if parsed.Fail? then cache
    else cache[CacheKey(parsed.value) := FetchedEntry(parsed.value, fetch)]
  }

  /** The cache entry a parsed request stores: the fetched text and sha. */
  function FetchedEntry(req: FileRequest, fetch: Fetcher): (e: CacheEntry)
    ensures e.content == Fetched(req, fetch).1 && e.sha == Fetched(req, fetch).0
  {
    CacheEntry(Fetched(req, fetch).1, Fetched(req, fetch).0)
  }

  /** What `get_file_tool` answers. */
  function FileOutcome(parsed: Parse<FileRequest>, fetch: Fetcher): (r: Outcome)
    ensures r.Raised? <==> parsed.Fail?
    ensures r.Raised? ==> r == Raised("Error: ", parsed.error)
    ensures r.Reply? ==> r.text == FileAnswer(Fetched(parsed.value, fetch).1)
  {
    match parsed
    case Fail(e) => Raised("Error: ", e)
    case Ok(req) => Reply(FileAnswer(Fetched(req, fetch).1))
  }

  /** Two reads of the same path on different branches share one cache
      entry: the later read's text replaces the earlier one. */
  lemma CacheIgnoresBranch(owner: string, repo: string, path: string, b1: string, b2: string,
                           cache: map<string, CacheEntry>, fetch: Fetcher)
    requires Name(owner) && Name(repo) && Token(path) && Token(b1) && Token(b2)
    ensures var r1 := FileRequest(owner, repo, path, b1);
      var r2 := FileRequest(owner, repo, path, b2);
      var after := CacheAfter(CacheAfter(cache, Ok(r1), fetch), Ok(r2), fetch);
      && after.Keys == cache.Keys + {owner + "/" + repo + "/" + path}
      && after[owner + "/" + repo + "/" + path] ==
           CacheEntry(ShaAndContent(path, fetch(owner, repo, path, b2)).1,
                      ShaAndContent(path, fetch(owner, repo, path, b2)).0)
  {
    StripToken(path, Whitespace);
    StripToken(b2, Whitespace);
  }

  /** The module-level `file_cache` the wrapper writes every fetch into. */
  class FileCache {
    var entries: map<string, CacheEntry>

    constructor()
      ensures entries == map[]
    {
      entries := map[];
    }

    /** `get_file_tool`: parse, fetch, store under owner/repo/path, answer. */
    method GetFile(input: string, fetch: Fetcher) returns (r: Outcome)
      modifies this
      ensures r == FileOutcome(ParseFileRequest(input), fetch)
      ensures entries == CacheAfter(old(entries), ParseFileRequest(input), fetch)
    {
      var parsed := ParseFileRequest(input);
      match parsed
      case Fail(e) =>
        r := Raised("Error: ", e);
      case Ok(req) =>
        r := FetchAndStore(req, fetch);
    }

    /** The fetch of a parsed request: the text and sha are stored under
        owner/repo/path, and the text is the answer unless it is empty or
        an error list. */
    method FetchAndStore(req: FileRequest, fetch: Fetcher) returns (r: Outcome)
      modifies this
      ensures r == Reply(FileAnswer(Fetched(req, fetch).1))
      ensures entries == old(entries)[CacheKey(req) := FetchedEntry(req, fetch)]
    {
      var path := StripWs(req.path);
      var fetched := ShaAndContent(path, fetch(req.owner, req.repo, path, StripWs(req.branch)));
      assert fetched == Fetched(req, fetch);
      var sha, content := fetched.0, fetched.1;
      assert CacheEntry(content, sha) == FetchedEntry(req, fetch);
      entries := entries[req.owner + "/" + req.repo + "/" + req.path := CacheEntry(content, sha)];
      if content != "" && content[0] != '[' {
        r := Reply(content);
      } else {
        r := Reply("Error: " + content);
      }
      assert r == Reply(FileAnswer(content));
    }
  }

  // ---------------------------------------------------------------------
  // push_multiple_files: 'owner/repo|branch|message|path:::content###...'
  // ---------------------------------------------------------------------

  const PushFormatError: string := "Error: Input must contain exactly four parts separated by '|'"

  /** The answer to a file entry without a `:::` separator. */
  function BadEntryError(segment: string): string {
    "Error: Invalid file entry '" + segment + "'. Expected format: path:::content"
  }

  /** One `path:::content` entry, cut at the first `:::` only: the path
      is the trimmed text before it, the content everything after it. */
  function FileEntryOf(segment: string): FileEntry
    requires Contains(segment, ":::")
  {
    var i := Find(segment, ":::").value;
    FileEntry(StripWs(segment[..i]), segment[i + 3..])
  }

  /** The entry is the segment split once at `:::`, the first half trimmed. */
  lemma FileEntrySplit(segment: string)
    requires Contains(segment, ":::")
    ensures var halves := SplitN(segment, ":::", 1);
      |halves| == 2 && FileEntryOf(segment) == FileEntry(StripWs(halves[0]), halves[1])
  {
    var i := Find(segment, ":::").value;
    assert SplitN(segment, ":::", 1) == [segment[..i]] + SplitN(segment[i + 3..], ":::", 0);
  }

  /** The entries of a push, or the first one without a separator. */
  datatype FilesParse = FilesOk(files: seq<FileEntry>) | BadEntry(segment: string)

  /** The file entries of the `###`-separated segments. */
  function ParseFiles(segments: seq<string>): (r: FilesParse)
    ensures r.FilesOk? ==> |r.files| == |segments|
    ensures r.BadEntry? ==> r.segment in segments && !Contains(r.segment, ":::")
    decreases |segments|
  {
    if segments == [] then FilesOk([])
    else if !Contains(segments[0], ":::") then BadEntry(segments[0])
    else match ParseFiles(segments[1..])
      case BadEntry(s) => BadEntry(s)
      case FilesOk(rest) => FilesOk([FileEntryOf(segments[0])] + rest)
  }

  /** When every segment has a separator, each is read as its entry. */
  lemma {:induction false} ParseFilesOk(segments: seq<string>)
    requires forall i :: 0 <= i < |segments| ==> Contains(segments[i], ":::")
    ensures ParseFiles(segments).FilesOk?
    ensures forall i :: 0 <= i < |segments| ==> ParseFiles(segments).files[i] == FileEntryOf(segments[i])
    decreases |segments|
  {
    if segments != [] {
      var rest := segments[1..];
      assert forall i :: 0 <= i < |rest| ==> rest[i] == segments[i + 1];
      ParseFilesOk(rest);
    }
  }

  /** The segment a parse fails on is the first one without a separator. */
  lemma {:induction false} BadEntryIsFirst(segments: seq<string>, i: nat)
    requires i < |segments| && !Contains(segments[i], ":::")
    requires forall j :: 0 <= j < i ==> Contains(segments[j], ":::")
    ensures ParseFiles(segments) == BadEntry(segments[i])
    decreases i
  {
    if i > 0 {
      var rest := segments[1..];
      assert forall j :: 0 <= j < i - 1 ==> rest[j] == segments[j + 1];
      assert rest[i - 1] == segments[i];
      BadEntryIsFirst(rest, i - 1);
    }
  }

  /** The request `push_files_tool` sends for the pieces of its input
      cut at the first three `|`, or why it sends none. */
  function PushOf(parts: seq<string>): (r: Outcome)
    ensures !r.Raised?
    ensures r.Call? ==> r.tool == "push_files" && r.payload.Keys == {"owner", "repo", "branch", "message", "files"}
    ensures r.Call? ==> |parts| == 4 && r.payload["branch"] == Str(parts[1]) && r.payload["message"] == Str(parts[2])
    ensures r.Call? ==> r.payload["files"].Files? && |r.payload["files"].files| >= 1
  {
    if |parts| != 4 then Reply(PushFormatError)
    else
      var pieces := Split(parts[0], "/");
      if |pieces| != 2 then Reply(PushFormatError)
      else match ParseFiles(Split(parts[3], "###"))
        case BadEntry(f) => Reply(BadEntryError(f))
        case FilesOk(files) =>
          Call("push_files", PushPayload(pieces[0], pieces[1], parts[1], parts[2], files))
  }

  /** The body of a `push_files` request. */
  function PushPayload(owner: string, repo: string, branch: string, message: string, files: seq<FileEntry>)
    : (p: Payload)
    ensures p.Keys == {"owner", "repo", "branch", "message", "files"}
    ensures p["owner"] == Str(owner) && p["repo"] == Str(repo)
    ensures p["branch"] == Str(branch) && p["message"] == Str(message) && p["files"] == Files(files)
  {
    map["owner" := Str(owner), "repo" := Str(repo), "branch" := Str(branch),
        "message" := Str(message), "files" := Files(files)]
  }

  /** The request `push_files_tool` sends, or why it sends none.
      It only composes the field split with `PushOf`. */
  function PushRequest(input: string): (r: Outcome) {
    PushOf(SplitN(input, "|", 3))
  }

  /** The loop over the `###` segments, stopping at the first bad one. */
  method CollectFiles(segments: seq<string>) returns (r: FilesParse)
    ensures r == ParseFiles(segments)
  {
    var files: seq<FileEntry> := [];
    for i := 0 to |segments|
      invariant |files| == i
      invariant forall j :: 0 <= j < i ==> Contains(segments[j], ":::")
      invariant forall j :: 0 <= j < i ==> files[j] == FileEntryOf(segments[j])
    {
      var f := segments[i];
      if !Contains(f, ":::") {
        BadEntryIsFirst(segments, i);
        return BadEntry(f);
      }
      files := files + [FileEntryOf(f)];
    }
    ParseFilesOk(segments);
    assert files == ParseFiles(segments).files;
    r := FilesOk(files);
  }

  /** `push_files_tool` up to the `call_mcp` call. */
  method PushFiles(input: string) returns (r: Outcome)
    ensures r == PushRequest(input)
  {
    var parts := SplitN(input, "|", 3);
    if |parts| != 4 {
      return Reply(PushFormatError);
    }
    var pieces := Split(parts[0], "/");
    if |pieces| != 2 {
      return Reply(PushFormatError);
    }
    var parsed := CollectFiles(Split(parts[3], "###"));
    match parsed
    case BadEntry(f) =>
      r := Reply(BadEntryError(f));
    case FilesOk(files) =>
      r := Call("push_files", PushPayload(pieces[0], pieces[1], parts[1], parts[2], files));
  }

  /** A file entry as the input format writes it. */
  function EntryText(e: FileEntry): string {
    e.path + ":::" + e.content
  }

  /** An entry whose path has no colon, no hash and nothing to trim, and
      whose content has no hash, reads back as itself. */
  predicate Pushable(e: FileEntry) {
    ':' !in e.path && '#' !in e.path && '#' !in e.content && Unpadded(e.path, Whitespace)
  }

  /** One entry reads back. */
  lemma EntryRoundTrip(e: FileEntry)
    requires Pushable(e)
    ensures Contains(EntryText(e), ":::") && FileEntryOf(EntryText(e)) == e
  {
    EntryOfParts(e.path, e.content);
    StripWsUnpadded(e.path);
  }

  /** A segment is cut at the `:::` after a colon-free path. */
  lemma EntryOfParts(path: string, content: string)
    requires ':' !in path
    ensures Contains(path + ":::" + content, ":::")
    ensures FileEntryOf(path + ":::" + content) == FileEntry(StripWs(path), content)
  {
    var s := path + ":::" + content;
    FindAfterFree(path, ":::", content);
    assert s[..|path|] == path;
    assert s[|path| + 3..] == content;
  }

  /** The entries as the input format writes them, one per segment. */
  function EntryTexts(files: seq<FileEntry>): (texts: seq<string>)
    ensures |texts| == |files| && forall i :: 0 <= i < |files| ==> texts[i] == EntryText(files[i])
  {
    seq(|files|, i requires 0 <= i < |files| => EntryText(files[i]))
  }

  /** The file blob of a push: the entries joined with `###`. */
  function Blob(files: seq<FileEntry>): string {
    Join("###", EntryTexts(files))
  }

  /** The `###`-joined entries read back as the same entries. */
  lemma EntriesRoundTrip(files: seq<FileEntry>)
    requires |files| >= 1 && forall i :: 0 <= i < |files| ==> Pushable(files[i])
    ensures ParseFiles(Split(Blob(files), "###")) == FilesOk(files)
  {
    var texts := EntryTexts(files);
    forall t | t in texts
      ensures '#' !in t
    {
      var i :| 0 <= i < |texts| && texts[i] == t;
      assert t == files[i].path + ":::" + files[i].content;
    }
    SplitJoin(texts, "###");
    forall i | 0 <= i < |files|
      ensures Contains(texts[i], ":::") && FileEntryOf(texts[i]) == files[i]
    {
      EntryRoundTrip(files[i]);
    }
    ParseFilesOk(texts);
    assert ParseFiles(texts).files == files;
  }

  /** An input is read through its pieces cut at the first three `|`:
      the file blob after them may itself hold `|`. */
  lemma PushJoined(parts: seq<string>)
    requires |parts| == 4 && '|' !in parts[0] && '|' !in parts[1] && '|' !in parts[2]
    ensures PushRequest(Join("|", parts)) == PushOf(parts)
  {
    assert forall i :: 0 <= i < 3 ==> "|"[0] !in parts[i];
    SplitNJoin(parts, "|", 3);
  }

  /** Well-formed pieces give the push of exactly the entries written. */
  lemma PushRoundTrip(owner: string, repo: string, parts: seq<string>, files: seq<FileEntry>)
    requires '/' !in owner && '/' !in repo
    requires |parts| == 4 && parts[0] == owner + "/" + repo && parts[3] == Blob(files)
    requires |files| >= 1 && forall i :: 0 <= i < |files| ==> Pushable(files[i])
    ensures PushOf(parts) == Call("push_files", map[
      "owner" := Str(owner), "repo" := Str(repo), "branch" := Str(parts[1]),
      "message" := Str(parts[2]), "files" := Files(files)])
  {
    SplitRepo(owner, repo);
    EntriesRoundTrip(files);
  }

  /** A blob segment without `:::` is reported as the invalid entry. */
  lemma PushReportsBadEntry(owner: string, repo: string, parts: seq<string>)
    requires '/' !in owner && '/' !in repo
    requires |parts| == 4 && parts[0] == owner + "/" + repo
    requires '#' !in parts[3] && ':' !in parts[3]
    ensures PushOf(parts) == Reply(BadEntryError(parts[3]))
  {
    SplitRepo(owner, repo);
    SplitSingle(parts[3], "###", 0);
    ContainsChar(parts[3], ':');
    FindAbsent(parts[3], ":::");
    BadEntryIsFirst([parts[3]], 0);
  }

  // ---------------------------------------------------------------------
  // create_repository: 'repo_name|description|private|autoInit'
  // ---------------------------------------------------------------------

  /** The request `create_repository_tool` sends for the fields of its
      input: it always sends one. A flag is set by "true" in any letter
      case, and a missing flag means true; fields past the fourth are
      ignored. */
  function RepositoryOf(parts: seq<string>): (r: Outcome)
    requires |parts| >= 1
    ensures r.Call? && r.tool == "create_repository"
    ensures r.payload.Keys == {"name", "description", "private", "autoInit"}
    ensures r.payload["name"] == Str(parts[0]) && r.payload["description"] == Str(FieldOr(parts, 1, ""))
    ensures r.payload["private"].Bool? && (r.payload["private"].b <==> |parts| <= 2 || Lower(parts[2]) == "true")
    ensures r.payload["autoInit"].Bool? && (r.payload["autoInit"].b <==> |parts| <= 3 || Lower(parts[3]) == "true")
  {
    Call("create_repository", map[
      "name" := Str(parts[0]),
      "description" := Str(FieldOr(parts, 1, "")),
      "private" := Bool(if |parts| > 2 then IsTrue(parts[2]) else true),
      "autoInit" := Bool(if |parts| > 3 then IsTrue(parts[3]) else true)])
  }

  /** `create_repository_tool` up to the `call_mcp` call.
      It only composes the field split with `RepositoryOf`. */
  function RepositoryRequest(input: string): (r: Outcome) {
    RepositoryOf(Split(input, "|"))
  }

  /** An input is read through its `|`-fields. */
  lemma RepositoryJoined(fields: seq<string>)
    requires |fields| >= 1 && forall i :: 0 <= i < |fields| ==> '|' !in fields[i]
    ensures RepositoryRequest(Join("|", fields)) == RepositoryOf(fields)
  {
    assert forall p :: p in fields ==> '|' !in p;
    SplitJoin(fields, "|");
  }

  /** A bare name creates a private, initialised repository without a
      description. */
  lemma RepositoryDefaults(name: string)
    requires '|' !in name
    ensures RepositoryRequest(name) == Call("create_repository", map[
      "name" := Str(name), "description" := Str(""),
      "private" := Bool(true), "autoInit" := Bool(true)])
  {
    SplitSingle(name, "|", 0);
  }

  // ---------------------------------------------------------------------
  // create_branch: 'owner/repo|new_branch|from_branch'
  // ---------------------------------------------------------------------

  const BranchFormatError: string := "Error: Invalid input. Format: 'owner/repo|new_branch|from_branch'"
  const BranchPrefix: string := "Exception during create_branch: "

  /** The request `create_branch_tool` sends, or why it sends none. */
  function BranchRequest(input: string): (r: Outcome)
    ensures r.Reply? <==> '|' !in input
    ensures r.Reply? ==> r.text == BranchFormatError
    ensures r.Raised? ==> r.prefix == BranchPrefix && r.error.Unpack? && r.error.expected == 2 && r.error.got != 2
    ensures r.Call? ==> r.tool == "create_branch" && r.payload.Keys == {"owner", "repo", "branch", "from_branch"}
  {
    var parts := Split(input, "|");
    SplitCount(input, "|");
    ContainsChar(input, '|');
    if |parts| < 2 then Reply(BranchFormatError)
    else
      var pieces := Split(parts[0], "/");
      if |pieces| != 2 then Raised(BranchPrefix, Unpack(2, |pieces|))
      else Call("create_branch", map[
        "owner" := Str(pieces[0]), "repo" := Str(pieces[1]),
        "branch" := Str(parts[1]), "from_branch" := Str(FieldOr(parts, 2, "main"))])
  }

  /** The fields read back, the source branch defaulting to "main". */
  lemma BranchFields(owner: string, repo: string, fields: seq<string>)
    requires '/' !in owner && '/' !in repo
    requires |fields| >= 2 && fields[0] == owner + "/" + repo
    requires forall i :: 0 <= i < |fields| ==> '|' !in fields[i]
    ensures BranchRequest(Join("|", fields)) == Call("create_branch", map[
      "owner" := Str(owner), "repo" := Str(repo),
      "branch" := Str(fields[1]), "from_branch" := Str(FieldOr(fields, 2, "main"))])
  {
    SplitJoin(fields, "|");
    SplitRepo(owner, repo);
  }
}
