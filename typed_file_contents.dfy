/**
 * The keyword-argument `get_file_contents` tool: it normalises the path and
 * the git ref, builds the payload, and reads the server's answer as a file
 * body, a directory listing or an error.
 */
module TypedFileContents {
  import opened PyStr
  import opened ToolPayload

  // ---------------------------------------------------------------------
  // Path and ref normalisation
  // ---------------------------------------------------------------------

  /** `_normalize_path`: a missing or blank path is the repository root;
      any other path is passed on as given, not trimmed. */
  function NormalizePath(path: Option<string>): (r: string)
    ensures path.None? || StripWs(path.value) == "" ==> r == "/"
    ensures path.Some? && StripWs(path.value) != "" ==> r == path.value
  {
    if path.None? || StripWs(path.value) == "" then "/" else path.value
  }

  /** The root path has nothing to trim. */
  lemma RootUnpadded()
    ensures StripWs("/") == "/"
  {
    assert '/' !in Whitespace;
    assert Unpadded("/", Whitespace);
    StripUnpadded("/", Whitespace);
  }

  /** The normalised path is never blank, and normalising it again changes
      nothing. */
  lemma NormalizePathIdempotent(path: Option<string>)
    ensures StripWs(NormalizePath(path)) != ""
    ensures NormalizePath(Some(NormalizePath(path))) == NormalizePath(path)
  {
    if path.None? || StripWs(path.value) == "" {
      RootUnpadded();
    }
  }

  predicate IsHexDigit(c: char) {
    ('0' <= c <= '9') || ('a' <= c <= 'f') || ('A' <= c <= 'F')
  }

  /** `_REF_SHA.fullmatch(r)`: 7 to 40 hexadecimal digits, either case. */
  predicate IsSha(r: string) {
    7 <= |r| <= 40 && forall i :: 0 <= i < |r| ==> IsHexDigit(r[i])
  }

  /** `_normalize_ref`: a missing or blank ref lets the server choose; a
      commit SHA is kept; anything else becomes a full `refs/` name. */
  function NormalizeRef(ref: Option<string>): (r: Option<string>)
    ensures r.None? <==> ref.None? || StripWs(ref.value) == ""
  {
    if ref.None? || StripWs(ref.value) == "" then None
    else
      var t := StripWs(ref.value);
      if IsSha(t) then Some(t)
      else if StartsWith(t, "refs/") then Some(t)
      else if StartsWith(t, "heads/") then Some("refs/" + t)
      else Some("refs/heads/" + t)
  }

  /** Every normalised ref is a commit SHA or a full `refs/` name, and is
      made of the trimmed input: kept, or behind `refs/` or `refs/heads/`. */
  lemma NormalizeRefShape(ref: Option<string>)
    requires ref.Some? && StripWs(ref.value) != ""
    ensures var t := StripWs(ref.value); var r := NormalizeRef(ref).value;
      && (IsSha(r) || StartsWith(r, "refs/"))
      && (r == t || r == "refs/" + t || r == "refs/heads/" + t)
      && (IsSha(t) || StartsWith(t, "refs/") <==> r == t)
      && (!IsSha(t) && !StartsWith(t, "refs/") && StartsWith(t, "heads/") <==> r == "refs/" + t)
  {
    var t := StripWs(ref.value);
    var r := NormalizeRef(ref).value;
    if r == "refs/" + t {
      assert r[..5] == "refs/";
    } else if r == "refs/heads/" + t {
      assert r[..5] == "refs/";
    }
  }

  /** A text that starts with `r` is not a SHA. */
  lemma RefsNotSha(s: string)
    requires StartsWith(s, "refs/")
    ensures !IsSha(s)
  {
    assert s[0] == 'r';
  }

  /** A prefix of plain letters in front of an unpadded text keeps it
      unpadded. */
  lemma PrefixedUnpadded(p: string, t: string)
    requires |p| > 0 && p[0] == 'r' && t != [] && Unpadded(t, Whitespace)
    ensures Unpadded(p + t, Whitespace)
  {
    var s := p + t;
    assert s[|s| - 1] == t[|t| - 1];
  }

  /** A trimmed SHA or `refs/` name is its own normal form. */
  lemma NormalFormFixed(t: string)
    requires t != "" && Unpadded(t, Whitespace)
    requires IsSha(t) || StartsWith(t, "refs/")
    ensures NormalizeRef(Some(t)) == Some(t)
  {
    StripUnpadded(t, Whitespace);
  }

  /** The normalised ref is trimmed already. */
  lemma NormalizedUnpadded(ref: Option<string>)
    requires ref.Some? && StripWs(ref.value) != ""
    ensures Unpadded(NormalizeRef(ref).value, Whitespace)
  {
    var t := StripWs(ref.value);
    StripLeavesUnpadded(ref.value, Whitespace);
    var r := NormalizeRef(ref).value;
    NormalizeRefShape(ref);
    if r == "refs/" + t {
      PrefixedUnpadded("refs/", t);
    } else if r == "refs/heads/" + t {
      PrefixedUnpadded("refs/heads/", t);
    }
  }

  /** Normalising a ref twice is normalising it once. */
  lemma NormalizeRefIdempotent(ref: Option<string>)
    ensures NormalizeRef(NormalizeRef(ref)) == NormalizeRef(ref)
  {
    if ref.Some? && StripWs(ref.value) != "" {
      NormalizeRefShape(ref);
      NormalizedUnpadded(ref);
      NormalFormFixed(NormalizeRef(ref).value);
    }
  }

  // ---------------------------------------------------------------------
  // Reading the content array
  // ---------------------------------------------------------------------

  /** `isinstance(c, dict) and c.get("type") == "text" and "text" in c`. */
  predicate IsTextChunk(c: Json) {
    c.JObj? && "type" in c.fields && c.fields["type"] == JStr("text") && "text" in c.fields
  }

  /** `_first_text_chunk`: the `text` of the first text item. */
  function FirstTextChunk(content: seq<Json>): (r: Option<Json>)
    ensures r.None? <==> forall i :: 0 <= i < |content| ==> !IsTextChunk(content[i])
    ensures r.Some? ==> exists i ::
      && 0 <= i < |content| && IsTextChunk(content[i])
      && r.value == content[i].fields["text"]
      && (forall j :: 0 <= j < i ==> !IsTextChunk(content[j]))
    decreases |content|
  {
    if content == [] then None
    else if IsTextChunk(content[0]) then Some(content[0].fields["text"])
    else
      var r := FirstTextChunk(content[1..]);
      if r.Some? then
        var i :| 0 <= i < |content[1..]| && IsTextChunk(content[1..][i])
          && r.value == content[1..][i].fields["text"]
          && forall j :: 0 <= j < i ==> !IsTextChunk(content[1..][j]);
        assert IsTextChunk(content[i + 1]) && forall j :: 0 <= j < i + 1 ==> !IsTextChunk(content[j]);
        r
      else r
  }

  /** The string body of a `resource` item: `(c.get("resource") or {})`
      is a dict whose `text` is a string. */
  function ResourceText(c: Json): Option<string> {
    if c.JObj? && "type" in c.fields && c.fields["type"] == JStr("resource")
      && "resource" in c.fields && c.fields["resource"].JObj?
      && "text" in c.fields["resource"].fields && c.fields["resource"].fields["text"].JStr?
    then Some(c.fields["resource"].fields["text"].s)
    else None
  }

  /** The first resource body of the content array. */
  function FirstResourceText(content: seq<Json>): (r: Option<string>)
    ensures r.None? <==> forall i :: 0 <= i < |content| ==> ResourceText(content[i]).None?
    ensures r.Some? ==> exists i ::
      && 0 <= i < |content| && ResourceText(content[i]) == r
      && (forall j :: 0 <= j < i ==> ResourceText(content[j]).None?)
    decreases |content|
  {
    if content == [] then None
    else if ResourceText(content[0]).Some? then ResourceText(content[0])
    else
      var r := FirstResourceText(content[1..]);
      if r.Some? then
        var i :| 0 <= i < |content[1..]| && ResourceText(content[1..][i]) == r
          && forall j :: 0 <= j < i ==> ResourceText(content[1..][j]).None?;
        assert ResourceText(content[i + 1]) == r && forall j :: 0 <= j < i + 1 ==> ResourceText(content[j]).None?;
        r
      else r
  }

  /** `_extract_payload_text`: the first resource body, else the first
      text chunk. */
  function ExtractPayloadText(content: seq<Json>): Option<Json> {
    match FirstResourceText(content)
    case Some(t) => Some(JStr(t))
    case None => FirstTextChunk(content)
  }

  /** The first resource body is the payload text, whatever text chunks
      come before it. */
  lemma ResourceBeatsText(content: seq<Json>, i: nat)
    requires i < |content| && ResourceText(content[i]).Some?
    requires forall j :: 0 <= j < i ==> ResourceText(content[j]).None?
    ensures ExtractPayloadText(content) == Some(JStr(ResourceText(content[i]).value))
  {
    var r := FirstResourceText(content);
    var k :| 0 <= k < |content| && ResourceText(content[k]) == r
      && (forall j :: 0 <= j < k ==> ResourceText(content[j]).None?);
    assert k == i;
  }

  /** Without resource items the payload text is the first text chunk. */
  lemma TextChunkFallback(content: seq<Json>)
    requires forall i :: 0 <= i < |content| ==> ResourceText(content[i]).None?
    ensures ExtractPayloadText(content) == FirstTextChunk(content)
  {
  }

  // ---------------------------------------------------------------------
  // The tool
  // ---------------------------------------------------------------------

  /** The payload of `get_file_contents_tool`, with `ref` added only when
      the normalised ref exists. */
  method BuildPayload(owner: string, repo: string, path: Option<string>, ref: Option<string>) returns (payload: Payload)
    ensures "owner" in payload && payload["owner"] == Str(owner)
    ensures "repo" in payload && payload["repo"] == Str(repo)
    ensures "path" in payload && payload["path"] == Str(NormalizePath(path))
    ensures "ref" in payload <==> NormalizeRef(ref).Some?
    ensures "ref" in payload ==> payload["ref"] == Str(NormalizeRef(ref).value)
    ensures payload.Keys <= {"owner", "repo", "path", "ref"}
  {
    var normPath := NormalizePath(path);
    var normRef := NormalizeRef(ref);
    payload := map["owner" := Str(owner), "repo" := Str(repo), "path" := Str(normPath)];
    assert "ref" !in payload by {
      assert "ref"[0] != "owner"[0] && "ref"[0] != "path"[0] && "ref"[2] != "repo"[2];
    }
    if normRef.Some? {
      payload := payload["ref" := Str(normRef.value)];
    }
  }

  /** The path a listing entry contributes: the `path` string of a dict, or
      the entry itself when it is a string. */
  function EntryPath(e: Json): Option<string> {
    if e.JObj? && "path" in e.fields && e.fields["path"].JStr? then Some(e.fields["path"].s)
    else if e.JStr? then Some(e.s)
    else None
  }

  /** The paths of a directory listing, in order. */
  function ListingPaths(entries: seq<Json>): (paths: seq<string>)
    ensures |paths| <= |entries|
    decreases |entries|
  {
    if entries == [] then []
    else (match EntryPath(entries[0]) case Some(p) => [p] case None => []) + ListingPaths(entries[1..])
  }

  /** The listing of a concatenation is the concatenation of the listings. */
  lemma {:induction false} ListingPathsAppend(a: seq<Json>, b: seq<Json>)
    ensures ListingPaths(a + b) == ListingPaths(a) + ListingPaths(b)
    decreases |a|
  {
    if a == [] {
      assert a + b == b;
    } else {
      assert (a + b)[0] == a[0];
      assert (a + b)[1..] == a[1..] + b;
      ListingPathsAppend(a[1..], b);
    }
  }

  /** The listing is empty exactly when no entry carries a path. */
  lemma {:induction false} ListingPathsEmpty(entries: seq<Json>)
    ensures ListingPaths(entries) == [] <==> forall i :: 0 <= i < |entries| ==> EntryPath(entries[i]).None?
    decreases |entries|
  {
    if entries != [] {
      ListingPathsEmpty(entries[1..]);
      if EntryPath(entries[0]).None? {
        assert forall i :: 1 <= i < |entries| ==> entries[i] == entries[1..][i - 1];
      }
    }
  }

  /** The `for e in parsed` loop that collects the listing's paths. */
  method CollectPaths(entries: seq<Json>) returns (paths: seq<string>)
    ensures paths == ListingPaths(entries)
  {
    paths := [];
    for i := 0 to |entries|
      invariant paths == ListingPaths(entries[..i])
    {
      var e := entries[i];
      ListingPathsAppend(entries[..i], [e]);
      assert entries[..i + 1] == entries[..i] + [e];
      assert ListingPaths([e]) == (match EntryPath(e) case Some(p) => [p] case None => []);
      if e.JObj? && "path" in e.fields && e.fields["path"].JStr? {
        paths := paths + [e.fields["path"].s];
      } else if e.JStr? {
        paths := paths + [e.s];
      }
    }
    assert entries[..|entries|] == entries;
  }

  /** What the tool answers: a file body, the value of a `content` field,
      a list of paths, or a raised error. A domain error carries the value
      whose `str()` follows `MCP domain error: `. */
  datatype Answer =
    | Text(body: string)
    | Value(value: Json)
    | Paths(paths: seq<string>)
    | TransportError
    | DomainError(message: Json)
    | BadListing
    | UnexpectedContent
    | Crash

  /** The domain-error test: the server's flag, or a status text that
      mentions an error or an exception in any case. */
  predicate FlagsError(isError: bool, status: string) {
    isError || Contains(Lower(status), "exception") || Contains(Lower(status), "error")
  }

  /** Reading the decoded text `raw` once the error test has passed:
      `parse` is `json.loads` (None for a decode error) and `b64` is the
      base64-and-UTF-8 decoding (None when it raises). */
  function ReadBody(raw: string, parse: string -> Option<Json>, b64: Json -> Option<string>): (a: Answer)
    ensures raw != "" && parse(raw).None? ==> a == Text(raw)
    ensures a.Paths? ==> a.paths != []
    ensures !a.DomainError? && a != Crash && a != TransportError
  {
    var parsed := if raw == "" then Some(JNull) else parse(raw);
    if parsed.None? then Text(raw)
    else match parsed.value
      case JList(entries) =>
        var paths := ListingPaths(entries);
        if paths != [] then Paths(paths) else BadListing
      case JObj(f) =>
        if "type" in f && f["type"] == JStr("file") then
          var contentStr := if "content" in f then f["content"] else JStr("");
          if "encoding" in f && f["encoding"] == JStr("base64") then
            match b64(contentStr)
            case Some(text) => Text(text)
            case None => Value(contentStr)
          else Value(contentStr)
        else if "content" in f then Value(f["content"])
        else if raw != "" then Text(raw)
        else UnexpectedContent
      case _ => if raw != "" then Text(raw) else UnexpectedContent
  }

  /** What `for c in content` meets, as far as the chunk readers care: a
      list's items; a string's characters or a dict's keys, none of which
      is a dict; nothing when `content` cannot be iterated at all. */
  function ContentItems(content: Json): Option<seq<Json>> {
    match content
    case JList(items) => Some(items)
    case JStr(_) => Some([])
    case JObj(_) => Some([])
    case _ => None
  }

  /** `bool(result.get("isError")) or bool(result["result"].get("isError"))`. */
  predicate ErrorFlag(top: map<string, Json>, inner: map<string, Json>) {
    Truthy(Get(top, "isError", JNull)) || Truthy(Get(inner, "isError", JNull))
  }

  /** The error flag and the content items of an envelope without an
      `error` field, or None when reading them raises. */
  function Unpack(top: map<string, Json>): Option<(bool, seq<Json>)> {
    var inner := Get(top, "result", JObj(map[]));
    if !inner.JObj? then None
    else match ContentItems(Get(inner.fields, "content", JList([])))
      case None => None
      case Some(items) => Some((ErrorFlag(top, inner.fields), items))
  }

  /** A first text chunk that is truthy but not a string: `.lower()` on it
      raises. */
  predicate OddStatus(chunk: Option<Json>) {
    chunk.Some? && Truthy(chunk.value) && !chunk.value.JStr?
  }

  /** `status_text` when it is a string: the first text chunk, or "". */
  function StatusText(chunk: Option<Json>): string {
    if chunk.Some? && chunk.value.JStr? then chunk.value.s else ""
  }

  /** `raw` when it is a string: the payload text, or "". */
  function RawText(items: seq<Json>): string {
    match ExtractPayloadText(items)
    case Some(JStr(t)) => t
    case _ => ""
  }

  /** `status_text or raw or 'unknown error'`. */
  function DomainMessage(items: seq<Json>): Json {
    var chunk := FirstTextChunk(items);
    if chunk.Some? && Truthy(chunk.value) then chunk.value
    else if RawText(items) != "" then JStr(RawText(items))
    else JStr("unknown error")
  }

  /** Lines 92-143 of the tool, once the flag and the items are known. */
  function ClassifyContent(isError: bool, items: seq<Json>, parse: string -> Option<Json>, b64: Json -> Option<string>)
    : (a: Answer)
    ensures a == Crash <==> !isError && OddStatus(FirstTextChunk(items))
    ensures a.DomainError? <==>
              isError || (!OddStatus(FirstTextChunk(items)) && FlagsError(false, StatusText(FirstTextChunk(items))))
    ensures a.DomainError? ==> a.message == DomainMessage(items)
    ensures !a.DomainError? && a != Crash ==> a == ReadBody(RawText(items), parse, b64)
  {
    var chunk := FirstTextChunk(items);
    if !isError && OddStatus(chunk) then Crash
    else if FlagsError(isError, StatusText(chunk)) then DomainError(DomainMessage(items))
    else ReadBody(RawText(items), parse, b64)
  }

  /** The result classification of `get_file_contents_tool`, from the
      envelope `call_mcp` returns. */
  function Classify(result: Json, parse: string -> Option<Json>, b64: Json -> Option<string>): (a: Answer)
    ensures a == TransportError <==> result.JObj? && "error" in result.fields && result.fields["error"].JObj?
    ensures !result.JObj? ==> a == Crash
    ensures result.JObj? && "error" in result.fields ==> a == TransportError || a == Crash
    ensures result.JObj? && "error" !in result.fields && Unpack(result.fields).None? ==> a == Crash
    ensures result.JObj? && "error" !in result.fields && Unpack(result.fields).Some? ==>
              a == ClassifyContent(Unpack(result.fields).value.0, Unpack(result.fields).value.1, parse, b64)
  {
    if !result.JObj? then Crash
    else if "error" in result.fields then
      if result.fields["error"].JObj? then TransportError else Crash
    else match Unpack(result.fields)
      case None => Crash
      case Some((isError, items)) => ClassifyContent(isError, items, parse, b64)
  }

  /** The domain-error rule for every envelope whose status is a string (or
      absent): an error iff the flag is set at either level or the status
      mentions an error or an exception, with the status, else the body,
      else `unknown error` as its message. */
  lemma DomainErrorRule(result: Json, parse: string -> Option<Json>, b64: Json -> Option<string>)
    requires result.JObj? && "error" !in result.fields && Unpack(result.fields).Some?
    requires !OddStatus(FirstTextChunk(Unpack(result.fields).value.1))
    ensures var (isError, items) := Unpack(result.fields).value;
      && (Classify(result, parse, b64).DomainError? <==> FlagsError(isError, StatusText(FirstTextChunk(items))))
      && (Classify(result, parse, b64).DomainError? ==> Classify(result, parse, b64).message == DomainMessage(items))
  {
  }

  /** The `isError` flag, at the top level or under `result`, makes any
      readable envelope a domain error, whatever its content says. */
  lemma ErrorFlagWins(result: Json, parse: string -> Option<Json>, b64: Json -> Option<string>)
    requires result.JObj? && "error" !in result.fields && Unpack(result.fields).Some?
    requires var inner := Get(result.fields, "result", JObj(map[]));
      Truthy(Get(result.fields, "isError", JNull)) || Truthy(Get(inner.fields, "isError", JNull))
    ensures Classify(result, parse, b64).DomainError?
  {
  }

  /** An error or exception status wins over a file body that came with it,
      and is the message. */
  lemma ErrorStatusWins(result: Json, status: string, parse: string -> Option<Json>, b64: Json -> Option<string>)
    requires result.JObj? && "error" !in result.fields && Unpack(result.fields).Some?
    requires FirstTextChunk(Unpack(result.fields).value.1) == Some(JStr(status))
    requires Contains(Lower(status), "error") || Contains(Lower(status), "exception")
    ensures Classify(result, parse, b64) == DomainError(JStr(status))
  {
  }

  /** Content that is a string or a dict holds no chunk: unflagged, the
      envelope is unexpected; flagged, the error is `unknown error`. */
  lemma ContentNotAList(result: Json, parse: string -> Option<Json>, b64: Json -> Option<string>)
    requires result.JObj? && "error" !in result.fields
    requires "result" in result.fields && result.fields["result"].JObj?
    requires var inner := result.fields["result"].fields;
      "content" in inner && (inner["content"].JStr? || inner["content"].JObj?)
    ensures var isError := Unpack(result.fields).value.0;
      Classify(result, parse, b64) == if isError then DomainError(JStr("unknown error")) else UnexpectedContent
  {
    var items := Unpack(result.fields).value.1;
    assert items == [];
    assert FirstTextChunk(items).None? && ExtractPayloadText(items).None?;
    assert Lower("") == "" && !Contains("", "error") && !Contains("", "exception");
  }

  /** A text chunk holding a JSON array of entries answers with their paths
      in order, and fails when none of them carries a path. */
  lemma ListingAnswer(raw: string, entries: seq<Json>, parse: string -> Option<Json>, b64: Json -> Option<string>)
    requires raw != "" && parse(raw) == Some(JList(entries))
    ensures ListingPaths(entries) != [] ==> ReadBody(raw, parse, b64) == Paths(ListingPaths(entries))
    ensures (forall i :: 0 <= i < |entries| ==> EntryPath(entries[i]).None?) ==> ReadBody(raw, parse, b64) == BadListing
  {
    ListingPathsEmpty(entries);
  }
}
