/**
 * The issue wrappers: `update_issue`, `list_issues`, `create_issue` and
 * `add_issue_comment`. Each reads one `|`-separated input string and either
 * hands a payload to `call_mcp`, answers with a format message of its own,
 * or reports the exception that parsing raised.
 */
module IssueTools {
  import opened PyStr
  import opened ToolPayload

  /** The answer of every issue wrapper whose `owner/repo` field has no slash. */
  const RepoFormatReply: string := "Invalid owner/repo format. Expected 'owner/repo'."

  /** `field.strip().strip("`'\"")`. */
  function StripQuoted(field: string): string {
    Strip(StripWs(field), Quotes)
  }

  /** `field.strip().strip("`'\" ")`. */
  function StripQuotedSpace(field: string): string {
    Strip(StripWs(field), QuotesAndSpace)
  }

  /** The `owner/repo` field of two names reads back through both strips. */
  lemma RepoFieldStripped(owner: string, repo: string, field: string)
    requires Name(owner) && Name(repo) && field == owner + "/" + repo
    ensures Token(field) && StripQuoted(field) == field && StripQuotedSpace(field) == field
    ensures '/' in field && SplitOnce(field, '/') == (owner, repo)
  {
    RepoField(owner, repo);
    StripToken(field, Quotes);
    StripToken(field, QuotesAndSpace);
    SplitOnceJoin(owner, '/', repo);
  }

  /** `str(n)` reads back through both strips and `int()`. */
  lemma NumberStripped(n: int)
    ensures StripQuoted(IntToStr(n)) == IntToStr(n)
    ensures StripQuotedSpace(IntToStr(n)) == IntToStr(n)
    ensures ParseInt(IntToStr(n)) == Some(n)
  {
    IntToStrToken(n);
    StripToken(IntToStr(n), Quotes);
    StripToken(IntToStr(n), QuotesAndSpace);
    ParseIntToStr(n);
  }

  // ---------------------------------------------------------------------
  // Comma-separated lists
  // ---------------------------------------------------------------------

  /** `[x.strip() for x in pieces if x.strip()]`: the trimmed pieces, blank
      ones dropped. */
  function NonBlank(pieces: seq<string>): (r: seq<string>)
    ensures |r| <= |pieces|
    ensures forall x :: x in r ==> x != "" && Unpadded(x, Whitespace)
    decreases |pieces|
  {
    if pieces == [] then []
    else
      StripLeavesUnpadded(pieces[0], Whitespace);
      var x := StripWs(pieces[0]);
      (if x == "" then [] else [x]) + NonBlank(pieces[1..])
  }

  /** `[x.strip() for x in pieces]`: every piece trimmed, blank ones kept. */
  function Trimmed(pieces: seq<string>): (r: seq<string>)
    ensures |r| == |pieces| && forall i :: 0 <= i < |r| ==> r[i] == StripWs(pieces[i])
  {
    seq(|pieces|, i requires 0 <= i < |pieces| => StripWs(pieces[i]))
  }

  /** A list item as the input format writes it: no comma, nothing to trim. */
  predicate Item(x: string) {
    ',' !in x && Unpadded(x, Whitespace)
  }

  /** Non-blank trimmed items pass through `NonBlank` unchanged. */
  lemma {:induction false} NonBlankKeeps(items: seq<string>)
    requires forall i :: 0 <= i < |items| ==> items[i] != "" && Item(items[i])
    ensures NonBlank(items) == items
    decreases |items|
  {
    if items != [] {
      var rest := items[1..];
      assert items == [items[0]] + rest;
      NonBlankKeeps(rest);
      NonBlankCons(items[0], rest);
    }
  }

  /** A non-blank trimmed piece is kept in front of the rest. */
  lemma NonBlankCons(x: string, rest: seq<string>)
    requires x != "" && Unpadded(x, Whitespace)
    ensures NonBlank([x] + rest) == [x] + NonBlank(rest)
  {
    StripWsUnpadded(x);
    assert ([x] + rest)[1..] == rest;
  }

  /** Writing non-blank items with commas and reading them back with the
      filtering comprehension gives the items, the empty list included. */
  lemma CommaListRoundTrip(items: seq<string>)
    requires forall i :: 0 <= i < |items| ==> items[i] != "" && Item(items[i])
    ensures NonBlank(Split(Join(",", items), ",")) == items
  {
    if items == [] {
      SplitSingle("", ",", 0);
      assert NonBlank([""]) == [];
    } else {
      assert forall p :: p in items ==> ',' !in p;
      SplitJoin(items, ",");
      NonBlankKeeps(items);
    }
  }

  /** Writing items with commas and reading them back with the plain
      comprehension gives the items, blank ones included. */
  lemma CommaListKeepsBlanks(items: seq<string>)
    requires items != [] && forall i :: 0 <= i < |items| ==> Item(items[i])
    ensures Trimmed(Split(Join(",", items), ",")) == items
  {
    assert ","[0] == ',';
    assert forall p :: p in items ==> ',' !in p;
    SplitJoin(items, ",");
    TrimmedItems(items);
  }

  /** Trimming leaves unpadded items as they are. */
  lemma TrimmedItems(items: seq<string>)
    requires forall i :: 0 <= i < |items| ==> Item(items[i])
    ensures Trimmed(items) == items
  {
    var t := Trimmed(items);
    forall i | 0 <= i < |items| ensures t[i] == items[i] {
      StripWsUnpadded(items[i]);
    }
  }

  // ---------------------------------------------------------------------
  // update_issue: 'owner/repo|issue_number|field=value;field=value;...'
  // ---------------------------------------------------------------------

  const UpdateFormatError: string := "Invalid input. Format: 'owner/repo|issue_number|field=value;...'"
  const UpdatePrefix: string := "Exception in update_issue: "

  /** The keys whose values are comma-separated lists. */
  predicate ListKey(key: string) {
    key == "assignees" || key == "labels"
  }

  /** What one `key=value` field sets in the updates: list keys get their
      non-blank items, `issue_number` is skipped, any other key its trimmed
      value. A field without `=` is skipped. */
  function UpdateRule(field: string): (r: Option<(string, Value)>)
    ensures r.Some? ==> r.value.0 != "issue_number"
  {
    if '=' !in field then None
    else
      var kv := SplitOnce(field, '=');
      UpdatePair(StripWs(kv.0), StripWs(kv.1))
  }

  /** What a field sets once its key and value are trimmed. */
  function UpdatePair(key: string, value: string): (r: Option<(string, Value)>)
    ensures r.None? <==> key == "issue_number"
    ensures r.Some? ==> r.value.0 == key
    ensures r.Some? && !ListKey(key) ==> r.value.1 == Str(value)
    ensures r.Some? && ListKey(key) ==> r.value.1.StrList?
  {
    if ListKey(key) then Some((key, StrList(NonBlank(Split(value, ",")))))
    else if key == "issue_number" then None
    else Some((key, Str(value)))
  }

  /** A field written as `key=value` is read as that key and value. */
  lemma UpdateRuleField(key: string, value: string)
    requires '=' !in key && Unpadded(key, Whitespace) && Unpadded(value, Whitespace)
    ensures UpdateRule(key + "=" + value) == UpdatePair(key, value)
  {
    KeyValueField(key, value, key + "=" + value);
  }

  /** A `key=value` field splits back into its trimmed key and value. */
  lemma KeyValueField(key: string, value: string, field: string)
    requires '=' !in key && Unpadded(key, Whitespace) && Unpadded(value, Whitespace)
    requires field == key + "=" + value
    ensures '=' in field && SplitOnce(field, '=') == (key, value)
    ensures StripWs(key) == key && StripWs(value) == value
  {
    SplitOnceJoin(key, '=', value);
    StripWsUnpadded(key);
    StripWsUnpadded(value);
  }

  /** A plain field reads back as its key and value. */
  lemma UpdateField(key: string, value: string)
    requires key != "" && '=' !in key && Unpadded(key, Whitespace) && Unpadded(value, Whitespace)
    requires !ListKey(key) && key != "issue_number"
    ensures UpdateRule(key + "=" + value) == Some((key, Str(value)))
  {
    UpdateRuleField(key, value);
  }

  /** A list field reads back as its non-blank items. */
  lemma UpdateListField(key: string, items: seq<string>)
    requires ListKey(key)
    requires forall i :: 0 <= i < |items| ==> items[i] != "" && Item(items[i])
    ensures UpdateRule(key + "=" + Join(",", items)) == Some((key, StrList(items)))
  {
    ListKeyShape(key);
    CommaListUnpadded(items);
    UpdateRuleField(key, Join(",", items));
    UpdateListPair(key, items);
  }

  /** The list keys have no `=` and nothing to trim. */
  lemma ListKeyShape(key: string)
    requires ListKey(key)
    ensures '=' !in key && Unpadded(key, Whitespace)
  {
  }

  /** A trimmed list value reads back as its non-blank items. */
  lemma UpdateListPair(key: string, items: seq<string>)
    requires ListKey(key)
    requires forall i :: 0 <= i < |items| ==> items[i] != "" && Item(items[i])
    ensures UpdatePair(key, Join(",", items)) == Some((key, StrList(items)))
  {
    CommaListRoundTrip(items);
  }

  /** Non-blank trimmed items joined with commas leave nothing to trim. */
  lemma CommaListUnpadded(items: seq<string>)
    requires forall i :: 0 <= i < |items| ==> items[i] != "" && Item(items[i])
    ensures Unpadded(Join(",", items), Whitespace)
  {
    if items != [] {
      var value := Join(",", items);
      var last := items[|items| - 1];
      JoinEnds(",", items);
      assert value[0] == value[..|items[0]|][0] == items[0][0];
      assert value[|value| - 1] == value[|value| - |last|..][|last| - 1] == last[|last| - 1];
    }
  }

  /** The updates never carry `issue_number`. */
  lemma UpdatesSkipNumber(fields: seq<string>)
    ensures "issue_number" !in Assigned(map[], fields, UpdateRule)
  {
    AssignedKeys(map[], fields, UpdateRule, "issue_number");
  }

  /** The input's `|`-fields after the outer quotes and blanks are trimmed. */
  function UpdateFields(input: string): seq<string> {
    Split(StripWs(Strip(input, QuotesAndBlanks)), "|")
  }

  /** The payload naming one issue. */
  function IssuePayload(owner: string, repo: string, n: int): (p: Payload)
    ensures "owner" in p && p["owner"] == Str(owner)
    ensures "repo" in p && p["repo"] == Str(repo)
    ensures "issue_number" in p && p["issue_number"] == Int(n)
    ensures forall k :: k in p ==> k == "owner" || k == "repo" || k == "issue_number"
  {
    map["owner" := Str(owner), "repo" := Str(repo), "issue_number" := Int(n)]
  }

  /** The payload naming the issue, before the updates are spread into it. */
  function UpdateBase(ownerRepo: string, n: int): Payload
    requires '/' in ownerRepo
  {
    var names := SplitOnce(ownerRepo, '/');
    IssuePayload(names.0, names.1, n)
  }

  /** The request `update_issue_tool` sends once the repository, the issue
      number and the field list are trimmed, or why it sends none. */
  function UpdateFromTexts(ownerRepo: string, number: string, fieldData: string): (r: Outcome)
    ensures r.Raised? <==> ParseInt(number).None?
    ensures r.Raised? ==> r == Raised(UpdatePrefix, IntValueError(number))
    ensures r.Reply? <==> ParseInt(number).Some? && '/' !in ownerRepo
    ensures r.Reply? ==> r.text == RepoFormatReply
    ensures r.Call? ==> r.tool == "update_issue" && "issue_number" in r.payload
    ensures r.Call? ==> r.payload["issue_number"] == Int(ParseInt(number).value)
  {
    match ParseInt(number)
    case None => Raised(UpdatePrefix, IntValueError(number))
    case Some(n) =>
      if '/' !in ownerRepo then Reply(RepoFormatReply)
      else
        var updates := Assigned(map[], Split(fieldData, ";"), UpdateRule);
        UpdatesSkipNumber(Split(fieldData, ";"));
        Call("update_issue", UpdateBase(ownerRepo, n) + updates)
  }

  /** The request `update_issue_tool` sends for its `|`-fields: the first
      three are the repository, the issue number and the field list. */
  function UpdateOf(parts: seq<string>): (r: Outcome)
    ensures |parts| < 3 ==> r == Reply(UpdateFormatError)
  {
    if |parts| < 3 then Reply(UpdateFormatError)
    else UpdateFromTexts(StripQuoted(parts[0]), StripQuoted(parts[1]), StripWs(parts[2]))
  }

  /** `update_issue_tool` up to the `call_mcp` call.
      It only composes the field split with `UpdateOf`. */
  function UpdateRequest(input: string): (r: Outcome) {
    UpdateOf(UpdateFields(input))
  }

  /** `update_issue_tool` as written: the field loop fills the updates. */
  method UpdateIssue(input: string) returns (r: Outcome)
    ensures r == UpdateRequest(input)
  {
    var parts := UpdateFields(input);
    if |parts| < 3 {
      return Reply(UpdateFormatError);
    }
    var ownerRepo := StripQuoted(parts[0]);
    var number := StripQuoted(parts[1]);
    var fieldData := StripWs(parts[2]);
    assert UpdateRequest(input) == UpdateFromTexts(ownerRepo, number, fieldData);
    match ParseInt(number) {
      case None =>
        r := Raised(UpdatePrefix, IntValueError(number));
      case Some(n) =>
        if '/' !in ownerRepo {
          return Reply(RepoFormatReply);
        }
        var updates := AssignFields(map[], Split(fieldData, ";"), UpdateRule);
        r := Call("update_issue", UpdateBase(ownerRepo, n) + updates);
    }
  }

  /** An input is read through its `|`-fields. */
  lemma UpdateJoined(parts: seq<string>)
    requires |parts| >= 1 && forall i :: 0 <= i < |parts| ==> '|' !in parts[i]
    requires Token(parts[0]) && Token(parts[|parts| - 1])
    ensures UpdateRequest(Join("|", parts)) == UpdateOf(parts)
  {
    JoinedFields(parts, QuotesAndBlanks);
  }

  /** Well-formed fields read back: the repository's two names, the issue
      number, and the updates of the third field; later fields are ignored. */
  lemma UpdateFromWellFormed(owner: string, repo: string, n: int, parts: seq<string>)
    requires Name(owner) && Name(repo)
    requires |parts| >= 3 && parts[0] == owner + "/" + repo && parts[1] == IntToStr(n)
    requires Unpadded(parts[2], Whitespace)
    ensures UpdateOf(parts) == Call("update_issue",
              IssuePayload(owner, repo, n) + Assigned(map[], Split(parts[2], ";"), UpdateRule))
  {
    UpdateFieldsStripped(owner, repo, n, parts);
    UpdateBaseNames(owner, repo, n, parts[0]);
    NumberStripped(n);
    UpdateFromParsed(parts[0], parts[1], parts[2], n);
  }

  /** The base payload names the two halves of the repository field. */
  lemma UpdateBaseNames(owner: string, repo: string, n: int, field: string)
    requires Name(owner) && Name(repo) && field == owner + "/" + repo
    ensures '/' in field && UpdateBase(field, n) == IssuePayload(owner, repo, n)
  {
    RepoFieldStripped(owner, repo, field);
  }

  /** Well-formed fields have nothing to trim. */
  lemma UpdateFieldsStripped(owner: string, repo: string, n: int, parts: seq<string>)
    requires Name(owner) && Name(repo)
    requires |parts| >= 3 && parts[0] == owner + "/" + repo && parts[1] == IntToStr(n)
    requires Unpadded(parts[2], Whitespace)
    ensures UpdateOf(parts) == UpdateFromTexts(parts[0], parts[1], parts[2])
  {
    RepoFieldStripped(owner, repo, parts[0]);
    NumberStripped(n);
    StripWsUnpadded(parts[2]);
  }

  /** A repository with a slash and a number that parses give a call. */
  lemma UpdateFromParsed(ownerRepo: string, number: string, fieldData: string, n: int)
    requires '/' in ownerRepo && ParseInt(number) == Some(n)
    ensures UpdateFromTexts(ownerRepo, number, fieldData) ==
              Call("update_issue", UpdateBase(ownerRepo, n) + Assigned(map[], Split(fieldData, ";"), UpdateRule))
  {
  }

  /** An update written in the documented format reads back: the
      repository, the issue number and the updates of the field list. */
  lemma UpdateRoundTrip(owner: string, repo: string, n: int, parts: seq<string>)
    requires Name(owner) && Name(repo)
    requires |parts| >= 3 && parts[0] == owner + "/" + repo && parts[1] == IntToStr(n)
    requires Unpadded(parts[2], Whitespace) && Token(parts[|parts| - 1])
    requires forall i :: 0 <= i < |parts| ==> '|' !in parts[i]
    ensures UpdateRequest(Join("|", parts)) == Call("update_issue",
              IssuePayload(owner, repo, n) + Assigned(map[], Split(parts[2], ";"), UpdateRule))
  {
    RepoFieldStripped(owner, repo, parts[0]);
    UpdateJoined(parts);
    UpdateFromWellFormed(owner, repo, n, parts);
  }

  /** The updates are spread over the base payload, so the last field that
      sets a key decides its value, even for `owner` and `repo`. */
  lemma UpdateLastFieldWins(ownerRepo: string, n: int, fields: seq<string>, k: string, i: nat)
    requires '/' in ownerRepo
    requires i < |fields| && Sets(UpdateRule, fields[i], k)
    requires forall j :: i < j < |fields| ==> !Sets(UpdateRule, fields[j], k)
    ensures k in UpdateBase(ownerRepo, n) + Assigned(map[], fields, UpdateRule)
    ensures (UpdateBase(ownerRepo, n) + Assigned(map[], fields, UpdateRule))[k] == UpdateRule(fields[i]).value.1
  {
    LastWins(map[], fields, UpdateRule, k, i);
  }

  // ---------------------------------------------------------------------
  // list_issues: 'owner/repo|[state=...]|[labels=a,b]|...'
  // ---------------------------------------------------------------------

  /** The filter keys that are copied as plain text. */
  predicate TextFilter(key: string) {
    key == "state" || key == "sort" || key == "direction"
  }

  /** What one filter field sets: `labels` its trimmed items, blank ones
      kept, `state`, `sort` and `direction` their trimmed value. Any other
      key, and a field without `=`, is skipped. */
  function FilterRule(field: string): (r: Option<(string, Value)>)
    ensures r.Some? ==> r.value.0 == "labels" || TextFilter(r.value.0)
  {
    if '=' !in field then None
    else
      var kv := SplitOnce(field, '=');
      var key := StripWs(kv.0);
      var value := StripWs(kv.1);
      if key == "labels" then Some((key, StrList(Trimmed(Split(value, ",")))))
      else if TextFilter(key) then Some((key, Str(value)))
      else None
  }

  /** A text filter field reads back as its key and value. */
  lemma TextFilterField(key: string, value: string)
    requires TextFilter(key) && Unpadded(value, Whitespace)
    ensures FilterRule(key + "=" + value) == Some((key, Str(value)))
  {
    assert '=' !in key && Unpadded(key, Whitespace);
    KeyValueField(key, value, key + "=" + value);
  }

  /** The input's `|`-fields after newlines are removed and the outer
      quotes and spaces trimmed. */
  function ListFields(input: string): seq<string> {
    Split(CleanInput(input), "|")
  }

  /** The first page of ten issues of a repository. */
  function FirstPage(owner: string, repo: string): (p: Payload)
    ensures "owner" in p && p["owner"] == Str(owner)
    ensures "repo" in p && p["repo"] == Str(repo)
    ensures "perPage" in p && p["perPage"] == Int(10)
    ensures "page" in p && p["page"] == Int(1)
    ensures forall k :: k in p ==> k == "owner" || k == "repo" || k == "perPage" || k == "page"
  {
    map["owner" := Str(owner), "repo" := Str(repo), "perPage" := Int(10), "page" := Int(1)]
  }

  /** The payload every listing starts from. */
  function ListBase(ownerRepo: string): (p: Payload)
    requires '/' in ownerRepo
    ensures forall k :: k in p ==> k == "owner" || k == "repo" || k == "perPage" || k == "page"
    ensures "perPage" in p && p["perPage"] == Int(10) && "page" in p && p["page"] == Int(1)
  {
    var names := SplitOnce(ownerRepo, '/');
    FirstPage(names.0, names.1)
  }

  /** The keys a listing payload may carry. */
  predicate ListingKey(k: string) {
    k == "owner" || k == "repo" || k == "perPage" || k == "page" || k == "labels" || TextFilter(k)
  }

  /** No filter sets the page, the page size or the repository. */
  lemma FiltersKeepBase(ownerRepo: string, filters: seq<string>, k: string)
    requires '/' in ownerRepo && k in ListBase(ownerRepo)
    ensures k in Assigned(ListBase(ownerRepo), filters, FilterRule)
    ensures Assigned(ListBase(ownerRepo), filters, FilterRule)[k] == ListBase(ownerRepo)[k]
  {
    var base := ListBase(ownerRepo);
    assert !ListingFilterKey(k);
    forall i | 0 <= i < |filters| ensures !Sets(FilterRule, filters[i], k) {
      if Sets(FilterRule, filters[i], k) {
        FilterSetsFilterKey(filters[i], k);
      }
    }
    AssignedUnset(base, filters, FilterRule, k);
  }

  /** A key a filter may set. */
  predicate ListingFilterKey(k: string) {
    k == "labels" || TextFilter(k)
  }

  /** Whatever a filter sets is a filter key. */
  lemma FilterSetsFilterKey(field: string, k: string)
    requires Sets(FilterRule, field, k)
    ensures ListingFilterKey(k)
  {
  }

  /** The request `list_issues_tool` sends for its `|`-fields, or why it
      sends none. */
  function ListOf(parts: seq<string>): (r: Outcome)
    requires |parts| >= 1
    ensures r.Reply? <==> '/' !in StripQuoted(parts[0])
    ensures r.Reply? ==> r.text == RepoFormatReply
    ensures r.Call? ==> r.tool == "list_issues"
    ensures r.Call? ==> "perPage" in r.payload && r.payload["perPage"] == Int(10)
    ensures r.Call? ==> "page" in r.payload && r.payload["page"] == Int(1)
    ensures r.Call? ==> forall k :: k in r.payload ==> ListingKey(k)
  {
    var ownerRepo := StripQuoted(parts[0]);
    if '/' !in ownerRepo then Reply(RepoFormatReply)
    else
      var payload := Assigned(ListBase(ownerRepo), parts[1..], FilterRule);
      FiltersKeepBase(ownerRepo, parts[1..], "perPage");
      FiltersKeepBase(ownerRepo, parts[1..], "page");
      assert forall k :: k in payload ==> ListingKey(k) by {
        forall k | k in payload ensures ListingKey(k) {
          AssignedKeys(ListBase(ownerRepo), parts[1..], FilterRule, k);
        }
      }
      Call("list_issues", payload)
  }

  /** `list_issues_tool` up to the `call_mcp` call.
      It only composes the field split with `ListOf`. */
  function ListRequest(input: string): (r: Outcome) {
    ListOf(ListFields(input))
  }

  /** `list_issues_tool` as written: the filter loop fills the payload. */
  method ListIssues(input: string) returns (r: Outcome)
    ensures r == ListRequest(input)
  {
    var parts := Split(CleanInput(input), "|");
    var ownerRepo := StripQuoted(parts[0]);
    if '/' !in ownerRepo {
      return Reply(RepoFormatReply);
    }
    var payload := AssignFields(ListBase(ownerRepo), parts[1..], FilterRule);
    r := Call("list_issues", payload);
  }

  /** A single field names the repository and sets no filter. */
  lemma ListRepositoryOnly(owner: string, repo: string)
    requires Name(owner) && Name(repo)
    ensures ListOf([owner + "/" + repo]) == Call("list_issues", FirstPage(owner, repo))
  {
    var field := owner + "/" + repo;
    RepoFieldStripped(owner, repo, field);
    ListOfCall([field]);
    assert [field][1..] == [];
    assert ListBase(field) == FirstPage(owner, repo);
  }

  /** A first field naming a repository starts the listing from it and
      applies the other fields as filters. */
  lemma ListOfCall(parts: seq<string>)
    requires |parts| >= 1 && '/' in StripQuoted(parts[0])
    ensures ListOf(parts) == Call("list_issues", Assigned(ListBase(StripQuoted(parts[0])), parts[1..], FilterRule))
  {
  }

  /** The cleaning of a bare `owner/repo` leaves one field. */
  lemma ListFieldsBare(owner: string, repo: string, field: string)
    requires Name(owner) && Name(repo) && field == owner + "/" + repo
    ensures ListFields(field) == [field]
  {
    RepoFieldStripped(owner, repo, field);
    NameFieldOneLine(owner, repo, field);
    CleanToken(field);
    SplitSingle(field, "|", 0);
  }

  /** An `owner/repo` field of two names has no line breaks. */
  lemma NameFieldOneLine(owner: string, repo: string, field: string)
    requires Name(owner) && Name(repo) && field == owner + "/" + repo
    ensures '\n' !in field && '\r' !in field
  {
    forall i | 0 <= i < |field| ensures field[i] != '\n' && field[i] != '\r' {
      if i < |owner| {
        assert field[i] == owner[i];
      } else if i > |owner| {
        assert field[i] == repo[i - |owner| - 1];
      }
    }
  }

  /** A bare `owner/repo` lists the first page of ten with no filters. */
  lemma ListDefaults(owner: string, repo: string)
    requires Name(owner) && Name(repo)
    ensures ListRequest(owner + "/" + repo) == Call("list_issues", FirstPage(owner, repo))
  {
    ListFieldsBare(owner, repo, owner + "/" + repo);
    ListRepositoryOnly(owner, repo);
  }

  /** With filter fields, each key holds the value of its last field. */
  lemma ListFilterLastWins(parts: seq<string>, filters: seq<string>, k: string, i: nat)
    requires |parts| >= 1 && filters == parts[1..] && '/' in StripQuoted(parts[0])
    requires i < |filters| && Sets(FilterRule, filters[i], k)
    requires forall j :: i < j < |filters| ==> !Sets(FilterRule, filters[j], k)
    ensures ListOf(parts).Call? && k in ListOf(parts).payload
    ensures ListOf(parts).payload[k] == FilterRule(filters[i]).value.1
  {
    LastWins(ListBase(StripQuoted(parts[0])), filters, FilterRule, k, i);
  }

  const NoIssues: string := "No issues found."

  /** The answer to a decoded list of issues: the first ten, one line each. */
  function IssuesReply(issues: seq<Json>, line: Json -> string): (r: string)
    ensures issues == [] ==> r == NoIssues
  {
    if issues == [] then NoIssues
    else Join("\n", CappedLines(issues, 10, line))
  }

  /** At most ten issues are shown, and the first ones in order. */
  lemma IssuesReplyCap(issues: seq<Json>, line: Json -> string)
    requires issues != [] && forall x :: '\n' !in line(x)
    ensures |Split(IssuesReply(issues, line), "\n")| == if |issues| < 10 then |issues| else 10
    ensures forall i :: 0 <= i < |Split(IssuesReply(issues, line), "\n")| ==>
              Split(IssuesReply(issues, line), "\n")[i] == line(issues[i])
  {
    CappedListingLines(issues, 10, line);
  }

  // ---------------------------------------------------------------------
  // create_issue: 'owner/repo|title|body'
  // ---------------------------------------------------------------------

  const CreateFormatError: string := "Invalid input. Expected format: 'owner/repo|title|body'"
  const CreatePrefix: string := "Exception in create_issue: "

  /** The payload of a new issue. */
  function CreatePayload(owner: string, repo: string, title: string, body: string): (p: Payload)
    ensures "owner" in p && p["owner"] == Str(owner)
    ensures "repo" in p && p["repo"] == Str(repo)
    ensures "title" in p && p["title"] == Str(title)
    ensures "body" in p && p["body"] == Str(body)
    ensures forall k :: k in p ==> k == "owner" || k == "repo" || k == "title" || k == "body"
  {
    map["owner" := Str(owner), "repo" := Str(repo), "title" := Str(title), "body" := Str(body)]
  }

  /** The request `create_issue_tool` sends for its `|`-fields, or why it
      sends none. The body is every field from the third on, glued back. */
  function CreateOf(parts: seq<string>): (r: Outcome)
    ensures r.Reply? <==> |parts| < 3
    ensures r.Reply? ==> r.text == CreateFormatError
    ensures r.Raised? <==> |parts| >= 3 && '/' !in StripQuotedSpace(parts[0])
    ensures r.Raised? ==> r == Raised(CreatePrefix, Unpack(2, 1))
    ensures r.Call? ==> r.tool == "create_issue" && "title" in r.payload && "body" in r.payload
    ensures r.Call? ==> r.payload["title"] == Str(StripWs(parts[1]))
    ensures r.Call? ==> r.payload["body"] == Str(StripWs(Join("|", parts[2..])))
  {
    if |parts| < 3 then Reply(CreateFormatError)
    else
      var ownerRepo := StripQuotedSpace(parts[0]);
      if '/' !in ownerRepo then Raised(CreatePrefix, Unpack(2, 1))
      else
        var names := SplitOnce(ownerRepo, '/');
        Call("create_issue", CreatePayload(names.0, names.1, StripWs(parts[1]), StripWs(Join("|", parts[2..]))))
  }

  /** `create_issue_tool` up to the `call_mcp` call.
      It only composes the field split with `CreateOf`. */
  function CreateRequest(input: string): (r: Outcome) {
    CreateOf(Split(input, "|"))
  }

  /** Well-formed fields read back: the repository's two names, the title,
      and the body glued back from every later field. */
  lemma CreateFromWellFormed(owner: string, repo: string, parts: seq<string>)
    requires Name(owner) && Name(repo) && |parts| >= 3 && parts[0] == owner + "/" + repo
    ensures CreateOf(parts) ==
              Call("create_issue", CreatePayload(owner, repo, StripWs(parts[1]), StripWs(Join("|", parts[2..]))))
  {
    RepoFieldStripped(owner, repo, parts[0]);
  }

  /** The body may hold pipes: everything after the second `|` is the body. */
  lemma CreateKeepsPipes(owner: string, repo: string, title: string, body: string)
    requires Name(owner) && Name(repo) && '|' !in title
    ensures CreateRequest(owner + "/" + repo + "|" + title + "|" + body) ==
              Call("create_issue", CreatePayload(owner, repo, StripWs(title), StripWs(body)))
  {
    var f := owner + "/" + repo;
    RepoFieldStripped(owner, repo, f);
    TailField(f, title, body);
    CreateFromWellFormed(owner, repo, Split(f + "|" + title + "|" + body, "|"));
  }

  // ---------------------------------------------------------------------
  // add_issue_comment: 'owner/repo|issue_number|comment_body'
  // ---------------------------------------------------------------------

  const CommentFormatError: string := "Invalid input. Format: 'owner/repo|issue_number|comment_body'"
  const CommentPrefix: string := "Exception in add_issue_comment: "

  /** The payload of a comment on an issue. */
  function CommentPayload(owner: string, repo: string, n: int, body: string): (p: Payload)
    ensures "owner" in p && p["owner"] == Str(owner)
    ensures "repo" in p && p["repo"] == Str(repo)
    ensures "issue_number" in p && p["issue_number"] == Int(n)
    ensures "body" in p && p["body"] == Str(body)
    ensures forall k :: k in p ==> k == "owner" || k == "repo" || k == "issue_number" || k == "body"
  {
    map["owner" := Str(owner), "repo" := Str(repo), "issue_number" := Int(n), "body" := Str(body)]
  }

  /** The request `add_issue_comment_tool` sends for its `|`-fields, or why
      it sends none. The body is every field from the third on, glued back. */
  function CommentOf(parts: seq<string>): (r: Outcome)
    ensures |parts| < 3 ==> r == Reply(CommentFormatError)
    ensures r.Reply? && |parts| >= 3 <==> |parts| >= 3 && '/' !in StripQuotedSpace(parts[0])
    ensures r.Reply? && |parts| >= 3 ==> r.text == RepoFormatReply
    ensures r.Raised? <==> |parts| >= 3 && '/' in StripQuotedSpace(parts[0]) && ParseInt(StripQuotedSpace(parts[1])).None?
    ensures r.Raised? ==> r == Raised(CommentPrefix, IntValueError(StripQuotedSpace(parts[1])))
    ensures r.Call? ==> r.tool == "add_issue_comment" && "issue_number" in r.payload && "body" in r.payload
    ensures r.Call? ==> r.payload["issue_number"] == Int(ParseInt(StripQuotedSpace(parts[1])).value)
    ensures r.Call? ==> r.payload["body"] == Str(StripWs(Join("|", parts[2..])))
  {
    if |parts| < 3 then Reply(CommentFormatError)
    else
      var ownerRepo := StripQuotedSpace(parts[0]);
      var number := StripQuotedSpace(parts[1]);
      if '/' !in ownerRepo then Reply(RepoFormatReply)
      else
        var names := SplitOnce(ownerRepo, '/');
        match ParseInt(number)
        case None => Raised(CommentPrefix, IntValueError(number))
        case Some(n) =>
          Call("add_issue_comment", CommentPayload(names.0, names.1, n, StripWs(Join("|", parts[2..]))))
  }

  /** `add_issue_comment_tool` up to the `call_mcp` call.
      It only composes the field split with `CommentOf`. */
  function CommentRequest(input: string): (r: Outcome) {
    CommentOf(Split(StripWs(input), "|"))
  }

  /** Well-formed fields read back: the repository's two names, the issue
      number, and the comment glued back from every later field. */
  lemma CommentFromWellFormed(owner: string, repo: string, n: int, parts: seq<string>)
    requires Name(owner) && Name(repo)
    requires |parts| >= 3 && parts[0] == owner + "/" + repo && parts[1] == IntToStr(n)
    ensures CommentOf(parts) ==
              Call("add_issue_comment", CommentPayload(owner, repo, n, StripWs(Join("|", parts[2..]))))
  {
    RepoFieldStripped(owner, repo, parts[0]);
    NumberStripped(n);
  }

  /** An input that starts with a token and ends with nothing to trim is
      left alone by the outer `strip()`. */
  lemma CommentInputUnpadded(f: string, s: string, body: string)
    requires Token(f) && Unpadded(body, Whitespace)
    ensures StripWs(f + "|" + s + "|" + body) == f + "|" + s + "|" + body
  {
    var input := f + "|" + s + "|" + body;
    assert input[0] == f[0];
    assert input[|input| - 1] == if body == "" then '|' else body[|body| - 1];
    assert f[0] !in Whitespace;
    StripWsUnpadded(input);
  }

  /** The comment may hold pipes: everything after the second `|` is the
      comment. */
  lemma CommentKeepsPipes(owner: string, repo: string, n: int, body: string)
    requires Name(owner) && Name(repo) && Unpadded(body, Whitespace)
    ensures CommentRequest(owner + "/" + repo + "|" + IntToStr(n) + "|" + body) ==
              Call("add_issue_comment", CommentPayload(owner, repo, n, body))
  {
    var f := owner + "/" + repo;
    var s := IntToStr(n);
    RepoFieldStripped(owner, repo, f);
    IntToStrToken(n);
    CommentInputUnpadded(f, s, body);
    TailField(f, s, body);
    CommentFromWellFormed(owner, repo, n, Split(f + "|" + s + "|" + body, "|"));
    StripWsUnpadded(body);
  }
}
