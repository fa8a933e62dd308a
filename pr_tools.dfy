/**
 * The pull-request wrappers. Each reads one `|`-separated input; a few
 * positions are required, and the optional ones are written into the
 * payload only when they are there and not empty, some as they stand and
 * some through `int()`.
 */
module PullRequestTools {
  import opened PyStr
  import opened ToolPayload

  // ---------------------------------------------------------------------
  // Optional positional fields
  // ---------------------------------------------------------------------

  /** What a wrapper makes of an optional field's text: the text itself,
      `str(int(t))`, `int(t)`, `int(t.strip("` \n\r\t"))`, or
      `t.lower() == "true"`. */
  datatype Conversion = Verbatim | IntText | IntValue | TrimmedInt | Flag

  /** `if len(parts) > index and parts[index]: payload[key] = convert(parts[index])`. */
  datatype Slot = Slot(index: nat, key: string, conv: Conversion)

  /** The conversions that call `int()`. */
  predicate ReadsInt(conv: Conversion) {
    conv == IntText || conv == IntValue || conv == TrimmedInt
  }

  /** The text `int()` is given. */
  function IntSource(text: string, conv: Conversion): string {
    if conv == TrimmedInt then Strip(text, BacktickAndBlanks) else text
  }

  /** A field's payload value, or the ValueError `int()` raises on it. */
  function Converted(text: string, conv: Conversion): (r: Parse<Value>)
    ensures r.Fail? <==> ReadsInt(conv) && ParseInt(IntSource(text, conv)).None?
    ensures r.Fail? ==> r.error == IntValueError(IntSource(text, conv))
    ensures conv == Verbatim ==> r == Ok(Str(text))
    ensures conv == Flag ==> r == Ok(Bool(IsTrue(text)))
    ensures r.Ok? && conv == IntText ==> r.value.Str? && ParseInt(r.value.s) == ParseInt(text)
    ensures r.Ok? && conv == IntText ==> r.value == Str(IntToStr(ParseInt(text).value))
    ensures r.Ok? && (conv == IntValue || conv == TrimmedInt) ==>
              r.value == Int(ParseInt(IntSource(text, conv)).value)
  {
    match conv
    case Verbatim => Ok(Str(text))
    case Flag => Ok(Bool(IsTrue(text)))
    case IntText =>
      (match CanonicalIntText(text)
       case Some(t) => Ok(Str(t))
       case None => Fail(IntValueError(text)))
    case _ =>
      (match IntField(IntSource(text, conv))
       case Some(v) => Ok(v)
       case None => Fail(IntValueError(IntSource(text, conv))))
  }

  /** A conversion of field texts; the wrappers use `Converted`. */
  type Converter = (string, Conversion) -> Parse<Value>

  /** The slot is written and its conversion raises. */
  predicate Breaks(parts: seq<string>, slot: Slot, cv: Converter) {
    Present(parts, slot.index) && cv(parts[slot.index], slot.conv).Fail?
  }

  /** One guarded write; once an exception is raised nothing more is written. */
  function Step(acc: Parse<Payload>, parts: seq<string>, slot: Slot, cv: Converter): (r: Parse<Payload>)
    ensures acc.Fail? ==> r == acc
    ensures acc.Ok? && !Present(parts, slot.index) ==> r == acc
    ensures acc.Ok? ==> (r.Fail? <==> Breaks(parts, slot, cv))
  {
    match acc
    case Fail(_) => acc
    case Ok(p) =>
      if !Present(parts, slot.index) then acc
      else
        match cv(parts[slot.index], slot.conv)
        case Fail(e) => Fail(e)
        case Ok(v) => Ok(p[slot.key := v])
  }

  /** The guarded writes of `slots`, in order, onto `start`. */
  function WrittenBy(start: Payload, parts: seq<string>, slots: seq<Slot>, cv: Converter): (r: Parse<Payload>)
    decreases |slots|
  {
    if slots == [] then Ok(start)
    else Step(WrittenBy(start, parts, slots[..|slots| - 1], cv), parts, slots[|slots| - 1], cv)
  }

  /** The wrappers' guarded writes. */
  function Written(start: Payload, parts: seq<string>, slots: seq<Slot>): Parse<Payload> {
    WrittenBy(start, parts, slots, Converted)
  }

  /** One more slot is one more step. */
  lemma WrittenSnoc(start: Payload, parts: seq<string>, slots: seq<Slot>, slot: Slot, cv: Converter)
    ensures WrittenBy(start, parts, slots + [slot], cv) == Step(WrittenBy(start, parts, slots, cv), parts, slot, cv)
  {
    assert (slots + [slot])[..|slots|] == slots;
  }

  /** The writes raise exactly when some written slot's conversion raises. */
  lemma {:induction false} WrittenFails(start: Payload, parts: seq<string>, slots: seq<Slot>, cv: Converter)
    ensures WrittenBy(start, parts, slots, cv).Fail? <==> exists j :: 0 <= j < |slots| && Breaks(parts, slots[j], cv)
    decreases |slots|
  {
    if slots != [] {
      var init := slots[..|slots| - 1];
      var last := slots[|slots| - 1];
      WrittenFails(start, parts, init, cv);
      if WrittenBy(start, parts, init, cv).Fail? {
        var j :| 0 <= j < |init| && Breaks(parts, init[j], cv);
        assert init[j] == slots[j];
      } else if !Breaks(parts, last, cv) {
        forall j | 0 <= j < |slots|
          ensures !Breaks(parts, slots[j], cv)
        {
          if j < |init| {
            assert init[j] == slots[j];
          }
        }
      }
    }
  }

  /** The exception raised is the one of the first slot that raises. */
  lemma {:induction false} WrittenFirstError(start: Payload, parts: seq<string>, slots: seq<Slot>, cv: Converter, j: nat)
    requires j < |slots| && Breaks(parts, slots[j], cv)
    requires forall i :: 0 <= i < j ==> !Breaks(parts, slots[i], cv)
    ensures WrittenBy(start, parts, slots, cv) == Fail(cv(parts[slots[j].index], slots[j].conv).error)
    decreases |slots|
  {
    var init := slots[..|slots| - 1];
    assert forall i :: 0 <= i < |init| ==> init[i] == slots[i];
    if j == |slots| - 1 {
      WrittenFails(start, parts, init, cv);
    } else {
      WrittenFirstError(start, parts, init, cv, j);
    }
  }

  /** Once an exception is raised, the later slots change nothing. */
  lemma {:induction false} WrittenFailStays(start: Payload, parts: seq<string>, slots: seq<Slot>, cv: Converter, i: nat)
    requires i <= |slots| && WrittenBy(start, parts, slots[..i], cv).Fail?
    ensures WrittenBy(start, parts, slots, cv) == WrittenBy(start, parts, slots[..i], cv)
    decreases |slots|
  {
    if i < |slots| {
      var init := slots[..|slots| - 1];
      assert init[..i] == slots[..i];
      WrittenFailStays(start, parts, init, cv, i);
    } else {
      assert slots[..i] == slots;
    }
  }

  /** A key is in the payload exactly when the start had it or a written
      slot names it. */
  lemma {:induction false} WrittenKeys(start: Payload, parts: seq<string>, slots: seq<Slot>, cv: Converter, k: string)
    requires WrittenBy(start, parts, slots, cv).Ok?
    ensures k in WrittenBy(start, parts, slots, cv).value <==>
              k in start || exists j :: 0 <= j < |slots| && slots[j].key == k && Present(parts, slots[j].index)
    decreases |slots|
  {
    if slots != [] {
      var init := slots[..|slots| - 1];
      WrittenKeys(start, parts, init, cv, k);
      assert forall j :: 0 <= j < |init| ==> init[j] == slots[j];
    }
  }

  /** A key no written slot names keeps its starting value. */
  lemma {:induction false} WrittenUnset(start: Payload, parts: seq<string>, slots: seq<Slot>, cv: Converter, k: string)
    requires WrittenBy(start, parts, slots, cv).Ok? && k in start
    requires forall j :: 0 <= j < |slots| && slots[j].key == k ==> !Present(parts, slots[j].index)
    ensures k in WrittenBy(start, parts, slots, cv).value && WrittenBy(start, parts, slots, cv).value[k] == start[k]
    decreases |slots|
  {
    if slots != [] {
      var init := slots[..|slots| - 1];
      assert forall j :: 0 <= j < |init| ==> init[j] == slots[j];
      WrittenUnset(start, parts, init, cv, k);
    }
  }

  /** A written slot's key holds its converted field, unless a later
      written slot names the same key. */
  lemma {:induction false} WrittenLastWins(start: Payload, parts: seq<string>, slots: seq<Slot>, cv: Converter, j: nat)
    requires WrittenBy(start, parts, slots, cv).Ok?
    requires j < |slots| && Present(parts, slots[j].index)
    requires forall i :: j < i < |slots| && slots[i].key == slots[j].key ==> !Present(parts, slots[i].index)
    ensures slots[j].key in WrittenBy(start, parts, slots, cv).value
    ensures cv(parts[slots[j].index], slots[j].conv).Ok?
    ensures WrittenBy(start, parts, slots, cv).value[slots[j].key] == cv(parts[slots[j].index], slots[j].conv).value
    decreases |slots|
  {
    var init := slots[..|slots| - 1];
    assert forall i :: 0 <= i < |init| ==> init[i] == slots[i];
    if j < |slots| - 1 {
      WrittenLastWins(start, parts, init, cv, j);
    }
  }

  /** No two slots write the same key. */
  predicate DistinctKeys(slots: seq<Slot>) {
    forall i, j :: 0 <= i < j < |slots| ==> slots[i].key != slots[j].key
  }

  /** The payload holds the slot's key exactly when its field is there and
      not empty, and then holds the converted field. */
  predicate SlotHolds(p: Payload, parts: seq<string>, slot: Slot) {
    && (slot.key in p <==> Present(parts, slot.index))
    && (Present(parts, slot.index) ==>
          Converted(parts[slot.index], slot.conv).Ok? && p[slot.key] == Converted(parts[slot.index], slot.conv).value)
  }

  /** The payload holds the text field under `key` exactly when it is there
      and not empty. */
  predicate TextHolds(p: Payload, parts: seq<string>, key: string, index: nat) {
    && (key in p <==> Present(parts, index))
    && (Present(parts, index) ==> p[key] == Str(parts[index]))
  }

  /** With distinct keys, each slot's key is in the payload exactly when its
      field is there and not empty, holding the converted field. */
  lemma SlotWritten(start: Payload, parts: seq<string>, slots: seq<Slot>, j: nat)
    requires Written(start, parts, slots).Ok? && DistinctKeys(slots)
    requires j < |slots| && slots[j].key !in start
    ensures SlotHolds(Written(start, parts, slots).value, parts, slots[j])
  {
    WrittenKeys(start, parts, slots, Converted, slots[j].key);
    if Present(parts, slots[j].index) {
      WrittenLastWins(start, parts, slots, Converted, j);
    }
  }
  /** A key that no slot writes keeps the value it started with. */
  lemma KeyKept(start: Payload, parts: seq<string>, slots: seq<Slot>, k: string)
    requires Written(start, parts, slots).Ok? && k in start
    requires forall j :: 0 <= j < |slots| ==> slots[j].key != k
    ensures k in Written(start, parts, slots).value && Written(start, parts, slots).value[k] == start[k]
  {
    WrittenUnset(start, parts, slots, Converted, k);
  }

  /** Two slots are written one after the other. */
  lemma WrittenPair(start: Payload, parts: seq<string>, first: Slot, second: Slot)
    ensures Written(start, parts, [first, second]) ==
              Step(Step(Ok(start), parts, first, Converted), parts, second, Converted)
  {
    WrittenSnoc(start, parts, [], first, Converted);
    WrittenSnoc(start, parts, [first], second, Converted);
    assert [first] + [second] == [first, second];
  }


  /** A raised exception is the one of some written slot. */
  lemma {:induction false} WrittenErrorFrom(start: Payload, parts: seq<string>, slots: seq<Slot>, cv: Converter)
    requires WrittenBy(start, parts, slots, cv).Fail?
    ensures exists j :: 0 <= j < |slots| && Breaks(parts, slots[j], cv) &&
              WrittenBy(start, parts, slots, cv).error == cv(parts[slots[j].index], slots[j].conv).error
    decreases |slots|
  {
    var init := slots[..|slots| - 1];
    var last := |slots| - 1;
    if WrittenBy(start, parts, init, cv).Fail? {
      WrittenErrorFrom(start, parts, init, cv);
      var j :| 0 <= j < |init| && Breaks(parts, init[j], cv) &&
               WrittenBy(start, parts, init, cv).error == cv(parts[init[j].index], init[j].conv).error;
      assert init[j] == slots[j];
    } else {
      assert Breaks(parts, slots[last], cv);
    }
  }

  /** The writes raise only the ValueError of `int()`. */
  lemma WrittenRaisesInt(start: Payload, parts: seq<string>, slots: seq<Slot>)
    requires Written(start, parts, slots).Fail?
    ensures Written(start, parts, slots).error.IntValueError?
  {
    WrittenErrorFrom(start, parts, slots, Converted);
  }

  /** The loop `for i, key in enumerate(fields, start=1)` of guarded writes;
      an exception leaves it at once. */
  method WriteSlots(start: Payload, parts: seq<string>, slots: seq<Slot>) returns (r: Parse<Payload>)
    ensures r == Written(start, parts, slots)
  {
    var payload := start;
    for i := 0 to |slots|
      invariant WrittenBy(start, parts, slots[..i], Converted) == Ok(payload)
    {
      var next := WriteSlot(Ok(payload), parts, slots[i]);
      WrittenStep(start, parts, slots, i, Converted);
      if next.Fail? {
        WrittenFailStays(start, parts, slots, Converted, i + 1);
        return next;
      }
      payload := next.value;
    }
    assert slots[..|slots|] == slots;
    r := Ok(payload);
  }

  /** The writes of one more slot are the step of that slot on the writes
      before it. */
  lemma WrittenStep(start: Payload, parts: seq<string>, slots: seq<Slot>, i: nat, cv: Converter)
    requires i < |slots|
    ensures WrittenBy(start, parts, slots[..i + 1], cv) == Step(WrittenBy(start, parts, slots[..i], cv), parts, slots[i], cv)
  {
    PrefixSnoc(slots, i);
    WrittenSnoc(start, parts, slots[..i], slots[i], cv);
  }

  /** A prefix one longer is the prefix and the next element. */
  lemma PrefixSnoc<T>(s: seq<T>, i: nat)
    requires i < |s|
    ensures s[..i + 1] == s[..i] + [s[i]]
  {
  }

  /** One guarded write as a statement: `if len(parts) > i and parts[i]: ...`. */
  method WriteSlot(acc: Parse<Payload>, parts: seq<string>, slot: Slot) returns (r: Parse<Payload>)
    ensures r == Step(acc, parts, slot, Converted)
  {
    r := acc;
    if acc.Ok? && Present(parts, slot.index) {
      var v := Converted(parts[slot.index], slot.conv);
      if v.Fail? {
        r := Fail(v.error);
      } else {
        r := Ok(acc.value[slot.key := v.value]);
      }
    }
  }

  // ---------------------------------------------------------------------
  // Required fields
  // ---------------------------------------------------------------------

  /** The payload naming a repository. */
  function RepoPayload(owner: string, repo: string): (p: Payload)
    ensures "owner" in p && p["owner"] == Str(owner)
    ensures "repo" in p && p["repo"] == Str(repo)
    ensures forall k :: k in p ==> k == "owner" || k == "repo"
  {
    map["owner" := Str(owner), "repo" := Str(repo)]
  }

  /** The payload naming one pull request. */
  function PullPayload(owner: string, repo: string, n: int): (p: Payload)
    ensures "owner" in p && p["owner"] == Str(owner)
    ensures "repo" in p && p["repo"] == Str(repo)
    ensures "pullNumber" in p && p["pullNumber"] == Int(n)
    ensures forall k :: k in p ==> k == "owner" || k == "repo" || k == "pullNumber"
  {
    map["owner" := Str(owner), "repo" := Str(repo), "pullNumber" := Int(n)]
  }

  /** `owner, repo = parts[0].split("/")`: exactly two pieces, or the
      ValueError of the unpacking. */
  function RepoNames(field: string): (r: Parse<(string, string)>)
    ensures r.Fail? <==> |Split(field, "/")| != 2
    ensures r.Fail? ==> r.error == Unpack(2, |Split(field, "/")|)
    ensures r.Ok? ==> r.value == (Split(field, "/")[0], Split(field, "/")[1])
  {
    var pieces := Split(field, "/");
    if |pieces| != 2 then Fail(Unpack(2, |pieces|)) else Ok((pieces[0], pieces[1]))
  }

  /** `owner/repo` of two names without slashes unpacks to the two names. */
  lemma RepoNamesOf(owner: string, repo: string)
    requires '/' !in owner && '/' !in repo
    ensures RepoNames(owner + "/" + repo) == Ok((owner, repo))
  {
    SplitRepo(owner, repo);
  }

  /** The repository and `pull_number = int(parts[1])`, raising in that order. */
  function PullHeader(parts: seq<string>): (r: Parse<Payload>)
    requires |parts| >= 2
    ensures r.Fail? <==> RepoNames(parts[0]).Fail? || ParseInt(parts[1]).None?
    ensures RepoNames(parts[0]).Fail? ==> r == Fail(RepoNames(parts[0]).error)
    ensures RepoNames(parts[0]).Ok? && ParseInt(parts[1]).None? ==> r == Fail(IntValueError(parts[1]))
    ensures r.Ok? ==> r.value == PullPayload(RepoNames(parts[0]).value.0, RepoNames(parts[0]).value.1,
                                              ParseInt(parts[1]).value)
  {
    match RepoNames(parts[0])
    case Fail(e) => Fail(e)
    case Ok(names) =>
      match ParseInt(parts[1])
      case None => Fail(IntValueError(parts[1]))
      case Some(n) => Ok(PullPayload(names.0, names.1, n))
  }

  /** Well-formed header fields name the pull request they were built from. */
  lemma PullHeaderOf(owner: string, repo: string, n: int, parts: seq<string>)
    requires '/' !in owner && '/' !in repo
    requires |parts| >= 2 && parts[0] == owner + "/" + repo && parts[1] == IntToStr(n)
    ensures PullHeader(parts) == Ok(PullPayload(owner, repo, n))
  {
    RepoNamesOf(owner, repo);
    ParseIntToStr(n);
  }

  /** The `|`-fields of an input after `strip("`'\" \n\r\t")`. */
  function StrippedFields(input: string): (parts: seq<string>)
    ensures |parts| >= 1
  {
    Split(Strip(input, QuotesAndBlanks), "|")
  }

  /** Fields joined with `|` read back, when the first and last have nothing
      to trim. */
  lemma StrippedJoined(fields: seq<string>)
    requires |fields| >= 1 && Token(fields[0]) && Token(fields[|fields| - 1])
    requires forall i :: 0 <= i < |fields| ==> '|' !in fields[i]
    ensures StrippedFields(Join("|", fields)) == fields
    ensures Split(Join("|", fields), "|") == fields
  {
    JoinedFields(fields, QuotesAndBlanks);
  }

  /** `result.get("result", default)`, after a reported error. */
  function ResultText(result: map<string, Json>, failure: string, default: string, show: Json -> string): (answer: string)
    ensures "error" in result ==> answer == failure + show(result["error"])
    ensures "error" !in result && "result" in result ==> answer == show(result["result"])
    ensures "error" !in result && "result" !in result ==> answer == default
  {
    if "error" in result then failure + show(result["error"])
    else if "result" in result then show(result["result"])
    else default
  }
  /** The failure prefixes and defaults of the three wrappers that hand back
      `result["result"]`. */
  const ListPullsFailed: string := "Listing pull requests failed: "
  const NoPullRequests: string := "No pull requests found."
  const SearchPullsFailed: string := "Search failed: "
  const NoSearchResults: string := "No results returned."
  const PullFilesFailed: string := "Get pull request files failed: "
  const NoPullFiles: string := "No files found."


  // ---------------------------------------------------------------------
  // list_pull_requests: 'owner/repo|[state]|[base]|[head]|[sort]|[direction]|[page]|[perPage]'
  // ---------------------------------------------------------------------

  const ListPullsRepoError: string := "Error: Invalid repo identifier. Use format 'owner/repo'."
  const ListPullsPrefix: string := "Exception during list_pull_requests: "

  /** The optional positions 1 to 7. */
  const ListPullsSlots: seq<Slot> := [
    Slot(1, "state", Verbatim), Slot(2, "base", Verbatim), Slot(3, "head", Verbatim),
    Slot(4, "sort", Verbatim), Slot(5, "direction", Verbatim),
    Slot(6, "page", IntText), Slot(7, "perPage", IntText)]

  /** The request `list_pull_requests_tool` sends for its fields, or why it
      sends none. */
  function ListPullsOf(parts: seq<string>): (r: Outcome)
    requires |parts| >= 1
    ensures r.Reply? <==> |Split(parts[0], "/")| != 2
    ensures r.Reply? ==> r.text == ListPullsRepoError
    ensures r.Raised? ==> r.prefix == ListPullsPrefix && r.error.IntValueError?
    ensures r.Call? ==> r.tool == "list_pull_requests"
  {
    match RepoNames(parts[0])
    case Fail(_) => Reply(ListPullsRepoError)
    case Ok(names) =>
      match Written(RepoPayload(names.0, names.1), parts, ListPullsSlots)
      case Fail(e) =>
        WrittenRaisesInt(RepoPayload(names.0, names.1), parts, ListPullsSlots);
        Raised(ListPullsPrefix, e)
      case Ok(p) => Call("list_pull_requests", p)
  }

  /** `list_pull_requests_tool` up to the `call_mcp` call.
      It only composes the field split with `ListPullsOf`. */
  function ListPullsRequest(input: string): (r: Outcome) {
    ListPullsOf(StrippedFields(input))
  }

  /** The body of `list_pull_requests_tool` up to the `call_mcp` call. */
  method ListPullRequests(input: string) returns (r: Outcome)
    ensures r == ListPullsRequest(input)
  {
    var parts := StrippedFields(input);
    var ownerRepo := Split(parts[0], "/");
    if |ownerRepo| != 2 {
      return Reply(ListPullsRepoError);
    }
    var payload := WriteSlots(RepoPayload(ownerRepo[0], ownerRepo[1]), parts, ListPullsSlots);
    match payload
    case Fail(e) => r := Raised(ListPullsPrefix, e);
    case Ok(p) => r := Call("list_pull_requests", p);
  }

  /** The optional keys are all different, and none names the repository. */
  lemma ListPullsSlotsDistinct(owner: string, repo: string)
    ensures DistinctKeys(ListPullsSlots)
    ensures forall j :: 0 <= j < |ListPullsSlots| ==> ListPullsSlots[j].key !in RepoPayload(owner, repo)
  {
  }

  /** A first field `owner/repo` makes the request the guarded writes onto
      the payload naming that repository. */
  lemma ListPullsCall(owner: string, repo: string, parts: seq<string>)
    requires '/' !in owner && '/' !in repo && |parts| >= 1 && parts[0] == owner + "/" + repo
    ensures ListPullsOf(parts) == match Written(RepoPayload(owner, repo), parts, ListPullsSlots)
                                  case Fail(e) => Raised(ListPullsPrefix, e)
                                  case Ok(p) => Call("list_pull_requests", p)
  {
    RepoNamesOf(owner, repo);
  }

  /** The payload holds the repository's names, and each optional position
      exactly when it is there and not empty, converted as its slot says. */
  lemma ListPullsFields(owner: string, repo: string, parts: seq<string>, j: nat)
    requires Written(RepoPayload(owner, repo), parts, ListPullsSlots).Ok? && j < |ListPullsSlots|
    ensures var p := Written(RepoPayload(owner, repo), parts, ListPullsSlots).value;
      "owner" in p && p["owner"] == Str(owner) && "repo" in p && p["repo"] == Str(repo) &&
      SlotHolds(p, parts, ListPullsSlots[j])
  {
    var base := RepoPayload(owner, repo);
    ListPullsSlotsDistinct(owner, repo);
    SlotWritten(base, parts, ListPullsSlots, j);
    WrittenUnset(base, parts, ListPullsSlots, Converted, "owner");
    WrittenUnset(base, parts, ListPullsSlots, Converted, "repo");
  }

  /** Nothing beyond the repository and the seven optional keys is sent, so
      fields past position 7 are ignored. */
  lemma ListPullsOnlyKnown(parts: seq<string>, k: string)
    requires |parts| >= 1 && ListPullsOf(parts).Call? && k in ListPullsOf(parts).payload
    ensures k == "owner" || k == "repo" || exists j :: 0 <= j < |ListPullsSlots| && ListPullsSlots[j].key == k
  {
    var names := RepoNames(parts[0]).value;
    WrittenKeys(RepoPayload(names.0, names.1), parts, ListPullsSlots, Converted, k);
  }

  /** A text kept as it stands never raises. */
  lemma VerbatimNeverBreaks(parts: seq<string>, slot: Slot)
    requires slot.conv == Verbatim || slot.conv == Flag
    ensures !Breaks(parts, slot, Converted)
  {
  }

  /** Positions 1 to 5 are kept as they stand; position 6 is the page. */
  lemma ListPullsSlotsShape()
    ensures forall i :: 0 <= i < 5 ==> ListPullsSlots[i].conv == Verbatim
    ensures ListPullsSlots[5] == Slot(6, "page", IntText)
  {
  }

  /** A page that is not an integer raises its ValueError, since the text
      fields before it never raise. */
  lemma ListPullsBadPage(owner: string, repo: string, parts: seq<string>)
    requires Present(parts, 6) && ParseInt(parts[6]).None?
    ensures Written(RepoPayload(owner, repo), parts, ListPullsSlots) == Fail(IntValueError(parts[6]))
  {
    ListPullsSlotsShape();
    forall i | 0 <= i < 5
      ensures !Breaks(parts, ListPullsSlots[i], Converted)
    {
      VerbatimNeverBreaks(parts, ListPullsSlots[i]);
    }
    WrittenFirstError(RepoPayload(owner, repo), parts, ListPullsSlots, Converted, 5);
  }

  /** Fields joined with `|` are read back as they were. */
  lemma ListPullsJoined(fields: seq<string>)
    requires |fields| >= 1 && Token(fields[0]) && Token(fields[|fields| - 1])
    requires forall i :: 0 <= i < |fields| ==> '|' !in fields[i]
    ensures ListPullsRequest(Join("|", fields)) == ListPullsOf(fields)
  {
    StrippedJoined(fields);
  }

  // ---------------------------------------------------------------------
  // search_pull_requests: 'query|[owner]|[repo]|[sort]|[order]|[page]|[perPage]'
  // ---------------------------------------------------------------------

  const SearchPullsPrefix: string := "Exception during search_pull_requests: "

  /** The optional positions 1 to 6. */
  const SearchPullsSlots: seq<Slot> := [
    Slot(1, "owner", Verbatim), Slot(2, "repo", Verbatim), Slot(3, "sort", Verbatim),
    Slot(4, "order", Verbatim), Slot(5, "page", IntText), Slot(6, "perPage", IntText)]

  /** The request `search_pull_requests_tool` sends for its fields: the
      query as it stands, then the optional positions. */
  function SearchPullsOf(parts: seq<string>): (r: Outcome)
    requires |parts| >= 1
    ensures !r.Reply?
    ensures r.Raised? ==> r.prefix == SearchPullsPrefix && r.error.IntValueError?
    ensures r.Call? ==> r.tool == "search_pull_requests" && "query" in r.payload
  {
    var base := map["query" := Str(parts[0])];
    match Written(base, parts, SearchPullsSlots)
    case Fail(e) =>
      WrittenRaisesInt(base, parts, SearchPullsSlots);
      Raised(SearchPullsPrefix, e)
    case Ok(p) =>
      WrittenKeys(base, parts, SearchPullsSlots, Converted, "query");
      Call("search_pull_requests", p)
  }

  /** `search_pull_requests_tool` up to the `call_mcp` call; the input is not
      trimmed. It only composes the field split with `SearchPullsOf`. */
  function SearchPullsRequest(input: string): (r: Outcome) {
    SearchPullsOf(Split(input, "|"))
  }

  /** The body of `search_pull_requests_tool` up to the `call_mcp` call, one
      guarded write per optional position. */
  method SearchPullRequests(input: string) returns (r: Outcome)
    ensures r == SearchPullsRequest(input)
  {
    var parts := Split(input, "|");
    var base: Payload := map["query" := Str(parts[0])];
    ghost var done: seq<Slot> := [];
    var acc := Ok(base);
    acc := WriteSlot(acc, parts, Slot(1, "owner", Verbatim));
    WrittenSnoc(base, parts, done, Slot(1, "owner", Verbatim), Converted);
    done := done + [Slot(1, "owner", Verbatim)];
    acc := WriteSlot(acc, parts, Slot(2, "repo", Verbatim));
    WrittenSnoc(base, parts, done, Slot(2, "repo", Verbatim), Converted);
    done := done + [Slot(2, "repo", Verbatim)];
    acc := WriteSlot(acc, parts, Slot(3, "sort", Verbatim));
    WrittenSnoc(base, parts, done, Slot(3, "sort", Verbatim), Converted);
    done := done + [Slot(3, "sort", Verbatim)];
    acc := WriteSlot(acc, parts, Slot(4, "order", Verbatim));
    WrittenSnoc(base, parts, done, Slot(4, "order", Verbatim), Converted);
    done := done + [Slot(4, "order", Verbatim)];
    acc := WriteSlot(acc, parts, Slot(5, "page", IntText));
    WrittenSnoc(base, parts, done, Slot(5, "page", IntText), Converted);
    done := done + [Slot(5, "page", IntText)];
    acc := WriteSlot(acc, parts, Slot(6, "perPage", IntText));
    WrittenSnoc(base, parts, done, Slot(6, "perPage", IntText), Converted);
    done := done + [Slot(6, "perPage", IntText)];
    assert done == SearchPullsSlots;
    match acc
    case Fail(e) => r := Raised(SearchPullsPrefix, e);
    case Ok(p) => r := Call("search_pull_requests", p);
  }

  /** The query is the first field as written: it is never trimmed and no
      optional position overwrites it. */
  lemma SearchPullsQuery(parts: seq<string>)
    requires |parts| >= 1 && SearchPullsOf(parts).Call?
    ensures "query" in SearchPullsOf(parts).payload && SearchPullsOf(parts).payload["query"] == Str(parts[0])
  {
    SearchPullsSlotsFresh();
    KeyKept(map["query" := Str(parts[0])], parts, SearchPullsSlots, "query");
  }

  /** No search position writes the query. */
  lemma SearchPullsSlotsFresh()
    ensures forall j :: 0 <= j < |SearchPullsSlots| ==> SearchPullsSlots[j].key != "query"
  {
  }


  // ---------------------------------------------------------------------
  // create_pull_request: 'owner/repo|title|head_branch|base_branch|[body]|[draft]'
  // ---------------------------------------------------------------------

  const CreatePullFormatError: string :=
    "Error: Invalid input. Format: 'owner/repo|title|head_branch|base_branch|[body]|[draft]'"
  const CreatePullPrefix: string := "Exception during create_pull_request: "

  /** The payload of a new pull request. */
  function CreatePullPayload(owner: string, repo: string, title: string, head: string, base: string,
                             body: string, draft: bool): (p: Payload)
    ensures "owner" in p && p["owner"] == Str(owner)
    ensures "repo" in p && p["repo"] == Str(repo)
    ensures "title" in p && p["title"] == Str(title)
    ensures "head" in p && p["head"] == Str(head)
    ensures "base" in p && p["base"] == Str(base)
    ensures "body" in p && p["body"] == Str(body)
    ensures "draft" in p && p["draft"] == Bool(draft)
    ensures forall k :: k in p ==>
              k == "owner" || k == "repo" || k == "title" || k == "head" || k == "base" || k == "body" || k == "draft"
  {
    map["owner" := Str(owner), "repo" := Str(repo), "title" := Str(title), "head" := Str(head),
        "base" := Str(base), "body" := Str(body), "draft" := Bool(draft)]
  }

  /** `draft = parts[5].lower() == "true" if len(parts) > 5 else False`. */
  function DraftFlag(parts: seq<string>): (draft: bool)
    ensures draft <==> |parts| > 5 && IsTrue(parts[5])
  {
    |parts| > 5 && IsTrue(parts[5])
  }

  /** The request `create_pull_request_tool` sends for its fields, or why it
      sends none. */
  function CreatePullOf(parts: seq<string>): (r: Outcome)
    ensures r.Reply? <==> |parts| < 4
    ensures r.Reply? ==> r.text == CreatePullFormatError
    ensures r.Raised? <==> |parts| >= 4 && RepoNames(parts[0]).Fail?
    ensures r.Raised? ==> r == Raised(CreatePullPrefix, RepoNames(parts[0]).error)
    ensures r.Call? ==> r.tool == "create_pull_request"
    ensures r.Call? ==> r.payload == CreatePullPayload(RepoNames(parts[0]).value.0, RepoNames(parts[0]).value.1,
                                     parts[1], parts[2], parts[3], FieldOr(parts, 4, ""), DraftFlag(parts))
  {
    if |parts| < 4 then Reply(CreatePullFormatError)
    else
      match RepoNames(parts[0])
      case Fail(e) => Raised(CreatePullPrefix, e)
      case Ok(names) =>
        Call("create_pull_request",
             CreatePullPayload(names.0, names.1, parts[1], parts[2], parts[3], FieldOr(parts, 4, ""), DraftFlag(parts)))
  }

  /** `create_pull_request_tool` up to the `call_mcp` call.
      It only composes the field split with `CreatePullOf`. */
  function CreatePullRequest(input: string): (r: Outcome) {
    CreatePullOf(StrippedFields(input))
  }

  /** The four required fields alone open a pull request with an empty body
      that is not a draft. */
  lemma CreatePullDefaults(owner: string, repo: string, title: string, head: string, base: string)
    requires '/' !in owner && '/' !in repo
    ensures CreatePullOf([owner + "/" + repo, title, head, base]) ==
              Call("create_pull_request", CreatePullPayload(owner, repo, title, head, base, "", false))
  {
    RepoNamesOf(owner, repo);
  }

  /** Well-formed fields read back: the names, the texts as they stand, and
      `draft` from the sixth field's case-insensitive "true". */
  lemma CreatePullRoundTrip(owner: string, repo: string, fields: seq<string>)
    requires Name(owner) && Name(repo) && 4 <= |fields| && fields[0] == owner + "/" + repo
    requires Token(fields[|fields| - 1]) && forall i :: 0 <= i < |fields| ==> '|' !in fields[i]
    ensures CreatePullRequest(Join("|", fields)) ==
              Call("create_pull_request", CreatePullPayload(owner, repo, fields[1], fields[2], fields[3],
                                                            FieldOr(fields, 4, ""), DraftFlag(fields)))
  {
    RepoField(owner, repo);
    StrippedJoined(fields);
    assert CreatePullRequest(Join("|", fields)) == CreatePullOf(fields);
    RepoNamesOf(owner, repo);
    CreatePullNamed(owner, repo, fields);
  }

  /** Fields whose first one names a repository open a pull request on it. */
  lemma CreatePullNamed(owner: string, repo: string, parts: seq<string>)
    requires 4 <= |parts| && RepoNames(parts[0]) == Ok((owner, repo))
    ensures CreatePullOf(parts) ==
              Call("create_pull_request", CreatePullPayload(owner, repo, parts[1], parts[2], parts[3],
                                                            FieldOr(parts, 4, ""), DraftFlag(parts)))
  {
  }

  /** Any capitalisation of "true" asks for a draft. */
  lemma DraftAnyCase(parts: seq<string>)
    requires |parts| > 5 && |parts[5]| == 4
    requires parts[5][0] in {'t', 'T'} && parts[5][1] in {'r', 'R'}
    requires parts[5][2] in {'u', 'U'} && parts[5][3] in {'e', 'E'}
    ensures DraftFlag(parts)
  {
    assert Lower(parts[5]) == "true";
  }

  // ---------------------------------------------------------------------
  // update_pull_request: 'owner/repo|pull_number|[title]|[body]|[base]|[state]|[maintainer_can_modify]'
  // merge_pull_request: 'owner/repo|pull_number|[merge_method]|[commit_title]|[commit_message]'
  // get_pull_request_files: 'owner/repo|pull_number|[page]|[perPage]'
  // ---------------------------------------------------------------------

  const UpdatePullFormatError: string :=
    "Error: Invalid input. Format: 'owner/repo|pull_number|[title]|[body]|[base]|[state]|[maintainer_can_modify]'"
  const UpdatePullPrefix: string := "Exception during update_pull_request: "

  const MergePullFormatError: string :=
    "Error: Invalid input. Format: 'owner/repo|pull_number|[merge_method]|[commit_title]|[commit_message]'"
  const MergePullPrefix: string := "Exception during merge_pull_request: "

  const PullFilesFormatError: string := "Error: Invalid input. Format: 'owner/repo|pull_number|[page]|[perPage]'"
  const PullFilesPrefix: string := "Exception during get_pull_request_files: "

  /** The optional positions 2 to 6 of an update. */
  const UpdatePullSlots: seq<Slot> := [
    Slot(2, "title", Verbatim), Slot(3, "body", Verbatim), Slot(4, "base", Verbatim),
    Slot(5, "state", Verbatim), Slot(6, "maintainer_can_modify", Flag)]

  /** The optional positions 2 to 4 of a merge. */
  const MergePullSlots: seq<Slot> := [
    Slot(2, "merge_method", Verbatim), Slot(3, "commit_title", Verbatim), Slot(4, "commit_message", Verbatim)]

  /** The optional positions 2 and 3 of a file listing, as integers. */
  const PullFilesSlots: seq<Slot> := [Slot(2, "page", IntValue), Slot(3, "perPage", IntValue)]

  /** The shape shared by the wrappers that name one pull request and then
      write optional positions: too few fields is a format error, a bad
      repository or number raises, and so does an optional `int()`. */
  function PullWithSlots(parts: seq<string>, minimum: nat, formatError: string, prefix: string,
                         tool: string, slots: seq<Slot>): (r: Outcome)
    requires minimum >= 2
    ensures r.Reply? <==> |parts| < minimum
    ensures r.Reply? ==> r.text == formatError
    ensures r.Raised? ==> r.prefix == prefix
    ensures |parts| >= minimum && PullHeader(parts).Fail? ==> r == Raised(prefix, PullHeader(parts).error)
    ensures r.Call? ==> r.tool == tool && PullHeader(parts).Ok? &&
                        Written(PullHeader(parts).value, parts, slots) == Ok(r.payload)
  {
    if |parts| < minimum then Reply(formatError)
    else
      match PullHeader(parts)
      case Fail(e) => Raised(prefix, e)
      case Ok(header) =>
        match Written(header, parts, slots)
        case Fail(e) => Raised(prefix, e)
        case Ok(p) => Call(tool, p)
  }

  /** `update_pull_request_tool` up to the `call_mcp` call.
      It only composes the field split with `PullWithSlots`. */
  function UpdatePullRequest(input: string): (r: Outcome) {
    PullWithSlots(StrippedFields(input), 2, UpdatePullFormatError, UpdatePullPrefix, "update_pull_request", UpdatePullSlots)
  }

  /** `merge_pull_request_tool` up to the `call_mcp` call.
      It only composes the field split with `PullWithSlots`. */
  function MergePullRequest(input: string): (r: Outcome) {
    PullWithSlots(StrippedFields(input), 2, MergePullFormatError, MergePullPrefix, "merge_pull_request", MergePullSlots)
  }

  /** `get_pull_request_files_tool` up to the `call_mcp` call; the input is
      not trimmed. It only composes the field split with `PullWithSlots`. */
  function PullFilesRequest(input: string): (r: Outcome) {
    PullWithSlots(Split(input, "|"), 2, PullFilesFormatError, PullFilesPrefix, "get_pull_request_files", PullFilesSlots)
  }

  /** The guarded writes of positions 2 to 6 of an update. */
  method WriteUpdateSlots(header: Payload, parts: seq<string>) returns (r: Parse<Payload>)
    ensures r == Written(header, parts, UpdatePullSlots)
  {
    ghost var done: seq<Slot> := [];
    r := Ok(header);
    r := WriteSlot(r, parts, Slot(2, "title", Verbatim));
    WrittenSnoc(header, parts, done, Slot(2, "title", Verbatim), Converted);
    done := done + [Slot(2, "title", Verbatim)];
    r := WriteSlot(r, parts, Slot(3, "body", Verbatim));
    WrittenSnoc(header, parts, done, Slot(3, "body", Verbatim), Converted);
    done := done + [Slot(3, "body", Verbatim)];
    r := WriteSlot(r, parts, Slot(4, "base", Verbatim));
    WrittenSnoc(header, parts, done, Slot(4, "base", Verbatim), Converted);
    done := done + [Slot(4, "base", Verbatim)];
    r := WriteSlot(r, parts, Slot(5, "state", Verbatim));
    WrittenSnoc(header, parts, done, Slot(5, "state", Verbatim), Converted);
    done := done + [Slot(5, "state", Verbatim)];
    r := WriteSlot(r, parts, Slot(6, "maintainer_can_modify", Flag));
    WrittenSnoc(header, parts, done, Slot(6, "maintainer_can_modify", Flag), Converted);
    done := done + [Slot(6, "maintainer_can_modify", Flag)];
    assert done == UpdatePullSlots;
  }

  /** The guarded writes of positions 2 to 4 of a merge. */
  method WriteMergeSlots(header: Payload, parts: seq<string>) returns (r: Parse<Payload>)
    ensures r == Written(header, parts, MergePullSlots)
  {
    ghost var done: seq<Slot> := [];
    r := Ok(header);
    r := WriteSlot(r, parts, Slot(2, "merge_method", Verbatim));
    WrittenSnoc(header, parts, done, Slot(2, "merge_method", Verbatim), Converted);
    done := done + [Slot(2, "merge_method", Verbatim)];
    r := WriteSlot(r, parts, Slot(3, "commit_title", Verbatim));
    WrittenSnoc(header, parts, done, Slot(3, "commit_title", Verbatim), Converted);
    done := done + [Slot(3, "commit_title", Verbatim)];
    r := WriteSlot(r, parts, Slot(4, "commit_message", Verbatim));
    WrittenSnoc(header, parts, done, Slot(4, "commit_message", Verbatim), Converted);
    done := done + [Slot(4, "commit_message", Verbatim)];
    assert done == MergePullSlots;
  }

  /** The guarded `int()` writes of page and perPage of a file listing. */
  method WriteFilesSlots(header: Payload, parts: seq<string>) returns (r: Parse<Payload>)
    ensures r == Written(header, parts, PullFilesSlots)
  {
    ghost var done: seq<Slot> := [];
    r := Ok(header);
    r := WriteSlot(r, parts, Slot(2, "page", IntValue));
    WrittenSnoc(header, parts, done, Slot(2, "page", IntValue), Converted);
    done := done + [Slot(2, "page", IntValue)];
    r := WriteSlot(r, parts, Slot(3, "perPage", IntValue));
    WrittenSnoc(header, parts, done, Slot(3, "perPage", IntValue), Converted);
    done := done + [Slot(3, "perPage", IntValue)];
    assert done == PullFilesSlots;
  }

  /** The body of `update_pull_request_tool` up to the `call_mcp` call. */
  method UpdatePull(input: string) returns (r: Outcome)
    ensures r == UpdatePullRequest(input)
  {
    var parts := StrippedFields(input);
    if |parts| < 2 {
      return Reply(UpdatePullFormatError);
    }
    var header := PullHeader(parts);
    if header.Fail? {
      return Raised(UpdatePullPrefix, header.error);
    }
    var written := WriteUpdateSlots(header.value, parts);
    match written
    case Fail(e) => r := Raised(UpdatePullPrefix, e);
    case Ok(p) => r := Call("update_pull_request", p);
  }

  /** The body of `merge_pull_request_tool` up to the `call_mcp` call. */
  method MergePull(input: string) returns (r: Outcome)
    ensures r == MergePullRequest(input)
  {
    var parts := StrippedFields(input);
    if |parts| < 2 {
      return Reply(MergePullFormatError);
    }
    var header := PullHeader(parts);
    if header.Fail? {
      return Raised(MergePullPrefix, header.error);
    }
    var written := WriteMergeSlots(header.value, parts);
    match written
    case Fail(e) => r := Raised(MergePullPrefix, e);
    case Ok(p) => r := Call("merge_pull_request", p);
  }

  /** The body of `get_pull_request_files_tool` up to the `call_mcp` call; the input is not trimmed. */
  method GetPullFiles(input: string) returns (r: Outcome)
    ensures r == PullFilesRequest(input)
  {
    var parts := Split(input, "|");
    if |parts| < 2 {
      return Reply(PullFilesFormatError);
    }
    var header := PullHeader(parts);
    if header.Fail? {
      return Raised(PullFilesPrefix, header.error);
    }
    var written := WriteFilesSlots(header.value, parts);
    match written
    case Fail(e) => r := Raised(PullFilesPrefix, e);
    case Ok(p) => r := Call("get_pull_request_files", p);
  }

  /** Text and flag positions never raise, so an update or a merge that
      names its pull request well always goes out. */
  lemma TextSlotsNeverRaise(start: Payload, parts: seq<string>, slots: seq<Slot>)
    requires forall j :: 0 <= j < |slots| ==> slots[j].conv == Verbatim || slots[j].conv == Flag
    ensures Written(start, parts, slots).Ok?
  {
    WrittenFails(start, parts, slots, Converted);
    forall j | 0 <= j < |slots|
      ensures !Breaks(parts, slots[j], Converted)
    {
      VerbatimNeverBreaks(parts, slots[j]);
    }
  }

  /** A wrapper whose pull request is named well sends the header with the
      optional positions written over it. */
  lemma PullWithSlotsOf(owner: string, repo: string, n: int, parts: seq<string>, minimum: nat,
                        formatError: string, prefix: string, tool: string, slots: seq<Slot>)
    requires '/' !in owner && '/' !in repo && minimum >= 2 && |parts| >= minimum
    requires parts[0] == owner + "/" + repo && parts[1] == IntToStr(n)
    ensures PullWithSlots(parts, minimum, formatError, prefix, tool, slots) ==
              match Written(PullPayload(owner, repo, n), parts, slots)
              case Fail(e) => Raised(prefix, e)
              case Ok(p) => Call(tool, p)
  {
    PullHeaderOf(owner, repo, n, parts);
  }

  /** The payload of a pull request keeps its number, and holds each optional
      position exactly when it is there and not empty, converted. */
  lemma PullSlotWritten(owner: string, repo: string, n: int, parts: seq<string>, slots: seq<Slot>, j: nat)
    requires Written(PullPayload(owner, repo, n), parts, slots).Ok? && DistinctKeys(slots) && j < |slots|
    requires forall i :: 0 <= i < |slots| ==> slots[i].key !in PullPayload(owner, repo, n)
    ensures "pullNumber" in PullPayload(owner, repo, n)
    ensures var p := Written(PullPayload(owner, repo, n), parts, slots).value;
      "pullNumber" in p && p["pullNumber"] == Int(n) && SlotHolds(p, parts, slots[j])
  {
    var base := PullPayload(owner, repo, n);
    SlotWritten(base, parts, slots, j);
    KeyKept(base, parts, slots, "pullNumber");
  }

  /** No update or merge key collides with the pull request's own keys. */
  lemma TextSlotsFresh(owner: string, repo: string, n: int)
    ensures DistinctKeys(UpdatePullSlots) && DistinctKeys(MergePullSlots) && DistinctKeys(PullFilesSlots)
    ensures forall i :: 0 <= i < |UpdatePullSlots| ==> UpdatePullSlots[i].key !in PullPayload(owner, repo, n)
    ensures forall i :: 0 <= i < |MergePullSlots| ==> MergePullSlots[i].key !in PullPayload(owner, repo, n)
    ensures forall i :: 0 <= i < |PullFilesSlots| ==> PullFilesSlots[i].key !in PullPayload(owner, repo, n)
  {
  }

  /** Updates and merges write only texts and flags. */
  lemma TextSlotsShape()
    ensures forall i :: 0 <= i < |UpdatePullSlots| ==> UpdatePullSlots[i].conv == Verbatim || UpdatePullSlots[i].conv == Flag
    ensures forall i :: 0 <= i < |MergePullSlots| ==> MergePullSlots[i].conv == Verbatim
    ensures forall i :: 0 <= i < |PullFilesSlots| ==> PullFilesSlots[i].conv == IntValue
  {
  }

  /** A well-formed update always goes out: it names its pull request, and
      holds each optional position exactly when it is there and not empty,
      texts as they stand and `maintainer_can_modify` as the case-insensitive
      "true". */
  lemma UpdatePullFields(owner: string, repo: string, n: int, fields: seq<string>, j: nat)
    requires Name(owner) && Name(repo) && |fields| >= 2
    requires fields[0] == owner + "/" + repo && fields[1] == IntToStr(n)
    requires Token(fields[|fields| - 1]) && forall i :: 0 <= i < |fields| ==> '|' !in fields[i]
    requires j < |UpdatePullSlots|
    ensures UpdatePullRequest(Join("|", fields)).Call?
    ensures var p := UpdatePullRequest(Join("|", fields)).payload;
      "pullNumber" in p && p["pullNumber"] == Int(n) && SlotHolds(p, fields, UpdatePullSlots[j])
  {
    RepoField(owner, repo);
    StrippedJoined(fields);
    PullWithSlotsOf(owner, repo, n, fields, 2, UpdatePullFormatError, UpdatePullPrefix, "update_pull_request", UpdatePullSlots);
    TextSlotsShape();
    TextSlotsNeverRaise(PullPayload(owner, repo, n), fields, UpdatePullSlots);
    TextSlotsFresh(owner, repo, n);
    PullSlotWritten(owner, repo, n, fields, UpdatePullSlots, j);
  }

  /** A well-formed merge always goes out: it names its pull request, and
      holds each optional position exactly when it is there and not empty. */
  lemma MergePullFields(owner: string, repo: string, n: int, fields: seq<string>, j: nat)
    requires Name(owner) && Name(repo) && |fields| >= 2
    requires fields[0] == owner + "/" + repo && fields[1] == IntToStr(n)
    requires Token(fields[|fields| - 1]) && forall i :: 0 <= i < |fields| ==> '|' !in fields[i]
    requires j < |MergePullSlots|
    ensures MergePullRequest(Join("|", fields)).Call?
    ensures var p := MergePullRequest(Join("|", fields)).payload;
      "pullNumber" in p && p["pullNumber"] == Int(n) &&
      TextHolds(p, fields, MergePullSlots[j].key, MergePullSlots[j].index)
  {
    RepoField(owner, repo);
    StrippedJoined(fields);
    PullWithSlotsOf(owner, repo, n, fields, 2, MergePullFormatError, MergePullPrefix, "merge_pull_request", MergePullSlots);
    TextSlotsShape();
    TextSlotsNeverRaise(PullPayload(owner, repo, n), fields, MergePullSlots);
    TextSlotsFresh(owner, repo, n);
    PullSlotWritten(owner, repo, n, fields, MergePullSlots, j);
  }

  /** A file listing's page and perPage are sent as the integers written,
      and only when given. */
  lemma PullFilesPaging(owner: string, repo: string, n: int, fields: seq<string>, j: nat)
    requires '/' !in owner && '/' !in repo && |fields| >= 2
    requires fields[0] == owner + "/" + repo && fields[1] == IntToStr(n)
    requires j < |PullFilesSlots| && Written(PullPayload(owner, repo, n), fields, PullFilesSlots).Ok?
    ensures PullWithSlots(fields, 2, PullFilesFormatError, PullFilesPrefix, "get_pull_request_files", PullFilesSlots).Call?
    ensures var p := PullWithSlots(fields, 2, PullFilesFormatError, PullFilesPrefix, "get_pull_request_files",
                                   PullFilesSlots).payload;
      (PullFilesSlots[j].key in p <==> Present(fields, PullFilesSlots[j].index)) &&
      (Present(fields, PullFilesSlots[j].index) ==>
         ParseInt(fields[PullFilesSlots[j].index]).Some? &&
         p[PullFilesSlots[j].key] == Int(ParseInt(fields[PullFilesSlots[j].index]).value))
  {
    PullWithSlotsOf(owner, repo, n, fields, 2, PullFilesFormatError, PullFilesPrefix, "get_pull_request_files", PullFilesSlots);
    TextSlotsFresh(owner, repo, n);
    TextSlotsShape();
    PullSlotWritten(owner, repo, n, fields, PullFilesSlots, j);
  }

  /** The unsplit input of `get_pull_request_files_tool` splits back into the
      fields joined. */
  lemma PullFilesJoined(fields: seq<string>)
    requires |fields| >= 1 && forall i :: 0 <= i < |fields| ==> '|' !in fields[i]
    ensures PullFilesRequest(Join("|", fields)) ==
              PullWithSlots(fields, 2, PullFilesFormatError, PullFilesPrefix, "get_pull_request_files", PullFilesSlots)
  {
    SplitJoin(fields, "|");
  }

  // ---------------------------------------------------------------------
  // create_and_submit_pull_request_review: 'owner/repo|pull_number|event|commit_sha|[body]'
  // submit_pending_pull_request_review: 'owner/repo|pull_number|event|[body]'
  // ---------------------------------------------------------------------

  const ReviewFormatError: string := "Error: Invalid input. Format: 'owner/repo|pull_number|event|commit_sha|[body]'"
  const ReviewPrefix: string := "Exception during create_and_submit_pull_request_review: "
  const PendingFormatError: string := "Error: Invalid input. Format: 'owner/repo|pull_number|event|[body]'"
  const PendingPrefix: string := "Exception during submit_pending_pull_request_review: "
  const EventError: string := "Error: event must be APPROVE, REQUEST_CHANGES, or COMMENT"

  /** The review events the server accepts. */
  const ReviewEvents: set<string> := {"APPROVE", "REQUEST_CHANGES", "COMMENT"}

  /** The payload of a submitted review. */
  function ReviewPayload(header: Payload, event: string, body: string): (p: Payload)
    ensures forall k :: k in header && k != "event" && k != "body" ==> k in p && p[k] == header[k]
    ensures "event" in p && p["event"] == Str(event)
    ensures "body" in p && p["body"] == Str(body)
    ensures forall k :: k in p ==> k in header || k == "event" || k == "body"
  {
    header["event" := Str(event)]["body" := Str(body)]
  }

  /** The request `create_and_submit_pull_request_review_tool` sends for its
      fields, or why it sends none. The event is checked after the number. */
  function ReviewOf(parts: seq<string>): (r: Outcome)
    ensures r.Reply? <==> |parts| < 4 || (PullHeader(parts).Ok? && Upper(parts[2]) !in ReviewEvents)
    ensures r.Reply? ==> r.text == (if |parts| < 4 then ReviewFormatError else EventError)
    ensures r.Raised? <==> |parts| >= 4 && PullHeader(parts).Fail?
    ensures r.Call? ==> r.tool == "create_and_submit_pull_request_review" && Upper(parts[2]) in ReviewEvents
    ensures r.Call? ==>
              r.payload == ReviewPayload(PullHeader(parts).value, Upper(parts[2]), FieldOr(parts, 4, ""))["commitID" := Str(parts[3])]
  {
    if |parts| < 4 then Reply(ReviewFormatError)
    else
      match PullHeader(parts)
      case Fail(e) => Raised(ReviewPrefix, e)
      case Ok(header) =>
        var event := Upper(parts[2]);
        if event !in ReviewEvents then Reply(EventError)
        else Call("create_and_submit_pull_request_review",
                  ReviewPayload(header, event, FieldOr(parts, 4, ""))["commitID" := Str(parts[3])])
  }

  /** `create_and_submit_pull_request_review_tool` up to the `call_mcp` call.
      It only composes the field split with `ReviewOf`. */
  function ReviewRequest(input: string): (r: Outcome) {
    ReviewOf(StrippedFields(input))
  }

  /** The request `submit_pending_pull_request_review_tool` sends for its
      fields, or why it sends none. */
  function PendingOf(parts: seq<string>): (r: Outcome)
    ensures r.Reply? <==> |parts| < 3 || (PullHeader(parts).Ok? && Upper(parts[2]) !in ReviewEvents)
    ensures r.Reply? ==> r.text == (if |parts| < 3 then PendingFormatError else EventError)
    ensures r.Raised? <==> |parts| >= 3 && PullHeader(parts).Fail?
    ensures r.Call? ==> r.tool == "submit_pending_pull_request_review" && Upper(parts[2]) in ReviewEvents
    ensures r.Call? ==> r.payload == ReviewPayload(PullHeader(parts).value, Upper(parts[2]), FieldOr(parts, 3, ""))
  {
    if |parts| < 3 then Reply(PendingFormatError)
    else
      match PullHeader(parts)
      case Fail(e) => Raised(PendingPrefix, e)
      case Ok(header) =>
        var event := Upper(parts[2]);
        if event !in ReviewEvents then Reply(EventError)
        else Call("submit_pending_pull_request_review", ReviewPayload(header, event, FieldOr(parts, 3, "")))
  }

  /** `submit_pending_pull_request_review_tool` up to the `call_mcp` call.
      It only composes the field split with `PendingOf`. */
  function PendingRequest(input: string): (r: Outcome) {
    PendingOf(StrippedFields(input))
  }

  /** The accepted events are upper case already, so each is read as itself. */
  lemma EventsUpper(e: string)
    requires e in ReviewEvents
    ensures Upper(e) == e
  {
  }

  /** Lower-case events are accepted too. */
  lemma EventLowerCase()
    ensures Upper("approve") == "APPROVE" && Upper("comment") == "COMMENT"
    ensures Upper("request_changes") == "REQUEST_CHANGES"
  {
  }

  /** An accepted event is sent as written. */
  lemma PendingAccepted(parts: seq<string>)
    requires |parts| >= 3 && PullHeader(parts).Ok? && parts[2] in ReviewEvents
    ensures PendingOf(parts) ==
              Call("submit_pending_pull_request_review", ReviewPayload(PullHeader(parts).value, parts[2], FieldOr(parts, 3, "")))
  {
    EventsUpper(parts[2]);
  }

  /** An accepted event is sent as written, with the commit. */
  lemma ReviewAccepted(parts: seq<string>)
    requires |parts| >= 4 && PullHeader(parts).Ok? && parts[2] in ReviewEvents
    ensures ReviewOf(parts) ==
              Call("create_and_submit_pull_request_review",
                   ReviewPayload(PullHeader(parts).value, parts[2], FieldOr(parts, 4, ""))["commitID" := Str(parts[3])])
  {
    EventsUpper(parts[2]);
  }

  /** A well-formed pending-review submission goes out with its event and
      body. */
  lemma PendingRoundTrip(owner: string, repo: string, n: int, event: string, fields: seq<string>)
    requires Name(owner) && Name(repo) && event in ReviewEvents && |fields| >= 3
    requires fields[0] == owner + "/" + repo && fields[1] == IntToStr(n) && fields[2] == event
    requires Token(fields[|fields| - 1]) && forall i :: 0 <= i < |fields| ==> '|' !in fields[i]
    ensures PendingRequest(Join("|", fields)) ==
              Call("submit_pending_pull_request_review", ReviewPayload(PullPayload(owner, repo, n), event, FieldOr(fields, 3, "")))
  {
    RepoField(owner, repo);
    StrippedJoined(fields);
    PullHeaderOf(owner, repo, n, fields);
    PendingAccepted(fields);
  }

  /** A well-formed review goes out with its event, commit and body. */
  lemma ReviewRoundTrip(owner: string, repo: string, n: int, event: string, fields: seq<string>)
    requires Name(owner) && Name(repo) && event in ReviewEvents && |fields| >= 4
    requires fields[0] == owner + "/" + repo && fields[1] == IntToStr(n) && fields[2] == event
    requires Token(fields[|fields| - 1]) && forall i :: 0 <= i < |fields| ==> '|' !in fields[i]
    ensures ReviewRequest(Join("|", fields)) ==
              Call("create_and_submit_pull_request_review",
                   ReviewPayload(PullPayload(owner, repo, n), event, FieldOr(fields, 4, ""))["commitID" := Str(fields[3])])
  {
    RepoField(owner, repo);
    StrippedJoined(fields);
    PullHeaderOf(owner, repo, n, fields);
    ReviewAccepted(fields);
  }

  // ---------------------------------------------------------------------
  // add_pull_request_review_comment_to_pending_review:
  //   'owner/repo|pull_number|path|body|subjectType|side|line|[startSide]|[startLine]'
  // ---------------------------------------------------------------------

  const CommentFormatError: string :=
    "Error: Invalid input. Format: 'owner/repo|pull_number|path|body|subjectType|side|line|[startSide]|[startLine]'"
  const CommentPrefix: string := "Exception during add_pull_request_review_comment_to_pending_review: "

  /** The optional positions 7 and 8. */
  const CommentSlots: seq<Slot> := [Slot(7, "startSide", Verbatim), Slot(8, "startLine", TrimmedInt)]

  /** The eight required keys of a review comment. */
  function CommentPayload(header: Payload, path: string, body: string, subjectType: string, side: string,
                          line: int): (p: Payload)
    ensures forall k :: k in header ==> k in p
    ensures "path" in p && p["path"] == Str(path)
    ensures "body" in p && p["body"] == Str(body)
    ensures "subjectType" in p && p["subjectType"] == Str(subjectType)
    ensures "side" in p && p["side"] == Str(side)
    ensures "line" in p && p["line"] == Int(line)
    ensures forall k :: k in p <==> k in header || k in {"path", "body", "subjectType", "side", "line"}
    ensures forall k :: k in header && k !in {"path", "body", "subjectType", "side", "line"} ==> p[k] == header[k]
  {
    header["path" := Str(path)]["body" := Str(body)]["subjectType" := Str(subjectType)]["side" := Str(side)]
      ["line" := Int(line)]
  }

  /** `line = int(parts[6].strip("` \n\r\t"))`. */
  function LineNumber(parts: seq<string>): Option<int>
    requires |parts| >= 7
  {
    ParseInt(Strip(parts[6], BacktickAndBlanks))
  }

  /** The required payload, or the first exception raised building it. */
  function CommentBase(parts: seq<string>): (r: Parse<Payload>)
    requires |parts| >= 7
    ensures r.Fail? <==> PullHeader(parts).Fail? || LineNumber(parts).None?
    ensures PullHeader(parts).Fail? ==> r == Fail(PullHeader(parts).error)
    ensures PullHeader(parts).Ok? && LineNumber(parts).None? ==>
              r == Fail(IntValueError(Strip(parts[6], BacktickAndBlanks)))
    ensures r.Ok? ==> r.value == CommentPayload(PullHeader(parts).value, parts[2], parts[3], parts[4], parts[5],
                                                LineNumber(parts).value)
  {
    match PullHeader(parts)
    case Fail(e) => Fail(e)
    case Ok(header) =>
      match LineNumber(parts)
      case None => Fail(IntValueError(Strip(parts[6], BacktickAndBlanks)))
      case Some(line) => Ok(CommentPayload(header, parts[2], parts[3], parts[4], parts[5], line))
  }

  /** The request `add_pull_request_review_comment_to_pending_review_tool`
      sends for its fields, or why it sends none. */
  function CommentOf(parts: seq<string>): (r: Outcome)
    ensures r.Reply? <==> |parts| < 7
    ensures r.Reply? ==> r.text == CommentFormatError
    ensures r.Raised? ==> r.prefix == CommentPrefix
    ensures |parts| >= 7 && CommentBase(parts).Fail? ==> r == Raised(CommentPrefix, CommentBase(parts).error)
    ensures r.Call? ==> && |parts| >= 7 && r.tool == "add_pull_request_review_comment_to_pending_review"
                        && CommentBase(parts).Ok? && Written(CommentBase(parts).value, parts, CommentSlots) == Ok(r.payload)
  {
    if |parts| < 7 then Reply(CommentFormatError) else CommentFrom(CommentBase(parts), parts)
  }

  /** The review-comment request once the required payload is parsed: the
      parse error, the error of a guarded addition, or the call. */
  function CommentFrom(base: Parse<Payload>, parts: seq<string>): (r: Outcome)
    ensures !r.Reply?
    ensures r.Raised? ==> r.prefix == CommentPrefix
    ensures base.Fail? ==> r == Raised(CommentPrefix, base.error)
    ensures r.Call? ==> && r.tool == "add_pull_request_review_comment_to_pending_review"
                        && base.Ok? && Written(base.value, parts, CommentSlots) == Ok(r.payload)
  {
    match base
    case Fail(e) => Raised(CommentPrefix, e)
    case Ok(payload) =>
      match Written(payload, parts, CommentSlots)
      case Fail(e) => Raised(CommentPrefix, e)
      case Ok(p) => Call("add_pull_request_review_comment_to_pending_review", p)
  }

  /** `add_pull_request_review_comment_to_pending_review_tool` up to the
      `call_mcp` call. It only composes the field split with `CommentOf`. */
  function CommentRequest(input: string): (r: Outcome) {
    CommentOf(StrippedFields(input))
  }

  /** The body of the review-comment wrapper up to the `call_mcp` call: the
      required payload, then the two guarded additions. */
  method AddReviewComment(input: string) returns (r: Outcome)
    ensures r == CommentRequest(input)
  {
    var parts := StrippedFields(input);
    r := SendComment(parts);
  }

  /** The review-comment request for fields already split. */
  method SendComment(parts: seq<string>) returns (r: Outcome)
    ensures r == CommentOf(parts)
  {
    if |parts| < 7 {
      return Reply(CommentFormatError);
    }
    var required := CommentBase(parts);
    if required.Fail? {
      return Raised(CommentPrefix, required.error);
    }
    var base := required.value;
    var written := WriteSlot(Ok(base), parts, Slot(7, "startSide", Verbatim));
    written := WriteSlot(written, parts, Slot(8, "startLine", TrimmedInt));
    WrittenPair(base, parts, Slot(7, "startSide", Verbatim), Slot(8, "startLine", TrimmedInt));
    match written
    case Fail(e) => r := Raised(CommentPrefix, e);
    case Ok(p) => r := Call("add_pull_request_review_comment_to_pending_review", p);
  }

  /** The start line is read like the line: trimmed of backticks and blanks,
      then `int()`; a start line that is not an integer raises. */
  lemma CommentStartLine(base: Payload, parts: seq<string>)
    requires |parts| >= 9 && parts[8] != ""
    ensures Written(base, parts, CommentSlots).Ok? <==> ParseInt(Strip(parts[8], BacktickAndBlanks)).Some?
    ensures Written(base, parts, CommentSlots).Ok? ==>
              "startLine" in Written(base, parts, CommentSlots).value &&
              Written(base, parts, CommentSlots).value["startLine"] == Int(ParseInt(Strip(parts[8], BacktickAndBlanks)).value)
  {
    WrittenPair(base, parts, Slot(7, "startSide", Verbatim), Slot(8, "startLine", TrimmedInt));
    VerbatimNeverBreaks(parts, Slot(7, "startSide", Verbatim));
  }
}
