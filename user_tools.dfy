/**
 * The user wrappers: `search_users` and `list_notifications`. Both read a
 * `;`-separated list of `key=value` entries into a dict, where an entry
 * without `=` is dropped and a later entry overwrites an earlier one with
 * the same key, then copy a fixed set of keys into the payload.
 */
module UserTools {
  import opened PyStr
  import opened ToolPayload

  // ---------------------------------------------------------------------
  // The entry dict
  // ---------------------------------------------------------------------

  /** `entry.split("=", 1)` for an entry holding `=`; other entries are
      dropped. Keys and values are kept untrimmed. */
  function EntryRule(entry: string): (r: Option<(string, string)>)
    ensures r.Some? <==> '=' in entry
    ensures r.Some? ==> '=' !in r.value.0
  {
    if '=' in entry then
      SplitOnceShape(entry, '=');
      Some(SplitOnce(entry, '='))
    else None
  }

  /** `dict(entry.split("=", 1) for entry in text.split(";") if "=" in entry)`. */
  function Entries(text: string): map<string, string> {
    Assigned(map[], Split(text, ";"), EntryRule)
  }

  /** An entry written as `key=value` is read as that key and value. */
  lemma EntryField(key: string, value: string)
    requires '=' !in key
    ensures EntryRule(key + "=" + value) == Some((key, value))
  {
    SplitOnceJoin(key, '=', value);
  }

  /** Entries joined with `;` are read one by one. */
  lemma EntriesJoined(entries: seq<string>)
    requires |entries| >= 1 && forall i :: 0 <= i < |entries| ==> ';' !in entries[i]
    ensures Entries(Join(";", entries)) == Assigned(map[], entries, EntryRule)
  {
    assert forall p :: p in entries ==> ';' !in p;
    SplitJoin(entries, ";");
  }

  /** A key is in the dict exactly when some entry with `=` names it, and
      then it holds the value of the last such entry. */
  lemma EntriesLastWins(entries: seq<string>, key: string, i: nat)
    requires i < |entries| && Sets(EntryRule, entries[i], key)
    requires forall j :: i < j < |entries| ==> !Sets(EntryRule, entries[j], key)
    ensures key in Assigned(map[], entries, EntryRule)
    ensures Assigned(map[], entries, EntryRule)[key] == EntryRule(entries[i]).value.1
  {
    LastWins(map[], entries, EntryRule, key, i);
  }

  /** A key no entry names is not in the dict. */
  lemma EntriesOnlyNamed(entries: seq<string>, key: string)
    requires forall i :: 0 <= i < |entries| ==> !Sets(EntryRule, entries[i], key)
    ensures key !in Assigned(map[], entries, EntryRule)
  {
    AssignedKeys(map[], entries, EntryRule, key);
  }

  // ---------------------------------------------------------------------
  // Copying into the payload
  // ---------------------------------------------------------------------

  /** `payload[k] = trim(parts[k])` for each of `keys` the dict has. */
  function CopiedBy(parts: map<string, string>, keys: set<string>, trim: string -> string): (p: Payload)
    ensures forall k :: k in p <==> k in parts && k in keys
    ensures forall k :: k in p ==> p[k] == Str(trim(parts[k]))
  {
    map k | k in parts && k in keys :: Str(trim(parts[k]))
  }

  /** Copying one more key is one more guarded write. */
  lemma CopiedByStep(parts: map<string, string>, keys: set<string>, key: string, trim: string -> string)
    ensures CopiedBy(parts, keys + {key}, trim) ==
              if key in parts then CopiedBy(parts, keys, trim)[key := Str(trim(parts[key]))]
              else CopiedBy(parts, keys, trim)
  {
    var after := CopiedBy(parts, keys + {key}, trim);
    var before := CopiedBy(parts, keys, trim);
    if key in parts {
      var written := before[key := Str(trim(parts[key]))];
      assert after.Keys == written.Keys;
    } else {
      assert after.Keys == before.Keys;
    }
  }

  /** `payload[k] = parts[k].strip()` for each of `keys` the dict has. */
  function Copied(parts: map<string, string>, keys: set<string>): (p: Payload)
    ensures forall k :: k in p <==> k in parts && k in keys
    ensures forall k :: k in p ==> p[k] == Str(StripWs(parts[k]))
  {
    CopiedBy(parts, keys, StripWs)
  }

  /** A guarded copy made after an earlier write of another key gives the
      same dict as the copy made first. */
  lemma CopiedByBeneath(parts: map<string, string>, keys: set<string>, key: string, q: string, v: Value,
                        trim: string -> string)
    requires key != q
    ensures CopiedBy(parts, keys + {key}, trim)[q := v] ==
              if key in parts then CopiedBy(parts, keys, trim)[q := v][key := Str(trim(parts[key]))]
              else CopiedBy(parts, keys, trim)[q := v]
  {
    CopiedByStep(parts, keys, key, trim);
    if key in parts {
      var before := CopiedBy(parts, keys, trim);
      var w := Str(trim(parts[key]));
      assert before[key := w][q := v] == before[q := v][key := w];
    }
  }

  /** One guarded write: `if key in parts: payload[key] = parts[key].strip()`. */
  method CopyTrimmed(parts: map<string, string>, payload: Payload, key: string) returns (p: Payload)
    ensures p == if key in parts then payload[key := Str(StripWs(parts[key]))] else payload
  {
    p := payload;
    if key in parts {
      p := p[key := Str(StripWs(parts[key]))];
    }
  }

  /** Copying one more key is one more guarded write of a trimmed value. */
  lemma CopiedStep(parts: map<string, string>, keys: set<string>, key: string)
    ensures Copied(parts, keys + {key}) ==
              if key in parts then Copied(parts, keys)[key := Str(StripWs(parts[key]))] else Copied(parts, keys)
  {
    CopiedByStep(parts, keys, key, StripWs);
  }

  /** `payload[key] = str(int(parts[key]))` when the dict has the key. */
  function WithInt(parts: map<string, string>, key: string, payload: Payload): (r: Parse<Payload>)
    ensures key !in parts ==> r == Ok(payload)
    ensures r.Fail? <==> key in parts && ParseInt(parts[key]).None?
    ensures r.Fail? ==> r.error == IntValueError(parts[key])
    ensures r.Ok? && key in parts ==> key in r.value && r.value[key].Str?
    ensures r.Ok? && key in parts ==> ParseInt(r.value[key].s) == ParseInt(parts[key])
    ensures r.Ok? && key in parts ==> r.value[key] == Str(IntToStr(ParseInt(parts[key]).value))
    ensures r.Ok? ==> forall k :: k != key ==> (k in r.value <==> k in payload)
    ensures r.Ok? ==> forall k :: k != key && k in payload ==> r.value[k] == payload[k]
  {
    if key !in parts then Ok(payload)
    else
      match CanonicalIntText(parts[key])
      case None => Fail(IntValueError(parts[key]))
      case Some(t) => Ok(payload[key := Str(t)])
  }

  /** `page` and then `perPage`, each normalised through `int()`; the first
      that is not an integer raises. */
  function Paged(parts: map<string, string>, payload: Payload): (r: Parse<Payload>)
    ensures r.Fail? <==> ("page" in parts && ParseInt(parts["page"]).None?) ||
                         ("perPage" in parts && ParseInt(parts["perPage"]).None?)
    ensures r.Fail? && "page" in parts && ParseInt(parts["page"]).None? ==> r.error == IntValueError(parts["page"])
    ensures r.Fail? ==> r.error.IntValueError?
  {
    match WithInt(parts, "page", payload)
    case Fail(e) => Fail(e)
    case Ok(p) => WithInt(parts, "perPage", p)
  }

  /** The paging keys hold canonical numbers, worth what the input said. */
  lemma PagedCanonical(parts: map<string, string>, payload: Payload, key: string)
    requires key == "page" || key == "perPage"
    requires Paged(parts, payload).Ok? && key in parts
    ensures key in Paged(parts, payload).value && Paged(parts, payload).value[key].Str?
    ensures ParseInt(Paged(parts, payload).value[key].s) == ParseInt(parts[key])
  {
  }

  /** Paging adds nothing but the paging keys. */
  lemma PagedKeys(parts: map<string, string>, payload: Payload, k: string)
    requires Paged(parts, payload).Ok? && k != "page" && k != "perPage"
    ensures k in Paged(parts, payload).value <==> k in payload
    ensures k in payload ==> Paged(parts, payload).value[k] == payload[k]
  {
  }

  /** Paging keeps what the payload had and adds only paging keys the
      dict holds. */
  lemma PagedOnly(parts: map<string, string>, payload: Payload)
    requires Paged(parts, payload).Ok?
    ensures forall k :: k in Paged(parts, payload).value ==>
              k in payload || ((k == "page" || k == "perPage") && k in parts)
  {
    var first := WithInt(parts, "page", payload);
    assert "page" != "perPage";
  }

  // ---------------------------------------------------------------------
  // search_users: 'query=term;sort=followers;order=desc;page=1;perPage=5'
  // ---------------------------------------------------------------------

  const MissingQuery: string := "Missing required 'query' parameter."
  const SearchPrefix: string := "Exception in search_users: "

  /** The search payload before paging: the trimmed query, and sort and
      order when given. */
  function SearchBase(parts: map<string, string>): (p: Payload)
    requires "query" in parts
    ensures "query" in p && p["query"] == Str(StripWs(parts["query"]))
    ensures forall k :: k in p <==> k == "query" || (k in parts && (k == "sort" || k == "order"))
    ensures forall k :: k in p ==> k in parts && p[k] == Str(StripWs(parts[k]))
  {
    CopiedThenWritten(parts, "sort", "order", "query", StripWs);
    Copied(parts, {"sort", "order"})["query" := Str(StripWs(parts["query"]))]
  }

  /** Copying keys `a` and `b` and then writing `q` gives a payload holding
      exactly `q` and whichever of `a` and `b` the dict has, all trimmed. */
  lemma CopiedThenWritten(parts: map<string, string>, a: string, b: string, q: string, trim: string -> string)
    requires q in parts
    ensures var p := CopiedBy(parts, {a, b}, trim)[q := Str(trim(parts[q]))];
      && (forall k :: k in p <==> k == q || (k in parts && (k == a || k == b)))
      && (forall k :: k in p ==> k in parts && p[k] == Str(trim(parts[k])))
  {
  }

  /** The request `search_users_tool` sends for its entry dict, or why it
      sends none. */
  function SearchOf(parts: map<string, string>): (r: Outcome)
    ensures r.Reply? <==> "query" !in parts
    ensures r.Reply? ==> r.text == MissingQuery
    ensures r.Raised? ==> r.prefix == SearchPrefix && r.error.IntValueError?
    ensures r.Call? ==> r.tool == "search_users"
    ensures r.Call? ==> "query" in r.payload && r.payload["query"] == Str(StripWs(parts["query"]))
    ensures r.Call? ==> forall k :: k in r.payload ==> k in parts
    ensures r.Call? ==> forall k :: k in r.payload ==>
              k == "query" || k == "sort" || k == "order" || k == "page" || k == "perPage"
  {
    if "query" !in parts then Reply(MissingQuery)
    else
      var base := SearchBase(parts);
      match Paged(parts, base)
      case Fail(e) => Raised(SearchPrefix, e)
      case Ok(p) =>
        SearchKeys(parts, p);
        Call("search_users", p)
  }

  /** The paged search payload holds the trimmed query, and only keys of
      the dict among the five the tool reads. */
  lemma SearchKeys(parts: map<string, string>, p: Payload)
    requires "query" in parts && Paged(parts, SearchBase(parts)) == Ok(p)
    ensures "query" in p && p["query"] == Str(StripWs(parts["query"]))
    ensures forall k :: k in p ==> k in parts
    ensures forall k :: k in p ==> k == "query" || k == "sort" || k == "order" || k == "page" || k == "perPage"
  {
    var base := SearchBase(parts);
    PagedOnly(parts, base);
    PagedKeys(parts, base, "query");
  }

  /** `search_users_tool` up to the `call_mcp` call.
      It only composes the field split with `SearchOf`. */
  function SearchRequest(input: string): (r: Outcome) {
    SearchOf(Entries(CleanInput(input)))
  }

  /** A search with a query is the paging of its base payload. */
  lemma SearchOfPaged(parts: map<string, string>)
    requires "query" in parts
    ensures SearchOf(parts) == match Paged(parts, SearchBase(parts))
                               case Fail(e) => Raised(SearchPrefix, e)
                               case Ok(p) => Call("search_users", p)
  {
  }

  /** The body of `search_users_tool` after parsing, writing the payload
      key by key. */
  method SearchPayload(parts: map<string, string>) returns (r: Outcome)
    ensures r == SearchOf(parts)
  {
    if "query" !in parts {
      return Reply(MissingQuery);
    }
    var query := Str(StripWs(parts["query"]));
    ghost var keys: set<string> := {};
    var payload: Payload := map["query" := query];
    assert payload == Copied(parts, keys)["query" := query];
    payload := CopyTrimmed(parts, payload, "sort");
    CopiedByBeneath(parts, keys, "sort", "query", query, StripWs);
    keys := keys + {"sort"};
    assert payload == Copied(parts, keys)["query" := query];
    payload := CopyTrimmed(parts, payload, "order");
    CopiedByBeneath(parts, keys, "order", "query", query, StripWs);
    keys := keys + {"order"};
    assert keys == {"sort", "order"};
    assert payload == Copied(parts, keys)["query" := query];
    SearchOfPaged(parts);
    r := PagedCall(parts, payload, "search_users", SearchPrefix);
  }

  /** `search_users_tool` up to the `call_mcp` call. */
  method SearchUsers(input: string) returns (r: Outcome)
    ensures r == SearchRequest(input)
  {
    r := SearchPayload(Entries(CleanInput(input)));
  }

  /** A lone `key=value` entry reads as a dict with only that key. */
  lemma SingleEntry(key: string, value: string)
    requires '=' !in key
    ensures Assigned(map[], [key + "=" + value], EntryRule) == map[key := value]
  {
    var fields := [key + "=" + value];
    EntryField(key, value);
    assert fields[..0] == [];
  }

  /** A dict holding only the query gives a payload holding only the
      trimmed query. */
  lemma QueryOnlyBase(term: string)
    ensures SearchBase(map["query" := term]) == map["query" := Str(StripWs(term))]
  {
    var parts := map["query" := term];
    assert "sort" !in parts && "order" !in parts by {
      assert "sort"[0] != "query"[0] && "order"[0] != "query"[0];
    }
    CopiedNone(parts, {"sort", "order"});
  }

  /** Copying keys the dict does not have copies nothing. */
  lemma CopiedNone(parts: map<string, string>, keys: set<string>)
    requires forall k :: k in keys ==> k !in parts
    ensures Copied(parts, keys) == map[]
  {
    assert Copied(parts, keys).Keys == {};
  }

  /** A dict holding only the query searches for the trimmed query. */
  lemma SearchQueryOnly(term: string)
    ensures SearchOf(map["query" := term]) == Call("search_users", map["query" := Str(StripWs(term))])
  {
    var parts := map["query" := term];
    assert "page" !in parts && "perPage" !in parts by {
      assert "page"[0] != "query"[0] && "perPage"[0] != "query"[0];
    }
    QueryOnlyBase(term);
    assert Paged(parts, SearchBase(parts)) == Ok(SearchBase(parts));
  }

  const NoUsers: string := "No users found."

  /** The answer to the decoded `items`: the first five users, one line each. */
  function UsersReply(users: seq<Json>, line: Json -> string): (r: string)
    ensures users == [] ==> r == NoUsers
  {
    if users == [] then NoUsers
    else Join("\n", CappedLines(users, 5, line))
  }

  /** At most five users are shown, the first ones in order. */
  lemma UsersReplyCap(users: seq<Json>, line: Json -> string)
    requires users != [] && forall x :: '\n' !in line(x)
    ensures |Split(UsersReply(users, line), "\n")| == if |users| < 5 then |users| else 5
    ensures forall i :: 0 <= i < |Split(UsersReply(users, line), "\n")| ==>
              Split(UsersReply(users, line), "\n")[i] == line(users[i])
  {
    CappedListingLines(users, 5, line);
  }

  // ---------------------------------------------------------------------
  // list_notifications: 'filter=default;owner=o;repo=r;since=...;page=1'
  // ---------------------------------------------------------------------

  const NotificationsPrefix: string := "Exception in list_notifications: "

  /** The keys copied as trimmed text. */
  const NotificationTextKeys: set<string> := {"filter", "owner", "repo", "since", "before"}

  /** The request for a non-empty input's entry dict: the known text keys
      trimmed, then the paging keys. */
  function NotificationsFrom(parts: map<string, string>): (r: Outcome)
    ensures !r.Reply?
    ensures r.Raised? ==> r.prefix == NotificationsPrefix && r.error.IntValueError?
    ensures r.Call? ==> r.tool == "list_notifications"
    ensures r.Call? ==> forall k :: k in r.payload ==> k in NotificationTextKeys || k == "page" || k == "perPage"
  {
    var base := Copied(parts, NotificationTextKeys);
    match Paged(parts, base)
    case Fail(e) => Raised(NotificationsPrefix, e)
    case Ok(p) =>
      assert forall k :: k in p ==> k in NotificationTextKeys || k == "page" || k == "perPage" by {
        forall k | k in p ensures k in NotificationTextKeys || k == "page" || k == "perPage" {
          if k != "page" && k != "perPage" {
            PagedKeys(parts, base, k);
          }
        }
      }
      Call("list_notifications", p)
  }

  /** The request `list_notifications_tool` sends for its cleaned input:
      nothing but the known keys, and none at all for an empty input. */
  function NotificationsOf(cleaned: string): (r: Outcome)
    ensures !r.Reply?
    ensures cleaned == "" ==> r == Call("list_notifications", map[])
    ensures r.Raised? ==> r.prefix == NotificationsPrefix && r.error.IntValueError?
    ensures r.Call? ==> r.tool == "list_notifications"
    ensures r.Call? ==> forall k :: k in r.payload ==> k in NotificationTextKeys || k == "page" || k == "perPage"
  {
    if cleaned == "" then Call("list_notifications", map[])
    else NotificationsFrom(Entries(cleaned))
  }

  /** `list_notifications_tool` up to the `call_mcp` call.
      It only composes the field split with `NotificationsOf`. */
  function NotificationsRequest(input: string): (r: Outcome) {
    NotificationsOf(CleanInput(input))
  }

  /** A copied key given in the entries is sent trimmed, with the value of
      its last entry. */
  lemma CopiedLastWins(entries: seq<string>, keys: set<string>, key: string, i: nat)
    requires key in keys && key != "page" && key != "perPage"
    requires i < |entries| && Sets(EntryRule, entries[i], key)
    requires forall j :: i < j < |entries| ==> !Sets(EntryRule, entries[j], key)
    requires Paged(Assigned(map[], entries, EntryRule), Copied(Assigned(map[], entries, EntryRule), keys)).Ok?
    ensures var parts := Assigned(map[], entries, EntryRule);
      key in Paged(parts, Copied(parts, keys)).value &&
      Paged(parts, Copied(parts, keys)).value[key] == Str(StripWs(EntryRule(entries[i]).value.1))
  {
    var parts := Assigned(map[], entries, EntryRule);
    EntriesLastWins(entries, key, i);
    PagedKeys(parts, Copied(parts, keys), key);
  }

  /** No known text key is a paging key. */
  lemma TextKeyNotPaging(key: string)
    requires key in NotificationTextKeys
    ensures key != "page" && key != "perPage"
  {
    assert forall k :: k in NotificationTextKeys ==> k[0] != 'p';
  }

  /** A request that goes out carries the paged copy of the known keys. */
  lemma NotificationsFromCall(parts: map<string, string>)
    requires NotificationsFrom(parts).Call?
    ensures Paged(parts, Copied(parts, NotificationTextKeys)).Ok?
    ensures NotificationsFrom(parts).payload == Paged(parts, Copied(parts, NotificationTextKeys)).value
  {
  }

  /** The paging writes shared by both tools, then the call, or the
      exception a non-integer raises. */
  method PagedCall(parts: map<string, string>, payload: Payload, tool: string, prefix: string) returns (r: Outcome)
    ensures r == match Paged(parts, payload)
                 case Fail(e) => Raised(prefix, e)
                 case Ok(p) => Call(tool, p)
  {
    var p := payload;
    if "page" in parts {
      var t := CanonicalIntText(parts["page"]);
      if t.None? {
        return Raised(prefix, IntValueError(parts["page"]));
      }
      p := p["page" := Str(t.value)];
    }
    if "perPage" in parts {
      var t := CanonicalIntText(parts["perPage"]);
      if t.None? {
        return Raised(prefix, IntValueError(parts["perPage"]));
      }
      p := p["perPage" := Str(t.value)];
    }
    r := Call(tool, p);
  }

  /** The guarded writes of `list_notifications_tool` for a non-empty
      input's entry dict. */
  method NotificationsPayload(parts: map<string, string>) returns (r: Outcome)
    ensures r == NotificationsFrom(parts)
  {
    ghost var keys: set<string> := {};
    var payload: Payload := map[];
    assert payload == Copied(parts, keys);
    payload := CopyTrimmed(parts, payload, "filter");
    CopiedStep(parts, keys, "filter");
    keys := keys + {"filter"};
    payload := CopyTrimmed(parts, payload, "owner");
    CopiedStep(parts, keys, "owner");
    keys := keys + {"owner"};
    payload := CopyTrimmed(parts, payload, "repo");
    CopiedStep(parts, keys, "repo");
    keys := keys + {"repo"};
    payload := CopyTrimmed(parts, payload, "since");
    CopiedStep(parts, keys, "since");
    keys := keys + {"since"};
    payload := CopyTrimmed(parts, payload, "before");
    CopiedStep(parts, keys, "before");
    keys := keys + {"before"};
    assert keys == NotificationTextKeys;
    r := PagedCall(parts, payload, "list_notifications", NotificationsPrefix);
  }

  /** `list_notifications_tool` up to the `call_mcp` call. */
  method ListNotifications(input: string) returns (r: Outcome)
    ensures r == NotificationsRequest(input)
  {
    var cleaned := CleanInput(input);
    if cleaned == "" {
      return Call("list_notifications", map[]);
    }
    r := NotificationsPayload(Entries(cleaned));
  }

  /** A known text key given in the entries is sent trimmed; a key given
      twice is sent with its last value. */
  lemma NotificationsTextKey(entries: seq<string>, key: string, i: nat)
    requires key in NotificationTextKeys
    requires i < |entries| && Sets(EntryRule, entries[i], key)
    requires forall j :: i < j < |entries| ==> !Sets(EntryRule, entries[j], key)
    requires NotificationsFrom(Assigned(map[], entries, EntryRule)).Call?
    ensures key in NotificationsFrom(Assigned(map[], entries, EntryRule)).payload
    ensures NotificationsFrom(Assigned(map[], entries, EntryRule)).payload[key] ==
              Str(StripWs(EntryRule(entries[i]).value.1))
  {
    TextKeyNotPaging(key);
    NotificationsFromCall(Assigned(map[], entries, EntryRule));
    CopiedLastWins(entries, NotificationTextKeys, key, i);
  }

  const NoNotifications: string := "No notifications found."

  /** The answer to the result's content: nothing when the content or the
      decoded list is empty, otherwise the first ten notifications. */
  function NotificationsReply(content: seq<string>, decode: string -> seq<Json>, line: Json -> string): (r: string)
    ensures content == [] ==> r == NoNotifications
    ensures content != [] && decode(content[0]) == [] ==> r == NoNotifications
  {
    if content == [] then NoNotifications
    else
      var notifications := decode(content[0]);
      if notifications == [] then NoNotifications
      else Join("\n", CappedLines(notifications, 10, line))
  }

  /** At most ten notifications are shown, the first ones in order. */
  lemma NotificationsReplyCap(content: seq<string>, decode: string -> seq<Json>, line: Json -> string)
    requires content != [] && decode(content[0]) != [] && forall x :: '\n' !in line(x)
    ensures var lines := Split(NotificationsReply(content, decode, line), "\n");
      |lines| == (if |decode(content[0])| < 10 then |decode(content[0])| else 10) &&
      forall i :: 0 <= i < |lines| ==> lines[i] == line(decode(content[0])[i])
  {
    CappedListingLines(decode(content[0]), 10, line);
  }
}
