/**
 * What the string-driven tool wrappers produce. Each wrapper reads one
 * input string and either hands a payload to `call_mcp` under a tool name,
 * answers with a text of its own without calling anything, or catches an
 * exception raised while parsing and answers with a fixed prefix followed
 * by the exception's message.
 */
module ToolPayload {
  import opened PyStr

  /** One file of a multi-file push. */
  datatype FileEntry = FileEntry(path: string, content: string)

  /** The payload values the wrappers send. */
  datatype Value =
    | Str(s: string)
    | Int(i: int)
    | Bool(b: bool)
    | StrList(items: seq<string>)
    | Files(files: seq<FileEntry>)

  type Payload = map<string, Value>

  /** The exceptions parsing can raise: a missing field, an unpacking of
      the wrong number of pieces, and `int()` of a text that is not an
      integer. */
  datatype PyError =
    | IndexError
    | Unpack(expected: nat, got: nat)
    | IntValueError(literal: string)

  /** What a wrapper does with its input. `Raised(prefix, e)` is the answer
      `prefix + str(e)`. */
  datatype Outcome =
    | Call(tool: string, payload: Payload)
    | Reply(text: string)
    | Raised(prefix: string, error: PyError)

  /** The fields a wrapper parsed, or the exception parsing raised. */
  datatype Parse<T> = Ok(value: T) | Fail(error: PyError)

  /** Decoded JSON, as the servers' answers are read. */
  datatype Json =
    | JNull
    | JBool(b: bool)
    | JNum(n: int)
    | JStr(s: string)
    | JList(items: seq<Json>)
    | JObj(fields: map<string, Json>)

  /** Python truthiness of a decoded JSON value. */
  predicate Truthy(j: Json) {
    match j
    case JNull => false
    case JBool(b) => b
    case JNum(n) => n != 0
    case JStr(s) => s != ""
    case JList(items) => items != []
    case JObj(fields) => fields != map[]
  }

  /** `d.get(key, default)` on a decoded dict. */
  function Get(fields: map<string, Json>, key: string, default: Json): Json {
    if key in fields then fields[key] else default
  }

  /** `strip("`'\" \n\r\t")`: backticks, quotes and the common blanks. */
  const QuotesAndBlanks: set<char> := {'`', '\'', '"', ' ', '\n', '\r', '\t'}

  /** `strip("`'\"")`. */
  const Quotes: set<char> := {'`', '\'', '"'}

  /** `strip("`'\" ")`. */
  const QuotesAndSpace: set<char> := {'`', '\'', '"', ' '}

  /** `strip("` \n\r\t")`. */
  const BacktickAndBlanks: set<char> := {'`', ' ', '\n', '\r', '\t'}

  /** The guard `len(parts) > i and parts[i]`: field `i` is there and not empty. */
  predicate Present(parts: seq<string>, i: nat) {
    i < |parts| && parts[i] != ""
  }

  /** `parts[i] if len(parts) > i else default`. */
  function FieldOr(parts: seq<string>, i: nat, default: string): (f: string)
    ensures i < |parts| ==> f == parts[i]
    ensures i >= |parts| ==> f == default
  {
    if i < |parts| then parts[i] else default
  }

  /** `s.lower() == "true"`. */
  predicate IsTrue(s: string) {
    Lower(s) == "true"
  }

  /** `int(s)` as a payload value, or the exception it raises. */
  function IntField(s: string): (r: Option<Value>)
    ensures r.Some? <==> ParseInt(s).Some?
    ensures r.Some? ==> r.value == Int(ParseInt(s).value)
  {
    match ParseInt(s)
    case Some(n) => Some(Int(n))
    case None => None
  }

  /** `str(int(s))`: the canonical decimal text of an integer field. */
  function CanonicalIntText(s: string): (r: Option<string>)
    ensures r.Some? <==> ParseInt(s).Some?
    ensures r.Some? ==> ParseInt(r.value) == ParseInt(s)
    ensures r.Some? ==> r.value == IntToStr(ParseInt(s).value)
  {
    match ParseInt(s)
    case Some(n) =>
      ParseIntToStr(n);
      Some(IntToStr(n))
    case None => None
  }

  /** The first `cap` items of a result, rendered one line each. */
  function CappedLines<T>(items: seq<T>, cap: nat, line: T -> string): (lines: seq<string>)
    ensures |lines| == if |items| < cap then |items| else cap
    ensures forall i :: 0 <= i < |lines| ==> lines[i] == line(items[i])
  {
    var n := if |items| < cap then |items| else cap;
    seq(n, i requires 0 <= i < n => line(items[i]))
  }

  /** The loop that renders the first `cap` items, appending one line each. */
  method RenderLines<T>(items: seq<T>, cap: nat, line: T -> string) returns (lines: seq<string>)
    ensures lines == CappedLines(items, cap, line)
  {
    var n := if |items| < cap then |items| else cap;
    lines := [];
    for i := 0 to n
      invariant |lines| == i
      invariant forall j :: 0 <= j < i ==> lines[j] == line(items[j])
    {
      lines := lines + [line(items[i])];
    }
  }

  /** A capped listing joined with newlines reads back as exactly its
      lines when no rendered line holds a newline. */
  lemma CappedListingLines<T>(items: seq<T>, cap: nat, line: T -> string)
    requires cap >= 1 && items != []
    requires forall x :: '\n' !in line(x)
    ensures var lines := CappedLines(items, cap, line);
      Split(Join("\n", lines), "\n") == lines
  {
    var lines := CappedLines(items, cap, line);
    SplitJoin(lines, "\n");
  }

  /** `a + sep + b` is the join of the two. */
  lemma JoinPair(sep: string, a: string, b: string)
    ensures Join(sep, [a, b]) == a + sep + b
  {
    assert [a, b][1..] == [b];
  }

  /** Splitting `owner + "/" + repo` gives the two names back when neither
      holds a slash. */
  lemma SplitRepo(owner: string, repo: string)
    requires '/' !in owner && '/' !in repo
    ensures Split(owner + "/" + repo, "/") == [owner, repo]
    ensures SplitN(owner + "/" + repo, "/", 1) == [owner, repo]
  {
    SplitPeel(owner, "/", repo);
    SplitSingle(repo, "/", 0);
    SplitNPeel(owner, "/", repo, 1);
  }

  // ---------------------------------------------------------------------
  // Well-formed fields, for the round trips of the input formats
  // ---------------------------------------------------------------------

  /** The curly single quotes some clients wrap names in. */
  const CurlyQuotes: set<char> := {'\U{2018}', '\U{2019}'}

  /** Every character any wrapper trims from the ends of a field. */
  const Padding: set<char> := Whitespace + QuotesAndBlanks + CurlyQuotes

  /** A field as the documented formats mean it: not empty, free of the
      field separator, and with nothing to trim at either end. */
  predicate Token(s: string) {
    s != "" && '|' !in s && s[0] !in Padding && s[|s| - 1] !in Padding
  }

  /** An owner or repository name: a token without slashes, quotes or
      blanks anywhere. */
  predicate Name(s: string) {
    s != "" && forall i :: 0 <= i < |s| ==> s[i] !in Padding && s[i] != '/' && s[i] != '|'
  }

  /** Names are tokens. */
  lemma NameToken(s: string)
    requires Name(s)
    ensures Token(s) && '/' !in s
  {
  }

  /** Trimming any of the wrappers' character sets leaves a token alone. */
  lemma StripToken(s: string, chars: set<char>)
    requires Token(s) && chars <= Padding
    ensures Strip(s, chars) == s && StripWs(s) == s
  {
    StripUnpadded(s, chars);
    StripUnpadded(s, Whitespace);
  }

  /** Removing a character that does not occur changes nothing. */
  lemma {:induction false} RemoveAbsent(s: string, c: char)
    requires c !in s
    ensures Remove(s, c) == s
    decreases |s|
  {
    if s != [] {
      RemoveAbsent(s[1..], c);
      assert s == [s[0]] + s[1..];
    }
  }

  /** A join starts with its first part and ends with its last. */
  lemma {:induction false} JoinEnds(sep: string, parts: seq<string>)
    requires |parts| >= 1
    ensures |Join(sep, parts)| >= |parts[0]| && |Join(sep, parts)| >= |parts[|parts| - 1]|
    ensures Join(sep, parts)[..|parts[0]|] == parts[0]
    ensures Join(sep, parts)[|Join(sep, parts)| - |parts[|parts| - 1]|..] == parts[|parts| - 1]
    decreases |parts|
  {
    if |parts| > 1 {
      JoinEnds(sep, parts[1..]);
      var rest := Join(sep, parts[1..]);
      assert Join(sep, parts) == parts[0] + sep + rest;
      assert parts[1..][|parts[1..]| - 1] == parts[|parts| - 1];
    }
  }

  /** The fields of a record joined with `|`, read back by `split("|")`;
      when the first and last fields are tokens, trimming the whole input
      first changes nothing. */
  lemma JoinedFields(parts: seq<string>, chars: set<char>)
    requires |parts| >= 1 && chars <= Padding
    requires forall i :: 0 <= i < |parts| ==> '|' !in parts[i]
    requires Token(parts[0]) && Token(parts[|parts| - 1])
    ensures Split(Join("|", parts), "|") == parts
    ensures Strip(Join("|", parts), chars) == Join("|", parts)
    ensures StripWs(Join("|", parts)) == Join("|", parts)
  {
    SplitJoin(parts, "|");
    JoinEnds("|", parts);
    var j := Join("|", parts);
    var first := parts[0];
    var last := parts[|parts| - 1];
    assert j[0] == j[..|first|][0] == first[0];
    assert j[|j| - 1] == j[|j| - |last|..][|last| - 1] == last[|last| - 1];
    assert Unpadded(j, chars) && Unpadded(j, Whitespace);
    StripUnpadded(j, chars);
    StripUnpadded(j, Whitespace);
  }

  /** An `owner/repo` field built from two names. */
  lemma RepoField(owner: string, repo: string)
    requires Name(owner) && Name(repo)
    ensures Token(owner + "/" + repo) && '/' in owner + "/" + repo
    ensures Split(owner + "/" + repo, "/") == [owner, repo]
    ensures SplitN(owner + "/" + repo, "/", 1) == [owner, repo]
  {
    var f := owner + "/" + repo;
    assert f[|owner|] == '/';
    assert f[0] == owner[0] && f[|f| - 1] == repo[|repo| - 1];
    assert forall i :: 0 <= i < |f| ==> f[i] == '/' || f[i] in owner || f[i] in repo;
    SplitRepo(owner, repo);
  }

  /** Digits and the minus sign are never trimmed. */
  lemma DigitNotPadding(c: char)
    requires IsDigit(c) || c == '-'
    ensures c !in Padding
  {
    NotWhitespace(c);
  }

  /** `str(i)` is a token. */
  lemma IntToStrToken(i: int)
    ensures Token(IntToStr(i))
  {
    var n: nat := if i < 0 then -i else i;
    NatToStrDigits(n);
    var d := NatToStr(n);
    var s := IntToStr(i);
    if i < 0 {
      assert s == "-" + d;
      assert forall k :: 1 <= k < |s| ==> s[k] == d[k - 1];
    } else {
      assert s == d;
    }
    assert forall k :: 0 <= k < |s| ==> s[k] == '-' || IsDigit(s[k]);
    DigitNotPadding(s[0]);
    DigitNotPadding(s[|s| - 1]);
  }

  /** Trimming never brings in a character that was not there. */
  lemma StripKeepsOut(s: string, chars: set<char>, c: char)
    requires c !in s
    ensures c !in Strip(s, chars)
  {
    var lo, hi := StripShape(s, chars);
    assert forall k :: 0 <= k < hi - lo ==> s[lo..hi][k] == s[lo + k];
  }

  /** An input without `|` is a single field, however it was trimmed. */
  lemma SingleField(input: string, chars: set<char>)
    requires '|' !in input
    ensures Split(Strip(input, chars), "|") == [Strip(input, chars)]
    ensures Split(Strip(StripWs(input), chars), "|") == [Strip(StripWs(input), chars)]
    ensures Split(input, "|") == [input]
  {
    StripKeepsOut(input, chars, '|');
    SplitSingle(Strip(input, chars), "|", 0);
    StripKeepsOut(input, Whitespace, '|');
    StripKeepsOut(StripWs(input), chars, '|');
    SplitSingle(Strip(StripWs(input), chars), "|", 0);
    SplitSingle(input, "|", 0);
  }

  // ---------------------------------------------------------------------
  // key=value fields
  // ---------------------------------------------------------------------

  /** `s.split(c, 1)` on a text holding `c`: the text before the first `c`
      and everything after it. */
  function SplitOnce(s: string, c: char): (string, string)
    requires c in s
  {
    ContainsChar(s, c);
    var pieces := SplitN(s, [c], 1);
    (pieces[0], pieces[1])
  }

  /** The two pieces glue back to the text, and the first holds no `c`. */
  lemma SplitOnceShape(s: string, c: char)
    requires c in s
    ensures s == SplitOnce(s, c).0 + [c] + SplitOnce(s, c).1 && c !in SplitOnce(s, c).0
  {
    ContainsChar(s, c);
    var i := Find(s, [c]).value;
    FindFirstChar(s, c);
    Reglue(s, [c], i);
    assert SplitN(s, [c], 1) == [s[..i], s[i + 1..]];
  }

  /** Splitting `a + [c] + b` once gives `a` and `b` back when `a` has no `c`. */
  lemma SplitOnceJoin(a: string, c: char, b: string)
    requires c !in a
    ensures c in a + [c] + b && SplitOnce(a + [c] + b, c) == (a, b)
  {
    var s := a + [c] + b;
    assert s[|a|] == c;
    SplitOnceShape(s, c);
    var r := SplitOnce(s, c);
    assert r.0 == s[..|a|] == a;
    assert r.1 == s[|a| + 1..] == b;
  }

  /** What one field of a `;`- or `|`-separated list sets in a dict: a key
      and its value, or `None` when the field is skipped. */
  type Rule<T> = string -> Option<(string, T)>

  /** The dict that assigning the fields in order builds on `start`: a later
      field overwrites what an earlier one set under the same key. */
  function Assigned<T>(start: map<string, T>, fields: seq<string>, rule: Rule<T>): (r: map<string, T>)
    ensures start.Keys <= r.Keys
    decreases |fields|
  {
    if fields == [] then start
    else
      var before := Assigned(start, fields[..|fields| - 1], rule);
      match rule(fields[|fields| - 1])
      case None => before
      case Some(kv) => before[kv.0 := kv.1]
  }

  /** The field sets key `k`. */
  predicate Sets<T>(rule: Rule<T>, field: string, k: string) {
    rule(field).Some? && rule(field).value.0 == k
  }

  /** A key of the dict is one the start had or one a field sets. */
  lemma {:induction false} AssignedKeys<T>(start: map<string, T>, fields: seq<string>, rule: Rule<T>, k: string)
    ensures k in Assigned(start, fields, rule) <==>
              k in start || exists i :: 0 <= i < |fields| && Sets(rule, fields[i], k)
    decreases |fields|
  {
    if fields != [] {
      var n := |fields| - 1;
      AssignedKeys(start, fields[..n], rule, k);
      assert forall i :: 0 <= i < n ==> fields[..n][i] == fields[i];
    }
  }

  /** A key no field sets keeps its starting value. */
  lemma {:induction false} AssignedUnset<T>(start: map<string, T>, fields: seq<string>, rule: Rule<T>, k: string)
    requires k in start
    requires forall i :: 0 <= i < |fields| ==> !Sets(rule, fields[i], k)
    ensures Assigned(start, fields, rule)[k] == start[k]
    decreases |fields|
  {
    if fields != [] {
      var n := |fields| - 1;
      assert forall i :: 0 <= i < n ==> fields[..n][i] == fields[i];
      AssignedUnset(start, fields[..n], rule, k);
    }
  }

  /** A key holds the value of the last field that sets it. */
  lemma {:induction false} LastWins<T>(start: map<string, T>, fields: seq<string>, rule: Rule<T>, k: string, i: nat)
    requires i < |fields| && Sets(rule, fields[i], k)
    requires forall j :: i < j < |fields| ==> !Sets(rule, fields[j], k)
    ensures k in Assigned(start, fields, rule)
    ensures Assigned(start, fields, rule)[k] == rule(fields[i]).value.1
    decreases |fields|
  {
    var n := |fields| - 1;
    if i < n {
      assert forall j :: i < j < n ==> fields[..n][j] == fields[j];
      LastWins(start, fields[..n], rule, k, i);
    }
  }

  /** A loop that fills a dict from the fields, skipping those the rule
      skips. */
  method AssignFields<T>(start: map<string, T>, fields: seq<string>, rule: Rule<T>) returns (r: map<string, T>)
    ensures r == Assigned(start, fields, rule)
  {
    r := start;
    for i := 0 to |fields|
      invariant r == Assigned(start, fields[..i], rule)
    {
      assert fields[..i + 1][..i] == fields[..i];
      match rule(fields[i]) {
        case None =>
        case Some(kv) => r := r[kv.0 := kv.1];
      }
    }
    assert fields[..|fields|] == fields;
  }

  /** Two fields free of `|` followed by a text that may hold `|`: the
      fields come back first, and gluing the remaining pieces back gives
      the text. */
  lemma TailField(a: string, b: string, rest: string)
    requires '|' !in a && '|' !in b
    ensures |Split(a + "|" + b + "|" + rest, "|")| >= 3
    ensures Split(a + "|" + b + "|" + rest, "|")[0] == a && Split(a + "|" + b + "|" + rest, "|")[1] == b
    ensures Join("|", Split(a + "|" + b + "|" + rest, "|")[2..]) == rest
  {
    var s := a + "|" + b + "|" + rest;
    var tail := b + "|" + rest;
    assert s == a + "|" + tail;
    assert "|"[0] == '|';
    SplitPeel(a, "|", tail);
    SplitPeel(b, "|", rest);
    var parts := [a] + ([b] + Split(rest, "|"));
    assert Split(s, "|") == parts;
    assert parts[2..] == Split(rest, "|");
    JoinSplit(rest, "|");
  }

  /** `input.strip().replace("\n", "").replace("\r", "").strip("`'\" ")`:
      the input on one line, outer quotes and spaces removed. */
  function CleanInput(input: string): string {
    Strip(Remove(Remove(StripWs(input), '\n'), '\r'), QuotesAndSpace)
  }

  /** A token on one line is its own cleaning. */
  lemma CleanToken(s: string)
    requires Token(s) && '\n' !in s && '\r' !in s
    ensures CleanInput(s) == s
  {
    StripToken(s, Whitespace);
    var a := StripWs(s);
    assert a == s;
    RemoveAbsent(s, '\n');
    RemoveAbsent(s, '\r');
    var c := Remove(Remove(a, '\n'), '\r');
    assert c == s;
    StripToken(s, QuotesAndSpace);
  }
}
