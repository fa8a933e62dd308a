/**
 * Models of the Python `str` operations that the tool wrappers are built
 * from: `find`/`in`, `split(sep)`, `split(sep, maxsplit)`, `sep.join`,
 * `strip()`, `strip(chars)`, `replace(c, "")`, `lower()`/`upper()`, `int()`
 * and `str(int)`.
 */
module PyStr {

  datatype Option<+T> = None | Some(value: T)

  // ---------------------------------------------------------------------
  // Searching
  // ---------------------------------------------------------------------

  /** `sub` occurs in `s` starting at index `i`. */
  predicate OccursAt(s: string, sub: string, i: int) {
    0 <= i && i + |sub| <= |s| && s[i..i + |sub|] == sub
  }

  /** The first occurrence of `sub` in `s` at or after `from`. */
  function FindFrom(s: string, sub: string, from: nat): (r: Option<nat>)
    requires |sub| > 0 && from <= |s|
    ensures r.Some? ==> from <= r.value && OccursAt(s, sub, r.value)
    ensures r.Some? ==> forall i :: from <= i < r.value ==> !OccursAt(s, sub, i)
    ensures r.None? ==> forall i :: from <= i ==> !OccursAt(s, sub, i)
    decreases |s| - from
  {
    if from + |sub| > |s| then None
    else if s[from..from + |sub|] == sub then Some(from)
    else FindFrom(s, sub, from + 1)
  }

  /** Python's `s.find(sub)`, with `None` for -1. */
  function Find(s: string, sub: string): Option<nat>
    requires |sub| > 0
  {
    FindFrom(s, sub, 0)
  }

  /** Python's `sub in s` for a non-empty `sub`. */
  predicate Contains(s: string, sub: string)
    requires |sub| > 0
  {
    Find(s, sub).Some?
  }

  /** An occurrence of `sub` starts with `sub[0]`. */
  lemma OccursAtHead(s: string, sub: string, i: int)
    requires |sub| > 0 && OccursAt(s, sub, i)
    ensures s[i] == sub[0]
  {
    assert s[i..i + |sub|][0] == s[i];
  }

  /** Without the separator's first character there is no occurrence. */
  lemma FindAbsent(s: string, sub: string)
    requires |sub| > 0 && sub[0] !in s
    ensures Find(s, sub) == None
  {
    if Find(s, sub).Some? {
      OccursAtHead(s, sub, Find(s, sub).value);
    }
  }

  /** For a one-character separator, `c in s` is plain membership. */
  lemma {:induction false} ContainsChar(s: string, c: char)
    ensures Contains(s, [c]) <==> c in s
  {
    if c in s {
      var i :| 0 <= i < |s| && s[i] == c;
      assert s[i..i + 1] == [c];
      assert OccursAt(s, [c], i);
    } else {
      FindAbsent(s, [c]);
    }
  }

  /** Before the first occurrence of a character there is none of it. */
  lemma FindFirstChar(s: string, c: char)
    requires Find(s, [c]).Some?
    ensures c !in s[..Find(s, [c]).value]
  {
    var i := Find(s, [c]).value;
    forall j | 0 <= j < i ensures s[j] != c {
      assert !OccursAt(s, [c], j);
      assert s[j..j + 1] == [s[j]];
    }
  }

  /** The first occurrence of `sep` in `a + sep + b` is right after `a`,
      when `a` does not contain the separator's first character. */
  lemma FindAfterFree(a: string, sep: string, b: string)
    requires |sep| > 0 && sep[0] !in a
    ensures Find(a + sep + b, sep) == Some(|a|)
  {
    var s := a + sep + b;
    assert s[|a|..|a| + |sep|] == sep;
    assert OccursAt(s, sep, |a|);
  }

  // ---------------------------------------------------------------------
  // split / join
  // ---------------------------------------------------------------------

  /** Python's `s.split(sep)` for a non-empty separator. */
  function Split(s: string, sep: string): (r: seq<string>)
    requires |sep| > 0
    ensures |r| >= 1
    decreases |s|
  {
    match Find(s, sep)
    case None => [s]
    case Some(i) => [s[..i]] + Split(s[i + |sep|..], sep)
  }

  /** Python's `s.split(sep, maxsplit)`. */
  function SplitN(s: string, sep: string, maxsplit: nat): (r: seq<string>)
    requires |sep| > 0
    ensures 1 <= |r| <= maxsplit + 1
    decreases maxsplit
  {
    if maxsplit == 0 then [s]
    else match Find(s, sep)
      case None => [s]
      case Some(i) => [s[..i]] + SplitN(s[i + |sep|..], sep, maxsplit - 1)
  }

  /** Python's `sep.join(parts)`. */
  function Join(sep: string, parts: seq<string>): string
    decreases |parts|
  {
    if |parts| == 0 then ""
    else if |parts| == 1 then parts[0]
    else parts[0] + sep + Join(sep, parts[1..])
  }

  /** Cutting `s` at an occurrence of `sep` and gluing it back gives `s`. */
  lemma Reglue(s: string, sep: string, i: nat)
    requires OccursAt(s, sep, i)
    ensures s[..i] + sep + s[i + |sep|..] == s
  {
    assert s == s[..i] + s[i..i + |sep|] + s[i + |sep|..];
  }

  /** Joining the pieces of a split gives the input back. */
  lemma {:induction false} JoinSplit(s: string, sep: string)
    requires |sep| > 0
    ensures Join(sep, Split(s, sep)) == s
    decreases |s|
  {
    match Find(s, sep)
    case None =>
    case Some(i) =>
      var rest := s[i + |sep|..];
      var pieces := [s[..i]] + Split(rest, sep);
      assert Split(s, sep) == pieces;
      JoinCons(sep, pieces);
      assert pieces[1..] == Split(rest, sep);
      JoinSplit(rest, sep);
      Reglue(s, sep, i);
  }

  /** A piece free of the separator's first character splits off whole. */
  lemma SplitPeel(a: string, sep: string, b: string)
    requires |sep| > 0 && sep[0] !in a
    ensures Split(a + sep + b, sep) == [a] + Split(b, sep)
  {
    FindAfterFree(a, sep, b);
    var s := a + sep + b;
    assert s[..|a|] == a;
    assert s[|a| + |sep|..] == b;
  }

  /** The bounded split peels off a free first piece in the same way. */
  lemma SplitNPeel(a: string, sep: string, b: string, maxsplit: nat)
    requires |sep| > 0 && sep[0] !in a && maxsplit > 0
    ensures SplitN(a + sep + b, sep, maxsplit) == [a] + SplitN(b, sep, maxsplit - 1)
  {
    FindAfterFree(a, sep, b);
    var s := a + sep + b;
    assert s[..|a|] == a;
    assert s[|a| + |sep|..] == b;
  }

  /** A text without the separator's first character is one piece. */
  lemma SplitSingle(a: string, sep: string, maxsplit: nat)
    requires |sep| > 0 && sep[0] !in a
    ensures Split(a, sep) == [a] && SplitN(a, sep, maxsplit) == [a]
  {
    FindAbsent(a, sep);
  }

  /** Splitting a join gives the parts back, when no part holds the
      separator's first character. */
  lemma {:induction false} SplitJoin(parts: seq<string>, sep: string)
    requires |sep| > 0 && |parts| >= 1
    requires forall p :: p in parts ==> sep[0] !in p
    ensures Split(Join(sep, parts), sep) == parts
    decreases |parts|
  {
    if |parts| == 1 {
      SplitSingle(parts[0], sep, 0);
    } else {
      SplitJoin(parts[1..], sep);
      SplitPeel(parts[0], sep, Join(sep, parts[1..]));
    }
  }

  /** A join of several parts is the first part, the separator and the
      join of the rest. */
  lemma JoinCons(sep: string, parts: seq<string>)
    requires |parts| >= 2
    ensures Join(sep, parts) == parts[0] + sep + Join(sep, parts[1..])
  {
  }

  /** A bounded split of a join gives the parts back when none of the
      parts it cuts off holds the separator's first character; the last
      part may hold anything. */
  lemma {:induction false} SplitNJoin(parts: seq<string>, sep: string, maxsplit: nat)
    requires |sep| > 0 && |parts| == maxsplit + 1
    requires forall i :: 0 <= i < maxsplit ==> sep[0] !in parts[i]
    ensures SplitN(Join(sep, parts), sep, maxsplit) == parts
    decreases maxsplit
  {
    if maxsplit == 0 {
      assert Join(sep, parts) == parts[0];
    } else {
      var rest := parts[1..];
      var tail := Join(sep, rest);
      SplitNJoinTail(parts, sep, maxsplit);
      JoinCons(sep, parts);
      SplitNPeel(parts[0], sep, tail, maxsplit);
      assert [parts[0]] + rest == parts;
    }
  }

  /** The induction step of `SplitNJoin`: the rest of the parts. */
  lemma {:induction false} SplitNJoinTail(parts: seq<string>, sep: string, maxsplit: nat)
    requires |sep| > 0 && |parts| == maxsplit + 1 && maxsplit > 0
    requires forall i :: 0 <= i < maxsplit ==> sep[0] !in parts[i]
    ensures SplitN(Join(sep, parts[1..]), sep, maxsplit - 1) == parts[1..]
    decreases maxsplit, 0
  {
    var rest := parts[1..];
    forall i | 0 <= i < maxsplit - 1
      ensures sep[0] !in rest[i]
    {
      assert rest[i] == parts[i + 1];
    }
    SplitNJoin(rest, sep, maxsplit - 1);
  }

  /** The text holds the separator exactly when the split has several pieces. */
  lemma SplitCount(s: string, sep: string)
    requires |sep| > 0
    ensures |Split(s, sep)| == 1 <==> !Contains(s, sep)
  {
  }

  // ---------------------------------------------------------------------
  // strip
  // ---------------------------------------------------------------------

  /** Python's `s.lstrip(chars)`, with `chars` taken as a set. */
  function LStrip(s: string, chars: set<char>): (r: string)
    ensures |r| <= |s| && r == s[|s| - |r|..]
    ensures r == [] || r[0] !in chars
    ensures forall i :: 0 <= i < |s| - |r| ==> s[i] in chars
    decreases |s|
  {
    if |s| > 0 && s[0] in chars then
      var r := LStrip(s[1..], chars);
      TailSuffix(s, r);
      r
    else s
  }

  /** Python's `s.rstrip(chars)`. */
  function RStrip(s: string, chars: set<char>): (r: string)
    ensures |r| <= |s| && r == s[..|r|]
    ensures r == [] || r[|r| - 1] !in chars
    ensures forall i :: |r| <= i < |s| ==> s[i] in chars
    decreases |s|
  {
    if |s| > 0 && s[|s| - 1] in chars then
      var r := RStrip(s[..|s| - 1], chars);
      InitPrefix(s, r);
      r
    else s
  }

  /** A suffix of a sequence's tail is a suffix of the sequence, and the
      tail's elements are the sequence's, one place on. */
  lemma TailSuffix<T>(s: seq<T>, r: seq<T>)
    requires s != [] && |r| <= |s| - 1 && r == s[1..][|s| - 1 - |r|..]
    ensures r == s[|s| - |r|..]
    ensures forall i :: 1 <= i < |s| ==> s[1..][i - 1] == s[i]
  {
  }

  /** A prefix of a sequence less its last element is a prefix of the
      sequence, with the same elements. */
  lemma InitPrefix<T>(s: seq<T>, r: seq<T>)
    requires s != [] && |r| <= |s| - 1 && r == s[..|s| - 1][..|r|]
    ensures r == s[..|r|]
    ensures forall i :: 0 <= i < |s| - 1 ==> s[..|s| - 1][i] == s[i]
  {
  }

  /** Python's `s.strip(chars)`. */
  function Strip(s: string, chars: set<char>): string {
    RStrip(LStrip(s, chars), chars)
  }

  /** The characters Python's `str.isspace` accepts, which `strip()` removes. */
  const Whitespace: set<char> := {
    ' ', '\t', '\n', '\r', '\U{b}', '\U{c}', '\U{1c}', '\U{1d}', '\U{1e}', '\U{1f}',
    '\U{85}', '\U{a0}', '\U{1680}', '\U{2000}', '\U{2001}', '\U{2002}', '\U{2003}',
    '\U{2004}', '\U{2005}', '\U{2006}', '\U{2007}', '\U{2008}', '\U{2009}', '\U{200a}',
    '\U{2028}', '\U{2029}', '\U{202f}', '\U{205f}', '\U{3000}'
  }

  /** Python's `s.strip()`. */
  function StripWs(s: string): string {
    Strip(s, Whitespace)
  }

  /** Neither end of `s` carries a character of `chars`. */
  predicate Unpadded(s: string, chars: set<char>) {
    s == [] || (s[0] !in chars && s[|s| - 1] !in chars)
  }

  /** `strip` leaves no character of the set at either end. */
  lemma StripLeavesUnpadded(s: string, chars: set<char>)
    ensures Unpadded(Strip(s, chars), chars)
  {
    var l := LStrip(s, chars);
    var r := RStrip(l, chars);
    if r != [] {
      assert r[0] == l[0];
    }
  }

  /** `strip` keeps the piece `s[lo:hi]` of its input and removes only
      characters of the set, from the ends. */
  lemma StripShape(s: string, chars: set<char>) returns (lo: nat, hi: nat)
    ensures lo <= hi <= |s| && Strip(s, chars) == s[lo..hi]
    ensures forall i :: 0 <= i < lo ==> s[i] in chars
    ensures forall i :: hi <= i < |s| ==> s[i] in chars
  {
    var l := LStrip(s, chars);
    lo := |s| - |l|;
    var r := RStrip(l, chars);
    hi := lo + |r|;
    SliceOfSuffix(s, lo, |r|);
  }

  /** A prefix of a suffix is a slice, and the suffix's elements are the
      sequence's, shifted. */
  lemma SliceOfSuffix<T>(s: seq<T>, lo: nat, m: nat)
    requires lo + m <= |s|
    ensures s[lo..][..m] == s[lo..lo + m]
    ensures forall i :: lo <= i < |s| ==> s[lo..][i - lo] == s[i]
  {
  }

  /** An unpadded text is left alone by `strip`. */
  lemma StripUnpadded(s: string, chars: set<char>)
    requires Unpadded(s, chars)
    ensures Strip(s, chars) == s
  {
  }

  /** `strip()` leaves a text with no whitespace at its ends alone. */
  lemma StripWsUnpadded(s: string)
    requires Unpadded(s, Whitespace)
    ensures StripWs(s) == s
  {
    StripUnpadded(s, Whitespace);
  }

  /** Stripping twice is stripping once. */
  lemma StripIdempotent(s: string, chars: set<char>)
    ensures Strip(Strip(s, chars), chars) == Strip(s, chars)
  {
    StripLeavesUnpadded(s, chars);
    StripUnpadded(Strip(s, chars), chars);
  }

  // ---------------------------------------------------------------------
  // replace / lower / upper / startswith
  // ---------------------------------------------------------------------

  /** Python's `s.replace(c, "")` for a one-character `c`. */
  function Remove(s: string, c: char): string
    decreases |s|
  {
    if s == [] then []
    else (if s[0] == c then [] else [s[0]]) + Remove(s[1..], c)
  }

  /** `replace(c, "")` removes every `c` and keeps every other character. */
  lemma {:induction false} RemoveMembers(s: string, c: char)
    ensures forall x :: x in Remove(s, c) <==> x in s && x != c
    decreases |s|
  {
    if s != [] {
      RemoveMembers(s[1..], c);
      assert s == [s[0]] + s[1..];
    }
  }

  /** `replace` works character by character: removing from a concatenation
      removes from each part, in order. */
  lemma {:induction false} RemoveAppend(a: string, b: string, c: char)
    ensures Remove(a + b, c) == Remove(a, c) + Remove(b, c)
    decreases |a|
  {
    if a == [] {
      assert a + b == b;
    } else {
      assert (a + b)[1..] == a[1..] + b;
      RemoveAppend(a[1..], b, c);
    }
  }

  /** Removing from a single character keeps it iff it is not `c`; with
      `RemoveAppend` this fixes `Remove` on every string. */
  lemma RemoveChar(x: char, c: char)
    ensures Remove([x], c) == if x == c then [] else [x]
  {
    assert [x][1..] == [];
  }

  function LowerChar(c: char): char {
    if 'A' <= c <= 'Z' then (c as int + 32) as char else c
  }

  function UpperChar(c: char): char {
    if 'a' <= c <= 'z' then (c as int - 32) as char else c
  }

  /** `s.lower()` on the ASCII letters. */
  function Lower(s: string): (r: string)
    ensures |r| == |s| && forall i :: 0 <= i < |s| ==> r[i] == LowerChar(s[i])
  {
    seq(|s|, i requires 0 <= i < |s| => LowerChar(s[i]))
  }

  /** `s.upper()` on the ASCII letters. */
  function Upper(s: string): (r: string)
    ensures |r| == |s| && forall i :: 0 <= i < |s| ==> r[i] == UpperChar(s[i])
  {
    seq(|s|, i requires 0 <= i < |s| => UpperChar(s[i]))
  }

  /** Python's `s.startswith(p)`. */
  predicate StartsWith(s: string, p: string) {
    |p| <= |s| && s[..|p|] == p
  }

  // ---------------------------------------------------------------------
  // int() and str(int)
  // ---------------------------------------------------------------------

  predicate IsDigit(c: char) {
    '0' <= c <= '9'
  }

  /** Digits with single underscores between them, as `int()` accepts. */
  predicate IsDigitRun(d: string) {
    && |d| > 0
    && IsDigit(d[0]) && IsDigit(d[|d| - 1])
    && (forall i :: 0 <= i < |d| ==> IsDigit(d[i]) || d[i] == '_')
    && (forall i :: 0 <= i < |d| - 1 ==> d[i] == '_' ==> IsDigit(d[i + 1]))
  }

  /** The decimal value of a digit run, underscores ignored. */
  function DigitsValue(d: string): nat
    decreases |d|
  {
    if d == [] then 0
    else if IsDigit(d[|d| - 1]) then DigitsValue(d[..|d| - 1]) * 10 + (d[|d| - 1] as int - '0' as int)
    else DigitsValue(d[..|d| - 1])
  }

  /** Python's `int(s)` in base 10: surrounding whitespace, an optional
      sign, then a digit run. `None` is the ValueError. */
  function ParseInt(s: string): Option<int> {
    ParseSigned(StripWs(s))
  }

  /** `int()` on an already stripped text. */
  function ParseSigned(t: string): Option<int> {
    var signed := |t| > 0 && (t[0] == '+' || t[0] == '-');
    var body := if signed then t[1..] else t;
    var magnitude: int := DigitsValue(body);
    if !IsDigitRun(body) then None
    else if signed && t[0] == '-' then Some(-magnitude)
    else Some(magnitude)
  }

  function DigitChar(d: nat): char
    requires d < 10
  {
    ('0' as int + d) as char
  }

  /** Python's `str(n)` for a natural number. */
  function NatToStr(n: nat): string
    decreases n
  {
    if n < 10 then [DigitChar(n)] else NatToStr(n / 10) + [DigitChar(n % 10)]
  }

  /** Python's `str(i)` for an integer. */
  function IntToStr(i: int): string {
    if i < 0 then "-" + NatToStr(-i) else NatToStr(i)
  }

  /** `str(n)` is a plain digit run, worth `n`. */
  lemma {:induction false} NatToStrDigits(n: nat)
    ensures IsDigitRun(NatToStr(n)) && DigitsValue(NatToStr(n)) == n
    ensures forall i :: 0 <= i < |NatToStr(n)| ==> IsDigit(NatToStr(n)[i])
    decreases n
  {
    if n >= 10 {
      NatToStrDigits(n / 10);
      var s := NatToStr(n);
      assert s[..|s| - 1] == NatToStr(n / 10);
    }
  }

  /** Digits and the minus sign are not whitespace. */
  lemma NotWhitespace(c: char)
    requires IsDigit(c) || c == '-'
    ensures c !in Whitespace
  {
  }

  /** `str(i)` has nothing for `strip()` to remove. */
  lemma IntToStrUnpadded(i: int)
    ensures Unpadded(IntToStr(i), Whitespace)
  {
    var n: nat := if i < 0 then -i else i;
    NatToStrDigits(n);
    var d := NatToStr(n);
    var s := IntToStr(i);
    assert s[|s| - 1] == d[|d| - 1];
    NotWhitespace(s[|s| - 1]);
    NotWhitespace(s[0]);
  }

  /** The sign and digit reading of `int()` inverts `str()`. */
  lemma ParseSignedToStr(i: int)
    ensures ParseSigned(IntToStr(i)) == Some(i)
  {
    var n: nat := if i < 0 then -i else i;
    NatToStrDigits(n);
    var s := IntToStr(i);
    if i < 0 {
      assert s[1..] == NatToStr(n);
    } else {
      assert IsDigit(s[0]);
    }
  }

  /** `int(str(i)) == i`: printing an integer and reading it back is exact. */
  lemma ParseIntToStr(i: int)
    ensures ParseInt(IntToStr(i)) == Some(i)
  {
    IntToStrUnpadded(i);
    StripUnpadded(IntToStr(i), Whitespace);
    ParseSignedToStr(i);
  }

  /** `str(int(s))` is a canonical form: reading it again gives the same
      number, so normalising twice equals normalising once. */
  lemma CanonicalInt(s: string)
    requires ParseInt(s).Some?
    ensures ParseInt(IntToStr(ParseInt(s).value)) == ParseInt(s)
  {
    ParseIntToStr(ParseInt(s).value);
  }
}
