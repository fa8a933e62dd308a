/**
 * The context-window repair of the waterfall pipeline: `_recent` cuts the
 * last `k` messages of the history and repairs both ends, and
 * `_sanitize_for_openai` puts the role's system message in front and
 * repeats the repairs against the full history.
 */
module Window {
  import opened PyStr
  import opened Messages

  /** The default `k` of `_recent`. */
  const DefaultWindow: nat := 40

  function Min(a: int, b: int): int {
    if a <= b then a else b
  }

  // ---------------------------------------------------------------------
  // _recent
  // ---------------------------------------------------------------------

  /** Where `msgs[-k:]` starts. */
  function CutStart(msgs: seq<Message>, k: nat): (start: nat)
    requires k >= 1
    ensures start <= |msgs| && |msgs[start..]| == Min(k, |msgs|)
  {
    if k >= |msgs| then 0 else |msgs| - k
  }

  /** `fix_leading_tool` applied to the cut `msgs[start..]`: a cut that starts
      with a tool message is rebased onto the last tool caller before it
      (taking everything from there to the end), or else loses its leading
      tool messages. */
  function FixLeadingTool(msgs: seq<Message>, start: nat): seq<Message>
    requires start <= |msgs|
  {
    if start == |msgs| || !msgs[start].Tool? then msgs[start..]
    else match LastCallerBefore(msgs, start)
      case Some(i) => msgs[i..]
      case None => DropLeadingTools(msgs[start..])
  }

  /** What `_recent(state, k)` returns for the history `msgs`. */
  function RecentWindow(msgs: seq<Message>, k: nat): seq<Message>
    requires k >= 1
  {
    if msgs == [] then [] else DropTrailingCaller(FixLeadingTool(msgs, CutStart(msgs, k)))
  }

  /** The repaired cut is a suffix of the history and does not start with a
      tool message. */
  lemma FixLeadingToolShape(msgs: seq<Message>, start: nat)
    requires start <= |msgs|
    ensures var f := FixLeadingTool(msgs, start);
      && |f| <= |msgs| && f == msgs[|msgs| - |f|..]
      && (f == [] || !f[0].Tool?)
  {
    var f := FixLeadingTool(msgs, start);
    if start == |msgs| || !msgs[start].Tool? {
      assert f == msgs[start..];
      SettledSuffix(msgs, start);
    } else {
      var caller := LastCallerBefore(msgs, start);
      if caller.Some? {
        assert f == msgs[caller.value..];
        SettledSuffix(msgs, caller.value);
      } else {
        assert f == DropLeadingTools(msgs[start..]);
        SuffixOfSuffix(msgs, start, f);
      }
    }
  }

  /** A suffix starting at a message that is not a tool message is one the
      repair leaves as it is. */
  lemma SettledSuffix(msgs: seq<Message>, lo: nat)
    requires lo <= |msgs| && (lo < |msgs| ==> !msgs[lo].Tool?)
    ensures var f := msgs[lo..];
      && |f| <= |msgs| && f == msgs[|msgs| - |f|..]
      && (f == [] || !f[0].Tool?)
  {
    if lo < |msgs| {
      assert msgs[lo..][0] == msgs[lo];
    }
  }

  /** A suffix of the suffix `s[start:]` is a suffix of `s`. */
  lemma SuffixOfSuffix<T>(s: seq<T>, start: nat, d: seq<T>)
    requires start <= |s| && |d| <= |s| - start
    requires d == s[start..][|s| - start - |d|..]
    ensures d == s[|s| - |d|..]
  {
  }

  /** `_recent` never hands out a window that starts with a tool message;
      the window is `msgs[lo:]` or `msgs[lo:-1]` of the history, in order;
      and an empty history gives an empty window. */
  lemma RecentWindowShape(msgs: seq<Message>, k: nat)
    requires k >= 1
    ensures var w := RecentWindow(msgs, k);
      && (msgs == [] ==> w == [])
      && (w == [] || !w[0].Tool?)
      && exists lo :: 0 <= lo <= |msgs| && (w == msgs[lo..] || (lo < |msgs| && w == msgs[lo..|msgs| - 1]))
  {
    var w := RecentWindow(msgs, k);
    RecentNoLeadingTool(msgs, k);
    if msgs == [] {
      assert w == msgs[0..];
    } else {
      var start := CutStart(msgs, k);
      FixLeadingToolShape(msgs, start);
      var f := FixLeadingTool(msgs, start);
      RecentWindowOf(msgs, k, f);
      var lo := |msgs| - |f|;
      if f != [] && IsToolCaller(f[|f| - 1]) {
        SuffixLessLast(msgs, lo);
        assert w == msgs[lo..|msgs| - 1];
      } else {
        assert w == msgs[lo..];
      }
    }
  }

  /** Dropping the last element of a suffix `s[lo:]` leaves `s[lo:-1]`. */
  lemma SuffixLessLast<T>(s: seq<T>, lo: nat)
    requires lo < |s|
    ensures s[lo..][..|s| - lo - 1] == s[lo..|s| - 1]
  {
  }

  /** When the cut `msgs[-k:]` starts with a tool message, the window is
      stretched back to the last tool caller before the cut and then runs
      to the end of the history, less a trailing tool caller; it can then
      hold more than `k` messages. */
  lemma RecentExtendsBack(msgs: seq<Message>, k: nat, i: nat)
    requires k >= 1 && k < |msgs|
    requires msgs[|msgs| - k].Tool?
    requires i < |msgs| - k && IsToolCaller(msgs[i])
    requires forall j :: i < j < |msgs| - k ==> !IsToolCaller(msgs[j])
    ensures RecentWindow(msgs, k) == DropTrailingCaller(msgs[i..])
    ensures |RecentWindow(msgs, k)| >= k
    ensures !IsToolCaller(msgs[|msgs| - 1]) ==> |RecentWindow(msgs, k)| > k
  {
    LastCallerFound(msgs, |msgs| - k, i);
  }

  /** When no tool caller precedes a cut that starts with tool messages,
      those leading tool messages are dropped instead. */
  lemma RecentStripsOrphans(msgs: seq<Message>, k: nat)
    requires k >= 1 && msgs != []
    requires msgs[CutStart(msgs, k)].Tool?
    requires forall j :: 0 <= j < CutStart(msgs, k) ==> !IsToolCaller(msgs[j])
    ensures RecentWindow(msgs, k) == DropTrailingCaller(DropLeadingTools(msgs[CutStart(msgs, k)..]))
  {
  }

  /** When the cut does not start with a tool message, the window is the
      last `k` messages, less the final one exactly when that one is a tool
      caller. */
  lemma RecentPlainCut(msgs: seq<Message>, k: nat)
    requires k >= 1 && msgs != []
    requires !msgs[CutStart(msgs, k)].Tool?
    ensures var cut := msgs[CutStart(msgs, k)..];
      && (IsToolCaller(msgs[|msgs| - 1]) ==> RecentWindow(msgs, k) == cut[..|cut| - 1])
      && (!IsToolCaller(msgs[|msgs| - 1]) ==> RecentWindow(msgs, k) == cut)
  {
  }

  /** Example: a history of one tool caller answered by two tool messages,
      cut to its last message, comes back whole, longer than `k`. */
  lemma RecentLongerThanK()
    ensures var c := ToolCall("1", "get_me", map[]);
      var h := [AI("", [c]), Tool("a", "1"), Tool("b", "1")];
      RecentWindow(h, 1) == h && |RecentWindow(h, 1)| > 1
  {
    var c := ToolCall("1", "get_me", map[]);
    var h := [AI("", [c]), Tool("a", "1"), Tool("b", "1")];
    LastCallerFound(h, 2, 0);
    assert h[0..] == h;
  }

  /** `fix_leading_tool`, with its backward `while i >= 0` scan and its
      `while tmp and isinstance(tmp[0], ToolMessage)` loop. */
  method FixLeadingToolScan(msgs: seq<Message>, cut: seq<Message>) returns (fixed: seq<Message>)
    requires |cut| <= |msgs| && cut == msgs[|msgs| - |cut|..]
    ensures fixed == FixLeadingTool(msgs, |msgs| - |cut|)
  {
    if cut == [] || !cut[0].Tool? {
      return cut;
    }
    var startIdx := |msgs| - |cut|;
    var i := startIdx - 1;
    while i >= 0
      invariant -1 <= i < startIdx
      invariant forall j :: i < j < startIdx ==> !IsToolCaller(msgs[j])
    {
      if IsToolCaller(msgs[i]) {
        LastCallerFound(msgs, startIdx, i);
        return msgs[i..];
      }
      i := i - 1;
    }
    var tmp := cut;
    while tmp != [] && tmp[0].Tool?
      invariant |tmp| <= |cut| && tmp == cut[|cut| - |tmp|..]
      invariant forall j :: 0 <= j < |cut| - |tmp| ==> cut[j].Tool?
    {
      tmp := tmp[1..];
    }
    DropLeadingToolsUnique(cut, tmp);
    fixed := tmp;
  }

  /** `_recent(state, k)`. */
  method Recent(msgs: seq<Message>, k: nat) returns (window: seq<Message>)
    requires k >= 1
    ensures window == RecentWindow(msgs, k)
    ensures window == [] || !window[0].Tool?
  {
    if |msgs| == 0 {
      return [];
    }
    var cut := if k >= |msgs| then msgs else msgs[|msgs| - k..];
    CutIsSuffix(msgs, k, cut);
    cut := FixLeadingToolScan(msgs, cut);
    window := DropTrailing(cut);
    RecentWindowOf(msgs, k, cut);
    RecentNoLeadingTool(msgs, k);
  }

  /** `msgs[-k:]` is the suffix from `CutStart`. */
  lemma CutIsSuffix(msgs: seq<Message>, k: nat, cut: seq<Message>)
    requires k >= 1 && cut == if k >= |msgs| then msgs else msgs[|msgs| - k..]
    ensures |cut| <= |msgs| && cut == msgs[|msgs| - |cut|..] && |msgs| - |cut| == CutStart(msgs, k)
  {
  }

  /** The trailing-caller check of `_recent`. `after_last` is
      `len(msgs) - len(cut) + len(cut)`, the end of the history, so the test
      for a following tool message always fails and a trailing tool caller
      is always dropped. */
  method DropTrailing(cut: seq<Message>) returns (window: seq<Message>)
    ensures window == DropTrailingCaller(cut)
  {
    window := cut;
    if cut != [] && IsToolCaller(cut[|cut| - 1]) {
      window := cut[..|cut| - 1];
    }
  }

  /** The window never starts with a tool message. */
  lemma RecentNoLeadingTool(msgs: seq<Message>, k: nat)
    requires k >= 1
    ensures var w := RecentWindow(msgs, k); w == [] || !w[0].Tool?
  {
    if msgs != [] {
      var start := CutStart(msgs, k);
      FixLeadingToolShape(msgs, start);
      var f := FixLeadingTool(msgs, start);
      RecentWindowOf(msgs, k, f);
      DropTrailingKeepsHead(f);
    }
  }

  /** Dropping a trailing tool caller keeps the first message. */
  lemma DropTrailingKeepsHead(s: seq<Message>)
    ensures var d := DropTrailingCaller(s); d == [] || d[0] == s[0]
  {
  }

  /** The window of a non-empty history is its repaired cut less a trailing
      tool caller. */
  lemma RecentWindowOf(msgs: seq<Message>, k: nat, fixed: seq<Message>)
    requires k >= 1 && msgs != [] && fixed == FixLeadingTool(msgs, CutStart(msgs, k))
    ensures RecentWindow(msgs, k) == DropTrailingCaller(fixed)
  {
  }

  // ---------------------------------------------------------------------
  // _sanitize_for_openai
  // ---------------------------------------------------------------------

  /** The calls `full_history.index(recent[0])` succeed: each leading tool
      message the loop looks up occurs in the full history, up to the first
      one that has a tool caller before it. */
  predicate SanitizeDefined(recent: seq<Message>, full: seq<Message>)
    decreases |recent|
  {
    recent == [] || !recent[0].Tool? ||
    (recent[0] in full &&
      (LastCallerBefore(full, FirstIndex(full, recent[0])).Some? || SanitizeDefined(recent[1..], full)))
  }

  /** The leading-tool loop of `_sanitize_for_openai`: a window starting with
      a tool message is rebased onto the last tool caller before that
      message's first position in the full history, keeping the window's
      length (`full[j : idx + len(recent)]`, clipped at the end); without
      such a caller the tool message is dropped and the loop goes on. */
  function RebaseOnCaller(recent: seq<Message>, full: seq<Message>): seq<Message>
    requires SanitizeDefined(recent, full)
    decreases |recent|
  {
    if recent == [] || !recent[0].Tool? then recent
    else
      var idx := FirstIndex(full, recent[0]);
      match LastCallerBefore(full, idx)
      case Some(j) => full[j..Min(idx + |recent|, |full|)]
      case None => RebaseOnCaller(recent[1..], full)
  }

  /** The messages `_sanitize_for_openai` puts after the system message. */
  function SanitizedBody(recent: seq<Message>, full: seq<Message>): seq<Message>
    requires SanitizeDefined(recent, full)
  {
    DropTrailingCaller(RebaseOnCaller(recent, full))
  }

  /** The rebased window never starts with a tool message, and it is either
      a suffix of `recent` or a slice of the full history. */
  lemma {:induction false} RebaseShape(recent: seq<Message>, full: seq<Message>)
    requires SanitizeDefined(recent, full)
    ensures var b := RebaseOnCaller(recent, full);
      && (b == [] || !b[0].Tool?)
      && ((|b| <= |recent| && b == recent[|recent| - |b|..])
          || exists lo, hi :: 0 <= lo < hi <= |full| && b == full[lo..hi])
    decreases |recent|
  {
    if recent == [] || !recent[0].Tool? {
      assert recent[|recent| - |recent|..] == recent;
    } else {
      var idx := FirstIndex(full, recent[0]);
      match LastCallerBefore(full, idx)
      case Some(j) =>
        var hi := Min(idx + |recent|, |full|);
        var b := full[j..hi];
        assert b[0] == full[j];
        assert 0 <= j < hi <= |full| && b == full[j..hi];
      case None =>
        RebaseShape(recent[1..], full);
        var b := RebaseOnCaller(recent[1..], full);
        if |b| <= |recent[1..]| && b == recent[1..][|recent[1..]| - |b|..] {
          TailSuffix(recent, b);
        }
    }
  }

  /** The body after the system message never starts with a tool message. */
  lemma SanitizedNoLeadingTool(recent: seq<Message>, full: seq<Message>)
    requires SanitizeDefined(recent, full)
    ensures var b := SanitizedBody(recent, full); b == [] || !b[0].Tool?
  {
    RebaseShape(recent, full);
  }

  /** A window that neither starts with a tool message nor ends with a tool
      caller is passed through unchanged. */
  lemma SanitizeKeepsCleanWindow(recent: seq<Message>, full: seq<Message>)
    requires recent == [] || (!recent[0].Tool? && !IsToolCaller(recent[|recent| - 1]))
    ensures SanitizeDefined(recent, full) && SanitizedBody(recent, full) == recent
  {
  }

  /** Applied to the output of `_recent` on the same history, as every role
      does, the sanitizer only drops one more trailing tool caller. */
  lemma SanitizeAfterRecent(full: seq<Message>, k: nat)
    requires k >= 1
    ensures SanitizeDefined(RecentWindow(full, k), full)
    ensures SanitizedBody(RecentWindow(full, k), full) == DropTrailingCaller(RecentWindow(full, k))
  {
    RecentWindowShape(full, k);
  }

  /** Rebasing keeps the absence of adjacent tool callers. */
  lemma {:induction false} RebaseNoAdjacent(recent: seq<Message>, full: seq<Message>)
    requires SanitizeDefined(recent, full)
    requires NoAdjacentCallers(recent) && NoAdjacentCallers(full)
    ensures NoAdjacentCallers(RebaseOnCaller(recent, full))
    decreases |recent|
  {
    if recent != [] && recent[0].Tool? {
      var idx := FirstIndex(full, recent[0]);
      match LastCallerBefore(full, idx)
      case Some(j) =>
        SliceNoAdjacent(full, j, Min(idx + |recent|, |full|));
      case None =>
        SliceNoAdjacent(recent, 1, |recent|);
        assert recent[1..|recent|] == recent[1..];
        RebaseNoAdjacent(recent[1..], full);
    }
  }

  /** When tool callers never come two in a row, in the window and in the
      history, the body never ends on a tool caller. */
  lemma SanitizedEndsClean(recent: seq<Message>, full: seq<Message>)
    requires SanitizeDefined(recent, full)
    requires NoAdjacentCallers(recent) && NoAdjacentCallers(full)
    ensures var b := SanitizedBody(recent, full); b == [] || !IsToolCaller(b[|b| - 1])
  {
    RebaseNoAdjacent(recent, full);
    DropTrailingCallerClean(RebaseOnCaller(recent, full));
  }
  /** The window is one slice of the history. */
  lemma RecentWindowSlice(msgs: seq<Message>, k: nat) returns (lo: nat, hi: nat)
    requires k >= 1
    ensures lo <= hi <= |msgs| && RecentWindow(msgs, k) == msgs[lo..hi]
  {
    if msgs == [] {
      lo, hi := 0, 0;
    } else {
      var start := CutStart(msgs, k);
      FixLeadingToolShape(msgs, start);
      var f := FixLeadingTool(msgs, start);
      RecentWindowOf(msgs, k, f);
      lo := |msgs| - |f|;
      if f != [] && IsToolCaller(f[|f| - 1]) {
        SuffixLessLast(msgs, lo);
        hi := |msgs| - 1;
      } else {
        hi := |msgs|;
      }
    }
  }

  /** The window of a history without adjacent tool callers has none
      either. */
  lemma RecentApart(msgs: seq<Message>, k: nat)
    requires k >= 1 && NoAdjacentCallers(msgs)
    ensures NoAdjacentCallers(RecentWindow(msgs, k))
  {
    var lo, hi := RecentWindowSlice(msgs, k);
    SliceNoAdjacent(msgs, lo, hi);
  }

  /** For a history without adjacent tool callers, the sanitized window a
      role sends never ends on a tool caller. */
  lemma RecentBodyEndsClean(msgs: seq<Message>, k: nat)
    requires k >= 1 && NoAdjacentCallers(msgs)
    ensures SanitizeDefined(RecentWindow(msgs, k), msgs)
    ensures var b := SanitizedBody(RecentWindow(msgs, k), msgs); b == [] || !IsToolCaller(b[|b| - 1])
  {
    RecentApart(msgs, k);
    SanitizeAfterRecent(msgs, k);
    SanitizedEndsClean(RecentWindow(msgs, k), msgs);
  }


  /** The sanitizer removes at most one trailing tool caller, so it is not
      idempotent: two callers in a row lose only the last one per pass. */
  lemma SanitizeNotIdempotent()
    ensures var c := ToolCall("1", "list_branches", map[]);
      var recent := [Human("fix bug"), AI("", [c]), AI("", [c])];
      && SanitizedBody(recent, recent) == [Human("fix bug"), AI("", [c])]
      && SanitizedBody(SanitizedBody(recent, recent), recent) == [Human("fix bug")]
  {
  }

  /** The window `_recent` builds from a history whose tool replies hang
      off their callers keeps that shape, so each of its tool messages has
      its tool caller earlier in the same window. */
  lemma RecentKeepsToolsAnchored(msgs: seq<Message>, k: nat)
    requires k >= 1 && ToolsFollowCallers(msgs)
    ensures ToolsFollowCallers(RecentWindow(msgs, k))
  {
    if msgs != [] {
      var start := CutStart(msgs, k);
      FixLeadingToolShape(msgs, start);
      var f := FixLeadingTool(msgs, start);
      var lo := |msgs| - |f|;
      assert f == msgs[lo..|msgs|];
      SliceFollows(msgs, lo, |msgs|);
      if f != [] && IsToolCaller(f[|f| - 1]) {
        SliceFollows(f, 0, |f| - 1);
        assert f[0..|f| - 1] == f[..|f| - 1];
      }
    }
  }

  /** The inner `while j >= 0` scan of `_sanitize_for_openai`: the last
      tool caller before position `n`, if any. */
  method ScanBackForCaller(msgs: seq<Message>, n: nat) returns (found: Option<nat>)
    requires n <= |msgs|
    ensures found == LastCallerBefore(msgs, n)
  {
    var j := n - 1;
    while j >= 0
      invariant -1 <= j < n
      invariant forall t :: j < t < n ==> !IsToolCaller(msgs[t])
    {
      if IsToolCaller(msgs[j]) {
        LastCallerFound(msgs, n, j);
        return Some(j);
      }
      j := j - 1;
    }
    return None;
  }

  /** The `for m in recent` loop of `_sanitize_for_openai`: both branches
      for a tool message append it, so the loop copies its input. */
  method CopyCleaned(rec: seq<Message>) returns (cleaned: seq<Message>)
    ensures cleaned == rec
  {
    cleaned := [];
    for t := 0 to |rec|
      invariant cleaned == rec[..t]
    {
      var m := rec[t];
      if m.Tool? {
        if cleaned != [] && IsToolCaller(cleaned[|cleaned| - 1]) {
          cleaned := cleaned + [m];
        } else {
          cleaned := cleaned + [m];
        }
      } else {
        cleaned := cleaned + [m];
      }
    }
  }

  /** One pass of the leading-tool loop that finds the caller `j` before
      the tool message's position `idx` rebases onto `full[j:hi]`. */
  lemma RebaseFound(rec: seq<Message>, full: seq<Message>, idx: nat, j: nat, hi: nat)
    requires SanitizeDefined(rec, full) && rec != [] && rec[0].Tool?
    requires idx == FirstIndex(full, rec[0]) && LastCallerBefore(full, idx) == Some(j)
    requires hi == Min(idx + |rec|, |full|)
    ensures j < hi <= |full| && IsToolCaller(full[j]) && RebaseOnCaller(rec, full) == full[j..hi]
  {
    assert rec[0] in full;
    assert idx < |full| && j < idx;
  }

  /** A slice of the history that starts at a tool caller is left as it is
      by the leading-tool loop. */
  lemma CallerSliceSettled(full: seq<Message>, lo: nat, hi: nat)
    requires lo < hi <= |full| && IsToolCaller(full[lo])
    ensures var s := full[lo..hi];
      s != [] && !s[0].Tool? && SanitizeDefined(s, full) && RebaseOnCaller(s, full) == s
  {
    assert full[lo..hi][0] == full[lo];
  }

  /** One pass of the leading-tool loop that finds no caller drops the
      leading tool message and leaves the outcome as it was. */
  lemma RebaseSkip(rec: seq<Message>, full: seq<Message>)
    requires SanitizeDefined(rec, full) && rec != [] && rec[0].Tool?
    requires LastCallerBefore(full, FirstIndex(full, rec[0])).None?
    ensures SanitizeDefined(rec[1..], full) && RebaseOnCaller(rec[1..], full) == RebaseOnCaller(rec, full)
  {
  }

  /** One pass of the leading-tool loop of `_sanitize_for_openai`: look the
      tool message up in the full history and rebase onto the caller before
      it, or drop it. The outcome of the loop does not change, and the
      window either stops starting with a tool message or gets shorter. */
  method RebaseOnce(rec: seq<Message>, full: seq<Message>) returns (next: seq<Message>)
    requires SanitizeDefined(rec, full) && rec != [] && rec[0].Tool?
    ensures SanitizeDefined(next, full) && RebaseOnCaller(next, full) == RebaseOnCaller(rec, full)
    ensures next == [] || !next[0].Tool? || |next| < |rec|
  {
    var idx := FirstIndex(full, rec[0]);
    var caller := ScanBackForCaller(full, idx);
    if caller.Some? {
      var hi := Min(idx + |rec|, |full|);
      RebaseFound(rec, full, idx, caller.value, hi);
      CallerSliceSettled(full, caller.value, hi);
      next := full[caller.value..hi];
    } else {
      RebaseSkip(rec, full);
      next := rec[1..];
    }
  }

  /** `_sanitize_for_openai(system_msg, recent, full_history)`. */
  method Sanitize(systemMsg: Message, recent: seq<Message>, full: seq<Message>) returns (prompt: seq<Message>)
    requires SanitizeDefined(recent, full)
    ensures prompt == [systemMsg] + SanitizedBody(recent, full)
    ensures |prompt| >= 1 && prompt[0] == systemMsg
    ensures |prompt| == 1 || !prompt[1].Tool?
  {
    var rec := recent;
    while rec != [] && rec[0].Tool?
      invariant SanitizeDefined(rec, full)
      invariant RebaseOnCaller(rec, full) == RebaseOnCaller(recent, full)
      decreases if rec != [] && rec[0].Tool? then |rec| + 1 else 0
    {
      rec := RebaseOnce(rec, full);
    }
    var cleaned := CopyCleaned(rec);
    if cleaned != [] && IsToolCaller(cleaned[|cleaned| - 1]) {
      cleaned := cleaned[..|cleaned| - 1];
    }
    prompt := [systemMsg] + cleaned;
    SanitizedNoLeadingTool(recent, full);
  }
}
