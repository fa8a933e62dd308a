/**
 * The chat messages the pipeline stores in its history: LangChain's
 * HumanMessage, SystemMessage, AIMessage (with its `tool_calls`) and
 * ToolMessage (with the `tool_call_id` it answers), as one tagged union.
 */
module Messages {
  import opened PyStr

  /** One tool-call request of an AIMessage; arguments are opaque key/values. */
  datatype ToolCall = ToolCall(id: string, name: string, args: map<string, string>)

  datatype Message =
    | Human(content: string)
    | System(content: string)
    | AI(content: string, toolCalls: seq<ToolCall>)
    | Tool(content: string, toolCallId: string)

  /** `isinstance(m, AIMessage) and getattr(m, "tool_calls", None)`: an AI
      message whose list of tool calls is non-empty. */
  predicate IsToolCaller(m: Message) {
    m.AI? && |m.toolCalls| > 0
  }

  /** The largest index below `n` that holds a tool caller, if any. */
  function LastCallerBefore(msgs: seq<Message>, n: nat): (r: Option<nat>)
    requires n <= |msgs|
    ensures r.Some? ==> r.value < n && IsToolCaller(msgs[r.value])
    ensures r.Some? ==> forall j :: r.value < j < n ==> !IsToolCaller(msgs[j])
    ensures r.None? ==> forall j :: 0 <= j < n ==> !IsToolCaller(msgs[j])
    decreases n
  {
    if n == 0 then None
    else if IsToolCaller(msgs[n - 1]) then Some(n - 1)
    else LastCallerBefore(msgs, n - 1)
  }

  /** A backward scan that stops at a caller `i` with no caller between `i`
      and `n` has found the last caller before `n`. */
  lemma LastCallerFound(msgs: seq<Message>, n: nat, i: nat)
    requires i < n <= |msgs| && IsToolCaller(msgs[i])
    requires forall j :: i < j < n ==> !IsToolCaller(msgs[j])
    ensures LastCallerBefore(msgs, n) == Some(i)
  {
  }

  /** The history with its leading tool messages removed. */
  function DropLeadingTools(s: seq<Message>): (r: seq<Message>)
    ensures |r| <= |s| && r == s[|s| - |r|..]
    ensures r == [] || !r[0].Tool?
    ensures forall i :: 0 <= i < |s| - |r| ==> s[i].Tool?
    decreases |s|
  {
    if s != [] && s[0].Tool? then
      var r := DropLeadingTools(s[1..]);
      TailSuffix(s, r);
      r
    else s
  }

  /** Any suffix reached by dropping only tool messages and stopping at a
      non-tool message (or the end) is the one `DropLeadingTools` gives. */
  lemma DropLeadingToolsUnique(s: seq<Message>, t: seq<Message>)
    requires |t| <= |s| && t == s[|s| - |t|..]
    requires t == [] || !t[0].Tool?
    requires forall i :: 0 <= i < |s| - |t| ==> s[i].Tool?
    ensures t == DropLeadingTools(s)
  {
  }

  /** `s[:-1]` when the last message is a tool caller, else `s`. */
  function DropTrailingCaller(s: seq<Message>): seq<Message> {
    if s != [] && IsToolCaller(s[|s| - 1]) then s[..|s| - 1] else s
  }

  /** Python's `s.index(x)`: the first position holding a message equal to `x`. */
  function FirstIndex(s: seq<Message>, x: Message): (r: nat)
    requires x in s
    ensures r < |s| && s[r] == x
    ensures forall j :: 0 <= j < r ==> s[j] != x
    decreases |s|
  {
    if s[0] == x then 0 else 1 + FirstIndex(s[1..], x)
  }

  /** Every tool message directly follows a tool caller or another tool
      message: a run of tool replies always hangs off the AI message that
      requested them. The pipeline keeps its history in this shape. */
  predicate ToolsFollowCallers(s: seq<Message>) {
    forall p :: 0 <= p < |s| && s[p].Tool? ==> p > 0 && (IsToolCaller(s[p - 1]) || s[p - 1].Tool?)
  }

  /** No tool caller sits right after another one. */
  predicate NoAdjacentCallers(s: seq<Message>) {
    forall p :: 0 < p < |s| && IsToolCaller(s[p]) ==> !IsToolCaller(s[p - 1])
  }

  /** In a history that keeps tool replies attached to their callers and
      does not start with a tool message, every tool message is preceded by
      a tool caller with only tool messages in between. */
  lemma {:induction false} ToolAnchored(s: seq<Message>, p: nat)
    requires ToolsFollowCallers(s)
    requires p < |s| && s[p].Tool?
    ensures exists q :: 0 <= q < p && IsToolCaller(s[q]) && forall t :: q < t < p ==> s[t].Tool?
    decreases p
  {
    if !IsToolCaller(s[p - 1]) {
      ToolAnchored(s, p - 1);
      var q :| 0 <= q < p - 1 && IsToolCaller(s[q]) && forall t :: q < t < p - 1 ==> s[t].Tool?;
      assert forall t :: q < t < p ==> s[t].Tool?;
    }
  }

  /** A slice that does not start with a tool message inherits the shape. */
  lemma SliceFollows(s: seq<Message>, lo: nat, hi: nat)
    requires ToolsFollowCallers(s) && lo <= hi <= |s|
    requires lo == hi || !s[lo].Tool?
    ensures ToolsFollowCallers(s[lo..hi])
  {
    var w := s[lo..hi];
    forall p | 0 <= p < |w| && w[p].Tool?
      ensures p > 0 && (IsToolCaller(w[p - 1]) || w[p - 1].Tool?)
    {
      assert w[p] == s[lo + p];
    }
  }

  /** A slice keeps the absence of adjacent callers. */
  lemma SliceNoAdjacent(s: seq<Message>, lo: nat, hi: nat)
    requires NoAdjacentCallers(s) && lo <= hi <= |s|
    ensures NoAdjacentCallers(s[lo..hi])
  {
    var w := s[lo..hi];
    forall p | 0 < p < |w| && IsToolCaller(w[p]) ensures !IsToolCaller(w[p - 1]) {
      assert w[p] == s[lo + p] && w[p - 1] == s[lo + p - 1];
    }
  }

  /** Dropping one trailing caller leaves no trailing caller when callers
      never come two in a row. */
  lemma DropTrailingCallerClean(s: seq<Message>)
    requires NoAdjacentCallers(s)
    ensures var d := DropTrailingCaller(s); d == [] || !IsToolCaller(d[|d| - 1])
  {
  }
}
