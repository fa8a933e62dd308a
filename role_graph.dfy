/**
 * The waterfall pipeline as a state machine: the nodes of the LangGraph
 * graph, `step_router`, the conditional-edge table, the `next_step` each
 * node writes, and the shared state the nodes update in place.
 */
module RoleGraph {
  import opened PyStr
  import opened Messages
  import opened Window

  datatype Node = Client | Analyst | Architect | Programmer | Tester | Tools | Done

  /** The four LLM-backed roles. */
  predicate IsRole(n: Node) {
    n.Analyst? || n.Architect? || n.Programmer? || n.Tester?
  }

  /** The name a node is registered under, which is also what it writes
      into `agent`. */
  function NodeName(n: Node): string {
    match n
    case Client => "client"
    case Analyst => "analyst"
    case Architect => "architect"
    case Programmer => "programmer"
    case Tester => "tester"
    case Tools => "tools"
    case Done => "done"
  }

  /** The `next_step` a role writes when its response asks for tools. */
  function ToolsKey(role: Node): string
    requires IsRole(role)
  {
    match role
    case Analyst => "analyst_tools"
    case Architect => "architect_tools"
    case Programmer => "programmer_tools"
    case Tester => "tester_tools"
  }

  /** The `next_step` a role writes when its response has no tool calls. */
  function SuccessorKey(role: Node): string
    requires IsRole(role)
  {
    match role
    case Analyst => "architect"
    case Architect => "programmer"
    case Programmer => "tester"
    case Tester => "end"
  }

  /** The node after a role on the backbone. */
  function Successor(role: Node): Node
    requires IsRole(role)
  {
    match role
    case Analyst => Architect
    case Architect => Programmer
    case Programmer => Tester
    case Tester => Done
  }

  /** `step_router`: the stored `next_step`, or "end" when it is missing or
      empty. */
  function StepRouter(nextStep: Option<string>): (key: string)
    ensures key != ""
    ensures nextStep.Some? && nextStep.value != "" ==> key == nextStep.value
    ensures nextStep.None? || nextStep.value == "" ==> key == "end"
  {
    if nextStep.Some? && nextStep.value != "" then nextStep.value else "end"
  }

  /** The conditional-edge table: the node reached from `from` under the
      router's key, or None where the table has no such key. */
  function Edge(from: Node, key: string): Option<Node> {
    match from
    case Client => if key == "analyst" then Some(Analyst) else None
    case Analyst =>
      if key == "analyst_tools" then Some(Tools)
      else if key == "architect" then Some(Architect) else None
    case Architect =>
      if key == "architect_tools" then Some(Tools)
      else if key == "programmer" then Some(Programmer) else None
    case Programmer =>
      if key == "programmer_tools" then Some(Tools)
      else if key == "tester" then Some(Tester) else None
    case Tester =>
      if key == "tester_tools" then Some(Tools)
      else if key == "end" then Some(Done) else None
    case Tools =>
      if key == "analyst_tools" then Some(Analyst)
      else if key == "architect_tools" then Some(Architect)
      else if key == "programmer_tools" then Some(Programmer)
      else if key == "tester_tools" then Some(Tester)
      else if key == "end" then Some(Done) else None
    case Done => None
  }

  /** The shape of the workflow: the backbone client, analyst, architect,
      programmer, tester, done, and from each role a detour through the
      tool node back to a role. */
  predicate CanFollow(a: Node, b: Node) {
    (a == Client && b == Analyst)
    || (IsRole(a) && (b == Successor(a) || b == Tools))
    || (a == Tools && (IsRole(b) || b == Done))
  }

  /** A trace of node executions that follows the shape: it starts at the
      client and never returns there, nothing runs after the done node, and
      the tool node hands back to the role that ran before it. */
  predicate Walk(t: seq<Node>) {
    && t != [] && t[0] == Client
    && (forall i :: 0 < i < |t| ==> t[i] != Client)
    && (forall i :: 0 <= i < |t| - 1 ==> t[i] != Done && CanFollow(t[i], t[i + 1]))
    && (forall i :: 0 < i < |t| - 1 && t[i] == Tools ==> t[i + 1] == t[i - 1])
  }

  /** The node a walk may run next extends it to a longer walk. */
  lemma WalkExtend(t: seq<Node>, node: Node)
    requires Walk(t) && t[|t| - 1] != Done && node != Client && CanFollow(t[|t| - 1], node)
    requires |t| > 1 && t[|t| - 1] == Tools ==> node == t[|t| - 2]
    ensures Walk(t + [node])
  {
    var u := t + [node];
    forall i | 0 < i < |u| ensures u[i] != Client {
      if i < |t| {
        assert u[i] == t[i];
      }
    }
    forall i | 0 <= i < |u| - 1 ensures u[i] != Done && CanFollow(u[i], u[i + 1]) {
      if i < |t| - 1 {
        assert u[i] == t[i] && u[i + 1] == t[i + 1];
      } else {
        assert u[i] == t[|t| - 1] && u[i + 1] == node;
      }
    }
    forall i | 0 < i < |u| - 1 && u[i] == Tools ensures u[i + 1] == u[i - 1] {
      assert u[i] == t[i] && u[i - 1] == t[i - 1];
    }
  }

  /** `node` is about to run after the nodes of `trace`, the last of which
      is `prev`: the trace is empty exactly before the client runs, and
      otherwise a walk that `node` may extend. */
  predicate Pending(trace: seq<Node>, node: Node, prev: Option<Node>) {
    && (trace == [] <==> node == Client)
    && (trace == [] ==> prev == None)
    && (trace != [] ==>
          && Walk(trace) && trace[|trace| - 1] != Done && prev == Some(trace[|trace| - 1])
          && CanFollow(trace[|trace| - 1], node)
          && (|trace| > 1 && trace[|trace| - 1] == Tools ==> node == trace[|trace| - 2]))
  }

  /** Running a node other than the done node and moving to a next node the
      shape allows keeps the trace pending. */
  lemma PendingAdvance(trace: seq<Node>, node: Node, prev: Option<Node>, next: Node)
    requires Pending(trace, node, prev) && node != Done
    requires CanFollow(node, next) && next != Client && (node == Tools ==> prev.Some? && next == prev.value)
    ensures Pending(trace + [node], next, Some(node))
  {
    if trace == [] {
      assert Walk([node]);
    } else {
      WalkExtend(trace, node);
    }
  }

  /** Every edge of the table follows the workflow's shape. */
  lemma EdgeFollowsShape(a: Node, key: string)
    ensures Edge(a, key).Some? ==> CanFollow(a, Edge(a, key).value)
  {
  }

  /** Every step of the workflow's shape is an edge of the table, under the
      key that names it. */
  lemma ShapeHasEdge(a: Node, b: Node)
    requires CanFollow(a, b)
    ensures a == Client ==> Edge(a, "analyst") == Some(b)
    ensures IsRole(a) && b == Tools ==> Edge(a, ToolsKey(a)) == Some(b)
    ensures IsRole(a) && b != Tools ==> Edge(a, SuccessorKey(a)) == Some(b)
    ensures a == Tools && IsRole(b) ==> Edge(a, ToolsKey(b)) == Some(b)
    ensures a == Tools && b == Done ==> Edge(a, "end") == Some(b)
  {
  }

  /** The tool node sends each `<role>_tools` back to that very role. */
  lemma ToolsReturnToRole(role: Node)
    requires IsRole(role)
    ensures Edge(Tools, StepRouter(Some(ToolsKey(role)))) == Some(role)
  {
  }

  /** The done node and the client have no way in from the rest of the
      graph except the entry, and the done node has no way out. */
  lemma DoneIsFinal(a: Node, key: string)
    ensures Edge(Done, key).None?
    ensures Edge(a, key) != Some(Client)
  {
  }

  /** A missing or empty `next_step` ends the run from the tester or the
      tool node, and is a routing error from every other node. */
  lemma MissingStepEnds(a: Node)
    ensures Edge(a, StepRouter(None)) == (if a == Tester || a == Tools then Some(Done) else None)
  {
  }

  /** What the role writes into `next_step` after its response. */
  function NextStepAfter(role: Node, response: Message): string
    requires IsRole(role)
  {
    if IsToolCaller(response) then ToolsKey(role) else SuccessorKey(role)
  }

  /** A role routes to the tool node exactly when its response carries tool
      calls, and otherwise to its successor on the backbone. */
  lemma RoleRouting(role: Node, response: Message)
    requires IsRole(role)
    ensures IsToolCaller(response) ==> Edge(role, StepRouter(Some(NextStepAfter(role, response)))) == Some(Tools)
    ensures !IsToolCaller(response) ==> Edge(role, StepRouter(Some(NextStepAfter(role, response)))) == Some(Successor(role))
  {
  }

  /** `label_for_message`: whom a logged message is attributed to. */
  function LabelForMessage(m: Message, stepAgent: Option<string>): (who: string)
    ensures who != ""
    ensures m.Tool? ==> who == "tools"
    ensures m.Human? ==> who == "client"
    ensures !m.Tool? && !m.Human? && stepAgent.Some? && stepAgent.value != "" ==> who == stepAgent.value
    ensures !m.Tool? && !m.Human? && (stepAgent.None? || stepAgent.value == "") ==> who == "unknown"
  {
    if m.Tool? then "tools"
    else if m.Human? then "client"
    else if stepAgent.Some? && stepAgent.value != "" then stepAgent.value
    else "unknown"
  }

  /** The response a role appends is logged under that role's name. */
  lemma ResponseLabelledByRole(role: Node, c: string, calls: seq<ToolCall>)
    requires IsRole(role)
    ensures LabelForMessage(AI(c, calls), Some(NodeName(role))) == NodeName(role)
  {
  }

  /** The first line of each role's system prompt. */
  function RolePrompt(role: Node): string
    requires IsRole(role)
  {
    match role
    case Analyst => "Role: Analyst.\n"
    case Architect => "Role: Architect.\n"
    case Programmer => "Role: Programmer.\n"
    case Tester => "Role: Tester.\n"
  }

  /** What the chat model returns: a text and the tool calls it requests. */
  datatype Completion = Completion(content: string, toolCalls: seq<ToolCall>)

  /** The prompt a role sends for the history `msgs`. */
  function RolePromptFor(role: Node, msgs: seq<Message>): seq<Message>
    requires IsRole(role)
  {
    SanitizeAfterRecent(msgs, DefaultWindow);
    [System(RolePrompt(role))] + SanitizedBody(RecentWindow(msgs, DefaultWindow), msgs)
  }

  /** In a history where no tool caller follows another, the prompt a role
      sends never ends on a tool caller whose replies are missing. */
  lemma PromptEndsClean(role: Node, msgs: seq<Message>)
    requires IsRole(role) && NoAdjacentCallers(msgs)
    ensures var p := RolePromptFor(role, msgs); p != [] && !IsToolCaller(p[|p| - 1])
  {
    RecentBodyEndsClean(msgs, DefaultWindow);
    var b := SanitizedBody(RecentWindow(msgs, DefaultWindow), msgs);
    assert RolePromptFor(role, msgs) == [System(RolePrompt(role))] + b;
  }

  /** The tool messages the tool node appends: one per call, in order, each
      answering its call's id. */
  function ToolReplies(calls: seq<ToolCall>, execute: ToolCall -> string): (replies: seq<Message>)
    ensures |replies| == |calls|
    ensures forall i :: 0 <= i < |calls| ==> replies[i] == Tool(execute(calls[i]), calls[i].id)
  {
    seq(|calls|, i requires 0 <= i < |calls| => Tool(execute(calls[i]), calls[i].id))
  }

  /** Appending a non-tool message keeps tool replies attached. */
  lemma AppendNonTool(s: seq<Message>, m: Message)
    requires ToolsFollowCallers(s) && !m.Tool?
    ensures ToolsFollowCallers(s + [m])
  {
    assert forall p :: 0 <= p < |s| ==> (s + [m])[p] == s[p];
  }

  /** Appending the replies to the calls of a final tool caller keeps tool
      replies attached. */
  lemma AppendReplies(s: seq<Message>, replies: seq<Message>)
    requires ToolsFollowCallers(s) && s != [] && IsToolCaller(s[|s| - 1])
    requires forall i :: 0 <= i < |replies| ==> replies[i].Tool?
    ensures ToolsFollowCallers(s + replies)
  {
    var t := s + replies;
    forall p | 0 <= p < |t| && t[p].Tool?
      ensures p > 0 && (IsToolCaller(t[p - 1]) || t[p - 1].Tool?)
    {
      if p < |s| {
        assert t[p] == s[p];
      }
    }
  }

  /** A response appended after a message that is not a tool caller keeps
      tool callers apart. */
  lemma AppendAfterAnswered(s: seq<Message>, m: Message)
    requires NoAdjacentCallers(s) && s != [] && !IsToolCaller(s[|s| - 1])
    ensures NoAdjacentCallers(s + [m])
  {
    assert forall p :: 0 <= p < |s| ==> (s + [m])[p] == s[p];
  }

  /** Appending tool replies keeps tool callers apart, and a non-empty batch
      leaves the history ending on a reply. */
  lemma AppendRepliesApart(s: seq<Message>, replies: seq<Message>)
    requires NoAdjacentCallers(s)
    requires forall i :: 0 <= i < |replies| ==> replies[i].Tool?
    ensures NoAdjacentCallers(s + replies)
    ensures replies != [] ==> !IsToolCaller((s + replies)[|s + replies| - 1])
  {
    var t := s + replies;
    forall p | 0 < p < |t| && IsToolCaller(t[p]) ensures !IsToolCaller(t[p - 1]) {
      if p < |s| {
        assert t[p] == s[p] && t[p - 1] == s[p - 1];
      }
    }
    if replies != [] {
      assert t[|t| - 1] == replies[|replies| - 1];
    }
  }

  /** The history `msgs` and routing field `step` are ready to run `node`
      after `prev`. The history keeps tool replies attached to their
      caller; it is empty only before the client has run; no tool caller
      follows another, and a role never runs on an unanswered tool caller;
      and the tool node is reached only with a final tool caller and its
      role's `_tools` step. */
  predicate Ready(msgs: seq<Message>, step: Option<string>, node: Node, prev: Option<Node>) {
    && ToolsFollowCallers(msgs)
    && (node == Client <==> msgs == [])
    && NoAdjacentCallers(msgs)
    && (IsRole(node) ==> !IsToolCaller(msgs[|msgs| - 1]))
    && (node == Tools ==>
          && prev.Some? && IsRole(prev.value)
          && step == Some(ToolsKey(prev.value))
          && IsToolCaller(msgs[|msgs| - 1]))
  }

  /** After the client node the analyst is ready to run. */
  lemma ClientReady(issue: string, after: seq<Message>)
    requires after == [Human(issue)]
    ensures Edge(Client, StepRouter(Some("analyst"))) == Some(Analyst)
    ensures Ready(after, Some("analyst"), Analyst, Some(Client))
  {
  }

  /** After the tool node answers every call, the calling role is ready to
      run again. */
  lemma ToolsReady(before: seq<Message>, replies: seq<Message>, after: seq<Message>, step: Option<string>, role: Node)
    requires Ready(before, step, Tools, Some(role))
    requires |replies| == |before[|before| - 1].toolCalls|
    requires forall i :: 0 <= i < |replies| ==> replies[i].Tool?
    requires after == before + replies
    ensures Edge(Tools, StepRouter(step)) == Some(role)
    ensures Ready(after, step, role, Some(Tools))
    ensures before < after
  {
    AppendReplies(before, replies);
    AppendRepliesApart(before, replies);
    ToolsReturnToRole(role);
  }

  /** After a role appends its response, the node its routing picks is
      ready to run. */
  lemma RoleReady(before: seq<Message>, step: Option<string>, role: Node, prev: Option<Node>, response: Message,
                  after: seq<Message>)
    requires IsRole(role) && Ready(before, step, role, prev) && response.AI?
    requires after == before + [response]
    ensures var s := Some(NextStepAfter(role, response));
      && Edge(role, StepRouter(s)).Some?
      && Ready(after, s, Edge(role, StepRouter(s)).value, Some(role))
  {
    RoleRouting(role, response);
    AppendNonTool(before, response);
    AppendAfterAnswered(before, response);
    var t := before + [response];
    assert t[|t| - 1] == response;
  }

  /** Every role the pipeline is ready to run sends a prompt that does not
      end on an unanswered tool caller. */
  lemma ReadyPromptClean(msgs: seq<Message>, step: Option<string>, role: Node, prev: Option<Node>)
    requires IsRole(role) && Ready(msgs, step, role, prev)
    ensures var p := RolePromptFor(role, msgs); p != [] && !IsToolCaller(p[|p| - 1])
  {
    PromptEndsClean(role, msgs);
  }

  /** How a run of the graph ended. */
  datatype RunEnd = Finished | StepLimit

  /** The limit on node executions that `run_agent` passes. */
  const RecursionLimit: nat := 60

  /** The graph state shared by the nodes: `MultiAgentState`. */
  class PipelineState {
    var messages: seq<Message>
    var nextStep: Option<string>
    var agent: Option<string>

    /** The initial state of `run_agent`. */
    constructor()
      ensures messages == [] && nextStep == None && agent == None
    {
      messages := [];
      nextStep := None;
      agent := None;
    }

    /** `client_node`: the user's issue becomes one human message. */
    method ClientNode(issue: string)
      modifies this
      ensures messages == old(messages) + [Human(issue)]
      ensures nextStep == Some("analyst") && agent == Some("client")
    {
      messages := messages + [Human(issue)];
      nextStep := Some("analyst");
      agent := Some("client");
    }

    /** One role node: name the agent, build the prompt from the window of
        the history, append the model's response and pick the next step. */
    method RoleNode(role: Node, llm: seq<Message> -> Completion)
      requires IsRole(role)
      modifies this
      ensures var c := llm(RolePromptFor(role, old(messages)));
        && messages == old(messages) + [AI(c.content, c.toolCalls)]
        && nextStep == Some(NextStepAfter(role, AI(c.content, c.toolCalls)))
      ensures agent == Some(NodeName(role))
      ensures NoAdjacentCallers(old(messages)) ==>
                var p := RolePromptFor(role, old(messages)); p != [] && !IsToolCaller(p[|p| - 1])
    {
      if NoAdjacentCallers(messages) {
        PromptEndsClean(role, messages);
      }
      agent := Some(NodeName(role));
      var recent := Recent(messages, DefaultWindow);
      SanitizeAfterRecent(messages, DefaultWindow);
      var prompt := Sanitize(System(RolePrompt(role)), recent, messages);
      var c := llm(prompt);
      var response := AI(c.content, c.toolCalls);
      messages := messages + [response];
      nextStep := Some(NextStepAfter(role, response));
    }

    /** The tool node: run each call of the final tool caller and append
        its reply; `next_step` and `agent` are left as they are. */
    method ToolsNode(execute: ToolCall -> string)
      requires messages != [] && IsToolCaller(messages[|messages| - 1])
      modifies this
      ensures messages == old(messages) + ToolReplies(old(messages)[|old(messages)| - 1].toolCalls, execute)
      ensures nextStep == old(nextStep) && agent == old(agent)
    {
      var calls := messages[|messages| - 1].toolCalls;
      var replies: seq<Message> := [];
      for i := 0 to |calls|
        invariant replies == ToolReplies(calls[..i], execute)
      {
        replies := replies + [Tool(execute(calls[i]), calls[i].id)];
      }
      assert calls[..|calls|] == calls;
      messages := messages + replies;
    }

    /** The state is ready to run `node`; `prev` is the node that ran
        before it. */
    predicate ReadyAt(node: Node, prev: Option<Node>)
      reads this
    {
      Ready(messages, nextStep, node, prev)
    }

    /** Run one node and follow the edge the router picks: the edge exists,
        follows the workflow's shape, leads back to the calling role from
        the tool node, and leaves the state ready for the next node. */
    method Step(issue: string, llm: seq<Message> -> Completion, execute: ToolCall -> string, node: Node, prev: Option<Node>)
      returns (next: Node)
      requires node != Done && ReadyAt(node, prev)
      modifies this
      ensures Edge(node, StepRouter(nextStep)) == Some(next)
      ensures CanFollow(node, next) && next != Client
      ensures node == Tools ==> next == prev.value
      ensures ReadyAt(next, Some(node))
      ensures old(messages) < messages
      ensures node == Client ==> messages == [Human(issue)]
    {
      if node == Client {
        ClientNode(issue);
        ClientReady(issue, messages);
        next := Analyst;
      } else if node == Tools {
        var before := messages;
        ToolsNode(execute);
        ToolsReady(before, ToolReplies(before[|before| - 1].toolCalls, execute), messages, nextStep, prev.value);
        next := prev.value;
      } else {
        var before := messages;
        RoleNode(node, llm);
        RoleReady(before, old(nextStep), node, prev, messages[|messages| - 1], messages);
        next := Edge(node, StepRouter(nextStep)).value;
      }
      EdgeFollowsShape(node, StepRouter(nextStep));
    }

    /** `run_agent`: start from the empty state at the client and follow
        the edge the router picks after each node, until the done node has
        run or `limit` nodes have run. */
    method Run(issue: string, llm: seq<Message> -> Completion, execute: ToolCall -> string, limit: nat)
      returns (trace: seq<Node>, outcome: RunEnd)
      requires limit >= 1
      modifies this
      ensures 1 <= |trace| <= limit && trace[0] == Client
      ensures forall i :: 0 <= i < |trace| - 1 ==> CanFollow(trace[i], trace[i + 1])
      ensures forall i :: 0 < i < |trace| - 1 && trace[i] == Tools ==> trace[i + 1] == trace[i - 1]
      ensures outcome == Finished <==> trace[|trace| - 1] == Done
      ensures outcome == StepLimit ==> |trace| == limit
      ensures messages != [] && messages[0] == Human(issue)
      ensures ToolsFollowCallers(messages) && NoAdjacentCallers(messages)
    {
      messages := [];
      nextStep := None;
      agent := None;
      trace := [];
      var node := Client;
      var prev: Option<Node> := None;
      while |trace| < limit
        invariant |trace| <= limit
        invariant Pending(trace, node, prev) && ReadyAt(node, prev)
        invariant |trace| > 0 ==> messages != [] && messages[0] == Human(issue)
        decreases limit - |trace|
      {
        if node == Done {
          WalkExtend(trace, node);
          trace := trace + [node];
          return trace, Finished;
        }
        var next := Step(issue, llm, execute, node, prev);
        PendingAdvance(trace, node, prev, next);
        trace := trace + [node];
        prev := Some(node);
        node := next;
      }
      outcome := StepLimit;
    }
  }
}
