/** The bounded model/tool loop and its approval gate
    (src/cmd/agent/llm.go, src/cmd/agent/tool_policy.go). */
module AgentLoop {
  import opened Text
  import opened Wrappers
  import Paths
  import PlanParse

  datatype ToolCall = ToolCall(id: string, name: string, arguments: string)

  datatype Message = Message(role: string, content: string, toolCalls: seq<ToolCall>, toolCallId: string)

  /** One exchange with the model; Broken is any transport, status or decoding failure. */
  datatype Reply = Broken | Choice(finishReason: string, message: Message)

  /** File contents by absolute path. */
  type Workspace = map<string, string>

  type Args = map<string, string>

  /** What the loop calls but does not define: JSON, the file system, result texts. */
  datatype Env = Env(
    root: string,
    parse: string -> Option<Args>,
    writable: string -> bool,
    readTool: (string, Args, Workspace) -> string,
    writeError: (string, Args) -> string,
    quote: string -> string)

  datatype Approval = NoApproval | PlanMode

  /** Which callbacks are set. */
  datatype Callbacks = Callbacks(onToolCall: bool, onToolResult: bool, onAssistant: bool, onPlan: bool,
                                 approval: Approval)

  /** Requests sent and callbacks made, in order. */
  datatype Event =
    | Sent(messages: seq<Message>)
    | CalledTool(call: ToolCall)
    | FinishedTool(done: ToolCall, result: string)
    | Assistant(text: string)
    | Proposed(plan: string)

  datatype Outcome = Final(answer: string) | Failed | LimitReached(answer: string)

  datatype State = State(messages: seq<Message>, lastContent: string, workspace: Workspace, log: seq<Event>)

  // ---------------------------------------------------------------- tools

  datatype Mutability = ReadOnly | Mutating

  const TOOL_MUTABILITY: map<string, Mutability> :=
    map["list_dir" := ReadOnly, "read_file" := ReadOnly, "search_text" := ReadOnly, "write_file" := Mutating]

  predicate ToolIsMutating(name: string) {
    name !in TOOL_MUTABILITY || TOOL_MUTABILITY[name] == Mutating
  }

  function Arg(args: Args, key: string): string {
    if key in args then args[key] else ""
  }

  function ExecuteToolCall(env: Env, workspace: Workspace, call: ToolCall): (Workspace, string) {
    match env.parse(call.arguments)
    case None => (workspace, "{\"error\":\"failed to parse arguments\"}")
    case Some(args) =>
      if call.name == "write_file" then
        match Paths.Sandboxed(env.root, Arg(args, "path"))
        case Err(_) => (workspace, env.writeError(env.root, args))
        case Ok(path) =>
          if env.writable(path)
          then (workspace[path := Arg(args, "content")], "{\"ok\":true,\"path\":" + env.quote(Arg(args, "path")) + "}")
          else (workspace, env.writeError(env.root, args))
      else if call.name in {"list_dir", "read_file", "search_text"}
        then (workspace, env.readTool(call.name, args, workspace))
      else (workspace, "{\"error\":\"unknown tool " + env.quote(call.name) + "\"}")
  }

  /** The gate is only asked when the arguments parse. */
  predicate Blocked(env: Env, cbs: Callbacks, call: ToolCall) {
    cbs.approval == PlanMode && env.parse(call.arguments).Some? && ToolIsMutating(call.name)
  }

  function BlockedResult(env: Env, name: string): string {
    "{\"error\":\"tool_blocked\",\"reason\":" + env.quote(name + " is not permitted in plan mode") + "}"
  }

  function Perform(env: Env, cbs: Callbacks, workspace: Workspace, call: ToolCall): (Workspace, string) {
    if Blocked(env, cbs, call) then (workspace, BlockedResult(env, call.name))
      else ExecuteToolCall(env, workspace, call)
  }

  function ToolMessage(call: ToolCall, result: string): Message {
    Message("tool", result, [], call.id)
  }

  // ---------------------------------------------------------------- specification

  function Log(st: State, e: Event): State {
    st.(log := st.log + [e])
  }

  /** One tool call; false if a callback failed. `accepts(log)` is the fate of the
      last event of `log`, which may depend on all that went before. */
  function OneCall(env: Env, cbs: Callbacks, accepts: seq<Event> -> bool, st: State, call: ToolCall): (State, bool) {
    var s1 := if cbs.onToolCall then Log(st, CalledTool(call)) else st;
    if cbs.onToolCall && !accepts(s1.log) then (s1, false) else
      var (workspace, result) := Perform(env, cbs, s1.workspace, call);
      var s2 := s1.(workspace := workspace);
      var s3 := if cbs.onToolResult then Log(s2, FinishedTool(call, result)) else s2;
      if cbs.onToolResult && !accepts(s3.log) then (s3, false)
      else (s3.(messages := s3.messages + [ToolMessage(call, result)]), true)
  }

  function Calls(env: Env, cbs: Callbacks, accepts: seq<Event> -> bool, st: State,
                 calls: seq<ToolCall>): (State, bool) {
    if calls == [] then (st, true) else
      var (s1, ok) := Calls(env, cbs, accepts, st, calls[..|calls| - 1]);
      if !ok then (s1, false) else OneCall(env, cbs, accepts, s1, calls[|calls| - 1])
  }

  function Plans(accepts: seq<Event> -> bool, st: State, plans: seq<string>): (State, bool) {
    if plans == [] then (st, true) else
      var (s1, ok) := Plans(accepts, st, plans[..|plans| - 1]);
      if !ok then (s1, false) else
        var s2 := Log(s1, Proposed(plans[|plans| - 1]));
        (s2, accepts(s2.log))
  }

  /** The callbacks for a closing text. */
  function Close(cbs: Callbacks, accepts: seq<Event> -> bool, st: State, text: string): (State, bool) {
    if Trim(text) == "" then (st, true) else
      var s1 := if cbs.onAssistant then Log(st, Assistant(text)) else st;
      if cbs.onAssistant && !accepts(s1.log) then (s1, false)
      else if cbs.onPlan then Plans(accepts, s1, PlanParse.Kept(PlanParse.Matches(text))) else (s1, true)
  }

  function Remember(st: State, m: Message): State {
    st.(lastContent := if Trim(m.content) != "" then m.content else st.lastContent, messages := st.messages + [m])
  }

  /** `replies` are the model's answers to come; a missing one is a broken exchange. */
  function Loop(env: Env, cbs: Callbacks, accepts: seq<Event> -> bool, st: State, replies: seq<Reply>,
                left: nat): (State, Outcome)
    decreases left
  {
    if left == 0 then
      var (s1, ok) := Close(cbs, accepts, st, st.lastContent);
      (s1, if ok then LimitReached(Trim(st.lastContent)) else Failed)
    else
      var sent := Log(st, Sent(st.messages));
      if replies == [] || replies[0].Broken? then (sent, Failed)
      else if replies[0].finishReason == "tool_calls" then
        var (s1, ok) := Calls(env, cbs, accepts, Remember(sent, replies[0].message), replies[0].message.toolCalls);
        if !ok then (s1, Failed) else Loop(env, cbs, accepts, s1, replies[1..], left - 1)
      else
        var answer := Answer(st, replies[0].message);
        var (s1, ok) := Close(cbs, accepts, sent, answer);
        (s1, if ok then Final(answer) else Failed)
  }

  function Answer(st: State, m: Message): string {
    if Trim(m.content) == "" then Trim(st.lastContent) else Trim(m.content)
  }

  function Iterations(maxIter: int): nat {
    if maxIter <= 0 then 3 else maxIter
  }

  function Start(systemPrompt: string, envelope: string, workspace: Workspace): State {
    State([Message("system", systemPrompt, [], ""), Message("user", envelope, [], "")], "", workspace, [])
  }

  /** The whole loop; it does not start without an address, a model and a workspace. */
  function RunLoop(env: Env, cbs: Callbacks, accepts: seq<Event> -> bool, url: string, model: string, st: State,
                   replies: seq<Reply>, maxIter: int): (State, Outcome) {
    if Trim(url) == "" || Trim(model) == "" || Trim(env.root) == "" then (st, Failed)
    else Loop(env, cbs, accepts, st, replies, Iterations(maxIter))
  }

  // ---------------------------------------------------------------- the program

  method CallTools(env: Env, cbs: Callbacks, accepts: seq<Event> -> bool, st: State, calls: seq<ToolCall>)
    returns (s: State, ok: bool)
    ensures (s, ok) == Calls(env, cbs, accepts, st, calls)
  {
    hide Trim, BlockedResult, ExecuteToolCall, ToolIsMutating;
    s := st;
    for i := 0 to |calls|
      invariant (s, true) == Calls(env, cbs, accepts, st, calls[..i])
    {
      var call := calls[i];
      assert calls[..i + 1][..i] == calls[..i];
      ghost var before := s;
      if cbs.onToolCall {
        s := Log(s, CalledTool(call));
        if !accepts(s.log) {
          assert Calls(env, cbs, accepts, st, calls[..i + 1]) == (s, false);
          CallsStop(env, cbs, accepts, st, calls, i + 1);
          return s, false;
        }
      }
      var toolResult := "";
      var blocked := false;
      if cbs.approval == PlanMode {
        if env.parse(call.arguments).Some? {
          if ToolIsMutating(call.name) {
            toolResult := BlockedResult(env, call.name);
            blocked := true;
          }
        }
      }
      if !blocked {
        var (workspace, result) := ExecuteToolCall(env, s.workspace, call);
        s := s.(workspace := workspace);
        toolResult := result;
      }
      if cbs.onToolResult {
        s := Log(s, FinishedTool(call, toolResult));
        if !accepts(s.log) {
          assert Calls(env, cbs, accepts, st, calls[..i + 1]) == (s, false);
          CallsStop(env, cbs, accepts, st, calls, i + 1);
          return s, false;
        }
      }
      s := s.(messages := s.messages + [ToolMessage(call, toolResult)]);
    }
    assert calls[..|calls|] == calls;
    return s, true;
  }

  /** Once a callback fails, the remaining calls are not made. */
  lemma {:induction false} CallsStop(env: Env, cbs: Callbacks, accepts: seq<Event> -> bool, st: State,
                                     calls: seq<ToolCall>, n: nat)
    requires n <= |calls| && !Calls(env, cbs, accepts, st, calls[..n]).1
    ensures Calls(env, cbs, accepts, st, calls) == Calls(env, cbs, accepts, st, calls[..n])
    decreases |calls|
  {
    if n == |calls| {
      assert calls[..n] == calls;
    } else {
      var init := calls[..|calls| - 1];
      assert init[..n] == calls[..n];
      CallsStop(env, cbs, accepts, st, init, n);
    }
  }

  method PostPlans(accepts: seq<Event> -> bool, st: State, plans: seq<string>) returns (s: State, ok: bool)
    ensures (s, ok) == Plans(accepts, st, plans)
  {
    s := st;
    for i := 0 to |plans|
      invariant (s, true) == Plans(accepts, st, plans[..i])
    {
      assert plans[..i + 1][..i] == plans[..i];
      s := Log(s, Proposed(plans[i]));
      if !accepts(s.log) {
        PlansStop(accepts, st, plans, i + 1);
        return s, false;
      }
    }
    assert plans[..|plans|] == plans;
    return s, true;
  }

  lemma {:induction false} PlansStop(accepts: seq<Event> -> bool, st: State, plans: seq<string>, n: nat)
    requires n <= |plans| && !Plans(accepts, st, plans[..n]).1
    ensures Plans(accepts, st, plans) == Plans(accepts, st, plans[..n])
    decreases |plans|
  {
    if n == |plans| {
      assert plans[..n] == plans;
    } else {
      var init := plans[..|plans| - 1];
      assert init[..n] == plans[..n];
      PlansStop(accepts, st, init, n);
    }
  }

  method CloseWith(cbs: Callbacks, accepts: seq<Event> -> bool, st: State, text: string) returns (s: State, ok: bool)
    ensures (s, ok) == Close(cbs, accepts, st, text)
  {
    s := st;
    if Trim(text) != "" && cbs.onAssistant {
      s := Log(s, Assistant(text));
      if !accepts(s.log) {
        return s, false;
      }
    }
    if Trim(text) != "" && cbs.onPlan {
      var plans := PlanParse.ParseProposedPlans(text);
      s, ok := PostPlans(accepts, s, plans);
      return;
    }
    return s, true;
  }

  method RunLMStudioTicketLoop(env: Env, cbs: Callbacks, accepts: seq<Event> -> bool, url: string, model: string,
                               start: State,
                               replies: seq<Reply>, rawMaxIter: int) returns (st: State, outcome: Outcome)
    ensures (st, outcome) == RunLoop(env, cbs, accepts, url, model, start, replies, rawMaxIter)
  {
    hide Trim, Calls, Close;
    st := start;
    if Trim(url) == "" || Trim(model) == "" || Trim(env.root) == "" {
      return st, Failed;
    }
    var maxIter := rawMaxIter;
    if maxIter <= 0 {
      maxIter := 3;
    }
    for i := 0 to maxIter
      invariant i <= |replies|
      invariant Loop(env, cbs, accepts, start, replies, maxIter) ==
          Loop(env, cbs, accepts, st, replies[i..], maxIter - i)
    {
      var before := st;
      st := Log(st, Sent(st.messages));
      if i >= |replies| || replies[i].Broken? {
        return st, Failed;
      }
      assert replies[i..][0] == replies[i] && replies[i..][1..] == replies[i + 1..];
      var m := replies[i].message;
      if replies[i].finishReason == "tool_calls" {
        if Trim(m.content) != "" {
          st := st.(lastContent := m.content);
        }
        st := st.(messages := st.messages + [m]);
        var ok;
        st, ok := CallTools(env, cbs, accepts, st, m.toolCalls);
        if !ok {
          return st, Failed;
        }
      } else {
        var answer := Trim(m.content);
        if answer == "" {
          answer := Trim(before.lastContent);
        }
        var ok;
        st, ok := CloseWith(cbs, accepts, st, answer);
        return st, if ok then Final(answer) else Failed;
      }
    }
    var last := st.lastContent;
    var ok;
    st, ok := CloseWith(cbs, accepts, st, last);
    return st, if ok then LimitReached(Trim(last)) else Failed;
  }
}
