/** What every run of the model/tool loop keeps, for every transcript of model replies:
    how many requests it sends, what they hold, how callbacks pair, and what it may write. */
module AgentTranscript {
  import opened Text
  import opened AgentLoop

  // ---------------------------------------------------------------- reference definitions

  /** The replies that keep the loop going. */
  predicate Continues(r: Reply) {
    r.Choice? && r.finishReason == "tool_calls"
  }

  /** The messages of the longest run of continuing replies. */
  function Leading(replies: seq<Reply>): seq<Message> {
    if replies == [] || !Continues(replies[0]) then [] else [replies[0].message] + Leading(replies[1..])
  }

  /** The replies after those. */
  function After(replies: seq<Reply>): seq<Reply> {
    LeadingPrefix(replies);
    replies[|Leading(replies)|..]
  }

  function AllCalls(given: seq<Message>): seq<ToolCall> {
    if given == [] then [] else AllCalls(given[..|given| - 1]) + given[|given| - 1].toolCalls
  }

  /** The tools alone: `calls` performed one after the other, with no model and no callbacks. */
  function Performed(env: Env, cbs: Callbacks, workspace: Workspace,
                     calls: seq<ToolCall>): (r: (Workspace, seq<string>))
    ensures |r.1| == |calls|
  {
    if calls == [] then (workspace, []) else
      var (w, results) := Performed(env, cbs, workspace, calls[..|calls| - 1]);
      var (w', result) := Perform(env, cbs, w, calls[|calls| - 1]);
      (w', results + [result])
  }

  /** The last content that is not blank. */
  function LastSaid(given: seq<Message>): string {
    if given == [] then ""
    else if Trim(given[|given| - 1].content) != "" then given[|given| - 1].content
    else LastSaid(given[..|given| - 1])
  }

  function Answers(calls: seq<ToolCall>, results: seq<string>): (ms: seq<Message>)
    requires |calls| == |results|
    ensures |ms| == |calls|
  {
    seq(|calls|, i requires 0 <= i < |calls| => Message("tool", results[i], [], calls[i].id))
  }

  /** Rounds: each of the model's messages, then exactly one tool message per call it made. */
  function Body(given: seq<Message>, results: seq<string>): seq<Message>
    requires |results| == |AllCalls(given)|
  {
    if given == [] then [] else
      var m, n := given[|given| - 1], |results| - |given[|given| - 1].toolCalls|;
      Body(given[..|given| - 1], results[..n]) + [m] + Answers(m.toolCalls, results[n..])
  }

  function CallEvents(cbs: Callbacks, calls: seq<ToolCall>, results: seq<string>): seq<Event>
    requires |calls| == |results|
  {
    if calls == [] then [] else
      var n := |calls| - 1;
      CallEvents(cbs, calls[..n], results[..n])
      + (if cbs.onToolCall then [CalledTool(calls[n])] else [])
      + (if cbs.onToolResult then [FinishedTool(calls[n], results[n])] else [])
  }

  function Requests(log: seq<Event>): seq<seq<Message>> {
    if log == [] then [] else
      Requests(log[..|log| - 1]) + (if log[|log| - 1].Sent? then [log[|log| - 1].messages] else [])
  }

  function ToolEvents(log: seq<Event>): seq<Event> {
    if log == [] then [] else
      ToolEvents(log[..|log| - 1])
      + (if log[|log| - 1].CalledTool? || log[|log| - 1].FinishedTool? then [log[|log| - 1]] else [])
  }

  predicate Quiet(e: Event) {
    e.Assistant? || e.Proposed?
  }

  function Said(log: seq<Event>): seq<Event> {
    if log == [] then [] else
      Said(log[..|log| - 1]) + (if Quiet(log[|log| - 1]) then [log[|log| - 1]] else [])
  }

  // ---------------------------------------------------------------- projections and prefixes

  lemma ProjectSnoc(log: seq<Event>, e: Event)
    ensures Requests(log + [e]) == Requests(log) + if e.Sent? then [e.messages] else []
    ensures ToolEvents(log + [e]) == ToolEvents(log) + if e.CalledTool? || e.FinishedTool? then [e] else []
    ensures Said(log + [e]) == Said(log) + if Quiet(e) then [e] else []
  {
    assert (log + [e])[..|log|] == log;
  }

  lemma ProjectNothing()
    ensures Requests([]) == [] && ToolEvents([]) == [] && Said([]) == []
  {
  }

  lemma {:induction false} RequestsConcat(a: seq<Event>, b: seq<Event>)
    ensures Requests(a + b) == Requests(a) + Requests(b)
    ensures ToolEvents(a + b) == ToolEvents(a) + ToolEvents(b) && Said(a + b) == Said(a) + Said(b)
    decreases |b|
  {
    hide Requests, ToolEvents, Said, Quiet;
    ProjectNothing();
    if b == [] {
      assert a + b == a;
    } else {
      var c, e := b[..|b| - 1], b[|b| - 1];
      RequestsConcat(a, c);
      ProjectSnoc(a + c, e);
      ProjectSnoc(c, e);
      assert a + b == a + c + [e] && b == c + [e];
    }
  }

  lemma {:induction false} CallEventsProject(cbs: Callbacks, calls: seq<ToolCall>, results: seq<string>)
    requires |calls| == |results|
    ensures Requests(CallEvents(cbs, calls, results)) == []
    ensures ToolEvents(CallEvents(cbs, calls, results)) == CallEvents(cbs, calls, results)
    ensures Said(CallEvents(cbs, calls, results)) == []
    decreases |calls|
  {
    if calls != [] {
      var n := |calls| - 1;
      CallEventsProject(cbs, calls[..n], results[..n]);
      CallEventsSnoc(cbs, calls, results);
      hide *;
      var a := CallEvents(cbs, calls[..n], results[..n]);
      var b := if cbs.onToolCall then a + [CalledTool(calls[n])] else a;
      ToolEventsOnly(a, CalledTool(calls[n]));
      ToolEventsOnly(b, FinishedTool(calls[n], results[n]));
    } else {
      ProjectNothing();
    }
  }

  lemma CallEventsSnoc(cbs: Callbacks, calls: seq<ToolCall>, results: seq<string>)
    requires calls != [] && |calls| == |results|
    ensures var n := |calls| - 1;
            var a := CallEvents(cbs, calls[..n], results[..n]);
            var b := if cbs.onToolCall then a + [CalledTool(calls[n])] else a;
            CallEvents(cbs, calls, results) == if cbs.onToolResult then b + [FinishedTool(calls[n], results[n])] else b
  {
  }

  lemma ToolEventsOnly(log: seq<Event>, e: Event)
    requires Requests(log) == [] && ToolEvents(log) == log && Said(log) == [] && (e.CalledTool? || e.FinishedTool?)
    ensures Requests(log + [e]) == [] && ToolEvents(log + [e]) == log + [e] && Said(log + [e]) == []
  {
    ProjectSnoc(log, e);
    hide Requests, ToolEvents, Said;
  }

  lemma {:induction false} PerformedConcat(env: Env, cbs: Callbacks, w: Workspace, a: seq<ToolCall>, b: seq<ToolCall>)
    ensures var (w1, r1) := Performed(env, cbs, w, a);
            var (w2, r2) := Performed(env, cbs, w1, b);
            Performed(env, cbs, w, a + b) == (w2, r1 + r2)
    decreases |b|
  {
    hide Perform;
    if b == [] {
      assert a + b == a;
      var (w1, r1) := Performed(env, cbs, w, a);
      assert Performed(env, cbs, w1, b) == (w1, []);
      assert r1 + [] == r1;
    } else {
      var c := b[..|b| - 1];
      assert (a + b)[..|a + b| - 1] == a + c;
      PerformedConcat(env, cbs, w, a, c);
      var (w1, r1) := Performed(env, cbs, w, a);
      var (w2, r2) := Performed(env, cbs, w1, c);
      var (w3, result) := Perform(env, cbs, w2, b[|b| - 1]);
      assert Performed(env, cbs, w1, b) == (w3, r2 + [result]);
      assert r1 + (r2 + [result]) == (r1 + r2) + [result];
    }
  }

  lemma {:induction false} CallEventsConcat(cbs: Callbacks, a: seq<ToolCall>, r: seq<string>, b: seq<ToolCall>,
                                            t: seq<string>)
    requires |a| == |r| && |b| == |t|
    ensures CallEvents(cbs, a + b, r + t) == CallEvents(cbs, a, r) + CallEvents(cbs, b, t)
    decreases |b|
  {
    if b == [] {
      assert a + b == a && r + t == r;
    } else {
      var n := |b| - 1;
      assert (a + b)[..|a + b| - 1] == a + b[..n] && (r + t)[..|r + t| - 1] == r + t[..n];
      CallEventsConcat(cbs, a, r, b[..n], t[..n]);
    }
  }

  /** With both callbacks set, call and result callbacks alternate and name the same call. */
  lemma {:induction false} CallbacksPair(cbs: Callbacks, calls: seq<ToolCall>, results: seq<string>)
    requires cbs.onToolCall && cbs.onToolResult && |calls| == |results|
    ensures |CallEvents(cbs, calls, results)| == 2 * |calls|
    ensures forall i :: 0 <= i < |calls| ==>
              && CallEvents(cbs, calls, results)[2 * i] == CalledTool(calls[i])
              && CallEvents(cbs, calls, results)[2 * i + 1] == FinishedTool(calls[i], results[i])
    decreases |calls|
  {
    if calls != [] {
      var n := |calls| - 1;
      CallbacksPair(cbs, calls[..n], results[..n]);
    }
  }

  lemma {:induction false} LeadingPrefix(replies: seq<Reply>)
    ensures |Leading(replies)| <= |replies|
    ensures forall i :: 0 <= i < |Leading(replies)| ==>
              Continues(replies[i]) && replies[i].message == Leading(replies)[i]
    ensures |Leading(replies)| < |replies| ==> !Continues(replies[|Leading(replies)|])
  {
    if replies != [] && Continues(replies[0]) {
      LeadingPrefix(replies[1..]);
    }
  }

  // ---------------------------------------------------------------- one reply's calls

  /** A run of calls that no callback stopped. */
  predicate CallsDone(env: Env, cbs: Callbacks, st: State, calls: seq<ToolCall>, s: State) {
    var (w, results) := Performed(env, cbs, st.workspace, calls);
    s == State(st.messages + Answers(calls, results), st.lastContent, w, st.log + CallEvents(cbs, calls, results))
  }

  /** `w` is the work of the first tools alone; when every tool is reported before and after it runs,
      of exactly those tools that were reported as finished. */
  ghost predicate Reached(env: Env, cbs: Callbacks, start: Workspace, calls: seq<ToolCall>, w: Workspace, events: nat) {
    exists n | 0 <= n <= |calls| ::
      && w == Performed(env, cbs, start, calls[..n]).0
      && (cbs.onToolCall && cbs.onToolResult ==> n == events / 2)
  }

  /** A run of calls stopped by a failing callback, possibly after the last tool ran. */
  ghost predicate CallsCut(env: Env, cbs: Callbacks, st: State, calls: seq<ToolCall>, s: State) {
    && st.log <= s.log
    && Reached(env, cbs, st.workspace, calls, s.workspace, |s.log| - |st.log|)
    && s.log <= st.log + CallEvents(cbs, calls, Performed(env, cbs, st.workspace, calls).1)
  }

  lemma InitPerformed(env: Env, cbs: Callbacks, w: Workspace, calls: seq<ToolCall>)
    requires calls != []
    ensures var init := calls[..|calls| - 1];
            var (before, all) := (Performed(env, cbs, w, init).1, Performed(env, cbs, w, calls).1);
            && all[..|calls| - 1] == before
            && CallEvents(cbs, init, before) <= CallEvents(cbs, calls, all)
  {
    hide Perform;
  }

  lemma CutEarlier(env: Env, cbs: Callbacks, st: State, calls: seq<ToolCall>, s: State)
    requires calls != [] && CallsCut(env, cbs, st, calls[..|calls| - 1], s)
    ensures CallsCut(env, cbs, st, calls, s)
  {
    hide Perform, Performed, CallEvents;
    var init := calls[..|calls| - 1];
    var n :| 0 <= n <= |init| && s.workspace == Performed(env, cbs, st.workspace, init[..n]).0
             && (cbs.onToolCall && cbs.onToolResult ==> n == (|s.log| - |st.log|) / 2);
    assert init[..n] == calls[..n];
    InitPerformed(env, cbs, st.workspace, calls);
  }

  lemma OneCallDone(env: Env, cbs: Callbacks, accepts: seq<Event> -> bool, st: State, calls: seq<ToolCall>, s1: State)
    requires calls != [] && CallsDone(env, cbs, st, calls[..|calls| - 1], s1)
    requires OneCall(env, cbs, accepts, s1, calls[|calls| - 1]).1
    ensures CallsDone(env, cbs, st, calls, OneCall(env, cbs, accepts, s1, calls[|calls| - 1]).0)
  {
    hide Perform;
    var n := |calls| - 1;
    var r1 := Performed(env, cbs, st.workspace, calls[..n]).1;
    var r := Performed(env, cbs, st.workspace, calls).1;
    assert r[..n] == r1;
    assert Answers(calls, r) == Answers(calls[..n], r1) + [ToolMessage(calls[n], r[n])];
    var s := OneCall(env, cbs, accepts, s1, calls[n]).0;
    assert s.log == st.log + CallEvents(cbs, calls, r);
  }

  /** A failing call leaves off after its call callback, or after its result callback. */
  lemma OneCallFails(env: Env, cbs: Callbacks, accepts: seq<Event> -> bool, st: State, call: ToolCall)
    requires !OneCall(env, cbs, accepts, st, call).1
    ensures var s := OneCall(env, cbs, accepts, st, call).0;
            var (w, result) := Perform(env, cbs, st.workspace, call);
            var called := st.log + if cbs.onToolCall then [CalledTool(call)] else [];
            || (cbs.onToolCall && s.workspace == st.workspace && s.log == called)
            || (cbs.onToolResult && s.workspace == w && s.log == called + [FinishedTool(call, result)])
  {
    hide Perform;
  }

  /** The tools that ran are those reported as finished, the last one included or not. */
  lemma CutReaches(env: Env, cbs: Callbacks, st: State, calls: seq<ToolCall>, w: Workspace, events: nat)
    requires calls != []
    requires var n := |calls| - 1;
             var (w1, r1) := Performed(env, cbs, st.workspace, calls[..n]);
             var before := |CallEvents(cbs, calls[..n], r1)| + if cbs.onToolCall then 1 else 0;
             || (w == w1 && events == before && cbs.onToolCall)
             || (w == Performed(env, cbs, st.workspace, calls).0 && events == before + 1 && cbs.onToolResult)
    ensures Reached(env, cbs, st.workspace, calls, w, events)
  {
    hide Perform, Performed, CallEvents;
    var n := |calls| - 1;
    var r1 := Performed(env, cbs, st.workspace, calls[..n]).1;
    if cbs.onToolCall && cbs.onToolResult {
      CallbacksPair(cbs, calls[..n], r1);
    }
    assert calls[..|calls|] == calls;
    var unfinished := w == Performed(env, cbs, st.workspace, calls[..n]).0;
    var k := if unfinished && (cbs.onToolCall && cbs.onToolResult ==> n == events / 2)
             then n else |calls|;
    assert w == Performed(env, cbs, st.workspace, calls[..k]).0;
  }

  lemma OneCallCut(env: Env, cbs: Callbacks, accepts: seq<Event> -> bool, st: State, calls: seq<ToolCall>, s1: State)
    requires calls != [] && CallsDone(env, cbs, st, calls[..|calls| - 1], s1)
    requires !OneCall(env, cbs, accepts, s1, calls[|calls| - 1]).1
    ensures CallsCut(env, cbs, st, calls, OneCall(env, cbs, accepts, s1, calls[|calls| - 1]).0)
  {
    hide Perform, Answers, ToolMessage, OneCall, Reached;
    var n := |calls| - 1;
    var r1 := Performed(env, cbs, st.workspace, calls[..n]).1;
    var r := Performed(env, cbs, st.workspace, calls).1;
    assert r[..n] == r1;
    OneCallFails(env, cbs, accepts, s1, calls[n]);
    var s := OneCall(env, cbs, accepts, s1, calls[n]).0;
    CutReaches(env, cbs, st, calls, s.workspace, |s.log| - |st.log|);
  }

  lemma {:induction false} CallsEffect(env: Env, cbs: Callbacks, accepts: seq<Event> -> bool, st: State,
                                       calls: seq<ToolCall>)
    ensures var (s, ok) := Calls(env, cbs, accepts, st, calls);
            if ok then CallsDone(env, cbs, st, calls, s) else CallsCut(env, cbs, st, calls, s)
    decreases |calls|
  {
    hide CallsDone, CallsCut, OneCall;
    if calls == [] {
      NoCalls(env, cbs, st);
    } else {
      var init := calls[..|calls| - 1];
      CallsEffect(env, cbs, accepts, st, init);
      var (s1, ok) := Calls(env, cbs, accepts, st, init);
      if ok {
        if OneCall(env, cbs, accepts, s1, calls[|calls| - 1]).1 {
          OneCallDone(env, cbs, accepts, st, calls, s1);
        } else {
          OneCallCut(env, cbs, accepts, st, calls, s1);
        }
      } else {
        CutEarlier(env, cbs, st, calls, s1);
      }
    }
  }

  lemma NoCalls(env: Env, cbs: Callbacks, st: State)
    ensures CallsDone(env, cbs, st, [], st)
  {
    assert Answers([], []) == [];
  }

  // ---------------------------------------------------------------- closing

  function Proposals(plans: seq<string>): (events: seq<Event>)
    ensures |events| == |plans|
  {
    seq(|plans|, i requires 0 <= i < |plans| => Proposed(plans[i]))
  }

  /** What a closing text is worth saying: the text, and each plan proposed in it. */
  function ClosingEvents(cbs: Callbacks, text: string): seq<Event> {
    if Trim(text) == "" then [] else
      (if cbs.onAssistant then [Assistant(text)] else [])
      + (if cbs.onPlan then Proposals(PlanParse.Kept(PlanParse.Matches(text))) else [])
  }

  lemma {:induction false} QuietProject(log: seq<Event>)
    requires forall i :: 0 <= i < |log| ==> Quiet(log[i])
    ensures Requests(log) == [] && ToolEvents(log) == [] && Said(log) == log
    decreases |log|
  {
    if log != [] {
      assert Quiet(log[|log| - 1]);
      QuietProject(log[..|log| - 1]);
      assert log == log[..|log| - 1] + [log[|log| - 1]];
    }
  }

  /** The plans are posted one by one until a callback fails. */
  lemma {:induction false} PlansSay(accepts: seq<Event> -> bool, st: State, plans: seq<string>)
    ensures var (s, ok) := Plans(accepts, st, plans);
            && s == st.(log := s.log)
            && (exists n | 0 <= n <= |plans| :: s.log == st.log + Proposals(plans[..n]) && (ok ==> n == |plans|))
    decreases |plans|
  {
    if plans == [] {
      assert st.log == st.log + Proposals(plans[..0]);
    } else {
      var init := plans[..|plans| - 1];
      PlansSay(accepts, st, init);
      var (s1, ok1) := Plans(accepts, st, init);
      var n :| 0 <= n <= |init| && s1.log == st.log + Proposals(init[..n]) && (ok1 ==> n == |init|);
      assert init[..n] == plans[..n];
      if ok1 {
        assert plans[..n] == init && plans[..|plans|] == plans;
        assert Proposals(plans) == Proposals(init) + [Proposed(plans[|plans| - 1])];
      }
    }
  }

  lemma ProposalsPrefix(plans: seq<string>, n: nat)
    requires n <= |plans|
    ensures Proposals(plans[..n]) == Proposals(plans)[..n]
  {
  }

  /** The closing callbacks are the closing events, cut short only by a failure. */
  lemma CloseSays(cbs: Callbacks, accepts: seq<Event> -> bool, st: State, text: string)
    ensures var (s, ok) := Close(cbs, accepts, st, text);
            && s == st.(log := s.log) && st.log <= s.log
            && s.log[|st.log|..] <= ClosingEvents(cbs, text)
            && (ok ==> s.log[|st.log|..] == ClosingEvents(cbs, text))
  {
    hide Trim, PlanParse.Kept, PlanParse.Matches, Plans, Proposals;
    var s1 := if cbs.onAssistant then Log(st, Assistant(text)) else st;
    var plans := PlanParse.Kept(PlanParse.Matches(text));
    PlansSaid(accepts, s1, plans);
    var said := if cbs.onAssistant then [Assistant(text)] else [];
    assert s1.log == st.log + said;
    SaidJoins(st.log, said, Plans(accepts, s1, plans).0.log, Proposals(plans));
  }

  lemma PlansSaid(accepts: seq<Event> -> bool, st: State, plans: seq<string>)
    ensures var (s, ok) := Plans(accepts, st, plans);
            && s == st.(log := s.log) && st.log <= s.log && s.log[|st.log|..] <= Proposals(plans)
            && (ok ==> s.log[|st.log|..] == Proposals(plans))
  {
    hide Plans;
    PlansSay(accepts, st, plans);
    var (s, ok) := Plans(accepts, st, plans);
    var n :| 0 <= n <= |plans| && s.log == st.log + Proposals(plans[..n]) && (ok ==> n == |plans|);
    ProposalsPrefix(plans, n);
    hide Proposals;
    assert s.log[|st.log|..] == Proposals(plans)[..n];
  }

  lemma SaidJoins(before: seq<Event>, said: seq<Event>, log: seq<Event>, more: seq<Event>)
    requires before + said <= log && log[|before + said|..] <= more
    ensures before <= log && log[|before|..] == said + log[|before + said|..]
    ensures said + log[|before + said|..] <= said + more
  {
    assert log == before + said + log[|before + said|..];
  }

  lemma CloseQuiet(cbs: Callbacks, accepts: seq<Event> -> bool, st: State, text: string)
    ensures var (s, ok) := Close(cbs, accepts, st, text);
            && s == st.(log := s.log)
            && Requests(s.log) == Requests(st.log)
            && ToolEvents(s.log) == ToolEvents(st.log)
            && (Said(st.log) == [] ==>
                  Said(s.log) <= ClosingEvents(cbs, text) && (ok ==> Said(s.log) == ClosingEvents(cbs, text)))
  {
    hide *;
    CloseSays(cbs, accepts, st, text);
    ClosingIsQuiet(cbs, text);
    QuietTail(st.log, Close(cbs, accepts, st, text).0.log, ClosingEvents(cbs, text));
  }

  lemma QuietTail(before: seq<Event>, log: seq<Event>, closing: seq<Event>)
    requires before <= log && log[|before|..] <= closing
    requires forall i :: 0 <= i < |closing| ==> Quiet(closing[i])
    ensures Requests(log) == Requests(before) && ToolEvents(log) == ToolEvents(before)
    ensures Said(before) == [] ==> Said(log) == log[|before|..]
  {
    hide *;
    var tail := log[|before|..];
    assert log == before + tail;
    forall i | 0 <= i < |tail| ensures Quiet(tail[i]) {
      assert tail[i] == closing[i];
    }
    QuietProject(tail);
    RequestsConcat(before, tail);
  }

  lemma ClosingIsQuiet(cbs: Callbacks, text: string)
    ensures forall i :: 0 <= i < |ClosingEvents(cbs, text)| ==> Quiet(ClosingEvents(cbs, text)[i])
  {
    hide Trim, PlanParse.Kept, PlanParse.Matches;
  }

  // ---------------------------------------------------------------- whole rounds

  /** Where the run began: its opening messages and its workspace. */
  datatype Origin = Origin(env: Env, cbs: Callbacks, opening: seq<Message>, workspace: Workspace)

  function ResultsOf(o: Origin, given: seq<Message>): (r: seq<string>)
    ensures |r| == |AllCalls(given)|
  {
    Performed(o.env, o.cbs, o.workspace, AllCalls(given)).1
  }

  function MessagesOf(o: Origin, given: seq<Message>): seq<Message> {
    o.opening + Body(given, ResultsOf(o, given))
  }

  function EventsOf(o: Origin, given: seq<Message>): seq<Event> {
    CallEvents(o.cbs, AllCalls(given), ResultsOf(o, given))
  }

  /** The requests of `n` iterations, each made after one more round. */
  ghost predicate RequestsAre(o: Origin, given: seq<Message>, log: seq<Event>, n: nat) {
    && |Requests(log)| == n <= |given| + 1
    && forall k | 0 <= k < n :: Requests(log)[k] == MessagesOf(o, given[..k])
  }

  /** The state after the replies `given` and all the calls they asked for. */
  ghost predicate Tells(o: Origin, given: seq<Message>, st: State) {
    && st.messages == MessagesOf(o, given)
    && st.lastContent == LastSaid(given)
    && st.workspace == Performed(o.env, o.cbs, o.workspace, AllCalls(given)).0
    && ToolEvents(st.log) == EventsOf(o, given)
    && RequestsAre(o, given, st.log, |given|) && Said(st.log) == []
  }

  lemma {:induction false} AllCallsConcat(a: seq<Message>, b: seq<Message>)
    ensures AllCalls(a + b) == AllCalls(a) + AllCalls(b)
    decreases |b|
  {
    if b == [] {
      assert a + b == a;
    } else {
      assert (a + b)[..|a + b| - 1] == a + b[..|b| - 1];
      AllCallsConcat(a, b[..|b| - 1]);
    }
  }

  lemma AllCallsSnoc(given: seq<Message>, m: Message)
    ensures AllCalls(given + [m]) == AllCalls(given) + m.toolCalls
  {
    assert (given + [m])[..|given|] == given;
  }

  /** One more round: the messages, the workspace and the callbacks it adds. */
  lemma RoundAdds(o: Origin, given: seq<Message>, m: Message)
    ensures var w := Performed(o.env, o.cbs, o.workspace, AllCalls(given)).0;
            var (w', results) := Performed(o.env, o.cbs, w, m.toolCalls);
            var more := given + [m];
            && MessagesOf(o, more) == MessagesOf(o, given) + [m] + Answers(m.toolCalls, results)
            && EventsOf(o, more) == EventsOf(o, given) + CallEvents(o.cbs, m.toolCalls, results)
            && Performed(o.env, o.cbs, o.workspace, AllCalls(more)).0 == w'
  {
    hide Perform, Performed, CallEvents, AllCalls, Answers;
    var (w, before) := Performed(o.env, o.cbs, o.workspace, AllCalls(given));
    var (w', results) := Performed(o.env, o.cbs, w, m.toolCalls);
    var more := given + [m];
    AllCallsSnoc(given, m);
    PerformedConcat(o.env, o.cbs, o.workspace, AllCalls(given), m.toolCalls);
    CallEventsConcat(o.cbs, AllCalls(given), before, m.toolCalls, results);
    assert more[..|given|] == given && more[|more| - 1] == m;
    assert (before + results)[..|before|] == before && (before + results)[|before|..] == results;
  }

  lemma LastSaidSnoc(given: seq<Message>, m: Message)
    ensures LastSaid(given + [m]) == if Trim(m.content) != "" then m.content else LastSaid(given)
  {
    hide Trim;
    assert (given + [m])[..|given|] == given;
  }

  lemma SendingKeeps(o: Origin, given: seq<Message>, st: State)
    requires Tells(o, given, st)
    ensures var sent := Log(st, Sent(st.messages));
            && ToolEvents(sent.log) == EventsOf(o, given) && Said(sent.log) == []
            && RequestsAre(o, given, sent.log, |given| + 1)
  {
    hide Performed, CallEvents, AllCalls, MessagesOf, EventsOf;
    var sent := Log(st, Sent(st.messages));
    assert sent.log[..|st.log|] == st.log;
    assert given[..|given|] == given;
  }

  /** The requests made before a round are those made after it. */
  lemma RequestsExtend(o: Origin, given: seq<Message>, more: seq<Message>, log: seq<Event>, log': seq<Event>, n: nat)
    requires RequestsAre(o, given, log, n) && given <= more && Requests(log') == Requests(log)
    ensures RequestsAre(o, more, log', n)
  {
    hide MessagesOf;
    forall k | 0 <= k < n
      ensures given[..k] == more[..k]
    {
    }
  }

  lemma RoundKeeps(o: Origin, given: seq<Message>, st: State, m: Message, s: State)
    requires Tells(o, given, st)
    requires CallsDone(o.env, o.cbs, Remember(Log(st, Sent(st.messages)), m), m.toolCalls, s)
    ensures Tells(o, given + [m], s)
  {
    hide Performed, CallEvents, AllCalls, MessagesOf, EventsOf, Answers, Requests, ToolEvents, Said;
    hide Trim, RequestsAre;
    SendingKeeps(o, given, st);
    RoundAdds(o, given, m);
    LastSaidSnoc(given, m);
    hide LastSaid;
    var sent := Log(st, Sent(st.messages));
    var (w, results) := Performed(o.env, o.cbs, st.workspace, m.toolCalls);
    var added := CallEvents(o.cbs, m.toolCalls, results);
    CallEventsProject(o.cbs, m.toolCalls, results);
    RequestsConcat(sent.log, added);
    RequestsExtend(o, given, given + [m], sent.log, s.log, |given| + 1);
  }

  // ---------------------------------------------------------------- the end of a run

  /** How a run ended, when the replies that keep it going are `given` and then come the `rest`: which
      requests it sent, what its tools did, which callbacks it made, what it answered; a failing
      callback can only cut these short. */
  ghost predicate Ended(o: Origin, given: seq<Message>, rest: seq<Reply>, s: State, outcome: Outcome, limit: nat) {
    && |Requests(s.log)| <= limit
    && RequestsAre(o, given, s.log, |Requests(s.log)|)
    && ToolEvents(s.log) <= EventsOf(o, given)
    && Reached(o.env, o.cbs, o.workspace, AllCalls(given), s.workspace, |ToolEvents(s.log)|)
    && Said(s.log) <= ClosingEvents(o.cbs, ClosingText(given, rest, limit))
    && (!outcome.Failed? ==> Said(s.log) == ClosingEvents(o.cbs, ClosingText(given, rest, limit)))
    && (outcome.Final? ==>
          && |Requests(s.log)| == |given| + 1 && ToolEvents(s.log) == EventsOf(o, given)
          && s.workspace == Performed(o.env, o.cbs, o.workspace, AllCalls(given)).0
          && rest != [] && rest[0].Choice? && outcome.answer == AnswerOf(given, rest[0].message))
    && (outcome.LimitReached? ==>
          && |Requests(s.log)| == limit <= |given| && outcome.answer == Trim(LastSaid(given[..limit]))
          && s.workspace == Performed(o.env, o.cbs, o.workspace, AllCalls(given[..limit])).0)
  }

  /** The closing reply's text, or else the last text before it. */
  function AnswerOf(given: seq<Message>, m: Message): string {
    if Trim(m.content) != "" then Trim(m.content) else Trim(LastSaid(given))
  }

  /** What the run has to say in the end: its answer, or the last text before the limit. */
  function ClosingText(given: seq<Message>, rest: seq<Reply>, limit: nat): string {
    if limit <= |given| then LastSaid(given[..limit])
    else if rest != [] && rest[0].Choice? then AnswerOf(given, rest[0].message) else ""
  }

  lemma EventsGrow(o: Origin, given: seq<Message>, rest: seq<Message>)
    ensures EventsOf(o, given) <= EventsOf(o, given + rest)
  {
    hide Perform, Performed, CallEvents, AllCalls;
    AllCallsConcat(given, rest);
    var (w, before) := Performed(o.env, o.cbs, o.workspace, AllCalls(given));
    var (_, after) := Performed(o.env, o.cbs, w, AllCalls(rest));
    PerformedConcat(o.env, o.cbs, o.workspace, AllCalls(given), AllCalls(rest));
    CallEventsConcat(o.cbs, AllCalls(given), before, AllCalls(rest), after);
  }

  lemma WorkspaceReached(o: Origin, given: seq<Message>, rest: seq<Message>, w: Workspace, n: nat, events: nat)
    requires n <= |AllCalls(given)| && w == Performed(o.env, o.cbs, o.workspace, AllCalls(given)[..n]).0
    requires o.cbs.onToolCall && o.cbs.onToolResult ==> n == events / 2
    ensures Reached(o.env, o.cbs, o.workspace, AllCalls(given + rest), w, events)
  {
    hide Perform, Performed, AllCalls;
    AllCallsConcat(given, rest);
    assert AllCalls(given + rest)[..n] == AllCalls(given)[..n];
  }

  lemma WholeIsReached(o: Origin, given: seq<Message>, rest: seq<Message>, st: State)
    requires Tells(o, given, st)
    ensures Reached(o.env, o.cbs, o.workspace, AllCalls(given + rest), st.workspace, |ToolEvents(st.log)|)
  {
    hide Perform, Performed, AllCalls, CallEvents, RequestsAre, ToolEvents;
    assert AllCalls(given)[..|AllCalls(given)|] == AllCalls(given);
    if o.cbs.onToolCall && o.cbs.onToolResult {
      CallbacksPair(o.cbs, AllCalls(given), ResultsOf(o, given));
    }
    WorkspaceReached(o, given, rest, st.workspace, |AllCalls(given)|, |ToolEvents(st.log)|);
  }

  /** The limit was reached. */
  lemma EndsAtLimit(o: Origin, given: seq<Message>, rest: seq<Message>, st: State, accepts: seq<Event> -> bool,
                    tail: seq<Reply>)
    requires Tells(o, given, st)
    ensures var (s, outcome) := Loop(o.env, o.cbs, accepts, st, [], 0);
            Ended(o, given + rest, tail, s, outcome, |given|)
  {
    hide Performed, CallEvents, AllCalls, MessagesOf, EventsOf, Close, Requests, ToolEvents, Trim, LastSaid, Said;
    hide ClosingEvents;
    assert (given + rest)[..|given|] == given;
    CloseQuiet(o.cbs, accepts, st, st.lastContent);
    var s := Close(o.cbs, accepts, st, st.lastContent).0;
    EventsGrow(o, given, rest);
    WholeIsReached(o, given, rest, st);
    RequestsExtend(o, given, given + rest, st.log, s.log, |given|);
  }

  /** The exchange broke, or the model answered. */
  lemma EndsWithReply(o: Origin, given: seq<Message>, st: State, accepts: seq<Event> -> bool, replies: seq<Reply>,
                      left: nat)
    requires Tells(o, given, st) && left > 0
    requires replies == [] || !Continues(replies[0])
    ensures var (s, outcome) := Loop(o.env, o.cbs, accepts, st, replies, left);
            Ended(o, given, replies, s, outcome, |given| + left)
  {
    hide Performed, CallEvents, AllCalls, MessagesOf, EventsOf, Close, Requests, ToolEvents, Trim, LastSaid, Said;
    hide ClosingEvents;
    SendingKeeps(o, given, st);
    assert given + [] == given;
    WholeIsReached(o, given, [], st);
    var sent := Log(st, Sent(st.messages));
    if replies != [] && replies[0].Choice? {
      var answer := Answer(st, replies[0].message);
      CloseQuiet(o.cbs, accepts, sent, answer);
      RequestsExtend(o, given, given, sent.log, Close(o.cbs, accepts, sent, answer).0.log, |given| + 1);
    }
  }

  /** A callback failed in the middle of a round. */
  lemma EndsInCalls(o: Origin, given: seq<Message>, st: State, m: Message, rest: seq<Message>, s: State, left: nat,
                    tail: seq<Reply>)
    requires Tells(o, given, st) && left > 0
    requires CallsCut(o.env, o.cbs, Remember(Log(st, Sent(st.messages)), m), m.toolCalls, s)
    ensures Ended(o, given + [m] + rest, tail, s, Failed, |given| + left)
  {
    hide Perform, Performed, CallEvents, AllCalls, MessagesOf, EventsOf, Requests, ToolEvents, Trim, Said;
    hide ClosingEvents, ClosingText;
    SendingKeeps(o, given, st);
    RoundAdds(o, given, m);
    var sent := Log(st, Sent(st.messages));
    var w := st.workspace;
    var added := CallEvents(o.cbs, m.toolCalls, Performed(o.env, o.cbs, w, m.toolCalls).1);
    var extra := s.log[|sent.log|..];
    assert s.log == sent.log + extra;
    assert extra == added[..|extra|];
    PrefixOfCallEvents(o.cbs, m.toolCalls, Performed(o.env, o.cbs, w, m.toolCalls).1, |extra|);
    RequestsConcat(sent.log, extra);
    RequestsExtend(o, given, given + [m] + rest, sent.log, s.log, |given| + 1);
    EventsGrow(o, given + [m], rest);
    assert ToolEvents(s.log) == EventsOf(o, given) + ToolEvents(extra);
    CutReached(o, given, m, s.workspace, extra, rest);
  }

  lemma CutReached(o: Origin, given: seq<Message>, m: Message, w: Workspace, extra: seq<Event>, rest: seq<Message>)
    requires var before := Performed(o.env, o.cbs, o.workspace, AllCalls(given)).0;
             Reached(o.env, o.cbs, before, m.toolCalls, w, |extra|)
    ensures Reached(o.env, o.cbs, o.workspace, AllCalls(given + [m] + rest), w, |EventsOf(o, given) + extra|)
  {
    hide Perform, Performed, CallEvents, AllCalls;
    var before := Performed(o.env, o.cbs, o.workspace, AllCalls(given)).0;
    var n :| 0 <= n <= |m.toolCalls| && w == Performed(o.env, o.cbs, before, m.toolCalls[..n]).0
             && (o.cbs.onToolCall && o.cbs.onToolResult ==> n == |extra| / 2);
    if o.cbs.onToolCall && o.cbs.onToolResult {
      CallbacksPair(o.cbs, AllCalls(given), ResultsOf(o, given));
    }
    CutWorkspace(o, given, m, n);
    WorkspaceReached(o, given + [m], rest, w, |AllCalls(given)| + n, |EventsOf(o, given) + extra|);
  }

  /** Tool events are already a projection. */
  lemma PrefixOfCallEvents(cbs: Callbacks, calls: seq<ToolCall>, results: seq<string>, n: nat)
    requires |calls| == |results| && n <= |CallEvents(cbs, calls, results)|
    ensures var extra := CallEvents(cbs, calls, results)[..n];
            Requests(extra) == [] && ToolEvents(extra) == extra && Said(extra) == []
  {
    var added := CallEvents(cbs, calls, results);
    var extra := added[..n];
    CallEventsProject(cbs, calls, results);
    assert added == extra + added[n..];
    RequestsConcat(extra, added[n..]);
    ToolEventsShorter(extra);
    ToolEventsShorter(added[n..]);
    hide Requests, ToolEvents, CallEvents, Said;
    assert ToolEvents(extra) == (ToolEvents(extra) + ToolEvents(added[n..]))[..n];
  }

  lemma {:induction false} ToolEventsShorter(log: seq<Event>)
    ensures |ToolEvents(log)| <= |log|
    decreases |log|
  {
    if log != [] {
      ToolEventsShorter(log[..|log| - 1]);
    }
  }

  lemma CutWorkspace(o: Origin, given: seq<Message>, m: Message, n: nat)
    requires n <= |m.toolCalls|
    ensures var w := Performed(o.env, o.cbs, o.workspace, AllCalls(given)).0;
            var k := |AllCalls(given)| + n;
            && k <= |AllCalls(given + [m])|
            && Performed(o.env, o.cbs, o.workspace, AllCalls(given + [m])[..k]).0
               == Performed(o.env, o.cbs, w, m.toolCalls[..n]).0
  {
    hide Perform, Performed, AllCalls;
    AllCallsSnoc(given, m);
    PerformedConcat(o.env, o.cbs, o.workspace, AllCalls(given), m.toolCalls[..n]);
    assert AllCalls(given + [m])[..|AllCalls(given)| + n] == AllCalls(given) + m.toolCalls[..n];
  }

  lemma AfterTail(replies: seq<Reply>)
    requires replies != [] && Continues(replies[0])
    ensures After(replies) == After(replies[1..])
  {
    var n := |Leading(replies[1..])|;
    LeadingPrefix(replies[1..]);
    assert |Leading(replies)| == n + 1;
    assert replies[1..][n..] == replies[n + 1..];
  }

  lemma {:induction false} LoopEnds(o: Origin, given: seq<Message>, st: State, accepts: seq<Event> -> bool,
                                    replies: seq<Reply>, left: nat)
    requires Tells(o, given, st)
    ensures var (s, outcome) := Loop(o.env, o.cbs, accepts, st, replies, left);
            Ended(o, given + Leading(replies), After(replies), s, outcome, |given| + left)
    decreases left
  {
    hide Tells, Ended, CallsDone, CallsCut, Calls, Close, Trim, Remember;
    if left == 0 {
      EndsAtLimit(o, given, Leading(replies), st, accepts, After(replies));
    } else if replies == [] || !Continues(replies[0]) {
      EndsWithReply(o, given, st, accepts, replies, left);
      assert given + [] == given && replies[0..] == replies;
    } else {
      var m := replies[0].message;
      var r := Remember(Log(st, Sent(st.messages)), m);
      var (s, ok) := Calls(o.env, o.cbs, accepts, r, m.toolCalls);
      CallsEffect(o.env, o.cbs, accepts, r, m.toolCalls);
      var rest := Leading(replies[1..]);
      assert given + Leading(replies) == given + [m] + rest;
      AfterTail(replies);
      if ok {
        RoundKeeps(o, given, st, m, s);
        LoopEnds(o, given + [m], s, accepts, replies[1..], left - 1);
      } else {
        EndsInCalls(o, given, st, m, rest, s, left, After(replies));
      }
    }
  }

  // ---------------------------------------------------------------- main results

  lemma TellsAtStart(o: Origin)
    ensures Tells(o, [], State(o.opening, "", o.workspace, []))
  {
  }

  /** For every transcript of replies and every fate of the callbacks: at most `maxIter` requests are
      sent (three if it is not positive); request k is the system and user messages followed by the
      rounds of the first k replies; the tool callbacks are those of the calls in order, cut short
      only by a failure; the workspace is what the tools alone would have made of it; and the answer
      is the closing text, or else the last text before it. */
  lemma TranscriptShape(env: Env, cbs: Callbacks, accepts: seq<Event> -> bool, url: string, model: string,
                        systemPrompt: string, envelope: string, workspace: Workspace, replies: seq<Reply>, maxIter: int)
    ensures var st := Start(systemPrompt, envelope, workspace);
            var (s, outcome) := RunLoop(env, cbs, accepts, url, model, st, replies, maxIter);
            var o := Origin(env, cbs, [Message("system", systemPrompt, [], ""), Message("user", envelope, [], "")],
                            workspace);
            Ended(o, Leading(replies), After(replies), s, outcome, if maxIter <= 0 then 3 else maxIter)
  {
    hide Loop, Performed, CallEvents, Trim, Leading;
    var st := Start(systemPrompt, envelope, workspace);
    var o := Origin(env, cbs, st.messages, workspace);
    TellsAtStart(o);
    assert [] + Leading(replies) == Leading(replies);
    LoopEnds(o, [], st, accepts, replies, Iterations(maxIter));
    WholeIsReached(o, [], Leading(replies), st);
  }

  // ---------------------------------------------------------------- how a run ends without failing callbacks

  ghost predicate AlwaysAccepts(accepts: seq<Event> -> bool) {
    forall log :: accepts(log)
  }

  lemma {:induction false} CallsAccepted(env: Env, cbs: Callbacks, accepts: seq<Event> -> bool, st: State,
                                         calls: seq<ToolCall>)
    requires AlwaysAccepts(accepts)
    ensures Calls(env, cbs, accepts, st, calls).1
    decreases |calls|
  {
    hide Perform;
    if calls != [] {
      CallsAccepted(env, cbs, accepts, st, calls[..|calls| - 1]);
    }
  }

  lemma {:induction false} PlansAccepted(accepts: seq<Event> -> bool, st: State, plans: seq<string>)
    requires AlwaysAccepts(accepts)
    ensures Plans(accepts, st, plans).1
    decreases |plans|
  {
    if plans != [] {
      PlansAccepted(accepts, st, plans[..|plans| - 1]);
    }
  }

  lemma CloseAccepted(cbs: Callbacks, accepts: seq<Event> -> bool, st: State, text: string)
    requires AlwaysAccepts(accepts)
    ensures Close(cbs, accepts, st, text).1
  {
    hide Trim, PlanParse.Kept, PlanParse.Matches, Plans;
    var s1 := if cbs.onAssistant then Log(st, Assistant(text)) else st;
    PlansAccepted(accepts, s1, PlanParse.Kept(PlanParse.Matches(text)));
  }

  /** A run of calls sends no request. */
  lemma CallsSendNothing(env: Env, cbs: Callbacks, accepts: seq<Event> -> bool, st: State, calls: seq<ToolCall>)
    requires AlwaysAccepts(accepts)
    ensures Requests(Calls(env, cbs, accepts, st, calls).0.log) == Requests(st.log)
  {
    CallsEffect(env, cbs, accepts, st, calls);
    CallsAccepted(env, cbs, accepts, st, calls);
    hide Calls, Requests, Performed, CallEvents, Answers;
    var results := Performed(env, cbs, st.workspace, calls).1;
    CallEventsProject(cbs, calls, results);
    RequestsConcat(st.log, CallEvents(cbs, calls, results));
  }

  lemma SendingCounts(st: State)
    ensures |Requests(Log(st, Sent(st.messages)).log)| == |Requests(st.log)| + 1
  {
    assert (st.log + [Sent(st.messages)])[..|st.log|] == st.log;
  }

  /** With callbacks that succeed, the transcript alone decides how the loop ends: at the limit when
      that many replies ask for tools, else with the closing reply's answer, or with an error
      exactly when that reply is missing or broken; and how many requests it sends. */
  lemma {:induction false} OutcomeExact(env: Env, cbs: Callbacks, accepts: seq<Event> -> bool, st: State,
                                        replies: seq<Reply>, left: nat)
    requires AlwaysAccepts(accepts)
    ensures var (s, outcome) := Loop(env, cbs, accepts, st, replies, left);
            var n := |Leading(replies)|;
            && (outcome.LimitReached? <==> left <= n)
            && (outcome.Failed? <==> n < left && (n >= |replies| || replies[n].Broken?))
            && |Requests(s.log)| == |Requests(st.log)| + if left <= n then left else n + 1
    decreases left
  {
    hide AlwaysAccepts, Calls, Close, Trim, Requests;
    if left == 0 {
      CloseAccepted(cbs, accepts, st, st.lastContent);
      CloseQuiet(cbs, accepts, st, st.lastContent);
    } else {
      var sent := Log(st, Sent(st.messages));
      SendingCounts(st);
      if replies != [] && replies[0].Choice? {
        var m := replies[0].message;
        if Continues(replies[0]) {
          var asked := Remember(sent, m);
          CallsAccepted(env, cbs, accepts, asked, m.toolCalls);
          CallsSendNothing(env, cbs, accepts, asked, m.toolCalls);
          OutcomeExact(env, cbs, accepts, Calls(env, cbs, accepts, asked, m.toolCalls).0, replies[1..], left - 1);
        } else {
          CloseAccepted(cbs, accepts, sent, Answer(st, m));
          CloseQuiet(cbs, accepts, sent, Answer(st, m));
        }
      }
    }
  }

  /** Without an address, a model or a workspace nothing is sent; with them the loop starts. */
  lemma SettingsNeeded(env: Env, cbs: Callbacks, accepts: seq<Event> -> bool, url: string, model: string, st: State,
                       replies: seq<Reply>, maxIter: int)
    ensures var (s, outcome) := RunLoop(env, cbs, accepts, url, model, st, replies, maxIter);
            var n, limit := |Leading(replies)|, if maxIter <= 0 then 3 else maxIter;
            if Trim(url) == "" || Trim(model) == "" || Trim(env.root) == "" then s == st && outcome.Failed?
            else AlwaysAccepts(accepts) ==>
              && (outcome.LimitReached? <==> limit <= n)
              && (outcome.Failed? <==> n < limit && (n >= |replies| || replies[n].Broken?))
              && |Requests(s.log)| == |Requests(st.log)| + if limit <= n then limit else n + 1
  {
    hide Loop, Trim, Requests, AlwaysAccepts;
    if AlwaysAccepts(accepts) {
      OutcomeExact(env, cbs, accepts, st, replies, Iterations(maxIter));
    }
  }

  // ---------------------------------------------------------------- what the tools may write

  /** In plan mode no sequence of calls changes the workspace, whatever their arguments. */
  lemma {:induction false} PlanModePerformsNothing(env: Env, cbs: Callbacks, workspace: Workspace, calls: seq<ToolCall>)
    requires cbs.approval == PlanMode
    ensures Performed(env, cbs, workspace, calls).0 == workspace
    decreases |calls|
  {
    hide Paths.Sandboxed, BlockedResult;
    if calls != [] {
      PlanModePerformsNothing(env, cbs, workspace, calls[..|calls| - 1]);
    }
  }

  lemma PlanModeKeepsWorkspace(env: Env, cbs: Callbacks, accepts: seq<Event> -> bool, url: string, model: string,
                               systemPrompt: string, envelope: string, workspace: Workspace, replies: seq<Reply>,
                               maxIter: int)
    requires cbs.approval == PlanMode
    ensures var st := Start(systemPrompt, envelope, workspace);
            RunLoop(env, cbs, accepts, url, model, st, replies, maxIter).0.workspace == workspace
  {
    hide RunLoop, Performed, EventsOf, RequestsAre;
    TranscriptShape(env, cbs, accepts, url, model, systemPrompt, envelope, workspace, replies, maxIter);
    hide ToolEvents, Requests;
    var given := Leading(replies);
    forall n | 0 <= n <= |AllCalls(given)|
      ensures Performed(env, cbs, workspace, AllCalls(given)[..n]).0 == workspace
    {
      PlanModePerformsNothing(env, cbs, workspace, AllCalls(given)[..n]);
    }
  }

  /** `path` names a file at or below the root. */
  ghost predicate UnderRoot(rooted: bool, cs: seq<string>, path: string) {
    exists ds: seq<string> :: path == Paths.Show(rooted, ds) && Paths.Settled(rooted, ds) && Paths.Inside(cs, ds)
  }

  ghost predicate ChangesOnlyUnder(rooted: bool, cs: seq<string>, before: Workspace, after: Workspace) {
    && before.Keys <= after.Keys
    && forall path | path in after && (path !in before || after[path] != before[path]) :: UnderRoot(rooted, cs, path)
  }

  lemma {:induction false} PerformedStaysInside(env: Env, cbs: Callbacks, workspace: Workspace, calls: seq<ToolCall>,
                                                cs: seq<string>)
    requires Paths.Settled(true, cs) && env.root == Paths.Show(true, cs)
    ensures ChangesOnlyUnder(true, cs, workspace, Performed(env, cbs, workspace, calls).0)
    decreases |calls|
  {
    if calls != [] {
      var init, call := calls[..|calls| - 1], calls[|calls| - 1];
      PerformedStaysInside(env, cbs, workspace, init, cs);
      OneCallStaysInside(env, cbs, Performed(env, cbs, workspace, init).0, call, cs);
      hide Perform, UnderRoot;
    }
  }

  lemma OneCallStaysInside(env: Env, cbs: Callbacks, workspace: Workspace, call: ToolCall, cs: seq<string>)
    requires Paths.Settled(true, cs) && env.root == Paths.Show(true, cs)
    ensures ChangesOnlyUnder(true, cs, workspace, Perform(env, cbs, workspace, call).0)
  {
    hide Paths.Sandboxed, Paths.Resolve, Paths.Split, Paths.Show, BlockedResult;
    match env.parse(call.arguments)
    case None =>
    case Some(args) =>
      var path := Arg(args, "path");
      Paths.SandboxExact(true, cs, path);
      Paths.SandboxContains(true, cs);
      var ds := Paths.Resolve(true, cs, Paths.Split(path));
      Paths.ResolveSettled(true, cs, Paths.Split(path));
  }

  /** Every file the loop creates or changes lies at or below an absolute workspace root. */
  lemma LoopWritesInside(env: Env, cbs: Callbacks, accepts: seq<Event> -> bool, url: string, model: string,
                         systemPrompt: string,
                         envelope: string, workspace: Workspace, replies: seq<Reply>, maxIter: int, cs: seq<string>)
    requires Paths.Settled(true, cs) && env.root == Paths.Show(true, cs)
    ensures var s := RunLoop(env, cbs, accepts, url, model, Start(systemPrompt, envelope, workspace), replies,
                             maxIter).0;
            ChangesOnlyUnder(true, cs, workspace, s.workspace)
  {
    hide RunLoop, Performed, EventsOf, RequestsAre, ChangesOnlyUnder;
    TranscriptShape(env, cbs, accepts, url, model, systemPrompt, envelope, workspace, replies, maxIter);
    hide ToolEvents, Requests;
    var given := Leading(replies);
    forall n | 0 <= n <= |AllCalls(given)|
      ensures ChangesOnlyUnder(true, cs, workspace, Performed(env, cbs, workspace, AllCalls(given)[..n]).0)
    {
      PerformedStaysInside(env, cbs, workspace, AllCalls(given)[..n], cs);
    }
  }
}
