/** One run of the agent against the ticket server (src/cmd/agent/run.go). A schedule decides, for
    every step, what everyone else does to the server first, whether the step succeeds, is lost on
    its way, or is applied and then reported as an error, and what identifiers and times are drawn. */
module AgentRun {
  import opened AgentLoop
  import opened AgentQueue
  import opened Text
  import opened TicketRuns
  import opened TicketTables
  import opened Wrappers
  import Radix

  datatype Fate = Done | LostBefore | LostAfter

  datatype Draw = Draw(
    others: seq<(Op, Time)>, fate: Fate, slug: string, updateId: string, clock: string, published: string, now: Time,
    error: string)

  /** The draw for the n-th step of the whole history. */
  type Schedule = nat -> Draw

  datatype Step =
    | List
    | Acknowledge(key: TicketKey)
    | GetRepository(key: TicketKey)
    | Prepare(key: TicketKey)
    | PostUpdate(key: TicketKey, commentSlug: string, content: string)
    | Finalize(key: TicketKey)
    | Complete(key: TicketKey, answer: string)

  /** A step, the slug drawn for it, whether it succeeded, and whether the server applied it. */
  datatype Entry = Entry(step: Step, slug: string, ok: bool, applied: bool)

  datatype World = World(db: Tables, history: seq<(Op, Time)>, trace: seq<Entry>)

  datatype Collaboration = DefaultMode | PlanOnly

  /** Settings and the model's side of a run; `ready` tells whether the state file is complete and
      its token fresh. */
  datatype Config = Config(
    ready: bool, testCounter: bool, rawCollabMode: string, env: Env, url: string, model: string,
    systemPrompt: Collaboration -> string, envelope: TicketKey -> string, files: Workspace,
    replies: seq<Reply>, maxIter: int)

  // ---------------------------------------------------------------- steps

  function CompletionMessage(clock: string, answer: string): string {
    "Agent completed ticket at " + clock + "." + if Trim(answer) != "" then "\n\n" + Trim(answer) else ""
  }

  /** The server operation behind a step. */
  function OpOf(user: int, step: Step, d: Draw): Option<Op> {
    match step
    case Acknowledge(key) =>
      Some(CreateComment(user, key.0, key.1, Trim("Agent acknowledged ticket at " + d.clock + "."), "", ACK, d.slug,
                         d.published))
    case PostUpdate(key, slug, content) =>
      Some(UpdateComment(user, key.0, key.1, slug, Trim(content), d.updateId, d.published))
    case Complete(key, answer) =>
      Some(CreateComment(user, key.0, key.1, Trim(CompletionMessage(d.clock, answer)), "", COMPLETION, d.slug,
                         d.published))
    case _ => None
  }

  function Do(sch: Schedule, user: int, w: World, step: Step): (World, bool) {
    var d := sch(|w.trace|);
    var db := Exec(w.db, d.others);
    match OpOf(user, step, d)
    case None => (World(db, w.history + d.others, w.trace + [Entry(step, d.slug, d.fate.Done?, false)]), d.fate.Done?)
    case Some(op) =>
      if d.fate.LostBefore? || Apply(db, op, d.now).Err? then
        (World(db, w.history + d.others, w.trace + [Entry(step, d.slug, false, false)]), false)
      else
        (World(After(db, op, d.now), w.history + d.others + [(op, d.now)],
               w.trace + [Entry(step, d.slug, d.fate.Done?, true)]), d.fate.Done?)
  }

  function Post(sch: Schedule, user: int, w: World, key: TicketKey, slug: string, content: string): (World, bool) {
    Do(sch, user, w, PostUpdate(key, slug, content))
  }

  function ErrorUpdate(error: string): string {
    "agent_error: " + error
  }

  /** The error of the last step, posted without looking at the outcome. */
  function PostError(sch: Schedule, user: int, w: World, key: TicketKey, slug: string, error: string): World {
    Post(sch, user, w, key, slug, ErrorUpdate(error)).0
  }

  function ErrorOf(sch: Schedule, w: World): string {
    if w.trace == [] then "" else sch(|w.trace| - 1).error
  }

  // ---------------------------------------------------------------- the model loop's callbacks

  function TruncateForUpdate(raw: string, max: int): string {
    var text := Trim(raw);
    if max <= 0 || |text| <= max then text else text[..max] + "...(truncated)"
  }

  function Content(e: Event): string {
    match e
    case Sent(_) => ""
    case CalledTool(call) => "tool_call: " + call.name + " args=" + TruncateForUpdate(call.arguments, 1200)
    case FinishedTool(call, result) => "tool_result: " + call.name + "\n" + TruncateForUpdate(result, 2000)
    case Assistant(text) => "assistant:\n" + TruncateForUpdate(text, 4000)
    case Proposed(plan) => "proposed_plan:\n" + TruncateForUpdate(plan, 4000)
  }

  /** The server after the callbacks in a log, and the fate of the last one. */
  function Replay(sch: Schedule, user: int, w: World, key: TicketKey, slug: string, log: seq<Event>): (World, bool) {
    if log == [] then (w, true) else
      var w1 := Replay(sch, user, w, key, slug, log[..|log| - 1]).0;
      var e := log[|log| - 1];
      if e.Sent? then (w1, true) else Post(sch, user, w1, key, slug, Content(e))
  }

  function ResolveCollaborationMode(raw: string): Option<Collaboration> {
    if raw == "" || raw == "default" then Some(DefaultMode) else if raw == "plan" then Some(PlanOnly) else None
  }

  function CallbacksFor(mode: Collaboration): Callbacks {
    Callbacks(true, true, true, mode.PlanOnly?, if mode.PlanOnly? then PlanMode else NoApproval)
  }

  /** The model loop with every callback posting an update; a failed post fails its callback. */
  function TicketLoop(sch: Schedule, user: int, cfg: Config, w: World, key: TicketKey, slug: string,
                      mode: Collaboration): (World, State, Outcome) {
    var accepts := (log: seq<Event>) => Replay(sch, user, w, key, slug, log).1;
    var start := Start(cfg.systemPrompt(mode), cfg.envelope(key), cfg.files);
    var (s, outcome) := RunLoop(cfg.env, CallbacksFor(mode), accepts, cfg.url, cfg.model, start, cfg.replies,
                                cfg.maxIter);
    (Replay(sch, user, w, key, slug, s.log).0, s, outcome)
  }

  // ---------------------------------------------------------------- specification of a run

  function Counted(sch: Schedule, user: int, w: World, key: TicketKey, slug: string, n: nat): (World, bool) {
    if n == 0 then (w, true) else
      var (w1, ok) := Counted(sch, user, w, key, slug, n - 1);
      if !ok then (w1, false) else Post(sch, user, w1, key, slug, "test-step:" + [('0' as int + n % 10) as char])
  }

  function Finish(sch: Schedule, user: int, w: World, key: TicketKey, slug: string, answer: string): (World, bool) {
    var (w1, ok) := Do(sch, user, w, Finalize(key));
    if !ok then (PostError(sch, user, w1, key, slug, ErrorOf(sch, w1)), false)
    else Do(sch, user, w1, Complete(key, answer))
  }

  function Work(sch: Schedule, user: int, cfg: Config, w: World, key: TicketKey, slug: string): (World, bool) {
    if cfg.testCounter then
      var (w1, ok) := Counted(sch, user, w, key, slug, 3);
      if !ok then (w1, false) else Finish(sch, user, w1, key, slug, "")
    else
      var (w1, ok) := Post(sch, user, w, key, slug, "agent: starting ticket processing");
      if !ok then (w1, false) else
        match ResolveCollaborationMode(cfg.rawCollabMode)
        case None => (w1, false)
        case Some(mode) =>
          var (w2, s, outcome) := TicketLoop(sch, user, cfg, w1, key, slug, mode);
          if !outcome.Final? then (PostError(sch, user, w2, key, slug, LoopError(sch, w2, outcome, cfg.maxIter)), false)
          else Finish(sch, user, w2, key, slug, outcome.answer)
  }

  function LoopError(sch: Schedule, w: World, outcome: Outcome, maxIter: int): string {
    if outcome.LimitReached?
    then "stopped after " + Radix.FormatInt(Iterations(maxIter)) + " round-trips (iteration limit)" else ErrorOf(sch, w)
  }

  function Process(sch: Schedule, user: int, cfg: Config, w: World, key: TicketKey): (World, bool) {
    var slug := sch(|w.trace|).slug;
    var (w1, acked) := Do(sch, user, w, Acknowledge(key));
    if !acked then (w1, false) else
      var (w2, found) := Do(sch, user, w1, GetRepository(key));
      if !found then (PostError(sch, user, w2, key, slug, ErrorOf(sch, w2)), false) else
        var (w3, prepared) := Do(sch, user, w2, Prepare(key));
        if !prepared then (PostError(sch, user, w3, key, slug, ErrorOf(sch, w3)), false)
        else Work(sch, user, cfg, w3, key, slug)
  }

  ghost function Run(sch: Schedule, user: int, cfg: Config, w: World): (World, bool) {
    if !cfg.ready then (w, false) else
      var (w1, listed) := Do(sch, user, w, List);
      if !listed then (w1, false) else
        match First(w1.db, user)
        case None => (w1, true)
        case Some(key) => Process(sch, user, cfg, w1, key)
  }

  // ---------------------------------------------------------------- the program

  method RunTestSteps(sch: Schedule, user: int, start: World, key: TicketKey, ackSlug: string)
      returns (w: World, ok: bool)
    ensures (w, ok) == Counted(sch, user, start, key, ackSlug, 3)
  {
    hide Do;
    w := start;
    for i := 1 to 4
      invariant (w, true) == Counted(sch, user, start, key, ackSlug, i - 1)
    {
      var posted := Do(sch, user, w, PostUpdate(key, ackSlug, "test-step:" + [('0' as int + i % 10) as char]));
      w, ok := posted.0, posted.1;
      if !ok {
        StepsStop(sch, user, start, key, ackSlug, i, 3);
        return w, false;
      }
    }
    return w, true;
  }

  lemma {:induction false} StepsStop(sch: Schedule, user: int, w: World, key: TicketKey, slug: string, i: nat, n: nat)
    requires i <= n && !Counted(sch, user, w, key, slug, i).1
    ensures Counted(sch, user, w, key, slug, n) == Counted(sch, user, w, key, slug, i)
    decreases n
  {
    hide Post;
    if i < n {
      StepsStop(sch, user, w, key, slug, i, n - 1);
    }
  }

  method ProcessTicket(sch: Schedule, user: int, cfg: Config, start: World, key: TicketKey) returns (w: World, ok: bool)
    ensures (w, ok) == Process(sch, user, cfg, start, key)
  {
    hide Do, TicketLoop, Counted, Finish, LoopError;
    var ackSlug := sch(|start.trace|).slug;
    var acked := Do(sch, user, start, Acknowledge(key));
    w, ok := acked.0, acked.1;
    if !ok {
      return;
    }
    var found := Do(sch, user, w, GetRepository(key));
    w, ok := found.0, found.1;
    if !ok {
      w := PostError(sch, user, w, key, ackSlug, ErrorOf(sch, w));
      return;
    }
    var prepared := Do(sch, user, w, Prepare(key));
    w, ok := prepared.0, prepared.1;
    if !ok {
      w := PostError(sch, user, w, key, ackSlug, ErrorOf(sch, w));
      return;
    }
    if cfg.testCounter {
      w, ok := RunTestSteps(sch, user, w, key, ackSlug);
      if !ok {
        return;
      }
      w, ok := FinishTicket(sch, user, w, key, ackSlug, "");
      return;
    }
    var posted := Do(sch, user, w, PostUpdate(key, ackSlug, "agent: starting ticket processing"));
    w, ok := posted.0, posted.1;
    if !ok {
      return;
    }
    w, ok := WorkWithModel(sch, user, cfg, w, key, ackSlug);
  }

  method WorkWithModel(sch: Schedule, user: int, cfg: Config, start: World, key: TicketKey, ackSlug: string)
    returns (w: World, ok: bool)
    ensures (w, ok) ==
            match ResolveCollaborationMode(cfg.rawCollabMode)
            case None => (start, false)
            case Some(mode) =>
              var (w2, s, outcome) := TicketLoop(sch, user, cfg, start, key, ackSlug, mode);
              if !outcome.Final? then (PostError(sch, user, w2, key, ackSlug,
                                                 LoopError(sch, w2, outcome, cfg.maxIter)), false)
              else Finish(sch, user, w2, key, ackSlug, outcome.answer)
  {
    hide Do, Finish, RunLoop, Replay, PostError;
    var mode := ResolveCollaborationMode(cfg.rawCollabMode);
    if mode.None? {
      return start, false;
    }
    var accepts := (log: seq<Event>) => Replay(sch, user, start, key, ackSlug, log).1;
    var opening := Start(cfg.systemPrompt(mode.value), cfg.envelope(key), cfg.files);
    var s, outcome := RunLMStudioTicketLoop(cfg.env, CallbacksFor(mode.value), accepts, cfg.url, cfg.model, opening,
                                            cfg.replies, cfg.maxIter);
    w := Replay(sch, user, start, key, ackSlug, s.log).0;
    if !outcome.Final? {
      w := PostError(sch, user, w, key, ackSlug, LoopError(sch, w, outcome, cfg.maxIter));
      return w, false;
    }
    w, ok := FinishTicket(sch, user, w, key, ackSlug, outcome.answer);
  }

  method FinishTicket(sch: Schedule, user: int, start: World, key: TicketKey, ackSlug: string, answer: string)
    returns (w: World, ok: bool)
    ensures (w, ok) == Finish(sch, user, start, key, ackSlug, answer)
  {
    hide Do;
    var finalized := Do(sch, user, start, Finalize(key));
    w, ok := finalized.0, finalized.1;
    if !ok {
      w := PostError(sch, user, w, key, ackSlug, ErrorOf(sch, w));
      return;
    }
    var completed := Do(sch, user, w, Complete(key, answer));
    w, ok := completed.0, completed.1;
  }

  /** The first pending ticket, asked for with limit 1. */
  method AcquireNextTicket(sch: Schedule, user: int, start: World)
      returns (w: World, ticket: Option<TicketKey>, ok: bool)
    ensures (w, ok) == Do(sch, user, start, List)
    ensures ok ==> ticket == First(w.db, user)
  {
    var listed := Do(sch, user, start, List);
    w, ok := listed.0, listed.1;
    hide Do, IsListing;
    var tickets := ListAssignedTicketsForUser(w.db, user, NEXT);
    ListingOfOne(w.db, user, tickets);
    return w, if tickets == [] then None else Some(tickets[0]), ok;
  }

  method RunAgentOnce(sch: Schedule, user: int, cfg: Config, start: World) returns (w: World, ok: bool)
    ensures (w, ok) == Run(sch, user, cfg, start)
  {
    hide Do, Process;
    if !cfg.ready {
      return start, false;
    }
    var ticket;
    w, ticket, ok := AcquireNextTicket(sch, user, start);
    if !ok {
      return;
    }
    if ticket.None? {
      return w, true;
    }
    w, ok := ProcessTicket(sch, user, cfg, w, ticket.value);
  }
}
