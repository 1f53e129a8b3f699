/** What a run posts, step by step, and what the server stores of it (src/cmd/agent/run.go). */
module AgentAnswers {
  import opened AgentErrors
  import opened AgentLoop
  import opened AgentRun
  import opened AgentSafety
  import opened Text
  import opened TicketRuns
  import opened TicketTables
  import opened Wrappers
  import TicketContents

  /** The steps of a trace from entry `n` on. */
  function Steps(trace: seq<Entry>, n: nat): seq<Step>
    requires n <= |trace|
  {
    seq(|trace| - n, i requires 0 <= i < |trace| - n => trace[n + i].step)
  }

  /** One update per callback of the model loop, in order; requests to the model post nothing. */
  function Posts(key: TicketKey, slug: string, log: seq<Event>): seq<Step> {
    if log == [] then [] else
      Posts(key, slug, log[..|log| - 1])
      + if log[|log| - 1].Sent? then [] else [PostUpdate(key, slug, Posted(log[|log| - 1]))]
  }

  /** What each callback posts. */
  function Posted(e: Event): string {
    match e
    case Sent(_) => ""
    case CalledTool(call) => "tool_call: " + call.name + " args=" + Cut(Trim(call.arguments), 1200)
    case FinishedTool(call, result) => "tool_result: " + call.name + "\n" + Cut(Trim(result), 2000)
    case Assistant(text) => "assistant:\n" + Cut(Trim(text), 4000)
    case Proposed(plan) => "proposed_plan:\n" + Cut(Trim(plan), 4000)
  }

  function Cut(text: string, max: nat): string {
    if |text| <= max then text else text[..max] + "...(truncated)"
  }

  lemma ContentIsText(e: Event)
    ensures Content(e) == Posted(e)
  {
    hide Trim;
  }

  // ---------------------------------------------------------------- the steps of each stage

  lemma DoSteps(sch: Schedule, user: int, w: World, step: Step, n: nat)
    requires n <= |w.trace|
    ensures var w' := Do(sch, user, w, step).0;
            n <= |w'.trace| && Steps(w'.trace, n) == Steps(w.trace, n) + [step]
  {
    DoTrace(sch, user, w, step);
    hide Do;
  }

  lemma {:induction false} ReplaySteps(sch: Schedule, user: int, w: World, key: TicketKey, slug: string,
                                       log: seq<Event>, n: nat)
    requires n <= |w.trace|
    ensures var w' := Replay(sch, user, w, key, slug, log).0;
            n <= |w'.trace| && Steps(w'.trace, n) == Steps(w.trace, n) + Posts(key, slug, log)
    decreases |log|
  {
    hide Do, Steps, Content, Posted;
    if log == [] {
      assert Steps(w.trace, n) + [] == Steps(w.trace, n);
    } else {
      var init, e := log[..|log| - 1], log[|log| - 1];
      ReplaySteps(sch, user, w, key, slug, init, n);
      var w1 := Replay(sch, user, w, key, slug, init).0;
      if e.Sent? {
        assert Posts(key, slug, init) + [] == Posts(key, slug, init);
      } else {
        ContentIsText(e);
        DoSteps(sch, user, w1, PostUpdate(key, slug, Content(e)), n);
      }
    }
  }

  /** The trace from `n` on is `steps`, a finalize and the completion with the answer, which was applied and
      is the last thing done. */
  ghost predicate Completes(sch: Schedule, user: int, w: World, key: TicketKey, answer: string, steps: seq<Step>,
                            n: nat) {
    && n < |w.trace| && Steps(w.trace, n) == steps + [Finalize(key), Complete(key, answer)]
    && w.trace[|w.trace| - 1].ok && w.trace[|w.trace| - 1].applied
    && exists before :: w == Do(sch, user, before, Complete(key, answer)).0
  }

  lemma FinishSteps(sch: Schedule, user: int, w: World, key: TicketKey, slug: string, answer: string, n: nat)
    requires n <= |w.trace| && Finish(sch, user, w, key, slug, answer).1
    ensures Completes(sch, user, Finish(sch, user, w, key, slug, answer).0, key, answer, Steps(w.trace, n), n)
  {
    hide Do, Steps, PostError;
    var w1 := Do(sch, user, w, Finalize(key)).0;
    DoSteps(sch, user, w, Finalize(key), n);
    DoSteps(sch, user, w1, Complete(key, answer), n);
    DoTrace(sch, user, w, Finalize(key));
    DoTrace(sch, user, w1, Complete(key, answer));
    CompleteApplied(sch, user, w1, key, answer);
  }

  lemma CompleteApplied(sch: Schedule, user: int, w: World, key: TicketKey, answer: string)
    ensures var (w', ok) := Do(sch, user, w, Complete(key, answer));
            |w'.trace| == |w.trace| + 1 && (ok ==> w'.trace[|w.trace|].applied)
  {
    hide Exec, Apply, After;
  }

  lemma {:induction false} CountedSteps(sch: Schedule, user: int, w: World, key: TicketKey, slug: string, n: nat)
    requires n <= |w.trace| && Counted(sch, user, w, key, slug, 3).1
    ensures var w' := Counted(sch, user, w, key, slug, 3).0;
            n <= |w'.trace| && Steps(w'.trace, n) == Steps(w.trace, n) + [PostUpdate(key, slug, "test-step:1"),
              PostUpdate(key, slug, "test-step:2"), PostUpdate(key, slug, "test-step:3")]
  {
    hide Do, Steps;
    var w1 := Counted(sch, user, w, key, slug, 1).0;
    var w2 := Counted(sch, user, w, key, slug, 2).0;
    assert "test-step:" + ['1'] == "test-step:1" && "test-step:" + ['2'] == "test-step:2";
    assert "test-step:" + ['3'] == "test-step:3";
    assert Counted(sch, user, w, key, slug, 0) == (w, true);
    DoSteps(sch, user, w, PostUpdate(key, slug, "test-step:1"), n);
    DoSteps(sch, user, w1, PostUpdate(key, slug, "test-step:2"), n);
    DoSteps(sch, user, w2, PostUpdate(key, slug, "test-step:3"), n);
  }

  // ---------------------------------------------------------------- a successful run

  /** The acknowledged ticket with its repository found and its workspace prepared. */
  function Prepared(sch: Schedule, user: int, w: World, key: TicketKey): World {
    var w1 := Do(sch, user, w, Acknowledge(key)).0;
    Do(sch, user, Do(sch, user, w1, GetRepository(key)).0, Prepare(key)).0
  }

  /** The model loop on a prepared ticket: what it did and how it ended. */
  function LoopOn(sch: Schedule, user: int, cfg: Config, w: World, key: TicketKey, slug: string, mode: Collaboration)
    : (State, Outcome)
  {
    var r := TicketLoop(sch, user, cfg, Post(sch, user, w, key, slug, STARTING).0, key, slug, mode);
    (r.1, r.2)
  }

  /** The loop of a run speaks to the model as any loop does: it opens with the run's prompt and the
      ticket's envelope, under the callbacks of its mode. */
  lemma RunTranscript(sch: Schedule, user: int, cfg: Config, w: World, key: TicketKey, slug: string,
                      mode: Collaboration)
    ensures var (s, outcome) := LoopOn(sch, user, cfg, w, key, slug, mode);
            var opening := [Message("system", cfg.systemPrompt(mode), [], ""),
                            Message("user", cfg.envelope(key), [], "")];
            AgentTranscript.Ended(
              AgentTranscript.Origin(cfg.env, CallbacksFor(mode), opening, cfg.files),
              AgentTranscript.Leading(cfg.replies), AgentTranscript.After(cfg.replies), s, outcome,
              if cfg.maxIter <= 0 then 3 else cfg.maxIter)
  {
    hide AgentTranscript.Ended, AgentTranscript.Leading, AgentTranscript.After, RunLoop, Replay, Post, Start;
    var w4 := Post(sch, user, w, key, slug, STARTING).0;
    AgentTranscript.TranscriptShape(
      cfg.env, CallbacksFor(mode), (log: seq<Event>) => Replay(sch, user, w4, key, slug, log).1, cfg.url, cfg.model,
      cfg.systemPrompt(mode), cfg.envelope(key), cfg.files, cfg.replies, cfg.maxIter);
  }

  /** What a run posts on a prepared ticket. */
  function Progress(sch: Schedule, user: int, cfg: Config, w: World, key: TicketKey, slug: string): seq<Step> {
    if cfg.testCounter then
      [PostUpdate(key, slug, "test-step:1"), PostUpdate(key, slug, "test-step:2"), PostUpdate(key, slug, "test-step:3")]
    else
      match ResolveCollaborationMode(cfg.rawCollabMode)
      case None => [PostUpdate(key, slug, STARTING)]
      case Some(mode) =>
        [PostUpdate(key, slug, STARTING)] + Posts(key, slug, LoopOn(sch, user, cfg, w, key, slug, mode).0.log)
  }

  /** The answer that a successful run reports: none in test mode, else the model loop's. */
  predicate Reports(sch: Schedule, user: int, cfg: Config, w: World, key: TicketKey, slug: string, answer: string) {
    if cfg.testCounter then answer == ""
    else
      && ResolveCollaborationMode(cfg.rawCollabMode).Some?
      && LoopOn(sch, user, cfg, w, key, slug, ResolveCollaborationMode(cfg.rawCollabMode).value).1 == Final(answer)
  }

  lemma CounterSteps(sch: Schedule, user: int, cfg: Config, w: World, key: TicketKey, slug: string, n: nat)
    requires cfg.testCounter && n <= |w.trace| && Work(sch, user, cfg, w, key, slug).1
    ensures Completes(sch, user, Work(sch, user, cfg, w, key, slug).0, key, "",
                      Steps(w.trace, n) + Progress(sch, user, cfg, w, key, slug), n)
  {
    hide Do, Steps, Counted, Finish, TicketLoop, Posts, Completes, Post;
    CountedSteps(sch, user, w, key, slug, n);
    FinishSteps(sch, user, Counted(sch, user, w, key, slug, 3).0, key, slug, "", n);
  }

  lemma ModelSteps(sch: Schedule, user: int, cfg: Config, w: World, key: TicketKey, slug: string, n: nat)
    returns (answer: string)
    requires !cfg.testCounter && n <= |w.trace| && Work(sch, user, cfg, w, key, slug).1
    ensures Reports(sch, user, cfg, w, key, slug, answer)
    ensures Completes(sch, user, Work(sch, user, cfg, w, key, slug).0, key, answer,
                      Steps(w.trace, n) + Progress(sch, user, cfg, w, key, slug), n)
  {
    hide Do, Steps, Counted, Finish, Replay, RunLoop, Posts, PostError, Completes;
    DoSteps(sch, user, w, PostUpdate(key, slug, STARTING), n);
    var w4 := Post(sch, user, w, key, slug, STARTING).0;
    var mode := ResolveCollaborationMode(cfg.rawCollabMode).value;
    var (w5, s, outcome) := TicketLoop(sch, user, cfg, w4, key, slug, mode);
    ReplaySteps(sch, user, w4, key, slug, s.log, n);
    hide TicketLoop, Post;
    answer := outcome.answer;
    FinishSteps(sch, user, w5, key, slug, answer, n);
    Regroup(Steps(w.trace, n), PostUpdate(key, slug, STARTING), Posts(key, slug, s.log));
  }

  lemma Regroup(a: seq<Step>, step: Step, b: seq<Step>)
    ensures a + [step] + b == a + ([step] + b)
  {
  }

  /** A successful run acknowledges, finds the repository, prepares the workspace, posts its progress,
      finalizes, and completes the ticket with its answer; nothing else, and the completion was applied. */
  lemma SuccessfulRun(sch: Schedule, user: int, cfg: Config, w: World, key: TicketKey) returns (answer: string)
    requires Process(sch, user, cfg, w, key).1
    ensures var w3, slug := Prepared(sch, user, w, key), sch(|w.trace|).slug;
            && Reports(sch, user, cfg, w3, key, slug, answer)
            && Completes(sch, user, Process(sch, user, cfg, w, key).0, key, answer,
                         [Acknowledge(key), GetRepository(key), Prepare(key)]
                         + Progress(sch, user, cfg, w3, key, slug), |w.trace|)
  {
    hide Do, Steps, Work, PostError, Progress, Completes, Reports;
    var n, slug := |w.trace|, sch(|w.trace|).slug;
    var w1 := Do(sch, user, w, Acknowledge(key)).0;
    var w2 := Do(sch, user, w1, GetRepository(key)).0;
    var w3 := Prepared(sch, user, w, key);
    NoSteps(w.trace);
    DoSteps(sch, user, w, Acknowledge(key), n);
    DoSteps(sch, user, w1, GetRepository(key), n);
    DoSteps(sch, user, w2, Prepare(key), n);
    assert [] + [Acknowledge(key)] + [GetRepository(key)] + [Prepare(key)]
        == [Acknowledge(key), GetRepository(key), Prepare(key)];
    if cfg.testCounter {
      answer := "";
      CounterSteps(sch, user, cfg, w3, key, slug, n);
      CounterReports(sch, user, cfg, w3, key, slug);
    } else {
      answer := ModelSteps(sch, user, cfg, w3, key, slug, n);
    }
  }

  /** A whole run: nothing without settings; else it lists first, fails when that fails, succeeds with nothing
      more to do when no ticket is pending, and processes the first pending ticket otherwise. */
  lemma RunExact(sch: Schedule, user: int, cfg: Config, w: World)
    ensures var (w', ok) := Run(sch, user, cfg, w);
            var (w1, listed) := Do(sch, user, w, List);
            var first := AgentQueue.First(w1.db, user);
            && Steps(w1.trace, |w.trace|) == [List] && w1.db == Exec(w.db, sch(|w.trace|).others)
            && (!cfg.ready ==> w' == w && !ok)
            && (cfg.ready && !listed ==> w' == w1 && !ok)
            && (cfg.ready && listed && first == None ==> w' == w1 && ok)
            && (cfg.ready && listed && first.Some? ==> (w', ok) == Process(sch, user, cfg, w1, first.value))
  {
    NoSteps(w.trace);
    DoSteps(sch, user, w, List, |w.trace|);
    assert [] + [Step.List] == [Step.List];
    hide Process, Steps, Exec;
  }

  lemma NoSteps(trace: seq<Entry>)
    ensures Steps(trace, |trace|) == []
  {
  }

  lemma CounterReports(sch: Schedule, user: int, cfg: Config, w: World, key: TicketKey, slug: string)
    requires cfg.testCounter
    ensures Reports(sch, user, cfg, w, key, slug, "")
  {
  }

  // ---------------------------------------------------------------- what the server stores

  /** The stored completion. */
  function CompletionLine(clock: string, answer: string): string {
    if Trim(answer) == "" then "Agent completed ticket at " + clock + "."
    else "Agent completed ticket at " + clock + "." + "\n\n" + Trim(answer)
  }

  lemma CompletionTrimmed(clock: string, answer: string)
    ensures CompletionMessage(clock, answer) == CompletionLine(clock, answer)
    ensures Trim(CompletionLine(clock, answer)) == CompletionLine(clock, answer)
  {
    var first := "Agent completed ticket at " + clock + ".";
    var line := CompletionLine(clock, answer);
    assert first[0] == 'A' && first[|first| - 1] == '.';
    if Trim(answer) == "" {
      assert first + "" == first;
    } else {
      TrimTrimmed(answer);
      assert line == first + ("\n\n" + Trim(answer));
      assert line[0] == 'A' && line[|line| - 1] == Trim(answer)[|Trim(answer)| - 1];
    }
    hide Trim;
    TrimWord(line);
  }

  /** A stored comment of the agent: its note, author and place. */
  ghost predicate StoredComment(t: Tables, key: TicketKey, user: int, slug: string, text: string, kind: string,
                                published: string) {
    exists pk :: pk in t.comments && pk in t.notes
      && t.comments[pk].slug == slug && t.comments[pk].ticket == key && t.comments[pk].author == user
      && Objects.Content in t.notes[pk] && t.notes[pk][Objects.Content] == Objects.Str(text)
      && Objects.AgentCommentKind in t.notes[pk] && t.notes[pk][Objects.AgentCommentKind] == Objects.Str(kind)
      && Objects.Published in t.notes[pk] && t.notes[pk][Objects.Published] == Objects.Str(published)
  }

  lemma CommentBecomesStored(t: Tables, op: Op, now: Time, key: TicketKey, text: string, kind: string)
    requires op.CreateComment? && Apply(t, op, now).Ok? && AgentQueue.TrimmedKey(key)
    requires op.trackerSlug == key.0 && op.ticketSlug == key.1 && op.inReplyTo == ""
    requires Trim(op.content) == text && Trim(op.kind) == kind && kind != ""
    ensures StoredComment(After(t, op, now), key, op.user, op.slug, text, kind, op.published)
  {
    TicketContents.CommentStored(t, op, now);
    TicketContents.RowStored(t, op, now);
    TicketContents.NoteStored(t, op, now);
    hide Trim, Apply, NullString;
    var pk := t.tickets[key].actorId + "/comment/" + op.slug;
    assert pk in After(t, op, now).notes;
  }

  /** An applied step is its operation, on the server as others left it. */
  lemma AppliedStep(sch: Schedule, user: int, w: World, step: Step)
    ensures var w', d := Do(sch, user, w, step).0, sch(|w.trace|);
            && |w'.trace| == |w.trace| + 1
            && (w'.trace[|w.trace|].applied <==>
                  && OpOf(user, step, d).Some? && !d.fate.LostBefore?
                  && Apply(Exec(w.db, d.others), OpOf(user, step, d).value, d.now).Ok?)
            && (w'.trace[|w.trace|].applied ==> w'.db == After(Exec(w.db, d.others), OpOf(user, step, d).value, d.now))
            && (!w'.trace[|w.trace|].applied ==> w'.db == Exec(w.db, d.others))
            && (Do(sch, user, w, step).1 <==>
                  d.fate.Done? && (OpOf(user, step, d).None? || w'.trace[|w.trace|].applied))
  {
    hide Exec, Apply, OpOf;
  }

  /** An applied acknowledgement is stored with its line and kind, at the time and slug drawn. */
  lemma AcknowledgementStored(sch: Schedule, user: int, w: World, key: TicketKey)
    requires AgentQueue.TrimmedKey(key)
    ensures var w', d := Do(sch, user, w, Acknowledge(key)).0, sch(|w.trace|);
            && |w'.trace| == |w.trace| + 1
            && (w'.trace[|w.trace|].applied ==>
                  StoredComment(w'.db, key, user, d.slug, "Agent acknowledged ticket at " + d.clock + ".", "ack",
                                d.published))
  {
    var w', d := Do(sch, user, w, Acknowledge(key)).0, sch(|w.trace|);
    AppliedStep(sch, user, w, Acknowledge(key));
    var line := "Agent acknowledged ticket at " + d.clock + ".";
    assert line[0] == 'A' && line[|line| - 1] == '.';
    TrimWord(line);
    TrimWord("ack");
    hide Trim, Do, Apply, After, Exec, StoredComment;
    if w'.trace[|w.trace|].applied {
      CommentBecomesStored(Exec(w.db, d.others), OpOf(user, Acknowledge(key), d).value, d.now, key, line, "ack");
    }
  }

  /** An applied completion is stored with its line, a blank line and the answer, or the line alone when the
      answer is blank. */
  lemma CompletionStored(sch: Schedule, user: int, w: World, key: TicketKey, answer: string)
    requires AgentQueue.TrimmedKey(key)
    ensures var w', d := Do(sch, user, w, Complete(key, answer)).0, sch(|w.trace|);
            && |w'.trace| == |w.trace| + 1
            && (w'.trace[|w.trace|].applied ==>
                  StoredComment(w'.db, key, user, d.slug, CompletionLine(d.clock, answer), "completion", d.published))
  {
    var w', d := Do(sch, user, w, Complete(key, answer)).0, sch(|w.trace|);
    AppliedStep(sch, user, w, Complete(key, answer));
    CompletionTrimmed(d.clock, answer);
    TrimWord("completion");
    hide Trim, Do, Apply, After, Exec, StoredComment, CompletionMessage, CompletionLine;
    if w'.trace[|w.trace|].applied {
      CommentBecomesStored(Exec(w.db, d.others), OpOf(user, Complete(key, answer), d).value, d.now, key,
                           CompletionLine(d.clock, answer), "completion");
    }
  }

  /** So after a successful run the completion comment holds the run's answer. */
  lemma AnswerStored(sch: Schedule, user: int, cfg: Config, w: World, key: TicketKey) returns (answer: string)
    requires Process(sch, user, cfg, w, key).1 && AgentQueue.TrimmedKey(key)
    ensures Reports(sch, user, cfg, Prepared(sch, user, w, key), key, sch(|w.trace|).slug, answer)
    ensures var w' := Process(sch, user, cfg, w, key).0;
            && w'.trace != []
            && var d := sch(|w'.trace| - 1);
               StoredComment(w'.db, key, user, d.slug, CompletionLine(d.clock, answer), "completion", d.published)
  {
    hide *;
    answer := SuccessfulRun(sch, user, cfg, w, key);
    var progress := Progress(sch, user, cfg, Prepared(sch, user, w, key), key, sch(|w.trace|).slug);
    LastStored(sch, user, Process(sch, user, cfg, w, key).0, key, answer,
               [Acknowledge(key), GetRepository(key), Prepare(key)] + progress, |w.trace|);
  }

  lemma LastStored(sch: Schedule, user: int, w: World, key: TicketKey, answer: string, steps: seq<Step>, n: nat)
    requires Completes(sch, user, w, key, answer, steps, n) && AgentQueue.TrimmedKey(key)
    ensures w.trace != []
    ensures var d := sch(|w.trace| - 1);
            StoredComment(w.db, key, user, d.slug, CompletionLine(d.clock, answer), "completion", d.published)
  {
    hide Do, StoredComment, CompletionLine, Steps, AgentQueue.TrimmedKey;
    var before :| w == Do(sch, user, before, Complete(key, answer)).0;
    CompletionStored(sch, user, before, key, answer);
  }

  /** An applied update appends its trimmed text to the note of the comment it names, under that note's old
      text. */
  lemma UpdateAppended(sch: Schedule, user: int, w: World, key: TicketKey, slug: string, content: string,
                       earlier: string)
    ensures var w', d := Do(sch, user, w, PostUpdate(key, slug, content)).0, sch(|w.trace|);
            var t := Exec(w.db, d.others);
            && |w'.trace| == |w.trace| + 1
            && (w'.trace[|w.trace|].applied ==>
                  exists pk :: pk in t.notes && pk in w'.db.notes
                    && TicketContents.NamesComment(t,
                                                   UpdateComment(user, key.0, key.1, slug, Trim(content), d.updateId,
                                                                 d.published), pk)
                    && w'.db.notes == t.notes[pk := w'.db.notes[pk]]
                    && (TicketContents.Holds(t.notes[pk], Objects.Content, earlier) ==>
                          TicketContents.Extended(t.notes[pk], w'.db.notes[pk], earlier, Trim(content), d.published)))
  {
    var w', d := Do(sch, user, w, PostUpdate(key, slug, content)).0, sch(|w.trace|);
    AppliedStep(sch, user, w, PostUpdate(key, slug, content));
    TrimIdempotent(content);
    var t := Exec(w.db, d.others);
    var op := UpdateComment(user, key.0, key.1, slug, Trim(content), d.updateId, d.published);
    hide Trim, Do, Apply, After, Exec, TicketContents.NamesComment, TicketContents.Extended, TicketContents.Holds;
    if w'.trace[|w.trace|].applied {
      TicketContents.CommentUpdateAccepted(t, op, d.now);
      var pk :| TicketContents.NamesComment(t, op, pk) && TicketContents.HasAccess(t, t.comments[pk].repository, user)
                && user in t.actors && Trim(t.actors[user]) != "";
      TicketContents.CommentUpdateStored(t, op, d.now, pk);
    }
  }

  // ---------------------------------------------------------------- modes

  /** The three spellings of the collaboration mode, and what they mean for the loop. */
  lemma ModesExact(raw: string)
    ensures ResolveCollaborationMode(raw) ==
              if raw == "plan" then Some(PlanOnly) else if raw in {"", "default"} then Some(DefaultMode) else None
    ensures CallbacksFor(PlanOnly) == Callbacks(true, true, true, true, PlanMode)
    ensures CallbacksFor(DefaultMode) == Callbacks(true, true, true, false, NoApproval)
  {
    assert "plan" != "" && "plan" != "default" by { assert |"plan"| == 4 && |"default"| == 7; }
  }
}
