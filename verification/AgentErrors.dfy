/** Which failures of a run post an error update, and which do not (src/cmd/agent/run.go). */
module AgentErrors {
  import opened AgentRun
  import opened AgentSafety
  import opened Radix
  import opened Text
  import opened TicketTables
  import opened Wrappers

  const ERROR := "agent_error: "
  const STARTING := "agent: starting ticket processing"

  predicate IsErrorUpdate(e: Entry) {
    e.step.PostUpdate? && HasPrefix(e.step.content, ERROR)
  }

  /** The run's last step is an attempt to post its error. */
  predicate ErrorPosted(trace: seq<Entry>) {
    trace != [] && IsErrorUpdate(trace[|trace| - 1])
  }

  // ---------------------------------------------------------------- failures, as a trace shows them

  /** From entry `n` on, the repository was found and the workspace prepared. */
  predicate Ready(trace: seq<Entry>, n: nat) {
    n + 1 < |trace| && trace[n].ok && trace[n + 1].ok
  }

  /** The repository or the workspace failed. */
  predicate SetUpFailed(trace: seq<Entry>, n: nat) {
    n < |trace| && (!trace[n].ok || (n + 1 < |trace| && !trace[n + 1].ok))
  }

  function ProgressPosts(cfg: Config): nat {
    if cfg.testCounter then 3 else 1
  }

  /** One of the three counted posts, or the post that announces the work, failed. */
  predicate ProgressFailed(cfg: Config, trace: seq<Entry>, n: nat) {
    Ready(trace, n) && exists i | n + 2 <= i < n + 2 + ProgressPosts(cfg) && i < |trace| :: !trace[i].ok
  }

  /** The work was announced, but its collaboration mode is unknown. */
  predicate ModeUnknown(cfg: Config, trace: seq<Entry>, n: nat) {
    Ready(trace, n) && !cfg.testCounter && n + 2 < |trace| && trace[n + 2].ok
    && ResolveCollaborationMode(cfg.rawCollabMode).None?
  }

  predicate CompletionFailed(trace: seq<Entry>) {
    trace != [] && trace[|trace| - 1].step.Complete? && !trace[|trace| - 1].ok
  }

  predicate FinalizeFailed(trace: seq<Entry>) {
    |trace| >= 2 && trace[|trace| - 2].step.Finalize? && !trace[|trace| - 2].ok
  }

  /** The world in which the model loop starts, if it does. */
  function LoopStart(sch: Schedule, user: int, w: World, key: TicketKey): World {
    var w1 := Do(sch, user, w, Acknowledge(key)).0;
    var w3 := Do(sch, user, Do(sch, user, w1, GetRepository(key)).0, Prepare(key)).0;
    Post(sch, user, w3, key, sch(|w.trace|).slug, STARTING).0
  }

  /** The model loop was entered and gave no answer. */
  predicate LoopFailed(sch: Schedule, user: int, cfg: Config, w: World, key: TicketKey, trace: seq<Entry>) {
    var n, mode := |w.trace| + 1, ResolveCollaborationMode(cfg.rawCollabMode);
    && Ready(trace, n) && !cfg.testCounter && n + 2 < |trace| && trace[n + 2].ok && mode.Some?
    && !TicketLoop(sch, user, cfg, LoopStart(sch, user, w, key), key, sch(|w.trace|).slug, mode.value).2.Final?
  }

  // ---------------------------------------------------------------- how each stage ends

  lemma PostErrorTrace(sch: Schedule, user: int, w: World, key: TicketKey, slug: string, error: string)
    ensures var trace := PostError(sch, user, w, key, slug, error).trace;
            w.trace <= trace && |trace| == |w.trace| + 1 && ErrorPosted(trace)
  {
    hide Do, ErrorUpdate, HasPrefix;
    ErrorUpdateMarked(error);
    DoTrace(sch, user, w, PostUpdate(key, slug, ErrorUpdate(error)));
  }

  lemma ErrorUpdateMarked(error: string)
    ensures HasPrefix(ErrorUpdate(error), ERROR)
  {
  }

  /** How a finished or unfinished closing shows in the trace. */
  lemma FinishTrace(sch: Schedule, user: int, w: World, key: TicketKey, slug: string, answer: string)
    ensures var (w', ok) := Finish(sch, user, w, key, slug, answer);
            && w.trace <= w'.trace && |w'.trace| == |w.trace| + 2
            && (!ok ==> FinalizeFailed(w'.trace) == ErrorPosted(w'.trace) == !CompletionFailed(w'.trace))
  {
    hide Do, PostError, ErrorPosted;
    var w1 := Do(sch, user, w, Finalize(key)).0;
    DoTrace(sch, user, w, Finalize(key));
    PostErrorTrace(sch, user, w1, key, slug, ErrorOf(sch, w1));
    DoTrace(sch, user, w1, Complete(key, answer));
    ErrorIsNoCompletion(PostError(sch, user, w1, key, slug, ErrorOf(sch, w1)).trace);
    CompleteIsNoUpdate(Do(sch, user, w1, Complete(key, answer)).0.trace);
  }

  lemma CompleteIsNoUpdate(trace: seq<Entry>)
    ensures trace != [] && trace[|trace| - 1].step.Complete? ==> !ErrorPosted(trace)
  {
  }

  /** The counted posts stop at the first failure. */
  lemma {:induction false} CountedTrace(sch: Schedule, user: int, w: World, key: TicketKey, slug: string, n: nat)
    ensures var (w', ok) := Counted(sch, user, w, key, slug, n);
            && w.trace <= w'.trace && |w'.trace| <= |w.trace| + n
            && (forall i :: |w.trace| <= i < |w'.trace| - 1 ==> w'.trace[i].ok)
            && (ok ==> |w'.trace| == |w.trace| + n && forall i :: |w.trace| <= i < |w'.trace| ==> w'.trace[i].ok)
            && (!ok ==> |w'.trace| > |w.trace| && !w'.trace[|w'.trace| - 1].ok && !ErrorPosted(w'.trace))
  {
    hide Do;
    if n != 0 {
      CountedTrace(sch, user, w, key, slug, n - 1);
      var w1 := Counted(sch, user, w, key, slug, n - 1).0;
      var content := "test-step:" + [('0' as int + n % 10) as char];
      DoTrace(sch, user, w1, PostUpdate(key, slug, content));
      assert content[0] == 't' && ERROR[0] == 'a';
    }
  }

  lemma StartingIsNoError(e: Entry)
    requires e.step.PostUpdate? && e.step.content == STARTING
    ensures !IsErrorUpdate(e)
  {
    assert STARTING[5] == ':' && ERROR[5] == '_';
  }

  /** What `Work` adds to a trace that is ready at `n`. */
  ghost predicate WorkShows(sch: Schedule, user: int, cfg: Config, w: World, key: TicketKey, slug: string, n: nat,
                            trace: seq<Entry>) {
    var mode := ResolveCollaborationMode(cfg.rawCollabMode);
    var failed := ProgressFailed(cfg, trace, n) || ModeUnknown(cfg, trace, n) || CompletionFailed(trace);
    var started := !cfg.testCounter && n + 2 < |trace| && trace[n + 2].ok && mode.Some?;
    && w.trace <= trace
    && ErrorPosted(trace) == !failed
    && ErrorPosted(trace) ==
       (|| FinalizeFailed(trace)
        || (started && !TicketLoop(sch, user, cfg, Post(sch, user, w, key, slug, STARTING).0, key, slug,
                                   mode.value).2.Final?))
  }

  lemma CounterShows(sch: Schedule, user: int, cfg: Config, w: World, key: TicketKey, slug: string, n: nat)
    requires cfg.testCounter && |w.trace| == n + 2 && Ready(w.trace, n) && !Work(sch, user, cfg, w, key, slug).1
    ensures WorkShows(sch, user, cfg, w, key, slug, n, Work(sch, user, cfg, w, key, slug).0.trace)
  {
    hide Counted, Finish, TicketLoop, Post, IsErrorUpdate, ErrorPosted;
    var (w1, ok) := Counted(sch, user, w, key, slug, 3);
    CountedTrace(sch, user, w, key, slug, 3);
    if ok {
      FinishTrace(sch, user, w1, key, slug, "");
    } else {
      assert Ready(w1.trace, n) && w1.trace[|w1.trace| - 2].ok;
      assert ProgressFailed(cfg, w1.trace, n) by { assert !w1.trace[|w1.trace| - 1].ok; }
    }
  }

  lemma ModelShows(sch: Schedule, user: int, cfg: Config, w: World, key: TicketKey, slug: string, n: nat)
    requires !cfg.testCounter && |w.trace| == n + 2 && Ready(w.trace, n) && !Work(sch, user, cfg, w, key, slug).1
    ensures WorkShows(sch, user, cfg, w, key, slug, n, Work(sch, user, cfg, w, key, slug).0.trace)
  {
    hide Do, Finish, IsErrorUpdate, ErrorPosted, PostError, TicketLoop, Working;
    var w1 := Post(sch, user, w, key, slug, STARTING).0;
    var mode := ResolveCollaborationMode(cfg.rawCollabMode);
    DoTrace(sch, user, w, PostUpdate(key, slug, STARTING));
    StartingIsNoError(w1.trace[n + 2]);
    StartingIsLast(w1.trace);
    if Post(sch, user, w, key, slug, STARTING).1 && mode.Some? {
      WorkingNow(sch, user, w1, key, slug);
      LoopWorking(sch, user, cfg, w1, w1, key, slug, mode.value);
      var (w2, s, outcome) := TicketLoop(sch, user, cfg, w1, key, slug, mode.value);
      WorkingTrace(sch, user, w1, w2, key, slug);
      hide Post, ResolveCollaborationMode;
      if outcome.Final? {
        FinishTrace(sch, user, w2, key, slug, outcome.answer);
      } else {
        PostErrorTrace(sch, user, w2, key, slug, LoopError(sch, w2, outcome, cfg.maxIter));
        ErrorIsNoCompletion(PostError(sch, user, w2, key, slug, LoopError(sch, w2, outcome, cfg.maxIter)).trace);
      }
    }
  }

  lemma StartingIsLast(trace: seq<Entry>)
    requires trace != [] && !IsErrorUpdate(trace[|trace| - 1])
    ensures !ErrorPosted(trace)
  {
  }

  // ---------------------------------------------------------------- the exact rule

  /** An acknowledged run that fails attempts an error update, as its last step, exactly when the
      repository, the workspace, the model loop or the finalize failed. It attempts none exactly when a
      progress post failed, the collaboration mode is unknown, or the completion failed. */
  lemma ErrorUpdateExact(sch: Schedule, user: int, cfg: Config, w: World, key: TicketKey)
    requires Do(sch, user, w, Acknowledge(key)).1 && !Process(sch, user, cfg, w, key).1
    ensures var n, trace := |w.trace| + 1, Process(sch, user, cfg, w, key).0.trace;
            && (ErrorPosted(trace) <==>
                  || SetUpFailed(trace, n) || FinalizeFailed(trace) || LoopFailed(sch, user, cfg, w, key, trace))
            && (!ErrorPosted(trace) <==>
                  || ProgressFailed(cfg, trace, n) || ModeUnknown(cfg, trace, n) || CompletionFailed(trace))
  {
    hide Do, Work, ErrorPosted, PostError, Post, ResolveCollaborationMode, TicketLoop;
    var slug := sch(|w.trace|).slug;
    var w1 := Do(sch, user, w, Acknowledge(key)).0;
    var w2 := Do(sch, user, w1, GetRepository(key)).0;
    var w3 := Do(sch, user, w2, Prepare(key)).0;
    DoTrace(sch, user, w, Acknowledge(key));
    DoTrace(sch, user, w1, GetRepository(key));
    DoTrace(sch, user, w2, Prepare(key));
    PostErrorTrace(sch, user, w2, key, slug, ErrorOf(sch, w2));
    PostErrorTrace(sch, user, w3, key, slug, ErrorOf(sch, w3));
    ErrorIsNoCompletion(PostError(sch, user, w2, key, slug, ErrorOf(sch, w2)).trace);
    ErrorIsNoCompletion(PostError(sch, user, w3, key, slug, ErrorOf(sch, w3)).trace);
    if Do(sch, user, w1, GetRepository(key)).1 && Do(sch, user, w2, Prepare(key)).1 {
      if cfg.testCounter {
        CounterShows(sch, user, cfg, w3, key, slug, |w1.trace|);
      } else {
        ModelShows(sch, user, cfg, w3, key, slug, |w1.trace|);
      }
    }
  }

  /** What an error update says, and where: the error of the step before it, or that the limit was reached,
      under the run's acknowledgement. */
  ghost predicate ErrorSaid(sch: Schedule, cfg: Config, key: TicketKey, slug: string, limited: bool,
                            trace: seq<Entry>) {
    && |trace| >= 2
    && trace[|trace| - 1].step
       == PostUpdate(key, slug, "agent_error: " + if limited then LimitError(cfg) else sch(|trace| - 2).error)
  }

  function LimitError(cfg: Config): string {
    "stopped after " + FormatInt(if cfg.maxIter <= 0 then 3 else cfg.maxIter) + " round-trips (iteration limit)"
  }

  lemma ErrorPostSays(sch: Schedule, user: int, cfg: Config, w: World, key: TicketKey, slug: string, limited: bool)
    requires w.trace != []
    ensures ErrorSaid(sch, cfg, key, slug, limited,
                      PostError(sch, user, w, key, slug,
                                if limited then LimitError(cfg) else ErrorOf(sch, w)).trace)
  {
    hide Do;
    DoTrace(sch, user, w,
            PostUpdate(key, slug, ErrorUpdate(if limited then LimitError(cfg) else ErrorOf(sch, w))));
  }

  /** The model loop of the run stopped at its limit. */
  predicate LoopLimited(sch: Schedule, user: int, cfg: Config, w: World, key: TicketKey) {
    var mode := ResolveCollaborationMode(cfg.rawCollabMode);
    && !cfg.testCounter && mode.Some?
    && TicketLoop(sch, user, cfg, LoopStart(sch, user, w, key), key, sch(|w.trace|).slug, mode.value).2.LimitReached?
  }

  lemma FinishSays(sch: Schedule, user: int, cfg: Config, w: World, key: TicketKey, slug: string, answer: string)
    ensures var (w', ok) := Finish(sch, user, w, key, slug, answer);
            !ok && ErrorPosted(w'.trace) ==> ErrorSaid(sch, cfg, key, slug, false, w'.trace)
  {
    hide Do, PostError, ErrorPosted;
    var w1 := Do(sch, user, w, Finalize(key)).0;
    DoTrace(sch, user, w, Finalize(key));
    ErrorPostSays(sch, user, cfg, w1, key, slug, false);
    DoTrace(sch, user, w1, Complete(key, answer));
    CompleteIsNoUpdate(Do(sch, user, w1, Complete(key, answer)).0.trace);
  }

  lemma CounterSays(sch: Schedule, user: int, cfg: Config, w: World, key: TicketKey, slug: string)
    requires cfg.testCounter && !Work(sch, user, cfg, w, key, slug).1
    ensures var trace := Work(sch, user, cfg, w, key, slug).0.trace;
            ErrorPosted(trace) ==> ErrorSaid(sch, cfg, key, slug, false, trace)
  {
    hide Counted, Finish, TicketLoop, Post, ErrorPosted;
    CountedTrace(sch, user, w, key, slug, 3);
    FinishSays(sch, user, cfg, Counted(sch, user, w, key, slug, 3).0, key, slug, "");
  }

  lemma ModelSays(sch: Schedule, user: int, cfg: Config, w: World, key: TicketKey, slug: string)
    requires !cfg.testCounter && !Work(sch, user, cfg, w, key, slug).1
    ensures var trace, mode := Work(sch, user, cfg, w, key, slug).0.trace, ResolveCollaborationMode(cfg.rawCollabMode);
            ErrorPosted(trace) ==>
              ErrorSaid(sch, cfg, key, slug,
                        mode.Some? && TicketLoop(sch, user, cfg, Post(sch, user, w, key, slug, STARTING).0, key, slug,
                                                 mode.value).2.LimitReached?, trace)
  {
    hide Do, Finish, ErrorPosted, PostError, TicketLoop, Working;
    var w1 := Post(sch, user, w, key, slug, STARTING).0;
    var mode := ResolveCollaborationMode(cfg.rawCollabMode);
    DoTrace(sch, user, w, PostUpdate(key, slug, STARTING));
    StartingIsNoError(w1.trace[|w.trace|]);
    StartingIsLast(w1.trace);
    if Post(sch, user, w, key, slug, STARTING).1 && mode.Some? {
      WorkingNow(sch, user, w1, key, slug);
      LoopWorking(sch, user, cfg, w1, w1, key, slug, mode.value);
      var (w2, s, outcome) := TicketLoop(sch, user, cfg, w1, key, slug, mode.value);
      WorkingTrace(sch, user, w1, w2, key, slug);
      hide Post, ResolveCollaborationMode;
      if outcome.Final? {
        FinishSays(sch, user, cfg, w2, key, slug, outcome.answer);
      } else {
        ErrorPostSays(sch, user, cfg, w2, key, slug, outcome.LimitReached?);
      }
    }
  }

  /** The update with which a run reports its failure holds the error of the step that failed. */
  lemma ErrorTextExact(sch: Schedule, user: int, cfg: Config, w: World, key: TicketKey)
    requires Do(sch, user, w, Acknowledge(key)).1 && !Process(sch, user, cfg, w, key).1
    requires ErrorPosted(Process(sch, user, cfg, w, key).0.trace)
    ensures var trace := Process(sch, user, cfg, w, key).0.trace;
            ErrorSaid(sch, cfg, key, sch(|w.trace|).slug,
                      Ready(trace, |w.trace| + 1) && LoopLimited(sch, user, cfg, w, key), trace)
  {
    hide Do, Work, ErrorPosted, PostError, Post, ResolveCollaborationMode, TicketLoop, ErrorSaid;
    var slug := sch(|w.trace|).slug;
    var w1 := Do(sch, user, w, Acknowledge(key)).0;
    var w2 := Do(sch, user, w1, GetRepository(key)).0;
    var w3 := Do(sch, user, w2, Prepare(key)).0;
    DoTrace(sch, user, w, Acknowledge(key));
    DoTrace(sch, user, w1, GetRepository(key));
    DoTrace(sch, user, w2, Prepare(key));
    PostErrorTrace(sch, user, w2, key, slug, ErrorOf(sch, w2));
    PostErrorTrace(sch, user, w3, key, slug, ErrorOf(sch, w3));
    ErrorPostSays(sch, user, cfg, w2, key, slug, false);
    ErrorPostSays(sch, user, cfg, w3, key, slug, false);
    if Do(sch, user, w1, GetRepository(key)).1 && Do(sch, user, w2, Prepare(key)).1 {
      if cfg.testCounter {
        CounterShows(sch, user, cfg, w3, key, slug, |w1.trace|);
        CounterSays(sch, user, cfg, w3, key, slug);
      } else {
        ModelShows(sch, user, cfg, w3, key, slug, |w1.trace|);
        ModelSays(sch, user, cfg, w3, key, slug);
      }
    }
  }

  lemma ErrorIsNoCompletion(trace: seq<Entry>)
    ensures ErrorPosted(trace) ==> !CompletionFailed(trace)
  {
  }

  /** With an unknown collaboration mode a prepared run fails and never posts its error. */
  lemma UnknownModeIsSilent(sch: Schedule, user: int, cfg: Config, w: World, key: TicketKey)
    requires !cfg.testCounter && cfg.rawCollabMode == "x" && Do(sch, user, w, Acknowledge(key)).1
    requires var w1 := Do(sch, user, w, Acknowledge(key)).0;
             var (w2, found) := Do(sch, user, w1, GetRepository(key));
             found && Do(sch, user, w2, Prepare(key)).1
    ensures !Process(sch, user, cfg, w, key).1 && !ErrorPosted(Process(sch, user, cfg, w, key).0.trace)
    ensures var w1 := Do(sch, user, w, Acknowledge(key)).0;
            var w3 := Do(sch, user, Do(sch, user, w1, GetRepository(key)).0, Prepare(key)).0;
            Process(sch, user, cfg, w, key).0 == Post(sch, user, w3, key, sch(|w.trace|).slug, STARTING).0
  {
    hide Do, PostError, IsErrorUpdate;
    var w1 := Do(sch, user, w, Acknowledge(key)).0;
    var w3 := Do(sch, user, Do(sch, user, w1, GetRepository(key)).0, Prepare(key)).0;
    var slug := sch(|w.trace|).slug;
    DoTrace(sch, user, w3, PostUpdate(key, slug, STARTING));
    var trace := Post(sch, user, w3, key, slug, STARTING).0.trace;
    StartingIsNoError(trace[|trace| - 1]);
    assert "x" != "default" && "x" != "plan";
  }

  // ---------------------------------------------------------------- a run in which it happens

  const KEY: TicketKey := ("k", "t")

  /** One tracker, one repository, one ticket, and an administrator to whom it is assigned. */
  function Sample(): Tables {
    var ticket := Ticket(1, "p", "repo", map[Objects.Target := Objects.Str("ra")], 0, 0, true);
    Tables("b", map["k" := "tr"], map["repo" := Repository("ra", "k")], map[1 := true], map["ann" := 1],
           map[1 := "a"], {},
           map[KEY := ticket], map[], map[], [], map[], {(KEY, 1)}, [], 2)
  }

  function AllDone(): Schedule {
    (n: nat) => Draw([], Done, "s", "u", "noon", "noon", 0, "e")
  }

  lemma SampleReads()
    ensures LoadTicket(Sample(), "k", "t") == Some(KEY) && CanAccess(Sample(), "repo", 1)
    ensures Objects.StringFromAny(Sample().tickets[KEY].body, Objects.Target) == "ra" && Trim("a") == "a"
  {
    TrimWord("k");
    TrimWord("t");
    TrimWord("a");
    TrimWord("ra");
    hide Trim;
  }

  lemma AckApplies() returns (op: Op)
    ensures OpOf(1, Acknowledge(KEY), AllDone()(0)) == Some(op)
    ensures Apply(Sample(), op, 0).Ok?
    ensures var t := After(Sample(), op, 0);
            && t.tickets == Sample().tickets && t.users == Sample().users && t.actors == Sample().actors
            && var pk := CommentPk("p", "s");
               pk in t.comments && pk in t.notes && t.comments[pk].ticket == KEY && t.comments[pk].repository == "repo"
  {
    var text := "Agent acknowledged ticket at " + "noon" + ".";
    TrimWord(text);
    TrimWord(ACK);
    TrimTrimmed("");
    SampleReads();
    hide Trim, LoadTicket, Objects.StringFromAny, CommentPk, CanAccess, NullString, Objects.CommentObject;
    op := CreateComment(1, "k", "t", text, "", ACK, "s", "noon");
    assert text[0] == 'A';
  }

  lemma StartApplies(t: Tables)
    requires t.tickets == Sample().tickets && t.users == Sample().users && t.actors == Sample().actors
    requires var pk := CommentPk("p", "s");
             pk in t.comments && pk in t.notes && t.comments[pk].ticket == KEY && t.comments[pk].repository == "repo"
    ensures OpOf(1, PostUpdate(KEY, "s", STARTING), AllDone()(3)).Some?
    ensures Apply(t, OpOf(1, PostUpdate(KEY, "s", STARTING), AllDone()(3)).value, 0).Ok?
  {
    TrimWord("k");
    TrimWord("t");
    TrimWord("s");
    TrimWord("a");
    TrimWord(STARTING);
    assert STARTING[0] == 'a';
    hide Trim, CommentPk, Objects.Appended;
  }

  /** Nothing else is applied and nothing is lost. */
  lemma DoneStep(w: World, step: Step)
    requires OpOf(1, step, AllDone()(0)).Some? ==> Apply(w.db, OpOf(1, step, AllDone()(0)).value, 0).Ok?
    ensures var (w', ok) := Do(AllDone(), 1, w, step);
            && ok && |w'.trace| == |w.trace| + 1 && w.trace <= w'.trace
            && w'.db == match OpOf(1, step, AllDone()(0)) case None => w.db case Some(op) => After(w.db, op, 0)
  {
    hide Apply, OpOf;
  }

  /** A run in which nothing is lost fails and posts no error, because of its collaboration mode. */
  lemma SilentRun(cfg: Config)
    requires !cfg.testCounter && cfg.rawCollabMode == "x"
    ensures var w := World(Sample(), [], []);
            var (w', ok) := Process(AllDone(), 1, cfg, w, KEY);
            && Do(AllDone(), 1, w, Acknowledge(KEY)).1 && !ok
            && !ErrorPosted(w'.trace) && ModeUnknown(cfg, w'.trace, 1)
  {
    hide Do, Apply, After, Sample, CommentPk, PostError, IsErrorUpdate, Ready, Process, ModeUnknown, ErrorPosted;
    var sch, w := AllDone(), World(Sample(), [], []);
    var op := AckApplies();
    DoneStep(w, Acknowledge(KEY));
    var w1 := Do(sch, 1, w, Acknowledge(KEY)).0;
    DoneStep(w1, GetRepository(KEY));
    var w2 := Do(sch, 1, w1, GetRepository(KEY)).0;
    DoneStep(w2, Prepare(KEY));
    var w3 := Do(sch, 1, w2, Prepare(KEY)).0;
    StartApplies(w3.db);
    DoneStep(w3, PostUpdate(KEY, "s", STARTING));
    SilentTrace(cfg, w, w1, w2, w3);
  }

  lemma SilentTrace(cfg: Config, w: World, w1: World, w2: World, w3: World)
    requires !cfg.testCounter && cfg.rawCollabMode == "x" && w.trace == []
    requires var sch := AllDone();
             && Do(sch, 1, w, Acknowledge(KEY)) == (w1, true) && Do(sch, 1, w1, GetRepository(KEY)) == (w2, true)
             && Do(sch, 1, w2, Prepare(KEY)) == (w3, true) && Do(sch, 1, w3, PostUpdate(KEY, "s", STARTING)).1
    ensures var (w', ok) := Process(AllDone(), 1, cfg, w, KEY);
            !ok && !ErrorPosted(w'.trace) && ModeUnknown(cfg, w'.trace, 1)
  {
    hide Do, PostError, IsErrorUpdate, Ready, Process, ModeUnknown, ErrorPosted;
    var sch := AllDone();
    UnknownModeIsSilent(sch, 1, cfg, w, KEY);
    DoTrace(sch, 1, w, Acknowledge(KEY));
    DoTrace(sch, 1, w1, GetRepository(KEY));
    DoTrace(sch, 1, w2, Prepare(KEY));
    DoTrace(sch, 1, w3, PostUpdate(KEY, "s", STARTING));
    ModeShown(cfg, Do(sch, 1, w3, PostUpdate(KEY, "s", STARTING)).0.trace);
  }

  lemma ModeShown(cfg: Config, trace: seq<Entry>)
    requires !cfg.testCounter && cfg.rawCollabMode == "x"
    requires |trace| == 4 && trace[1].ok && trace[2].ok && trace[3].ok
    ensures ModeUnknown(cfg, trace, 1)
  {
    assert "x" != "default" && "x" != "plan";
  }
}
