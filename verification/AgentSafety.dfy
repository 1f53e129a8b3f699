/** What every sequence of one user's agent runs keeps, with failure allowed at every step and
    everyone else acting in between. */
module AgentSafety {
  import opened AgentLoop
  import opened AgentQueue
  import opened AgentRun
  import AgentTranscript
  import opened TicketRuns
  import opened TicketTables

  // ---------------------------------------------------------------- the form of a run

  /** The steps of a run between its acknowledgement and its completion. */
  predicate Middle(step: Step, key: TicketKey, slug: string) {
    match step
    case GetRepository(k) => k == key
    case Prepare(k) => k == key
    case Finalize(k) => k == key
    case PostUpdate(k, s, _) => k == key && s == slug
    case _ => false
  }

  predicate AllMiddle(steps: seq<Step>, key: TicketKey, slug: string) {
    forall i :: 0 <= i < |steps| ==> Middle(steps[i], key, slug)
  }

  function Fold(sch: Schedule, user: int, w: World, steps: seq<Step>): World
    decreases |steps|
  {
    if steps == [] then w else Do(sch, user, Fold(sch, user, w, steps[..|steps| - 1]), steps[|steps| - 1]).0
  }

  ghost predicate Working(sch: Schedule, user: int, w: World, w': World, key: TicketKey, slug: string) {
    exists steps: seq<Step> :: AllMiddle(steps, key, slug) && w' == Fold(sch, user, w, steps)
  }

  lemma WorkingStep(sch: Schedule, user: int, w: World, w1: World, key: TicketKey, slug: string, step: Step)
    requires Working(sch, user, w, w1, key, slug) && Middle(step, key, slug)
    ensures Working(sch, user, w, Do(sch, user, w1, step).0, key, slug)
  {
    hide Do;
    var steps: seq<Step> :| AllMiddle(steps, key, slug) && w1 == Fold(sch, user, w, steps);
    var more := steps + [step];
    assert more[..|more| - 1] == steps;
    assert AllMiddle(more, key, slug);
  }

  lemma WorkingNow(sch: Schedule, user: int, w: World, key: TicketKey, slug: string)
    ensures Working(sch, user, w, w, key, slug)
  {
    var steps: seq<Step> := [];
    assert w == Fold(sch, user, w, steps) && AllMiddle(steps, key, slug);
  }

  lemma {:induction false} ReplayWorking(sch: Schedule, user: int, w: World, w1: World, key: TicketKey, slug: string,
                                         log: seq<Event>)
    requires Working(sch, user, w, w1, key, slug)
    ensures Working(sch, user, w, Replay(sch, user, w1, key, slug, log).0, key, slug)
    decreases |log|
  {
    hide Do, Working, Content;
    if log != [] {
      ReplayWorking(sch, user, w, w1, key, slug, log[..|log| - 1]);
      var w2 := Replay(sch, user, w1, key, slug, log[..|log| - 1]).0;
      WorkingStep(sch, user, w, w2, key, slug, PostUpdate(key, slug, Content(log[|log| - 1])));
    }
  }

  lemma {:induction false} CountedWorking(sch: Schedule, user: int, w: World, w1: World, key: TicketKey, slug: string,
                                          n: nat)
    requires Working(sch, user, w, w1, key, slug)
    ensures Working(sch, user, w, Counted(sch, user, w1, key, slug, n).0, key, slug)
  {
    hide Do, Working;
    if n != 0 {
      CountedWorking(sch, user, w, w1, key, slug, n - 1);
      var w2 := Counted(sch, user, w1, key, slug, n - 1).0;
      WorkingStep(sch, user, w, w2, key, slug, PostUpdate(key, slug, "test-step:" + [('0' as int + n % 10) as char]));
    }
  }

  /** Since `w`, the repository was found and the workspace prepared. */
  predicate Readied(w: World, w1: World, key: TicketKey) {
    && w.trace <= w1.trace && |w1.trace| >= |w.trace| + 2
    && w1.trace[|w.trace|].step == GetRepository(key) && w1.trace[|w.trace|].ok
    && w1.trace[|w.trace| + 1].step == Prepare(key) && w1.trace[|w.trace| + 1].ok
  }

  /** A run ends in the middle, or with a successful finalize and then one completion. */
  ghost predicate Ends(sch: Schedule, user: int, w: World, key: TicketKey, slug: string, w': World, ok: bool) {
    || (!ok && Working(sch, user, w, w', key, slug))
    || exists w1, answer ::
         && Working(sch, user, w, w1, key, slug) && Readied(w, w1, key)
         && Do(sch, user, w1, Finalize(key)).1
         && (w', ok) == Do(sch, user, Do(sch, user, w1, Finalize(key)).0, Complete(key, answer))
  }

  lemma ErrorEnds(sch: Schedule, user: int, w: World, w1: World, key: TicketKey, slug: string, error: string)
    requires Working(sch, user, w, w1, key, slug)
    ensures Ends(sch, user, w, key, slug, PostError(sch, user, w1, key, slug, error), false)
  {
    WorkingStep(sch, user, w, w1, key, slug, PostUpdate(key, slug, ErrorUpdate(error)));
    hide Do, Working;
  }

  lemma FinishEnds(sch: Schedule, user: int, w: World, w1: World, key: TicketKey, slug: string, answer: string)
    requires Working(sch, user, w, w1, key, slug) && Readied(w, w1, key)
    ensures var (w', ok) := Finish(sch, user, w1, key, slug, answer); Ends(sch, user, w, key, slug, w', ok)
  {
    var w2 := Do(sch, user, w1, Finalize(key)).0;
    WorkingStep(sch, user, w, w1, key, slug, Finalize(key));
    ErrorEnds(sch, user, w, w2, key, slug, ErrorOf(sch, w2));
    hide Do, Working, PostError;
  }

  lemma WorkEnds(sch: Schedule, user: int, cfg: Config, w: World, w1: World, key: TicketKey, slug: string)
    requires Working(sch, user, w, w1, key, slug) && Readied(w, w1, key)
    ensures var (w', ok) := Work(sch, user, cfg, w1, key, slug); Ends(sch, user, w, key, slug, w', ok)
  {
    hide Do, Working, PostError, Finish, Replay, RunLoop, Counted, Content;
    WorkingNow(sch, user, w1, key, slug);
    if cfg.testCounter {
      CountedWorking(sch, user, w, w1, key, slug, 3);
      CountedWorking(sch, user, w1, w1, key, slug, 3);
      WorkingTrace(sch, user, w1, Counted(sch, user, w1, key, slug, 3).0, key, slug);
      FinishEnds(sch, user, w, Counted(sch, user, w1, key, slug, 3).0, key, slug, "");
    } else {
      var w2 := Post(sch, user, w1, key, slug, "agent: starting ticket processing").0;
      WorkingStep(sch, user, w, w1, key, slug, PostUpdate(key, slug, "agent: starting ticket processing"));
      WorkingStep(sch, user, w1, w1, key, slug, PostUpdate(key, slug, "agent: starting ticket processing"));
      var mode := ResolveCollaborationMode(cfg.rawCollabMode);
      if mode.Some? {
        LoopWorking(sch, user, cfg, w, w2, key, slug, mode.value);
        LoopWorking(sch, user, cfg, w1, w2, key, slug, mode.value);
        var (w3, s, outcome) := TicketLoop(sch, user, cfg, w2, key, slug, mode.value);
        WorkingTrace(sch, user, w1, w3, key, slug);
        hide TicketLoop;
        if outcome.Final? {
          FinishEnds(sch, user, w, w3, key, slug, outcome.answer);
        } else {
          ErrorEnds(sch, user, w, w3, key, slug, LoopError(sch, w3, outcome, cfg.maxIter));
        }
      }
    }
  }

  lemma LoopWorking(sch: Schedule, user: int, cfg: Config, w: World, w1: World, key: TicketKey, slug: string,
                    mode: Collaboration)
    requires Working(sch, user, w, w1, key, slug)
    ensures Working(sch, user, w, TicketLoop(sch, user, cfg, w1, key, slug, mode).0, key, slug)
  {
    ReplayWorking(sch, user, w, w1, key, slug, TicketLoop(sch, user, cfg, w1, key, slug, mode).1.log);
    hide Working, Replay, RunLoop;
  }

  /** Every run on a ticket acknowledges it first, and stops there when that fails. */
  lemma ProcessEnds(sch: Schedule, user: int, cfg: Config, w: World, key: TicketKey)
    ensures var (w1, acked) := Do(sch, user, w, Acknowledge(key));
            var (w', ok) := Process(sch, user, cfg, w, key);
            if acked then Ends(sch, user, w1, key, sch(|w.trace|).slug, w', ok) else w' == w1 && !ok
  {
    hide Do, Working, PostError, Work, Ends;
    var slug := sch(|w.trace|).slug;
    var w1 := Do(sch, user, w, Acknowledge(key)).0;
    WorkingNow(sch, user, w1, key, slug);
    WorkingStep(sch, user, w1, w1, key, slug, GetRepository(key));
    var w2 := Do(sch, user, w1, GetRepository(key)).0;
    WorkingStep(sch, user, w1, w2, key, slug, Prepare(key));
    var w3 := Do(sch, user, w2, Prepare(key)).0;
    ErrorEnds(sch, user, w1, w2, key, slug, ErrorOf(sch, w2));
    ErrorEnds(sch, user, w1, w3, key, slug, ErrorOf(sch, w3));
    DoTrace(sch, user, w1, GetRepository(key));
    DoTrace(sch, user, w2, Prepare(key));
    if Do(sch, user, w1, GetRepository(key)).1 && Do(sch, user, w2, Prepare(key)).1 {
      WorkEnds(sch, user, cfg, w1, w3, key, slug);
    }
  }

  // ---------------------------------------------------------------- the trace of a run

  lemma DoTrace(sch: Schedule, user: int, w: World, step: Step)
    ensures var (w', ok) := Do(sch, user, w, step);
            && |w'.trace| == |w.trace| + 1 && w.trace <= w'.trace
            && var e := w'.trace[|w.trace|];
               e.step == step && e.ok == ok && e.slug == sch(|w.trace|).slug
  {
    hide Exec, Apply, After, OpOf;
  }

  lemma {:induction false} FoldTrace(sch: Schedule, user: int, w: World, steps: seq<Step>)
    ensures var w' := Fold(sch, user, w, steps);
            && w.trace <= w'.trace && |w'.trace| == |w.trace| + |steps|
            && forall i :: 0 <= i < |steps| ==> w'.trace[|w.trace| + i].step == steps[i]
    decreases |steps|
  {
    hide Do;
    if steps != [] {
      FoldTrace(sch, user, w, steps[..|steps| - 1]);
      DoTrace(sch, user, Fold(sch, user, w, steps[..|steps| - 1]), steps[|steps| - 1]);
    }
  }

  lemma WorkingTrace(sch: Schedule, user: int, w: World, w': World, key: TicketKey, slug: string)
    requires Working(sch, user, w, w', key, slug)
    ensures w.trace <= w'.trace
    ensures forall i :: |w.trace| <= i < |w'.trace| ==> Middle(w'.trace[i].step, key, slug)
  {
    hide Fold, Middle;
    var steps: seq<Step> :| AllMiddle(steps, key, slug) && w' == Fold(sch, user, w, steps);
    FoldTrace(sch, user, w, steps);
    forall i | |w.trace| <= i < |w'.trace| ensures Middle(w'.trace[i].step, key, slug) {
      assert w'.trace[i].step == steps[i - |w.trace|];
    }
  }

  /** Entry `a` is the successful acknowledgement of the run that entry `i` belongs to. Up to `i` that
      run has only worked on the acknowledged ticket and posted to the acknowledging comment; before a
      completion it found the repository, prepared the workspace and, directly before, finalized it. */
  predicate OwnAck(trace: seq<Entry>, a: nat, i: nat)
    requires a < i < |trace|
  {
    && trace[a].step.Acknowledge? && trace[a].ok
    && var key, slug := trace[a].step.key, trace[a].slug;
       && (forall j :: a < j < i ==> Middle(trace[j].step, key, slug))
       && (Middle(trace[i].step, key, slug)
           || (trace[i].step.Complete? && trace[i].step.key == key
               && a < i - 3 && trace[i - 1].step == Finalize(key) && trace[i - 1].ok
               && trace[a + 1].step == GetRepository(key) && trace[a + 1].ok
               && trace[a + 2].step == Prepare(key) && trace[a + 2].ok))
  }

  ghost predicate Grounded(trace: seq<Entry>, i: nat)
    requires i < |trace|
  {
    match trace[i].step
    case List => true
    case Acknowledge(_) => i > 0 && trace[i - 1].step.List? && trace[i - 1].ok
    case _ => exists a :: 0 <= a < i && OwnAck(trace, a, i)
  }

  lemma GroundedLater(trace: seq<Entry>, longer: seq<Entry>, i: nat)
    requires i < |trace| && trace <= longer && Grounded(trace, i)
    ensures Grounded(longer, i)
  {
    hide Middle;
    if !trace[i].step.List? && !trace[i].step.Acknowledge? {
      var a :| 0 <= a < i && OwnAck(trace, a, i);
      assert OwnAck(longer, a, i);
    }
  }

  lemma MiddleGrounded(trace: seq<Entry>, a: nat)
    requires a < |trace| && trace[a].step.Acknowledge? && trace[a].ok
    requires forall j :: a < j < |trace| ==> Middle(trace[j].step, trace[a].step.key, trace[a].slug)
    ensures forall i :: a < i < |trace| ==> Grounded(trace, i)
  {
    forall i | a < i < |trace| ensures Grounded(trace, i) {
      assert OwnAck(trace, a, i);
    }
  }

  lemma EndsGrounded(sch: Schedule, user: int, w: World, key: TicketKey, slug: string, w': World, ok: bool)
    requires Ends(sch, user, w, key, slug, w', ok)
    requires w.trace != [] && w.trace[|w.trace| - 1].step == Acknowledge(key)
    requires w.trace[|w.trace| - 1].ok && w.trace[|w.trace| - 1].slug == slug
    ensures w.trace <= w'.trace
    ensures forall i :: |w.trace| <= i < |w'.trace| ==> Grounded(w'.trace, i)
  {
    hide Do, Working;
    var a := |w.trace| - 1;
    if Working(sch, user, w, w', key, slug) {
      WorkingTrace(sch, user, w, w', key, slug);
      MiddleGrounded(w'.trace, a);
    } else {
      var w1, answer :| Working(sch, user, w, w1, key, slug) && Readied(w, w1, key) && Do(sch, user, w1,
          Finalize(key)).1
                        && (w', ok) == Do(sch, user, Do(sch, user, w1, Finalize(key)).0, Complete(key, answer));
      CompletionGrounded(sch, user, w, key, slug, w1, answer);
    }
  }

  lemma CompletionGrounded(sch: Schedule, user: int, w: World, key: TicketKey, slug: string, w1: World, answer: string)
    requires Working(sch, user, w, w1, key, slug) && Readied(w, w1, key) && Do(sch, user, w1, Finalize(key)).1
    requires w.trace != [] && w.trace[|w.trace| - 1].step == Acknowledge(key)
    requires w.trace[|w.trace| - 1].ok && w.trace[|w.trace| - 1].slug == slug
    ensures var w' := Do(sch, user, Do(sch, user, w1, Finalize(key)).0, Complete(key, answer)).0;
            && w.trace <= w'.trace
            && forall i :: |w.trace| <= i < |w'.trace| ==> Grounded(w'.trace, i)
  {
    hide Do, Working;
    var a := |w.trace| - 1;
    var w2 := Do(sch, user, w1, Finalize(key)).0;
    WorkingStep(sch, user, w, w1, key, slug, Finalize(key));
    WorkingTrace(sch, user, w, w2, key, slug);
    DoTrace(sch, user, w1, Finalize(key));
    DoTrace(sch, user, w2, Complete(key, answer));
    var t := Do(sch, user, w2, Complete(key, answer)).0.trace;
    WorkingTrace(sch, user, w, w1, key, slug);
    MiddleGrounded(w2.trace, a);
    forall i | |w.trace| <= i < |t| ensures Grounded(t, i) {
      if i < |w2.trace| {
        GroundedLater(w2.trace, t, i);
      } else {
        assert OwnAck(t, a, i);
      }
    }
  }

  lemma ProcessGrounded(sch: Schedule, user: int, cfg: Config, w: World, key: TicketKey)
    requires w.trace != [] && w.trace[|w.trace| - 1].step.List? && w.trace[|w.trace| - 1].ok
    ensures var w' := Process(sch, user, cfg, w, key).0;
            && w.trace <= w'.trace
            && forall i :: |w.trace| <= i < |w'.trace| ==> Grounded(w'.trace, i)
  {
    var (w1, acked) := Do(sch, user, w, Acknowledge(key));
    var (w', ok) := Process(sch, user, cfg, w, key);
    ProcessEnds(sch, user, cfg, w, key);
    hide Do, Process, Ends;
    DoTrace(sch, user, w, Acknowledge(key));
    if acked {
      EndsGrounded(sch, user, w1, key, sch(|w.trace|).slug, w', ok);
      assert Grounded(w1.trace, |w.trace|);
      GroundedLater(w1.trace, w'.trace, |w.trace|);
    }
  }

  lemma RunGrounded(sch: Schedule, user: int, cfg: Config, w: World)
    ensures var w' := Run(sch, user, cfg, w).0;
            && w.trace <= w'.trace
            && forall i :: |w.trace| <= i < |w'.trace| ==> Grounded(w'.trace, i)
  {
    hide Do, Process;
    if cfg.ready {
      var (w1, listed) := Do(sch, user, w, List);
      DoTrace(sch, user, w, List);
      if listed && First(w1.db, user).Some? {
        ProcessGrounded(sch, user, cfg, w1, First(w1.db, user).value);
      }
    }
  }

  // ---------------------------------------------------------------- many runs

  ghost function Runs(sch: Schedule, user: int, cfgs: seq<Config>, w: World): World
    decreases |cfgs|
  {
    if cfgs == [] then w else Run(sch, user, cfgs[|cfgs| - 1], Runs(sch, user, cfgs[..|cfgs| - 1], w)).0
  }

  /** Over any sequence of runs: an acknowledgement follows a successful listing; every update goes to
      the comment that acknowledged the same ticket in the same run; and a completion follows that
      acknowledgement, a prepared workspace and, directly, a successful finalize, and ends its run. */
  lemma {:induction false} RunsGrounded(sch: Schedule, user: int, cfgs: seq<Config>, w: World)
    ensures var w' := Runs(sch, user, cfgs, w);
            && w.trace <= w'.trace
            && forall i :: |w.trace| <= i < |w'.trace| ==> Grounded(w'.trace, i)
    decreases |cfgs|
  {
    hide Run, Grounded;
    if cfgs != [] {
      var w1 := Runs(sch, user, cfgs[..|cfgs| - 1], w);
      RunsGrounded(sch, user, cfgs[..|cfgs| - 1], w);
      RunGrounded(sch, user, cfgs[|cfgs| - 1], w1);
      var w' := Runs(sch, user, cfgs, w);
      forall i | |w.trace| <= i < |w'.trace| ensures Grounded(w'.trace, i) {
        if i < |w1.trace| {
          GroundedLater(w1.trace, w'.trace, i);
        }
      }
    }
  }

  // ---------------------------------------------------------------- the files of a run

  /** A run in plan mode leaves the prepared files as they are; in any mode, what it changes lies
      under the workspace root. */
  lemma RunKeepsToItsFiles(sch: Schedule, user: int, cfg: Config, w: World, key: TicketKey, slug: string,
                           mode: Collaboration,
                           root: seq<string>)
    ensures var files := TicketLoop(sch, user, cfg, w, key, slug, mode).1.workspace;
            && (mode.PlanOnly? ==> files == cfg.files)
            && (Paths.Settled(true, root) && cfg.env.root == Paths.Show(true, root) ==>
                  AgentTranscript.ChangesOnlyUnder(true, root, cfg.files, files))
  {
    hide Replay, RunLoop, Paths.Settled, Paths.Show, AgentTranscript.ChangesOnlyUnder;
    var accepts := (log: seq<Event>) => Replay(sch, user, w, key, slug, log).1;
    var prompt, envelope := cfg.systemPrompt(mode), cfg.envelope(key);
    if mode.PlanOnly? {
      AgentTranscript.PlanModeKeepsWorkspace(cfg.env, CallbacksFor(mode), accepts, cfg.url, cfg.model, prompt, envelope,
                                             cfg.files, cfg.replies, cfg.maxIter);
    }
    if Paths.Settled(true, root) && cfg.env.root == Paths.Show(true, root) {
      AgentTranscript.LoopWritesInside(cfg.env, CallbacksFor(mode), accepts, cfg.url, cfg.model, prompt, envelope,
                                       cfg.files, cfg.replies, cfg.maxIter, root);
    }
  }
}
