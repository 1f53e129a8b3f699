/** The agent's runs seen from the server: each ticket is completed at most once, failed runs are
    retried, and successful runs drain the queue in order. */
module AgentCompletion {
  import opened AgentQueue
  import opened AgentRun
  import opened AgentSafety
  import opened Sequences
  import opened TicketRuns
  import opened TicketTables
  import opened Wrappers

  // ---------------------------------------------------------------- worlds and their histories

  ghost predicate Follows(w: World, w': World) {
    w.history <= w'.history && w'.db == Exec(w.db, w'.history[|w.history|..])
  }

  /** What was applied between the two worlds drew fresh identifiers, at times that do not decrease. */
  ghost predicate Valid(w: World, w': World) {
    Follows(w, w') && exists now :: ValidRun(w.db, w'.history[|w.history|..], now)
  }

  lemma {:induction false} ExecConcat(t: Tables, a: seq<(Op, Time)>, b: seq<(Op, Time)>)
    ensures Exec(t, a + b) == Exec(Exec(t, a), b)
    decreases a
  {
    hide After;
    if a == [] {
      assert a + b == b;
    } else {
      assert (a + b)[1..] == a[1..] + b;
      ExecConcat(After(t, a[0].0, a[0].1), a[1..], b);
    }
  }

  lemma {:induction false} ValidConcat(t: Tables, a: seq<(Op, Time)>, b: seq<(Op, Time)>, now: Time)
    requires ValidRun(t, a + b, now)
    ensures ValidRun(t, a, now) && exists later :: ValidRun(Exec(t, a), b, later)
    decreases a
  {
    hide After, Fresh;
    if a == [] {
      assert a + b == b;
      assert ValidRun(Exec(t, a), b, now);
    } else {
      assert (a + b)[1..] == a[1..] + b && (a + b)[0] == a[0];
      var t1 := After(t, a[0].0, a[0].1);
      ValidConcat(t1, a[1..], b, a[0].1);
      var later :| ValidRun(Exec(t1, a[1..]), b, later);
      assert ValidRun(Exec(t, a), b, later);
    }
  }

  lemma FollowsTransitive(w: World, w1: World, w2: World)
    requires Follows(w, w1) && Follows(w1, w2)
    ensures Follows(w, w2)
    ensures Valid(w, w2) ==> Valid(w, w1) && Valid(w1, w2)
  {
    hide Exec, ValidRun;
    var a, b := w1.history[|w.history|..], w2.history[|w1.history|..];
    assert w2.history[|w.history|..] == a + b;
    ExecConcat(w.db, a, b);
    if Valid(w, w2) {
      var now :| ValidRun(w.db, a + b, now);
      ValidConcat(w.db, a, b, now);
    }
  }

  lemma DoFollows(sch: Schedule, user: int, w: World, step: Step)
    ensures Follows(w, Do(sch, user, w, step).0)
  {
    var d := sch(|w.trace|);
    var w' := Do(sch, user, w, step).0;
    var more := w'.history[|w.history|..];
    hide Exec, After, Apply, OpOf;
    if OpOf(user, step, d).Some? {
      var own := [(OpOf(user, step, d).value, d.now)];
      ExecConcat(w.db, d.others, own);
      ExecOne(Exec(w.db, d.others), OpOf(user, step, d).value, d.now);
      assert more == d.others || more == d.others + own;
    } else {
      assert more == d.others;
    }
  }

  lemma ExecOne(t: Tables, op: Op, now: Time)
    ensures Exec(t, [(op, now)]) == After(t, op, now)
  {
    hide After;
    assert [(op, now)][1..] == [];
  }

  lemma {:induction false} FoldFollows(sch: Schedule, user: int, w: World, steps: seq<Step>)
    ensures Follows(w, Fold(sch, user, w, steps))
    decreases |steps|
  {
    hide Do;
    if steps == [] {
      assert w.history[|w.history|..] == [];
    } else {
      hide Follows;
      var w1 := Fold(sch, user, w, steps[..|steps| - 1]);
      FoldFollows(sch, user, w, steps[..|steps| - 1]);
      DoFollows(sch, user, w1, steps[|steps| - 1]);
      FollowsTransitive(w, w1, Fold(sch, user, w, steps));
    }
  }

  lemma WorkingFollows(sch: Schedule, user: int, w: World, w': World, key: TicketKey, slug: string)
    requires Working(sch, user, w, w', key, slug)
    ensures Follows(w, w')
  {
    hide Follows, Fold;
    var steps: seq<Step> :| AllMiddle(steps, key, slug) && w' == Fold(sch, user, w, steps);
    FoldFollows(sch, user, w, steps);
  }

  // ---------------------------------------------------------------- steps that complete nothing

  /** What others may do: anything but complete a ticket as this user; or, with `neutral`, only
      comment and post updates. */
  predicate Allowed(op: Op, user: int, neutral: bool) {
    if neutral then Neutral(op, user) else !PostsCompletion(op, user)
  }

  predicate AllAllowed(ops: seq<(Op, Time)>, user: int, neutral: bool) {
    forall i :: 0 <= i < |ops| ==> Allowed(ops[i].0, user, neutral)
  }

  ghost predicate Allows(sch: Schedule, user: int, neutral: bool) {
    forall n: nat :: AllAllowed(sch(n).others, user, neutral)
  }

  ghost predicate SameCompletions(t: Tables, t': Tables, user: int) {
    forall key :: Completions(t', key, user) == Completions(t, key, user)
  }

  ghost predicate SameQueue(t: Tables, t': Tables, user: int) {
    SameOrder(t, t') && Pending(t', user) == Pending(t, user)
  }

  ghost predicate Calm(t: Tables, t': Tables, user: int, neutral: bool) {
    && (KeysTrimmed(t) ==> KeysTrimmed(t'))
    && SameCompletions(t, t', user)
    && (neutral ==> SameQueue(t, t', user))
  }

  lemma SameOrderTransitive(a: Tables, b: Tables, c: Tables)
    ensures SameOrder(a, a)
    ensures SameOrder(a, b) && SameOrder(b, c) ==> SameOrder(a, c)
  {
    hide Le;
  }

  lemma CalmTransitive(a: Tables, b: Tables, c: Tables, user: int, neutral: bool)
    ensures Calm(a, a, user, neutral)
    ensures Calm(a, b, user, neutral) && Calm(b, c, user, neutral) ==> Calm(a, c, user, neutral)
  {
    hide Completions, Pending, SameOrder, KeysTrimmed;
    SameOrderTransitive(a, b, c);
  }

  lemma CalmOp(t: Tables, op: Op, now: Time, user: int, neutral: bool)
    requires Fresh(t, op) && Allowed(op, user, neutral) && !PostsCompletion(op, user)
    ensures Calm(t, After(t, op, now), user, neutral)
  {
    hide Fresh, After, KeysTrimmed, Completions, Pending, SameOrder, LoadTicket, Apply, Text.Trim;
    if KeysTrimmed(t) {
      KeysStayTrimmed(t, op, now);
    }
    forall key | true ensures Completions(After(t, op, now), key, user) == Completions(t, key, user) {
      CompletionsStep(t, op, now, key, user);
    }
    if neutral {
      QueueStep(t, op, now, user);
    }
  }

  lemma AllowedPostsNothing(op: Op, user: int, neutral: bool)
    requires Allowed(op, user, neutral)
    ensures !PostsCompletion(op, user)
  {
  }

  lemma {:induction false} CalmExec(t: Tables, ops: seq<(Op, Time)>, now: Time, user: int, neutral: bool)
    requires ValidRun(t, ops, now) && AllAllowed(ops, user, neutral)
    ensures Calm(t, Exec(t, ops), user, neutral)
    decreases ops
  {
    hide Calm, After, Fresh, Allowed;
    if ops == [] {
      CalmTransitive(t, t, t, user, neutral);
    } else {
      var (op, at) := ops[0];
      AllowedPostsNothing(op, user, neutral);
      CalmOp(t, op, at, user, neutral);
      CalmExec(After(t, op, at), ops[1..], at, user, neutral);
      CalmTransitive(t, After(t, op, at), Exec(t, ops), user, neutral);
    }
  }

  lemma KindsAreTrimmed()
    ensures Text.Trim(ACK) == ACK && Text.Trim(COMPLETION) == COMPLETION && ACK != COMPLETION
  {
    Text.TrimTrimmed(ACK);
    Text.TrimTrimmed(COMPLETION);
  }

  lemma OwnOpNeutral(user: int, step: Step, d: Draw)
    requires !step.Complete? && OpOf(user, step, d).Some?
    ensures Neutral(OpOf(user, step, d).value, user)
  {
    KindsAreTrimmed();
    hide Text.Trim;
  }

  /** The state in which a step's own operation meets the server, if anything was applied. */
  lemma DoSplits(sch: Schedule, user: int, w: World, step: Step) returns (now: Time)
    requires Valid(w, Do(sch, user, w, step).0)
    ensures var d := sch(|w.trace|);
            var t := Exec(w.db, d.others);
            var w' := Do(sch, user, w, step).0;
            && ValidRun(w.db, d.others, now)
            && |w'.trace| == |w.trace| + 1
            && (!w'.trace[|w.trace|].applied ==> w'.db == t)
            && (w'.trace[|w.trace|].applied ==>
                  && OpOf(user, step, d).Some? && Apply(t, OpOf(user, step, d).value, d.now).Ok?
                  && Fresh(t, OpOf(user, step, d).value) && w'.db == After(t, OpOf(user, step, d).value, d.now))
  {
    var d := sch(|w.trace|);
    var w' := Do(sch, user, w, step).0;
    var more := w'.history[|w.history|..];
    hide Exec, ValidRun, After, Apply, OpOf, Fresh;
    now :| ValidRun(w.db, more, now);
    if w'.trace[|w.trace|].applied {
      var own := [(OpOf(user, step, d).value, d.now)];
      assert more == d.others + own;
      ValidConcat(w.db, d.others, own, now);
      var later :| ValidRun(Exec(w.db, d.others), own, later);
      ValidOne(Exec(w.db, d.others), OpOf(user, step, d).value, d.now, later);
    } else {
      assert more == d.others;
    }
  }

  lemma ValidOne(t: Tables, op: Op, at: Time, now: Time)
    requires ValidRun(t, [(op, at)], now)
    ensures Fresh(t, op)
  {
    hide Fresh;
  }

  lemma DoCalm(sch: Schedule, user: int, w: World, step: Step, neutral: bool)
    requires Allows(sch, user, neutral) && !step.Complete? && Valid(w, Do(sch, user, w, step).0)
    ensures Calm(w.db, Do(sch, user, w, step).0.db, user, neutral)
  {
    var d := sch(|w.trace|);
    var w' := Do(sch, user, w, step).0;
    var now := DoSplits(sch, user, w, step);
    hide Do, Exec, After, Apply, OpOf, Fresh, Calm, ValidRun;
    var t := Exec(w.db, d.others);
    assert AllAllowed(d.others, user, neutral);
    CalmExec(w.db, d.others, now, user, neutral);
    if w'.trace[|w.trace|].applied {
      var op := OpOf(user, step, d).value;
      OwnOpNeutral(user, step, d);
      CalmOp(t, op, d.now, user, neutral);
      CalmTransitive(w.db, t, w'.db, user, neutral);
    }
  }

  lemma {:induction false} FoldCalm(sch: Schedule, user: int, w: World, steps: seq<Step>, key: TicketKey,
                                    slug: string, neutral: bool)
    requires Allows(sch, user, neutral) && AllMiddle(steps, key, slug) && Valid(w, Fold(sch, user, w, steps))
    ensures Calm(w.db, Fold(sch, user, w, steps).db, user, neutral)
    decreases |steps|
  {
    hide Do, Calm, Valid, Follows, Allows;
    if steps == [] {
      CalmTransitive(w.db, w.db, w.db, user, neutral);
    } else {
      var init, step := steps[..|steps| - 1], steps[|steps| - 1];
      var w1, w2 := Fold(sch, user, w, init), Fold(sch, user, w, steps);
      FoldFollows(sch, user, w, init);
      DoFollows(sch, user, w1, step);
      FollowsTransitive(w, w1, w2);
      FoldCalm(sch, user, w, init, key, slug, neutral);
      assert Middle(step, key, slug);
      DoCalm(sch, user, w1, step, neutral);
      CalmTransitive(w.db, w1.db, w2.db, user, neutral);
    }
  }

  lemma WorkingCalm(sch: Schedule, user: int, w: World, w': World, key: TicketKey, slug: string, neutral: bool)
    requires Allows(sch, user, neutral) && Working(sch, user, w, w', key, slug) && Valid(w, w')
    ensures Calm(w.db, w'.db, user, neutral)
  {
    hide Calm, Valid, Fold, Allows;
    var steps: seq<Step> :| AllMiddle(steps, key, slug) && w' == Fold(sch, user, w, steps);
    FoldCalm(sch, user, w, steps, key, slug, neutral);
  }

  // ---------------------------------------------------------------- the completing step

  /** The user gains one completion of `key` and no other; with `neutral`, the queue loses `key`. */
  ghost predicate Completed(t: Tables, t': Tables, key: TicketKey, user: int, neutral: bool) {
    && (KeysTrimmed(t) ==> KeysTrimmed(t'))
    && (exists pk :: pk !in Completions(t, key, user) && Completions(t', key, user) == Completions(t, key, user) + {pk})
    && (forall k :: k != key ==> Completions(t', k, user) == Completions(t, k, user))
    && (neutral ==> SameOrder(t, t') && Pending(t', user) == Pending(t, user) - {key})
  }

  lemma CalmThenCompleted(a: Tables, b: Tables, c: Tables, key: TicketKey, user: int, neutral: bool)
    requires Calm(a, b, user, neutral) && Completed(b, c, key, user, neutral)
    ensures Completed(a, c, key, user, neutral)
  {
    hide Completions, Pending, SameOrder, KeysTrimmed;
    SameOrderTransitive(a, b, c);
  }

  lemma CompletionOp(t: Tables, op: Op, now: Time, key: TicketKey, user: int)
    requires op.CreateComment? && op.user == user && op.trackerSlug == key.0 && op.ticketSlug == key.1
    requires op.kind == COMPLETION && TrimmedKey(key) && Apply(t, op, now).Ok?
    ensures PostsCompletion(op, user)
    ensures forall k :: Completes(t, op, now, k, user) <==> k == key
  {
    KindsAreTrimmed();
    hide Text.Trim;
  }

  lemma CompletedOp(t: Tables, op: Op, now: Time, key: TicketKey, user: int, neutral: bool)
    requires op.CreateComment? && op.user == user && op.trackerSlug == key.0 && op.ticketSlug == key.1
    requires op.kind == COMPLETION && TrimmedKey(key) && Apply(t, op, now).Ok? && Fresh(t, op)
    ensures Completed(t, After(t, op, now), key, user, neutral)
  {
    CompletionOp(t, op, now, key, user);
    hide Fresh, Apply, After, KeysTrimmed, Completions, Pending, SameOrder, Completes, PostsCompletion;
    if KeysTrimmed(t) {
      KeysStayTrimmed(t, op, now);
    }
    forall k | k != key ensures Completions(After(t, op, now), k, user) == Completions(t, k, user) {
      CompletionsStep(t, op, now, k, user);
    }
    CompletionsStep(t, op, now, key, user);
    QueueStep(t, op, now, user);
  }

  lemma DoCompletes(sch: Schedule, user: int, w: World, key: TicketKey, answer: string, neutral: bool)
    requires Allows(sch, user, neutral) && TrimmedKey(key)
    requires Valid(w, Do(sch, user, w, Complete(key, answer)).0)
    ensures var w' := Do(sch, user, w, Complete(key, answer)).0;
            && |w'.trace| == |w.trace| + 1
            && if w'.trace[|w.trace|].applied
               then Completed(w.db, w'.db, key, user, neutral)
               else Calm(w.db, w'.db, user, neutral)
  {
    var d := sch(|w.trace|);
    var step := Complete(key, answer);
    var w' := Do(sch, user, w, step).0;
    var now := DoSplits(sch, user, w, step);
    hide Do, Exec, After, Apply, Fresh, Calm, Completed, ValidRun, CompletionMessage, Text.Trim;
    var t := Exec(w.db, d.others);
    assert AllAllowed(d.others, user, neutral);
    CalmExec(w.db, d.others, now, user, neutral);
    if w'.trace[|w.trace|].applied {
      CompletedOp(t, OpOf(user, step, d).value, d.now, key, user, neutral);
      CalmThenCompleted(w.db, t, w'.db, key, user, neutral);
    }
  }

  // ---------------------------------------------------------------- one run

  /** The ticket whose completion the run got applied, even if it was told otherwise. */
  function Finished(w: World, w': World): Option<TicketKey> {
    if |w'.trace| > |w.trace| && w'.trace[|w'.trace| - 1].step.Complete? && w'.trace[|w'.trace| - 1].applied
    then Some(w'.trace[|w'.trace| - 1].step.key) else None
  }

  ghost predicate Effect(w: World, w': World, user: int, neutral: bool) {
    match Finished(w, w')
    case None => Calm(w.db, w'.db, user, neutral)
    case Some(key) => Completed(w.db, w'.db, key, user, neutral)
  }

  lemma EndsFollows(sch: Schedule, user: int, w: World, key: TicketKey, slug: string, w': World, ok: bool)
    requires Ends(sch, user, w, key, slug, w', ok)
    ensures Follows(w, w')
  {
    hide Do, Working, Follows;
    if Working(sch, user, w, w', key, slug) {
      WorkingFollows(sch, user, w, w', key, slug);
    } else {
      var w1, answer :| Working(sch, user, w, w1, key, slug) && Do(sch, user, w1, Finalize(key)).1
                        && (w', ok) == Do(sch, user, Do(sch, user, w1, Finalize(key)).0, Complete(key, answer));
      var w2 := Do(sch, user, w1, Finalize(key)).0;
      WorkingStep(sch, user, w, w1, key, slug, Finalize(key));
      WorkingFollows(sch, user, w, w2, key, slug);
      DoFollows(sch, user, w2, Complete(key, answer));
      FollowsTransitive(w, w2, w');
    }
  }

  lemma OkIsApplied(sch: Schedule, user: int, w: World, key: TicketKey, answer: string)
    ensures var (w', ok) := Do(sch, user, w, Complete(key, answer));
            |w'.trace| == |w.trace| + 1 && (ok ==> w'.trace[|w.trace|].applied)
  {
    hide Exec, After, Apply;
  }

  lemma EndsEffect(sch: Schedule, user: int, w: World, key: TicketKey, slug: string, w': World, ok: bool, neutral: bool)
    requires Ends(sch, user, w, key, slug, w', ok) && Valid(w, w')
    requires Allows(sch, user, neutral) && TrimmedKey(key)
    ensures Effect(w, w', user, neutral)
    ensures Finished(w, w') == None || Finished(w, w') == Some(key)
    ensures ok ==> Finished(w, w') == Some(key)
  {
    hide Do, Working, Follows, Valid, Calm, Completed, Allows, TrimmedKey;
    if !ok && Working(sch, user, w, w', key, slug) {
      WorkingCalm(sch, user, w, w', key, slug, neutral);
      WorkingTrace(sch, user, w, w', key, slug);
    } else {
      var w1, answer :| Working(sch, user, w, w1, key, slug) && Do(sch, user, w1, Finalize(key)).1
                        && (w', ok) == Do(sch, user, Do(sch, user, w1, Finalize(key)).0, Complete(key, answer));
      var w2 := Do(sch, user, w1, Finalize(key)).0;
      WorkingStep(sch, user, w, w1, key, slug, Finalize(key));
      WorkingTrace(sch, user, w, w2, key, slug);
      WorkingFollows(sch, user, w, w2, key, slug);
      DoFollows(sch, user, w2, Complete(key, answer));
      FollowsTransitive(w, w2, w');
      WorkingCalm(sch, user, w, w2, key, slug, neutral);
      DoCompletes(sch, user, w2, key, answer, neutral);
      DoTrace(sch, user, w2, Complete(key, answer));
      OkIsApplied(sch, user, w2, key, answer);
      if w'.trace[|w2.trace|].applied {
        CalmThenCompleted(w.db, w2.db, w'.db, key, user, neutral);
      } else {
        CalmTransitive(w.db, w2.db, w'.db, user, neutral);
      }
    }
  }

  /** Calm first and the rest later is the effect of the whole. */
  lemma EffectAfterCalm(w: World, w1: World, w': World, user: int, neutral: bool)
    requires Calm(w.db, w1.db, user, neutral) && Effect(w1, w', user, neutral)
    requires |w.trace| <= |w1.trace| <= |w'.trace|
    requires |w1.trace| == |w.trace| || !w1.trace[|w1.trace| - 1].step.Complete?
    requires w1.trace <= w'.trace
    ensures Effect(w, w', user, neutral) && Finished(w, w') == Finished(w1, w')
  {
    hide Calm, Completed;
    match Finished(w1, w')
    case None => CalmTransitive(w.db, w1.db, w'.db, user, neutral);
    case Some(key) => CalmThenCompleted(w.db, w1.db, w'.db, key, user, neutral);
  }

  lemma ProcessFollows(sch: Schedule, user: int, cfg: Config, w: World, key: TicketKey)
    ensures Follows(w, Process(sch, user, cfg, w, key).0)
  {
    ProcessEnds(sch, user, cfg, w, key);
    var (w1, acked) := Do(sch, user, w, Acknowledge(key));
    var (w', ok) := Process(sch, user, cfg, w, key);
    DoFollows(sch, user, w, Acknowledge(key));
    hide Do, Process, Ends, Follows;
    if acked {
      EndsFollows(sch, user, w1, key, sch(|w.trace|).slug, w', ok);
      FollowsTransitive(w, w1, w');
    }
  }

  lemma ProcessEffect(sch: Schedule, user: int, cfg: Config, w: World, key: TicketKey, neutral: bool)
    requires Allows(sch, user, neutral) && TrimmedKey(key) && Valid(w, Process(sch, user, cfg, w, key).0)
    ensures var (w', ok) := Process(sch, user, cfg, w, key);
            && Effect(w, w', user, neutral) && w.trace <= w'.trace
            && (Finished(w, w') == None || Finished(w, w') == Some(key))
            && (ok ==> Finished(w, w') == Some(key))
  {
    ProcessEnds(sch, user, cfg, w, key);
    var slug := sch(|w.trace|).slug;
    var (w1, acked) := Do(sch, user, w, Acknowledge(key));
    var (w', ok) := Process(sch, user, cfg, w, key);
    DoFollows(sch, user, w, Acknowledge(key));
    DoTrace(sch, user, w, Acknowledge(key));
    hide Do, Process, Ends, Follows, Valid, Calm, Completed, Allows, TrimmedKey;
    if acked {
      EndsFollows(sch, user, w1, key, slug, w', ok);
      FollowsTransitive(w, w1, w');
      DoCalm(sch, user, w, Acknowledge(key), neutral);
      EndsEffect(sch, user, w1, key, slug, w', ok, neutral);
      EndsTrace(sch, user, w1, key, slug, w', ok);
      EffectAfterCalm(w, w1, w', user, neutral);
    } else {
      DoCalm(sch, user, w, Acknowledge(key), neutral);
    }
  }

  lemma EndsTrace(sch: Schedule, user: int, w: World, key: TicketKey, slug: string, w': World, ok: bool)
    requires Ends(sch, user, w, key, slug, w', ok)
    ensures w.trace <= w'.trace
  {
    hide Do, Working;
    if Working(sch, user, w, w', key, slug) {
      WorkingTrace(sch, user, w, w', key, slug);
    } else {
      var w1, answer :| Working(sch, user, w, w1, key, slug) && Do(sch, user, w1, Finalize(key)).1
                        && (w', ok) == Do(sch, user, Do(sch, user, w1, Finalize(key)).0, Complete(key, answer));
      WorkingTrace(sch, user, w, w1, key, slug);
      DoTrace(sch, user, w1, Finalize(key));
      DoTrace(sch, user, Do(sch, user, w1, Finalize(key)).0, Complete(key, answer));
    }
  }

  lemma SameQueueSameFirst(t: Tables, t': Tables, user: int)
    requires SameQueue(t, t', user)
    ensures First(t', user) == First(t, user)
  {
    hide Le, Pending;
    if Pending(t, user) != {} {
      LeastUnique(t, Pending(t, user), First(t, user).value, First(t', user).value);
    }
  }

  lemma PendingIsOpen(t: Tables, user: int, key: TicketKey)
    requires key in Pending(t, user)
    ensures key in t.tickets && Completions(t, key, user) == {}
  {
  }

  lemma RunFollows(sch: Schedule, user: int, cfg: Config, w: World)
    ensures Follows(w, Run(sch, user, cfg, w).0)
  {
    if !cfg.ready {
      assert w.history[|w.history|..] == [];
    } else {
      var (w1, listed) := Do(sch, user, w, List);
      DoFollows(sch, user, w, List);
      hide Do, Process, Follows;
      if listed && First(w1.db, user).Some? {
        ProcessFollows(sch, user, cfg, w1, First(w1.db, user).value);
        FollowsTransitive(w, w1, Run(sch, user, cfg, w).0);
      }
    }
  }

  /** A run completes nothing, or one ticket that had no completion by this user. When everyone else
      only comments and posts updates, that ticket is the first of the queue, and a run that
      succeeds has completed it. */
  lemma RunEffect(sch: Schedule, user: int, cfg: Config, w: World, neutral: bool)
    requires Allows(sch, user, neutral) && KeysTrimmed(w.db) && Valid(w, Run(sch, user, cfg, w).0)
    ensures var (w', ok) := Run(sch, user, cfg, w);
            && Effect(w, w', user, neutral)
            && (Finished(w, w').Some? ==> Completions(w.db, Finished(w, w').value, user) == {})
            && (Finished(w, w').Some? && neutral ==> Finished(w, w') == First(w.db, user))
            && (ok && neutral ==> Finished(w, w') == First(w.db, user))
  {
    var (w', ok) := Run(sch, user, cfg, w);
    if !cfg.ready {
      CalmTransitive(w.db, w.db, w.db, user, neutral);
    } else {
      var (w1, listed) := Do(sch, user, w, List);
      DoFollows(sch, user, w, List);
      DoTrace(sch, user, w, List);
      hide Do, Process, Follows, Valid, Allows, SameOrder, Completions, Pending;
      if listed && First(w1.db, user).Some? {
        var key := First(w1.db, user).value;
        ProcessFollows(sch, user, cfg, w1, key);
        FollowsTransitive(w, w1, w');
      }
      DoCalm(sch, user, w, List, neutral);
      if neutral {
        SameQueueSameFirst(w.db, w1.db, user);
      }
      if listed && First(w1.db, user).Some? {
        var key := First(w1.db, user).value;
        PendingIsOpen(w1.db, user, key);
        ProcessEffect(sch, user, cfg, w1, key, neutral);
        EffectAfterCalm(w, w1, w', user, neutral);
      }
    }
  }

  // ---------------------------------------------------------------- many runs

  lemma {:induction false} RunsFollow(sch: Schedule, user: int, cfgs: seq<Config>, w: World)
    ensures Follows(w, Runs(sch, user, cfgs, w))
    decreases |cfgs|
  {
    hide Run;
    if cfgs == [] {
      assert w.history[|w.history|..] == [];
    } else {
      hide Follows;
      var w1 := Runs(sch, user, cfgs[..|cfgs| - 1], w);
      RunsFollow(sch, user, cfgs[..|cfgs| - 1], w);
      RunFollows(sch, user, cfgs[|cfgs| - 1], w1);
      FollowsTransitive(w, w1, Runs(sch, user, cfgs, w));
    }
  }

  ghost predicate CompletedAtMostOnce(t: Tables, user: int) {
    forall key :: |Completions(t, key, user)| <= 1
  }

  lemma EffectKeepsAtMostOnce(w: World, w': World, user: int, neutral: bool)
    requires CompletedAtMostOnce(w.db, user) && KeysTrimmed(w.db) && Effect(w, w', user, neutral)
    requires Finished(w, w').Some? ==> Completions(w.db, Finished(w, w').value, user) == {}
    ensures CompletedAtMostOnce(w'.db, user) && KeysTrimmed(w'.db)
  {
    hide Completions, KeysTrimmed, Pending, SameOrder;
  }

  /** Whatever fails, whatever the model answers and whatever others do in between (short of
      completing tickets under this user's name), no number of runs completes a ticket twice. */
  lemma {:induction false} AtMostOneCompletion(sch: Schedule, user: int, cfgs: seq<Config>, w: World)
    requires Allows(sch, user, false) && Valid(w, Runs(sch, user, cfgs, w))
    requires KeysTrimmed(w.db) && CompletedAtMostOnce(w.db, user)
    ensures CompletedAtMostOnce(Runs(sch, user, cfgs, w).db, user) && KeysTrimmed(Runs(sch, user, cfgs, w).db)
    decreases |cfgs|
  {
    hide Run, Follows, Valid, Allows, KeysTrimmed, CompletedAtMostOnce, Effect, Completions;
    if cfgs != [] {
      var w1 := Runs(sch, user, cfgs[..|cfgs| - 1], w);
      var w' := Runs(sch, user, cfgs, w);
      RunsFollow(sch, user, cfgs[..|cfgs| - 1], w);
      RunFollows(sch, user, cfgs[|cfgs| - 1], w1);
      FollowsTransitive(w, w1, w');
      AtMostOneCompletion(sch, user, cfgs[..|cfgs| - 1], w);
      RunEffect(sch, user, cfgs[|cfgs| - 1], w1, false);
      EffectKeepsAtMostOnce(w1, w', user, false);
    }
  }

  /** A run whose completion was not applied leaves the queue as it was, so that the next run takes
      the same ticket. */
  lemma FailedRunIsRetried(sch: Schedule, user: int, cfg: Config, w: World)
    requires Allows(sch, user, true) && KeysTrimmed(w.db) && Valid(w, Run(sch, user, cfg, w).0)
    requires Finished(w, Run(sch, user, cfg, w).0) == None
    ensures var w' := Run(sch, user, cfg, w).0;
            Pending(w'.db, user) == Pending(w.db, user) && First(w'.db, user) == First(w.db, user)
  {
    RunEffect(sch, user, cfg, w, true);
    hide Run, Valid, Allows, SameOrder, Completions, Pending, KeysTrimmed;
    SameQueueSameFirst(w.db, Run(sch, user, cfg, w).0.db, user);
  }

  /** The tickets that the runs completed, in order. */
  ghost function Drained(sch: Schedule, user: int, cfgs: seq<Config>, w: World): seq<TicketKey>
    decreases |cfgs|
  {
    if cfgs == [] then [] else
      var w1 := Runs(sch, user, cfgs[..|cfgs| - 1], w);
      var finished := Finished(w1, Run(sch, user, cfgs[|cfgs| - 1], w1).0);
      Drained(sch, user, cfgs[..|cfgs| - 1], w) + if finished.Some? then [finished.value] else []
  }

  ghost predicate AllSucceed(sch: Schedule, user: int, cfgs: seq<Config>, w: World)
    decreases |cfgs|
  {
    cfgs != [] ==>
      && AllSucceed(sch, user, cfgs[..|cfgs| - 1], w)
      && Run(sch, user, cfgs[|cfgs| - 1], Runs(sch, user, cfgs[..|cfgs| - 1], w)).1
  }

  /** `rows` are the first `n` of the queue, the rest is still pending, and no order has changed. */
  ghost predicate DrainedTo(t: Tables, t': Tables, user: int, n: nat, rows: seq<TicketKey>) {
    && KeysTrimmed(t') && SameOrder(t, t')
    && IsListing(t, Pending(t, user), n, rows)
    && Pending(t', user) == Pending(t, user) - (set k | k in rows)
  }

  lemma DrainNothing(t: Tables, user: int)
    requires KeysTrimmed(t)
    ensures DrainedTo(t, t, user, 0, [])
  {
    hide Pending, Le, KeysTrimmed;
  }

  lemma DistinctRows(rows: seq<TicketKey>)
    requires forall i, j :: 0 <= i < j < |rows| ==> rows[i] != rows[j]
    ensures |set k | k in rows| == |rows|
  {
    if rows != [] {
      var init := rows[..|rows| - 1];
      DistinctRows(init);
      assert (set k | k in rows) == (set k | k in init) + {rows[|rows| - 1]};
    }
  }

  /** Taking the least of what is left lengthens a listing. */
  lemma ListingGrows(t: Tables, s: set<TicketKey>, n: nat, rows: seq<TicketKey>, key: TicketKey)
    requires s <= t.tickets.Keys && IsListing(t, s, n, rows)
    requires IsLeast(t, s - (set k | k in rows), key)
    ensures IsListing(t, s, n + 1, rows + [key])
  {
    hide Le;
    var more := rows + [key];
    OneMoreFits(s, rows, key);
    forall i, j | 0 <= i < j < |more| ensures more[i] != more[j] && Le(t, more[i], more[j]) {
      if j == |rows| {
        assert rows[i] in rows;
      }
    }
    forall k | k in s && k !in more ensures forall i :: 0 <= i < |more| ==> Le(t, more[i], k) {
      RestIsLater(t, s, rows, key, k);
    }
  }

  lemma RestIsLater(t: Tables, s: set<TicketKey>, rows: seq<TicketKey>, key: TicketKey, k: TicketKey)
    requires s <= t.tickets.Keys && IsLeast(t, s - (set k | k in rows), key) && k in s && k !in rows
    ensures Le(t, key, k)
  {
    hide Le;
    assert k in s - (set k | k in rows);
  }

  lemma OneMoreFits(s: set<TicketKey>, rows: seq<TicketKey>, key: TicketKey)
    requires forall i, j :: 0 <= i < j < |rows| ==> rows[i] != rows[j]
    requires (forall i :: 0 <= i < |rows| ==> rows[i] in s) && key in s && key !in rows
    ensures |rows| < |s|
  {
    DistinctRows(rows);
    var taken := set k | k in rows;
    assert taken + {key} <= s && key !in taken;
    SubsetSize(taken + {key}, s);
  }

  lemma LeastInSameOrder(t: Tables, t': Tables, s: set<TicketKey>, key: TicketKey)
    requires SameOrder(t, t') && s <= t'.tickets.Keys && IsLeast(t', s, key)
    ensures s <= t.tickets.Keys && IsLeast(t, s, key)
  {
    hide Le;
  }

  lemma DrainOneMore(t: Tables, t1: Tables, t2: Tables, user: int, n: nat, rows: seq<TicketKey>, key: TicketKey)
    requires DrainedTo(t, t1, user, n, rows) && First(t1, user) == Some(key)
    requires KeysTrimmed(t2) && SameOrder(t1, t2) && Pending(t2, user) == Pending(t1, user) - {key}
    ensures DrainedTo(t, t2, user, n + 1, rows + [key])
  {
    hide Pending, IsLeast, IsListing, KeysTrimmed, SameOrder;
    SameOrderTransitive(t, t1, t2);
    LeastInSameOrder(t, t1, Pending(t1, user), key);
    ListingGrows(t, Pending(t, user), n, rows, key);
    assert (set k | k in rows + [key]) == (set k | k in rows) + {key};
  }

  lemma NothingLeft<T>(s: set<T>, taken: set<T>)
    requires taken <= s && s - taken == {}
    ensures s == taken
  {
    forall k | k in s ensures k in taken {
      assert k !in s - taken;
    }
  }

  lemma DrainNoMore(t: Tables, t1: Tables, t2: Tables, user: int, n: nat, rows: seq<TicketKey>)
    requires DrainedTo(t, t1, user, n, rows) && First(t1, user) == None
    requires KeysTrimmed(t2) && SameOrder(t1, t2) && Pending(t2, user) == Pending(t1, user)
    ensures DrainedTo(t, t2, user, n + 1, rows)
  {
    hide Pending, Le, KeysTrimmed;
    SameOrderTransitive(t, t1, t2);
    var s := Pending(t, user);
    DistinctRows(rows);
    assert (set k | k in rows) <= s;
    assert s - (set k | k in rows) == {};
    NothingLeft(s, set k | k in rows);
  }

  /** n successful runs complete exactly the first n tickets of the queue, in the order of the
      listing, and leave the others pending (all of them, if fewer than n were pending). */
  lemma {:induction false} SuccessfulRunsDrain(sch: Schedule, user: int, cfgs: seq<Config>, w: World)
    requires Allows(sch, user, true) && Valid(w, Runs(sch, user, cfgs, w)) && KeysTrimmed(w.db)
    requires AllSucceed(sch, user, cfgs, w)
    ensures DrainedTo(w.db, Runs(sch, user, cfgs, w).db, user, |cfgs|, Drained(sch, user, cfgs, w))
    decreases |cfgs|
  {
    hide Run, Follows, Valid, Allows, KeysTrimmed, DrainedTo, Completions, Pending, SameOrder, First;
    if cfgs == [] {
      DrainNothing(w.db, user);
    } else {
      var init, cfg := cfgs[..|cfgs| - 1], cfgs[|cfgs| - 1];
      var w1 := Runs(sch, user, init, w);
      var w2 := Runs(sch, user, cfgs, w);
      RunsFollow(sch, user, init, w);
      RunFollows(sch, user, cfg, w1);
      FollowsTransitive(w, w1, w2);
      SuccessfulRunsDrain(sch, user, init, w);
      DrainKeepsKeys(w.db, w1.db, user, |init|, Drained(sch, user, init, w));
      RunEffect(sch, user, cfg, w1, true);
      if First(w1.db, user).Some? {
        DrainOneMore(w.db, w1.db, w2.db, user, |init|, Drained(sch, user, init, w), First(w1.db, user).value);
      } else {
        assert Drained(sch, user, init, w) + [] == Drained(sch, user, init, w);
        DrainNoMore(w.db, w1.db, w2.db, user, |init|, Drained(sch, user, init, w));
      }
    }
  }

  /** So successful runs take older tickets before newer ones, of one time the higher priority first, and
      of one priority the lower id; and none that is left comes before one that was taken. */
  lemma DrainOrder(sch: Schedule, user: int, cfgs: seq<Config>, w: World)
    requires Allows(sch, user, true) && Valid(w, Runs(sch, user, cfgs, w)) && KeysTrimmed(w.db)
    requires AllSucceed(sch, user, cfgs, w)
    ensures var rows, tickets := Drained(sch, user, cfgs, w), w.db.tickets;
            && (forall i :: 0 <= i < |rows| ==> rows[i] in Pending(w.db, user))
            && (forall i, j :: 0 <= i < j < |rows| ==> Precedes(tickets[rows[i]], tickets[rows[j]]))
            && (forall k :: k in Pending(Runs(sch, user, cfgs, w).db, user) ==>
                  k in tickets && forall i :: 0 <= i < |rows| ==> Precedes(tickets[rows[i]], tickets[k]))
  {
    SuccessfulRunsDrain(sch, user, cfgs, w);
    hide Allows, Valid, KeysTrimmed, AllSucceed, Runs, Drained, Pending, Precedes, SameOrder, Le;
    var rows := Drained(sch, user, cfgs, w);
    RowsPrecede(w.db, Pending(w.db, user), |cfgs|, rows);
  }

  lemma DrainKeepsKeys(t: Tables, t': Tables, user: int, n: nat, rows: seq<TicketKey>)
    requires DrainedTo(t, t', user, n, rows)
    ensures KeysTrimmed(t')
  {
  }
}
