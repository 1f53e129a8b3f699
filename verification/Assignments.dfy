/** Assignments and their notifications over whole runs (src/internal/common/store_ticket.go). */
module Assignments {
  import opened Sequences
  import opened TicketRuns
  import opened TicketTables
  import opened Wrappers

  function NoticesOf(t: Tables, key: TicketKey, user: int): nat {
    |Filter(About(key, user), t.notices)|
  }

  function About(key: TicketKey, user: int): Notice -> bool {
    (n: Notice) => n.ticket == key && n.user == user
  }

  predicate Assigned(t: Tables, key: TicketKey, user: int) {
    (key, user) in t.assignees
  }

  /** The operation assigns the user, who was not assigned. */
  predicate Adds(t: Tables, op: Op, now: Time, key: TicketKey, user: int) {
    !Assigned(t, key, user) && Assigned(After(t, op, now), key, user)
  }

  predicate Removes(t: Tables, op: Op, now: Time, key: TicketKey, user: int) {
    Assigned(t, key, user) && !Assigned(After(t, op, now), key, user)
  }

  function Removals(t: Tables, run: seq<(Op, Time)>, key: TicketKey, user: int): nat
    decreases run
  {
    if run == [] then 0 else
      (if Removes(t, run[0].0, run[0].1, key, user) then 1 else 0)
      + Removals(After(t, run[0].0, run[0].1), run[1..], key, user)
  }

  function Bit(b: bool): int {
    if b then 1 else 0
  }

  lemma OthersLeaveAssignments(t: Tables, op: Op, now: Time)
    requires !op.Assign?
    ensures After(t, op, now).assignees == t.assignees && After(t, op, now).notices == t.notices
  {
    hide Text.Trim, CanAccess, TicketPk, CommentPk, NullString, LoadActor, ResolveParent, LoadTicket, LoadComment;
    hide Objects.Appended, Objects.TicketObject, Objects.CommentObject, Objects.StringFromAny;
  }

  /** An assignment operation that does anything names one ticket and looks up one user, both
      parties having access. */
  ghost predicate AssignsOrRemoves(t: Tables, t': Tables, op: Op, key: TicketKey, user: int) {
    && op.Assign? && key in t.tickets
    && CanAccess(t, t.tickets[key].repository, op.user) && CanAccess(t, t.tickets[key].repository, user)
    && (|| (!Assigned(t, key, user)
            && t'.assignees == t.assignees + {(key, user)}
            && t'.notices == t.notices + [Notice(user, key, t.tickets[key].repository, op.user)])
        || (t'.assignees == t.assignees - {(key, user)} && t'.notices == t.notices))
  }

  lemma AssignmentTables(t: Tables, op: Op, now: Time)
    ensures var t' := After(t, op, now);
            || (t'.assignees == t.assignees && t'.notices == t.notices)
            || exists key, user :: AssignsOrRemoves(t, t', op, key, user)
  {
    if !op.Assign? {
      OthersLeaveAssignments(t, op, now);
    } else if AssignTarget(t, op).Some? {
      var (key, user) := AssignTarget(t, op).value;
      TargetHasAccess(t, op);
      var action := if Text.Trim(op.action) == "" then "add" else Text.Trim(op.action);
      if Reassigned(t, op.user, action, key, user).Ok? {
        ReassignChanges(t, op.user, action, key, user);
      }
      hide Text.Trim, AssignTarget, CanAccess, Reassigned;
      assert Reassigned(t, op.user, action, key, user).Ok? ==>
          After(t, op, now) == Reassigned(t, op.user, action, key, user).value;
      assert After(t, op, now) == t || AssignsOrRemoves(t, After(t, op, now), op, key, user);
    }
  }

  lemma ReassignChanges(t: Tables, actor: int, action: string, key: TicketKey, user: int)
    requires key in t.tickets && Reassigned(t, actor, action, key, user).Ok?
    ensures var t' := Reassigned(t, actor, action, key, user).value;
            || t' == t
            || (!Assigned(t, key, user)
                && t'.assignees == t.assignees + {(key, user)}
                && t'.notices == t.notices + [Notice(user, key, t.tickets[key].repository, actor)])
            || (t'.assignees == t.assignees - {(key, user)} && t'.notices == t.notices)
  {
    if action == "add" {
      assert (key, user) in t.assignees || !Assigned(t, key, user);
    }
  }

  lemma TargetHasAccess(t: Tables, op: Op)
    requires op.Assign? && AssignTarget(t, op).Some?
    ensures var (key, user) := AssignTarget(t, op).value;
            && CanAccess(t, t.tickets[key].repository, op.user)
            && CanAccess(t, t.tickets[key].repository, user)
  {
    hide Text.Trim, CanAccess;
  }

  /** One notification per effective add, none otherwise. */
  lemma StepNotices(t: Tables, op: Op, now: Time, key: TicketKey, user: int)
    ensures NoticesOf(After(t, op, now), key, user) == NoticesOf(t, key, user) + Bit(Adds(t, op, now, key, user))
  {
    AssignmentTables(t, op, now);
    hide After, CanAccess, LoadTicket, Text.Trim;
    var t' := After(t, op, now);
    if t'.notices != t.notices {
      var k, u :| AssignsOrRemoves(t, t', op, k, u);
      FilterSnoc(About(key, user), t.notices, Notice(u, k, t.tickets[k].repository, op.user));
      hide Filter;
    }
  }

  /** Conservation: for each ticket and user, notifications minus effective removals moves exactly
      with the assignment, over every sequence of operations, memberships changing in between. */
  lemma {:induction false} AssignmentLaw(t: Tables, run: seq<(Op, Time)>, key: TicketKey, user: int)
    ensures var t' := Exec(t, run);
            NoticesOf(t', key, user) - Removals(t, run, key, user) - Bit(Assigned(t', key, user))
            == NoticesOf(t, key, user) - Bit(Assigned(t, key, user))
    decreases run
  {
    if run != [] {
      var (op, now) := run[0];
      hide After, NoticesOf;
      StepNotices(t, op, now, key, user);
      AssignmentLaw(After(t, op, now), run[1..], key, user);
    }
  }

  /** From a store without assignments or notifications: created minus removed is 1 if assigned
      and 0 otherwise. */
  lemma AssignmentsConserved(t: Tables, run: seq<(Op, Time)>, key: TicketKey, user: int)
    requires t.assignees == {} && t.notices == []
    ensures NoticesOf(Exec(t, run), key, user) - Removals(t, run, key, user) == Bit(Assigned(Exec(t, run), key, user))
  {
    AssignmentLaw(t, run, key, user);
  }

  /** Removing an assignment succeeds exactly while both parties have access. */
  lemma RemovalExact(t: Tables, op: Op, now: Time, key: TicketKey, user: int)
    requires op.Assign? && Text.Trim(op.action) == "remove" && Assigned(t, key, user)
    requires LoadTicket(t, op.trackerSlug, op.ticketSlug) == Some(key)
    requires Text.Trim(op.username) != "" && Text.Trim(op.username) in t.usernames
    requires t.usernames[Text.Trim(op.username)] == user && user in t.actors
    ensures var repository := t.tickets[key].repository;
            Removes(t, op, now, key, user) <==> CanAccess(t, repository, op.user) && CanAccess(t, repository, user)
  {
    hide Text.Trim;
  }

  /** Every effective add or removal happens while the acting user and the assignee both have
      access; so an assignment whose assignee has lost access cannot be changed. */
  lemma ChangesNeedAccess(t: Tables, op: Op, now: Time, key: TicketKey, user: int)
    requires Adds(t, op, now, key, user) || Removes(t, op, now, key, user)
    ensures op.Assign? && key in t.tickets
            && CanAccess(t, t.tickets[key].repository, op.user) && CanAccess(t, t.tickets[key].repository, user)
  {
    AssignmentTables(t, op, now);
    hide After, CanAccess, Text.Trim;
  }
}
