/** Every reachable ticket store: reply threads, update histories, and the law of assignments. */
module TicketRuns {
  import opened Objects
  import opened Text
  import opened TicketTables

  // ---------------------------------------------------------------- runs

  /** An object id that nothing in the tables uses. */
  ghost predicate FreshPk(t: Tables, pk: string) {
    && pk != "" && Trim(pk) == pk
    && pk !in t.comments && pk !in t.notes
    && (forall key :: key in t.tickets ==> t.tickets[key].actorId != pk)
    && (forall v :: v in t.versions ==> v.objectPk != pk)
  }

  /** The identifiers that the program draws at random are new. */
  ghost predicate Fresh(t: Tables, op: Op) {
    match op
    case CreateTicket(_, tracker, _, _, _, _, slug, _) =>
      && slug != "" && Trim(slug) == slug
      && (Trim(tracker), slug) !in t.tickets && FreshPk(t, TicketPk(t.baseUrl, Trim(tracker), slug))
    case CreateComment(_, tracker, ticket, _, _, _, slug, _) =>
      var key := (Trim(tracker), Trim(ticket));
      key in t.tickets ==> FreshPk(t, CommentPk(t.tickets[key].actorId, slug))
    case UpdateTicket(_, _, _, _, updateId, _) => updateId !in t.updates
    case UpdateComment(_, _, _, _, _, updateId, _) => updateId !in t.updates
    case _ => true
  }

  ghost predicate ValidRun(t: Tables, run: seq<(Op, Time)>, now: Time)
    decreases run
  {
    run != [] ==>
      && Fresh(t, run[0].0) && now <= run[0].1
      && ValidRun(After(t, run[0].0, run[0].1), run[1..], run[0].1)
  }

  function Exec(t: Tables, run: seq<(Op, Time)>): Tables
    decreases run
  {
    if run == [] then t else Exec(After(t, run[0].0, run[0].1), run[1..])
  }

  // ---------------------------------------------------------------- the five kinds of change

  datatype Change =
    | Leaves
    | AddsTicket(key: TicketKey, row: Ticket)
    | AddsComment(pk: string, comment: Comment, note: Body)
    | EditsTicket(ticket: TicketKey, version: Version, update: UpdateRow)
    | EditsNote(version: Version, update: UpdateRow)

  /** The rows of tickets, comments and histories move from `t` to `t'` by `c` and nothing else. */
  ghost predicate Made(t: Tables, t': Tables, c: Change) {
    match c
    case Leaves =>
      && t'.tickets == t.tickets && t'.comments == t.comments && t'.notes == t.notes
      && t'.versions == t.versions && t'.updates == t.updates && t'.nextId == t.nextId
    case AddsTicket(key, row) =>
      && t'.tickets == t.tickets[key := row] && t'.comments == t.comments && t'.notes == t.notes
      && t'.versions == t.versions && t'.updates == t.updates && t'.nextId == t.nextId + 1
    case AddsComment(pk, comment, note) =>
      && t'.tickets == t.tickets && t'.comments == t.comments[pk := comment] && t'.notes == t.notes[pk := note]
      && t'.versions == t.versions && t'.updates == t.updates && t'.nextId == t.nextId + 1
    case EditsTicket(key, v, u) =>
      && key in t.tickets && t'.comments == t.comments && t'.notes == t.notes
      && t'.tickets == t.tickets[key := t.tickets[key].(body := Appended(v.body, u.content, u.published))]
      && t'.versions == t.versions + [v] && t'.updates == t.updates[v.updateId := u] && t'.nextId == t.nextId + 1
    case EditsNote(v, u) =>
      && t'.tickets == t.tickets && t'.comments == t.comments
      && t'.notes == t.notes[v.objectPk := Appended(v.body, u.content, u.published)]
      && t'.versions == t.versions + [v] && t'.updates == t.updates[v.updateId := u] && t'.nextId == t.nextId + 1
  }

  ghost predicate EditOk(t: Tables, v: Version, u: UpdateRow, now: Time) {
    && v.id == t.nextId && v.createdAt == now && v.updateId !in t.updates
    && u.objectPk == v.objectPk && u.content != "" && Trim(u.content) == u.content
  }

  ghost predicate ChangeOk(t: Tables, c: Change, now: Time) {
    match c
    case Leaves => true
    case AddsTicket(key, row) => key !in t.tickets && FreshPk(t, row.actorId)
    case AddsComment(pk, comment, note) =>
      && FreshPk(t, pk) && comment.id == t.nextId && comment.ticket in t.tickets
      && pk == CommentPk(t.tickets[comment.ticket].actorId, comment.slug)
      && comment.recipient != "" && comment.recipient == TargetOf(t.tickets[comment.ticket])
      && (comment.parent != "" ==>
            && comment.parent in t.comments && comment.parent == Trim(comment.parent)
            && t.comments[comment.parent].ticket == comment.ticket)
    case EditsTicket(key, v, u) =>
      && key in t.tickets && v.objectPk == t.tickets[key].actorId && v.body == t.tickets[key].body
      && EditOk(t, v, u, now)
    case EditsNote(v, u) =>
      && v.objectPk in t.comments && v.objectPk in t.notes && v.body == t.notes[v.objectPk]
      && EditOk(t, v, u, now)
  }

  function TargetOf(ticket: Ticket): string {
    StringFromAny(ticket.body, Target)
  }

  lemma TrimmedParent(value: string, ticketPk: string)
    ensures var parent := NullString(value, ticketPk); Trim(parent) == parent
  {
    TrimTrimmed("");
    TrimIdempotent(value);
    hide Trim;
  }

  lemma CreateTicketChange(t: Tables, op: Op, now: Time) returns (c: Change)
    requires Fresh(t, op) && op.CreateTicket?
    ensures Made(t, After(t, op, now), c) && ChangeOk(t, c, now) && (c.Leaves? || c.AddsTicket?)
  {
    hide Trim, TicketPk, TicketObject, FreshPk, ApplyCreateComment, ApplyUpdateTicket, ApplyUpdateComment, ApplyAssign;
    if Apply(t, op, now).Err? {
      c := Leaves;
    } else {
      var key := (Trim(op.trackerSlug), op.slug);
      c := AddsTicket(key, After(t, op, now).tickets[key]);
    }
  }

  lemma CreateCommentChange(t: Tables, op: Op, now: Time) returns (c: Change)
    requires Fresh(t, op) && op.CreateComment?
    ensures Made(t, After(t, op, now), c) && ChangeOk(t, c, now) && (c.Leaves? || c.AddsComment?)
  {
    hide CommentObject, FreshPk, CanAccess, ApplyCreateTicket, ApplyUpdateTicket, ApplyUpdateComment, ApplyAssign;
    if Apply(t, op, now).Err? {
      c := Leaves;
    } else {
      var key := LoadTicket(t, op.trackerSlug, op.ticketSlug).value;
      var ticketPk := t.tickets[key].actorId;
      hide Trim, CommentPk, StringFromAny;
      var parent := ResolveParent(t, key, Trim(op.inReplyTo), TargetOf(t.tickets[key])).value;
      TrimmedParent(parent, ticketPk);
      TrimIdempotent(op.inReplyTo);
      var pk := CommentPk(ticketPk, op.slug);
      c := AddsComment(pk, After(t, op, now).comments[pk], After(t, op, now).notes[pk]);
    }
  }

  lemma UpdateTicketChange(t: Tables, op: Op, now: Time) returns (c: Change)
    requires Fresh(t, op) && op.UpdateTicket?
    ensures Made(t, After(t, op, now), c) && ChangeOk(t, c, now) && (c.Leaves? || c.EditsTicket?)
  {
    hide Trim, CanAccess, LoadActor, Appended, ApplyCreateTicket, ApplyCreateComment, ApplyUpdateComment, ApplyAssign;
    TrimIdempotent(op.content);
    if Apply(t, op, now).Err? {
      c := Leaves;
    } else {
      var key := LoadTicket(t, op.trackerSlug, op.ticketSlug).value;
      var v := Version(t.nextId, t.tickets[key].actorId, "Ticket", t.tickets[key].body, op.updateId, op.user, now);
      c := EditsTicket(key, v, UpdateRow(v.objectPk, Trim(op.content), op.published));
    }
  }

  lemma UpdateCommentChange(t: Tables, op: Op, now: Time) returns (c: Change)
    requires Fresh(t, op) && op.UpdateComment?
    ensures Made(t, After(t, op, now), c) && ChangeOk(t, c, now) && (c.Leaves? || c.EditsNote?)
  {
    hide Trim, CanAccess, LoadActor, Appended, CommentPk, ApplyCreateTicket, ApplyCreateComment, ApplyUpdateTicket,
        ApplyAssign;
    TrimIdempotent(op.content);
    if Apply(t, op, now).Err? {
      c := Leaves;
    } else {
      var pk := LoadComment(t, op.trackerSlug, op.ticketSlug, op.commentSlug).value;
      var v := Version(t.nextId, pk, "Note", t.notes[pk], op.updateId, op.user, now);
      c := EditsNote(v, UpdateRow(pk, Trim(op.content), op.published));
    }
  }

  /** Every operation makes one of the five changes. */
  lemma OpChange(t: Tables, op: Op, now: Time) returns (c: Change)
    requires Fresh(t, op)
    ensures Made(t, After(t, op, now), c) && ChangeOk(t, c, now)
  {
    hide Made, ChangeOk, Fresh, FreshPk;
    match op
    case CreateTicket(_, _, _, _, _, _, _, _) => c := CreateTicketChange(t, op, now);
    case CreateComment(_, _, _, _, _, _, _, _) => c := CreateCommentChange(t, op, now);
    case UpdateTicket(_, _, _, _, _, _) => c := UpdateTicketChange(t, op, now);
    case UpdateComment(_, _, _, _, _, _, _) => c := UpdateCommentChange(t, op, now);
    case _ => c := Leaves; TablesLeave(t, op, now);
  }

  /** Users, members, repositories, trackers and assignments are other rows. */
  lemma TablesLeave(t: Tables, op: Op, now: Time)
    requires !op.CreateTicket? && !op.CreateComment? && !op.UpdateTicket? && !op.UpdateComment?
    ensures Made(t, After(t, op, now), Leaves) && ChangeOk(t, Leaves, now)
  {
    hide ApplyCreateTicket, ApplyCreateComment, ApplyUpdateTicket, ApplyUpdateComment, ApplyAssign;
    if op.Assign? && ApplyAssign(t, op).Ok? {
      AssignLeaves(t, op);
    }
  }

  lemma AssignLeaves(t: Tables, op: Op)
    requires op.Assign? && ApplyAssign(t, op).Ok?
    ensures var t' := ApplyAssign(t, op).value;
            t' == t.(assignees := t'.assignees, notices := t'.notices)
  {
    var (key, assignee) := AssignTarget(t, op).value;
    ReassignLeaves(t, op.user, if Trim(op.action) == "" then "add" else Trim(op.action), key, assignee);
    hide Trim, AssignTarget, Reassigned;
  }

  lemma ReassignLeaves(t: Tables, user: int, action: string, key: TicketKey, assignee: int)
    requires key in t.tickets && Reassigned(t, user, action, key, assignee).Ok?
    ensures var t' := Reassigned(t, user, action, key, assignee).value;
            t' == t.(assignees := t'.assignees, notices := t'.notices)
  {
    if action == "add" {
      if (key, assignee) !in t.assignees {
        var rows, notices := t.assignees + {(key, assignee)},
            t.notices + [Notice(assignee, key, t.tickets[key].repository, user)];
        assert Reassigned(t, user, action, key, assignee).value == t.(assignees := rows, notices := notices);
      }
    }
  }

  // ---------------------------------------------------------------- threads

  ghost predicate TicketOk(t: Tables, key: TicketKey)
    requires key in t.tickets
  {
    var ticket := t.tickets[key];
    && ticket.actorId != "" && Trim(ticket.actorId) == ticket.actorId
    && ticket.actorId !in t.comments
    && (forall other :: other in t.tickets && t.tickets[other].actorId == ticket.actorId ==> other == key)
  }

  ghost predicate CommentOk(t: Tables, pk: string)
    requires pk in t.comments
  {
    var row := t.comments[pk];
    && pk != "" && Trim(pk) == pk && 0 <= row.id < t.nextId
    && row.ticket in t.tickets && pk == CommentPk(t.tickets[row.ticket].actorId, row.slug)
    && row.recipient != "" && row.recipient == TargetOf(t.tickets[row.ticket])
    && (row.parent != "" ==>
          && row.parent in t.comments && row.parent == Trim(row.parent)
          && t.comments[row.parent].ticket == row.ticket && t.comments[row.parent].id < row.id)
  }

  ghost predicate Threads(t: Tables) {
    && 0 <= t.nextId && t.notes.Keys == t.comments.Keys
    && (forall key :: key in t.tickets ==> TicketOk(t, key))
    && (forall pk :: pk in t.comments ==> CommentOk(t, pk))
  }

  /** Rows are kept, and nothing about a thread is ever rewritten. */
  ghost predicate Preserved(t: Tables, t': Tables) {
    && (forall key :: key in t.tickets ==> key in t'.tickets && SameTicket(t.tickets[key], t'.tickets[key]))
    && (forall pk :: pk in t.comments ==> pk in t'.comments && t'.comments[pk] == t.comments[pk])
    && t.nextId <= t'.nextId
  }

  ghost predicate SameTicket(a: Ticket, b: Ticket) {
    && b.(body := a.body) == a && TargetOf(b) == TargetOf(a)
  }

  lemma AppendedKeepsTarget(body: Body, update: string, published: string)
    ensures StringFromAny(Appended(body, update, published), Target) == StringFromAny(body, Target)
  {
    AppendedEffect(body, update, published);
    hide Appended, Shows;
    assert Framed(Target);
  }

  lemma ChangePreserves(t: Tables, t': Tables, c: Change, now: Time)
    requires Made(t, t', c) && ChangeOk(t, c, now)
    ensures Preserved(t, t')
    ensures t.notes.Keys == t.comments.Keys ==> t'.notes.Keys == t'.comments.Keys
  {
    hide StringFromAny, Appended, Trim, FreshPk, CommentPk;
    if c.EditsTicket? {
      AppendedKeepsTarget(c.version.body, c.update.content, c.update.published);
    }
    if c.AddsComment? {
      FreshIsNew(t, c.pk);
    }
  }

  lemma FreshIsNew(t: Tables, pk: string)
    requires FreshPk(t, pk)
    ensures pk !in t.comments && pk !in t.notes
  {
  }

  lemma CommentStays(t: Tables, t': Tables, pk: string)
    requires Preserved(t, t') && pk in t.comments && CommentOk(t, pk)
    ensures pk in t'.comments && CommentOk(t', pk)
  {
    hide TargetOf, Trim, CommentPk;
  }

  lemma TicketStays(t: Tables, t': Tables, c: Change, now: Time, key: TicketKey)
    requires Threads(t) && Made(t, t', c) && ChangeOk(t, c, now) && key in t'.tickets
    ensures TicketOk(t', key)
  {
    hide Trim, CommentPk, Appended, TargetOf, CommentOk;
    assert forall k :: k in t.tickets ==> TicketOk(t, k);
  }

  lemma CommentAdded(t: Tables, t': Tables, c: Change, now: Time)
    requires Threads(t) && Made(t, t', c) && ChangeOk(t, c, now) && c.AddsComment?
    ensures c.pk in t'.comments && CommentOk(t', c.pk)
  {
    hide Trim, CommentPk, TargetOf, TicketOk;
    if c.comment.parent != "" {
      assert CommentOk(t, c.comment.parent);
      FreshIsNew(t, c.pk);
    }
  }

  lemma ChangeThreads(t: Tables, t': Tables, c: Change, now: Time)
    requires Threads(t) && Made(t, t', c) && ChangeOk(t, c, now)
    ensures Threads(t')
  {
    hide TicketOk, CommentOk, ChangeOk;
    ChangePreserves(t, t', c, now);
    forall key | key in t'.tickets ensures TicketOk(t', key) {
      TicketStays(t, t', c, now, key);
    }
    forall pk | pk in t'.comments ensures CommentOk(t', pk) {
      if c.AddsComment? && c.pk == pk {
        CommentAdded(t, t', c, now);
      } else {
        CommentStays(t, t', pk);
      }
    }
  }

  lemma StepThreads(t: Tables, op: Op, now: Time)
    requires Fresh(t, op)
    ensures Threads(t) ==> Threads(After(t, op, now))
    ensures Preserved(t, After(t, op, now))
  {
    var c := OpChange(t, op, now);
    hide Apply, After, Threads, Made, ChangeOk, Fresh;
    ChangePreserves(t, After(t, op, now), c, now);
    if Threads(t) {
      ChangeThreads(t, After(t, op, now), c, now);
    }
  }

  lemma PreservedTransitive(a: Tables, b: Tables, c: Tables)
    ensures Preserved(a, a)
    ensures Preserved(a, b) && Preserved(b, c) ==> Preserved(a, c)
  {
    hide TargetOf;
  }

  /** Over any run, rows are never lost and a comment's parent, ticket, recipient and slug, and a
      ticket's target, never change. */
  lemma {:induction false} RunThreads(t: Tables, run: seq<(Op, Time)>, now: Time)
    requires ValidRun(t, run, now)
    ensures Threads(t) ==> Threads(Exec(t, run))
    ensures Preserved(t, Exec(t, run))
    decreases run
  {
    PreservedTransitive(t, t, t);
    if run != [] {
      hide Threads, Preserved, Apply, After;
      var t1 := After(t, run[0].0, run[0].1);
      StepThreads(t, run[0].0, run[0].1);
      RunThreads(t1, run[1..], run[0].1);
      PreservedTransitive(t, t1, Exec(t, run));
    }
  }

  ghost predicate Empty(t: Tables) {
    && t.tickets == map[] && t.comments == map[] && t.notes == map[] && t.versions == [] && t.updates == map[]
    && t.assignees == {} && t.notices == [] && 0 <= t.nextId
  }

  // ---------------------------------------------------------------- the reply forest

  /** A comment, its parent, its parent's parent, ... */
  ghost function Ancestors(t: Tables, pk: string): seq<string>
    requires Threads(t) && pk in t.comments
    decreases if CommentOk(t, pk) then t.comments[pk].id else 0
  {
    assert CommentOk(t, pk);
    var parent := t.comments[pk].parent;
    if parent == "" then [pk] else
      assert CommentOk(t, parent);
      [pk] + Ancestors(t, parent)
  }

  /** `path` follows parents from `pk` to a root, on one ticket, with one recipient, and never
      meets a comment twice. */
  ghost predicate LeadsToRoot(t: Tables, path: seq<string>, pk: string)
    requires pk in t.comments
  {
    && path != [] && path[0] == pk
    && (forall i :: 0 <= i < |path| ==>
          && path[i] in t.comments && t.comments[path[i]].ticket == t.comments[pk].ticket
          && t.comments[path[i]].recipient == t.comments[pk].recipient)
    && (forall i :: 0 <= i < |path| - 1 ==> t.comments[path[i]].parent == path[i + 1])
    && (forall i, j :: 0 <= i < j < |path| ==> t.comments[path[i]].id > t.comments[path[j]].id)
    && t.comments[path[|path| - 1]].parent == ""
  }

  lemma LongerPath(t: Tables, path: seq<string>, parent: string, pk: string)
    requires parent in t.comments && pk in t.comments && LeadsToRoot(t, path, parent)
    requires t.comments[pk].parent == parent && t.comments[parent].id < t.comments[pk].id
    requires t.comments[parent].ticket == t.comments[pk].ticket
    requires t.comments[parent].recipient == t.comments[pk].recipient
    ensures LeadsToRoot(t, [pk] + path, pk)
  {
    var longer := [pk] + path;
    assert forall i :: 0 < i < |longer| ==> longer[i] == path[i - 1];
    assert forall j :: 0 < j < |path| ==> t.comments[path[0]].id > t.comments[path[j]].id;
  }

  /** Replies form a forest, whose recipients are the tickets' targets. */
  lemma {:induction false} RepliesFormAForest(t: Tables, pk: string)
    requires Threads(t) && pk in t.comments
    ensures LeadsToRoot(t, Ancestors(t, pk), pk)
    ensures t.comments[pk].ticket in t.tickets
            && t.comments[pk].recipient == TargetOf(t.tickets[t.comments[pk].ticket])
    decreases t.comments[pk].id
  {
    hide TargetOf, Trim, CommentPk, LeadsToRoot;
    assert CommentOk(t, pk);
    var parent := t.comments[pk].parent;
    if parent != "" {
      assert CommentOk(t, parent);
      RepliesFormAForest(t, parent);
      LongerPath(t, Ancestors(t, parent), parent, pk);
    } else {
      RootPath(t, pk);
    }
  }

  /** So in every store that a run reaches from an empty one. */
  lemma ReachableForest(t: Tables, run: seq<(Op, Time)>, now: Time)
    requires Empty(t) && ValidRun(t, run, now)
    ensures Threads(Exec(t, run))
    ensures forall pk :: pk in Exec(t, run).comments ==>
              exists path: seq<string> :: LeadsToRoot(Exec(t, run), path, pk)
  {
    RunThreads(t, run, now);
    var t' := Exec(t, run);
    hide Threads, LeadsToRoot, Empty;
    forall pk | pk in t'.comments
      ensures exists path: seq<string> :: LeadsToRoot(t', path, pk)
    {
      RepliesFormAForest(t', pk);
    }
  }

  lemma RootPath(t: Tables, pk: string)
    requires pk in t.comments && t.comments[pk].parent == ""
    ensures LeadsToRoot(t, [pk], pk)
  {
  }

  /** In a reachable store the recipient check on a parent can never fail. */
  lemma ParentRecipientAlwaysMatches(t: Tables, key: TicketKey, inReplyTo: string)
    requires Threads(t) && key in t.tickets && inReplyTo in t.comments && t.comments[inReplyTo].ticket == key
    ensures ResolveParent(t, key, inReplyTo, TargetOf(t.tickets[key])).Some?
  {
    assert CommentOk(t, inReplyTo);
    hide TargetOf, Trim;
  }

  /** Storing a parent and listing it are inverse, the ticket standing for NULL. */
  lemma ParentRoundTrip(parent: string, ticketPk: string)
    requires parent != "" && Trim(parent) == parent && ticketPk != "" && Trim(ticketPk) == ticketPk
    ensures ParentView(NullString(parent, ticketPk), ticketPk) == (parent, parent == ticketPk)
    ensures NullString(parent, ticketPk) == "" <==> parent == ticketPk
  {
    TrimTrimmed("");
  }

  /** A listing shows each stored comment as a reply to its ticket exactly when it is a root, and
      otherwise to the parent in its row. */
  lemma ListedParents(t: Tables, pk: string)
    requires Threads(t) && pk in t.comments
    ensures var row := t.comments[pk];
            && row.ticket in t.tickets
            && var view := ParentView(row.parent, t.tickets[row.ticket].actorId);
               && (view.1 <==> row.parent == "")
               && (row.parent == "" ==> view.0 == t.tickets[row.ticket].actorId)
               && (row.parent != "" ==> view.0 == row.parent)
  {
    assert CommentOk(t, pk);
    var row := t.comments[pk];
    assert TicketOk(t, row.ticket);
    TrimTrimmed("");
    hide TargetOf, CommentPk, Trim;
  }
}
