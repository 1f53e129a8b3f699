/** The agent's work queue: the assigned tickets it has not completed, oldest first
    (ListAssignedTicketsForUser in src/internal/common/oauth.go), and what operations do to it. */
module AgentQueue {
  import opened Objects
  import opened Text
  import opened TicketRuns
  import opened TicketTables
  import opened Wrappers

  function KindOf(note: Body): string {
    if AgentCommentKind in note && note[AgentCommentKind].Str? then note[AgentCommentKind].s else ""
  }

  /** The user's completion comments on the ticket. */
  function Completions(t: Tables, key: TicketKey, user: int): set<string> {
    set pk | pk in t.comments && t.comments[pk].ticket == key && t.comments[pk].author == user
             && pk in t.notes && KindOf(t.notes[pk]) == COMPLETION
  }

  predicate Responded(t: Tables, key: TicketKey, user: int) {
    exists pk | pk in t.comments :: t.comments[pk].ticket == key && t.comments[pk].author == user
  }

  /** The joins and the access test of the listing. */
  predicate Visible(t: Tables, key: TicketKey, user: int)
    requires key in t.tickets
  {
    var ticket := t.tickets[key];
    && (key, user) in t.assignees && ticket.isLocal
    && key.0 in t.trackers && ticket.repository in t.repositories
    && ((user in t.users && t.users[user]) || (ticket.repository, user) in t.members)
  }

  datatype ListOptions = ListOptions(limit: int, unrespondedOnly: bool, completionPendingOnly: bool)

  function Selected(t: Tables, user: int, o: ListOptions): (s: set<TicketKey>)
    ensures s <= t.tickets.Keys
  {
    if user <= 0 then {} else
      set key | && key in t.tickets && Visible(t, key, user)
                && (o.unrespondedOnly ==> !Responded(t, key, user))
                && (o.completionPendingOnly ==> Completions(t, key, user) == {})
  }

  const NEXT := ListOptions(1, false, true)

  function Pending(t: Tables, user: int): (s: set<TicketKey>)
    ensures s <= t.tickets.Keys
  {
    Selected(t, user, NEXT)
  }

  // ---------------------------------------------------------------- the order of the queue

  predicate KeyLe(a: TicketKey, b: TicketKey) {
    if a.0 == b.0 then StringLe(a.1, b.1) else StringLe(a.0, b.0)
  }

  /** created_at ascending, priority descending, id ascending; ids are unique in the database, so the
      last alternative only makes the order total on arbitrary tables. */
  predicate Le(t: Tables, a: TicketKey, b: TicketKey)
    requires a in t.tickets && b in t.tickets
  {
    var x, y := t.tickets[a], t.tickets[b];
    if x.createdAt != y.createdAt then x.createdAt < y.createdAt
    else if x.priority != y.priority then x.priority > y.priority
    else if x.id != y.id then x.id < y.id
    else KeyLe(a, b)
  }

  lemma KeyLeOrder(a: TicketKey, b: TicketKey, c: TicketKey)
    ensures KeyLe(a, b) || KeyLe(b, a)
    ensures KeyLe(a, b) && KeyLe(b, a) ==> a == b
    ensures KeyLe(a, b) && KeyLe(b, c) ==> KeyLe(a, c)
  {
    StringLeTotal(a.0, b.0);
    StringLeTotal(b.0, c.0);
    StringLeTotal(a.1, b.1);
    hide StringLe;
    if KeyLe(a, b) && KeyLe(b, c) {
      if a.0 == b.0 == c.0 {
        StringLeTransitive(a.1, b.1, c.1);
      } else if a.0 != b.0 && b.0 != c.0 {
        StringLeTransitive(a.0, b.0, c.0);
      }
    }
  }

  lemma LeOrder(t: Tables, a: TicketKey, b: TicketKey, c: TicketKey)
    requires a in t.tickets && b in t.tickets && c in t.tickets
    ensures Le(t, a, b) || Le(t, b, a)
    ensures Le(t, a, b) && Le(t, b, a) ==> a == b
    ensures Le(t, a, b) && Le(t, b, c) ==> Le(t, a, c)
  {
    KeyLeOrder(a, b, c);
    hide KeyLe;
  }

  ghost predicate IsLeast(t: Tables, s: set<TicketKey>, k: TicketKey)
    requires s <= t.tickets.Keys
  {
    k in s && forall x :: x in s ==> Le(t, k, x)
  }

  lemma LeastUnique(t: Tables, s: set<TicketKey>, a: TicketKey, b: TicketKey)
    requires s <= t.tickets.Keys && IsLeast(t, s, a) && IsLeast(t, s, b)
    ensures a == b
  {
    LeOrder(t, a, b, b);
    hide Le;
  }

  lemma {:induction false} LeastExists(t: Tables, s: set<TicketKey>) returns (k: TicketKey)
    requires s != {} && s <= t.tickets.Keys
    ensures IsLeast(t, s, k)
  {
    hide Le;
    var x :| x in s;
    LeOrder(t, x, x, x);
    k := x;
    if s != {x} {
      assert s - {x} == {} ==> s == {x};
      var y := LeastExists(t, s - {x});
      LeOrder(t, x, y, y);
      k := if Le(t, x, y) then x else y;
      forall z | z in s ensures Le(t, k, z) {
        LeOrder(t, x, y, z);
      }
    }
  }

  /** The ticket the next run takes. */
  ghost function First(t: Tables, user: int): (r: Option<TicketKey>)
    ensures r.None? <==> Pending(t, user) == {}
    ensures r.Some? ==> IsLeast(t, Pending(t, user), r.value)
  {
    if Pending(t, user) == {} then None else
      assert exists k :: IsLeast(t, Pending(t, user), k) by { var k := LeastExists(t, Pending(t, user)); }
      var k :| IsLeast(t, Pending(t, user), k);
      Some(k)
  }

  // ---------------------------------------------------------------- the listing

  function ListLimit(limit: int): nat {
    if limit <= 0 then 20 else if limit > 100 then 100 else limit
  }

  /** The first rows of the selection, in order; everything cut off comes later. */
  ghost predicate IsListing(t: Tables, selected: set<TicketKey>, n: nat, rows: seq<TicketKey>)
    requires selected <= t.tickets.Keys
  {
    && |rows| == (if |selected| <= n then |selected| else n)
    && (forall i :: 0 <= i < |rows| ==> rows[i] in selected)
    && (forall i, j :: 0 <= i < j < |rows| ==> rows[i] != rows[j] && Le(t, rows[i], rows[j]))
    && (forall k :: k in selected && k !in rows ==> forall i :: 0 <= i < |rows| ==> Le(t, rows[i], k))
  }

  /** The rows chosen so far come before the rest of the selection. */
  ghost predicate Chosen(t: Tables, selected: set<TicketKey>, rest: set<TicketKey>, rows: seq<TicketKey>) {
    && rest <= selected <= t.tickets.Keys && |rest| + |rows| == |selected|
    && (forall i :: 0 <= i < |rows| ==> rows[i] in selected && rows[i] !in rest)
    && (forall k :: k in selected ==> k in rest || k in rows)
    && (forall i, k :: 0 <= i < |rows| && k in rest ==> Le(t, rows[i], k))
    && (forall i, j :: 0 <= i < j < |rows| ==> rows[i] != rows[j] && Le(t, rows[i], rows[j]))
  }

  lemma ChosenMore(t: Tables, selected: set<TicketKey>, rest: set<TicketKey>, rows: seq<TicketKey>, k: TicketKey)
    requires Chosen(t, selected, rest, rows) && IsLeast(t, rest, k)
    ensures Chosen(t, selected, rest - {k}, rows + [k])
  {
    hide Le;
  }

  method FindLeast(t: Tables, s: set<TicketKey>) returns (k: TicketKey)
    requires s != {} && s <= t.tickets.Keys
    ensures IsLeast(t, s, k)
  {
    hide Le;
    k :| k in s;
    LeOrder(t, k, k, k);
    var rest := s - {k};
    while rest != {}
      invariant rest <= s && k in s && k !in rest
      invariant forall x :: x in s && x !in rest ==> Le(t, k, x)
      decreases |rest|
    {
      var x :| x in rest;
      rest := rest - {x};
      if !Le(t, k, x) {
        forall y | y in s && y !in rest ensures Le(t, x, y) {
          LeOrder(t, x, k, y);
          LeOrder(t, x, x, x);
        }
        k := x;
      }
    }
  }

  method ListAssignedTicketsForUser(t: Tables, user: int, options: ListOptions) returns (rows: seq<TicketKey>)
    ensures IsListing(t, Selected(t, user, options), if user <= 0 then 0 else ListLimit(options.limit), rows)
  {
    hide Le, Visible, Responded, Completions;
    rows := [];
    if user <= 0 {
      return;
    }
    var limit := options.limit;
    if limit <= 0 {
      limit := 20;
    }
    if limit > 100 {
      limit := 100;
    }
    var selected := Selected(t, user, options);
    hide Selected;
    var rest := selected;
    while rest != {} && |rows| < limit
      invariant |rows| <= limit && Chosen(t, selected, rest, rows)
      decreases |rest|
    {
      hide Chosen;
      var k := FindLeast(t, rest);
      ChosenMore(t, selected, rest, rows, k);
      rows := rows + [k];
      rest := rest - {k};
    }
  }

  /** With limit 1 the listing is the first pending ticket, or nothing when none is pending. */
  lemma ListingOfOne(t: Tables, user: int, rows: seq<TicketKey>)
    requires IsListing(t, Pending(t, user), if user <= 0 then 0 else 1, rows)
    ensures First(t, user) == if rows == [] then None else Some(rows[0])
  {
    hide Le, Visible, Responded, Completions;
    var s := Pending(t, user);
    if rows != [] {
      LeOrder(t, rows[0], rows[0], rows[0]);
      assert forall k :: k in s ==> k == rows[0] || k !in rows;
      LeastUnique(t, s, rows[0], First(t, user).value);
    }
  }

  // ---------------------------------------------------------------- what the listing means

  /** A completion comment of the user on the ticket is stored. */
  ghost predicate HasCompleted(t: Tables, key: TicketKey, user: int) {
    exists pk :: pk in t.comments && t.comments[pk].ticket == key && t.comments[pk].author == user
                 && pk in t.notes && AgentCommentKind in t.notes[pk] && t.notes[pk][AgentCommentKind] ==
                     Str("completion")
  }

  lemma CompletionsExact(t: Tables, key: TicketKey, user: int)
    ensures Completions(t, key, user) != {} <==> HasCompleted(t, key, user)
  {
    if HasCompleted(t, key, user) {
      var pk :| pk in t.comments && t.comments[pk].ticket == key && t.comments[pk].author == user
                && pk in t.notes && AgentCommentKind in t.notes[pk]
                && t.notes[pk][AgentCommentKind] == Str("completion");
      assert pk in Completions(t, key, user);
    } else {
      assert forall pk :: pk !in Completions(t, key, user);
    }
  }

  /** The rows selected for a user: tickets assigned to them, local, with tracker and repository, that an
      administrator or a member of the repository sees, less those the options leave out. */
  lemma SelectedExact(t: Tables, user: int, o: ListOptions, key: TicketKey)
    ensures key in Selected(t, user, o) <==>
              && 0 < user && key in t.tickets && (key, user) in t.assignees && t.tickets[key].isLocal
              && key.0 in t.trackers && t.tickets[key].repository in t.repositories
              && ((user in t.users && t.users[user]) || (t.tickets[key].repository, user) in t.members)
              && (o.unrespondedOnly ==>
                    !exists pk :: pk in t.comments && t.comments[pk].ticket == key && t.comments[pk].author == user)
              && (o.completionPendingOnly ==> !HasCompleted(t, key, user))
  {
    CompletionsExact(t, key, user);
    hide Completions, HasCompleted;
  }

  /** What an agent asks for: the tickets it sees that it has not completed. */
  lemma PendingExact(t: Tables, user: int, key: TicketKey)
    ensures key in Pending(t, user) <==>
              && 0 < user && key in t.tickets && (key, user) in t.assignees && t.tickets[key].isLocal
              && key.0 in t.trackers && t.tickets[key].repository in t.repositories
              && ((user in t.users && t.users[user]) || (t.tickets[key].repository, user) in t.members)
              && !HasCompleted(t, key, user)
  {
    hide HasCompleted, Selected;
    SelectedExact(t, user, NEXT, key);
  }

  /** Older first; of one time, higher priority first; of one priority, lower id first. */
  predicate Precedes(x: Ticket, y: Ticket) {
    && x.createdAt <= y.createdAt
    && (x.createdAt == y.createdAt ==> x.priority >= y.priority)
    && (x.createdAt == y.createdAt && x.priority == y.priority ==> x.id <= y.id)
  }

  lemma LePrecedes(t: Tables, a: TicketKey, b: TicketKey)
    requires a in t.tickets && b in t.tickets && Le(t, a, b)
    ensures Precedes(t.tickets[a], t.tickets[b])
  {
    hide KeyLe;
  }

  /** The rows come in that order, and before everything cut off; as many as the clamped limit allows. */
  lemma ListingMeans(t: Tables, user: int, o: ListOptions, rows: seq<TicketKey>)
    requires IsListing(t, Selected(t, user, o), if user <= 0 then 0 else ListLimit(o.limit), rows)
    ensures var s := Selected(t, user, o);
            var n := if o.limit <= 0 then 20 else if o.limit > 100 then 100 else o.limit;
            && s <= t.tickets.Keys
            && |rows| == (if |s| <= n then |s| else n)
            && (forall i :: 0 <= i < |rows| ==> rows[i] in s)
            && (forall i, j :: 0 <= i < j < |rows| ==>
                  rows[i] != rows[j] && Precedes(t.tickets[rows[i]], t.tickets[rows[j]]))
            && (forall i, k :: 0 <= i < |rows| && k in s && k !in rows ==> Precedes(t.tickets[rows[i]], t.tickets[k]))
  {
    NobodySeesNothing(t, user, o);
    hide Le, Selected, Precedes;
    RowsPrecede(t, Selected(t, user, o), if user <= 0 then 0 else ListLimit(o.limit), rows);
  }

  lemma NobodySeesNothing(t: Tables, user: int, o: ListOptions)
    ensures user <= 0 ==> Selected(t, user, o) == {}
  {
  }

  lemma RowsPrecede(t: Tables, s: set<TicketKey>, n: nat, rows: seq<TicketKey>)
    requires s <= t.tickets.Keys && IsListing(t, s, n, rows)
    ensures forall i, j :: 0 <= i < j < |rows| ==> Precedes(t.tickets[rows[i]], t.tickets[rows[j]])
    ensures forall i, k :: 0 <= i < |rows| && k in s && k !in rows ==> Precedes(t.tickets[rows[i]], t.tickets[k])
  {
    hide Le, Precedes;
    forall i, j | 0 <= i < j < |rows| ensures Precedes(t.tickets[rows[i]], t.tickets[rows[j]]) {
      LePrecedes(t, rows[i], rows[j]);
    }
    forall i, k | 0 <= i < |rows| && k in s && k !in rows ensures Precedes(t.tickets[rows[i]], t.tickets[k]) {
      LePrecedes(t, rows[i], k);
    }
  }

  /** The next ticket precedes every other pending one. */
  lemma FirstPrecedes(t: Tables, user: int)
    ensures First(t, user).Some? ==>
              && First(t, user).value in Pending(t, user)
              && forall k :: k in Pending(t, user) ==> Precedes(t.tickets[First(t, user).value], t.tickets[k])
  {
    hide Pending, Le, Precedes;
    if First(t, user).Some? {
      forall k | k in Pending(t, user) ensures Precedes(t.tickets[First(t, user).value], t.tickets[k]) {
        LePrecedes(t, First(t, user).value, k);
      }
    }
  }

  // ---------------------------------------------------------------- what operations do to completions

  predicate PostsCompletion(op: Op, user: int) {
    op.CreateComment? && op.user == user && Trim(op.kind) == COMPLETION
  }

  /** The operation completes the ticket for the user. */
  predicate Completes(t: Tables, op: Op, now: Time, key: TicketKey, user: int) {
    PostsCompletion(op, user) && Apply(t, op, now).Ok? && LoadTicket(t, op.trackerSlug, op.ticketSlug) == Some(key)
  }

  lemma CommentNoteKind(pk: string, ticketPk: string, parent: string, author: string, recipient: string,
                        content: string,
                        kind: string, published: string)
    ensures KindOf(CommentObject(pk, ticketPk, parent, author, recipient, content, kind, published)) == kind
  {
  }

  /** What a new comment adds. */
  ghost predicate AddsCommentOf(t: Tables, t': Tables, op: Op, key: TicketKey, pk: string)
    requires op.CreateComment?
  {
    && LoadTicket(t, op.trackerSlug, op.ticketSlug) == Some(key)
    && pk !in t.comments && pk in t'.comments && pk in t'.notes
    && t'.comments == t.comments[pk := t'.comments[pk]] && t'.notes == t.notes[pk := t'.notes[pk]]
    && t'.comments[pk].ticket == key && t'.comments[pk].author == op.user
    && KindOf(t'.notes[pk]) == Trim(op.kind)
  }

  lemma CreateCommentEffect(t: Tables, op: Op, now: Time) returns (key: TicketKey, pk: string)
    requires op.CreateComment? && Fresh(t, op) && Apply(t, op, now).Ok?
    ensures AddsCommentOf(t, After(t, op, now), op, key, pk)
  {
    hide Trim, CommentPk, CanAccess, StringFromAny, ResolveParent, NullString, CommentObject, KindOf, FreshPk;
    key := LoadTicket(t, op.trackerSlug, op.ticketSlug).value;
    var ticketPk := t.tickets[key].actorId;
    pk := CommentPk(ticketPk, op.slug);
    FreshIsNew(t, pk);
    var recipient := StringFromAny(t.tickets[key].body, Target);
    var parent := ResolveParent(t, key, Trim(op.inReplyTo), recipient).value;
    CommentNoteKind(pk, ticketPk, parent, t.actors[op.user], recipient, Trim(op.content), Trim(op.kind), op.published);
  }

  lemma KindKept(note: Body, update: string, published: string)
    ensures KindOf(Appended(note, update, published)) == KindOf(note)
  {
    AppendedEffect(note, update, published);
    hide Appended, Shows;
    assert Framed(AgentCommentKind);
  }

  lemma CompletionsOfChange(t: Tables, t': Tables, c: Change, now: Time, key: TicketKey, user: int)
    requires Made(t, t', c) && ChangeOk(t, c, now) && !c.AddsComment?
    ensures Completions(t', key, user) == Completions(t, key, user)
  {
    hide Appended, KindOf, CommentPk, TargetOf, Trim, FreshPk, StringFromAny;
    if c.EditsNote? {
      KindKept(c.version.body, c.update.content, c.update.published);
    }
    forall pk
      ensures pk in Completions(t', key, user) <==> pk in Completions(t, key, user)
    {
    }
  }

  lemma CompletionsOfComment(t: Tables, t': Tables, op: Op, k: TicketKey, pk: string, key: TicketKey, user: int)
    requires op.CreateComment? && AddsCommentOf(t, t', op, k, pk)
    ensures var before, after := Completions(t, key, user), Completions(t', key, user);
            && pk !in before
            && after == before + if k == key && PostsCompletion(op, user) then {pk} else {}
  {
    hide LoadTicket, Trim, KindOf;
    forall x
      ensures x != pk ==> (x in Completions(t', key, user) <==> x in Completions(t, key, user))
    {
    }
  }

  /** Completions only ever grow, by the completion comments that succeed. */
  lemma CompletionsStep(t: Tables, op: Op, now: Time, key: TicketKey, user: int)
    requires Fresh(t, op)
    ensures var before, after := Completions(t, key, user), Completions(After(t, op, now), key, user);
            if Completes(t, op, now, key, user)
            then exists pk :: pk !in before && after == before + {pk}
            else after == before
  {
    if op.CreateComment? && Apply(t, op, now).Ok? {
      var k, pk := CreateCommentEffect(t, op, now);
      hide Apply, After, Fresh, LoadTicket, Trim, KindOf, Completions, AddsCommentOf;
      CompletionsOfComment(t, After(t, op, now), op, k, pk, key, user);
    } else if !op.CreateComment? {
      var c := OtherChange(t, op, now);
      CompletionsOfChange(t, After(t, op, now), c, now, key, user);
    }
  }

  lemma OtherChange(t: Tables, op: Op, now: Time) returns (c: Change)
    requires Fresh(t, op) && !op.CreateComment?
    ensures Made(t, After(t, op, now), c) && ChangeOk(t, c, now) && !c.AddsComment?
  {
    hide Made, ChangeOk, Fresh, After;
    match op
    case CreateTicket(_, _, _, _, _, _, _, _) => c := CreateTicketChange(t, op, now);
    case UpdateTicket(_, _, _, _, _, _) => c := UpdateTicketChange(t, op, now);
    case UpdateComment(_, _, _, _, _, _, _) => c := UpdateCommentChange(t, op, now);
    case _ => c := Leaves; TablesLeave(t, op, now);
  }

  // ---------------------------------------------------------------- what operations do to the queue

  /** Acknowledgements, ordinary comments and updates, by anyone. */
  predicate Neutral(op: Op, user: int) {
    op.UpdateTicket? || op.UpdateComment? || (op.CreateComment? && !PostsCompletion(op, user))
  }

  /** Everything the listing reads, apart from comments. */
  ghost predicate SameListing(t: Tables, t': Tables) {
    && t'.tickets.Keys == t.tickets.Keys
    && (forall key :: key in t.tickets ==> t'.tickets[key] == t.tickets[key].(body := t'.tickets[key].body))
    && t'.assignees == t.assignees && t'.members == t.members && t'.users == t.users
    && t'.trackers == t.trackers && t'.repositories == t.repositories
  }

  lemma ContentOpsKeepListing(t: Tables, op: Op, now: Time)
    requires op.CreateComment? || op.UpdateTicket? || op.UpdateComment?
    ensures SameListing(t, After(t, op, now))
  {
    hide Trim, CanAccess, CommentPk, NullString, LoadActor, ResolveParent, LoadComment;
    hide Appended, CommentObject, StringFromAny;
  }

  ghost predicate SameOrder(t: Tables, t': Tables) {
    && t'.tickets.Keys == t.tickets.Keys
    && forall a, b :: a in t.tickets && b in t.tickets ==> Le(t', a, b) == Le(t, a, b)
  }

  lemma SameListingSameOrder(t: Tables, t': Tables)
    requires SameListing(t, t')
    ensures SameOrder(t, t')
  {
    hide KeyLe;
  }

  lemma PendingFollowsCompletions(t: Tables, t': Tables, user: int)
    requires SameListing(t, t')
    ensures forall key :: (Completions(t', key, user) == {} <==> Completions(t, key, user) == {}) ==>
              (key in Pending(t', user) <==> key in Pending(t, user))
    ensures forall key :: Completions(t', key, user) != {} ==> key !in Pending(t', user)
  {
    hide Completions;
  }

  lemma OneIsCompleted(t: Tables, op: Op, now: Time, user: int)
    ensures forall a, b :: Completes(t, op, now, a, user) && Completes(t, op, now, b, user) ==> a == b
    ensures Neutral(op, user) ==> forall key :: !Completes(t, op, now, key, user)
  {
    hide Apply, LoadTicket, Trim;
  }

  /** Neutral operations leave the queue and its order as they are; a completion by the user takes its
      ticket out of the queue and changes nothing else. */
  lemma QueueStep(t: Tables, op: Op, now: Time, user: int)
    requires Fresh(t, op) && (Neutral(op, user) || PostsCompletion(op, user))
    ensures var t' := After(t, op, now);
            && SameOrder(t, t')
            && (Neutral(op, user) ==> Pending(t', user) == Pending(t, user))
            && (forall key :: Completes(t, op, now, key, user) ==> Pending(t', user) == Pending(t, user) - {key})
  {
    hide Fresh, Apply, After, Trim, LoadTicket, Completions, Pending, SameListing, SameOrder, Completes;
    var t' := After(t, op, now);
    ContentOpsKeepListing(t, op, now);
    SameListingSameOrder(t, t');
    PendingFollowsCompletions(t, t', user);
    hide Neutral, PostsCompletion;
    OneIsCompleted(t, op, now, user);
    forall key | true
      ensures !Completes(t, op, now, key, user) ==> (key in Pending(t', user) <==> key in Pending(t, user))
      ensures Completes(t, op, now, key, user) ==> key !in Pending(t', user)
    {
      CompletionsStep(t, op, now, key, user);
    }
    assert Neutral(op, user) ==> forall key :: key in Pending(t', user) <==> key in Pending(t, user);
    forall key | Completes(t, op, now, key, user)
      ensures Pending(t', user) == Pending(t, user) - {key}
    {
      assert forall k :: Completes(t, op, now, k, user) ==> k == key;
      assert forall k :: k in Pending(t', user) <==> k in Pending(t, user) && k != key;
    }
  }

  // ---------------------------------------------------------------- keys are trimmed

  predicate TrimmedKey(key: TicketKey) {
    key.0 != "" && key.1 != "" && Trim(key.0) == key.0 && Trim(key.1) == key.1
  }

  ghost predicate KeysTrimmed(t: Tables) {
    forall key :: key in t.tickets ==> TrimmedKey(key)
  }

  lemma KeysStayTrimmed(t: Tables, op: Op, now: Time)
    requires KeysTrimmed(t) && Fresh(t, op)
    ensures KeysTrimmed(After(t, op, now))
  {
    if op.CreateTicket? {
      TicketKeyTrimmed(t, op, now);
    } else if op.CreateComment? || op.UpdateTicket? || op.UpdateComment? {
      hide After, Fresh, TrimmedKey;
      ContentOpsKeepListing(t, op, now);
    } else {
      hide After, Fresh, TrimmedKey;
      TablesLeave(t, op, now);
    }
  }

  lemma TicketKeyTrimmed(t: Tables, op: Op, now: Time)
    requires KeysTrimmed(t) && Fresh(t, op) && op.CreateTicket?
    ensures KeysTrimmed(After(t, op, now))
  {
    hide Trim, TicketPk, TicketObject, FreshPk;
    TrimIdempotent(op.trackerSlug);
  }

  lemma {:induction false} ReachableKeysTrimmed(t: Tables, run: seq<(Op, Time)>, now: Time)
    requires KeysTrimmed(t) && ValidRun(t, run, now)
    ensures KeysTrimmed(Exec(t, run))
    decreases run
  {
    hide KeysTrimmed, After, Fresh;
    if run != [] {
      KeysStayTrimmed(t, run[0].0, run[0].1);
      ReachableKeysTrimmed(After(t, run[0].0, run[0].1), run[1..], run[0].1);
    }
  }
}
