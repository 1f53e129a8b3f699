/** Update histories: what the versions of an object say about its body, in every reachable store. */
module TicketHistories {
  import opened Objects
  import opened Sequences
  import opened TicketRuns
  import opened TicketTables

  function Bodies(vs: seq<Version>): (r: seq<Body>)
    ensures |r| == |vs| && forall i :: 0 <= i < |vs| ==> r[i] == vs[i].body
  {
    seq(|vs|, i requires 0 <= i < |vs| => vs[i].body)
  }

  ghost predicate Known(vs: seq<Version>, updates: map<string, UpdateRow>) {
    forall i :: 0 <= i < |vs| ==> vs[i].updateId in updates
  }

  /** Content and time of the update that ended each version. */
  ghost function Edits(vs: seq<Version>, updates: map<string, UpdateRow>): (r: seq<(string, string)>)
    requires Known(vs, updates)
    ensures |r| == |vs|
  {
    seq(|vs|, i requires 0 <= i < |vs| => (updates[vs[i].updateId].content, updates[vs[i].updateId].published))
  }

  /** The versions, oldest first, and the current body are linked by the logged updates. */
  ghost predicate History(vs: seq<Version>, updates: map<string, UpdateRow>, current: Body) {
    Known(vs, updates) && Chain(Bodies(vs) + [current], Edits(vs, updates))
  }

  function Of(pk: string): Version -> bool {
    (v: Version) => v.objectPk == pk
  }

  ghost predicate Dated(t: Tables, now: Time) {
    && (forall i :: 0 <= i < |t.versions| ==> t.versions[i].id < t.nextId && t.versions[i].createdAt <= now)
    && (forall i, j :: 0 <= i < j < |t.versions| ==>
          t.versions[i].id < t.versions[j].id && t.versions[i].createdAt <= t.versions[j].createdAt)
  }

  ghost predicate Versioned(t: Tables) {
    && (forall key :: key in t.tickets ==>
          History(Filter(Of(t.tickets[key].actorId), t.versions), t.updates, t.tickets[key].body))
    && (forall pk :: pk in t.notes ==> History(Filter(Of(pk), t.versions), t.updates, t.notes[pk]))
  }

  // ---------------------------------------------------------------- steps

  lemma EmptyHistory(updates: map<string, UpdateRow>, current: Body)
    ensures History([], updates, current)
  {
  }

  lemma HistoryKept(vs: seq<Version>, updates: map<string, UpdateRow>, id: string, u: UpdateRow, current: Body)
    requires History(vs, updates, current) && id !in updates
    ensures History(vs, updates[id := u], current)
  {
    assert Edits(vs, updates[id := u]) == Edits(vs, updates);
    hide Chain;
  }

  lemma HistoryGrows(vs: seq<Version>, updates: map<string, UpdateRow>, v: Version, u: UpdateRow)
    requires History(vs, updates, v.body) && v.updateId !in updates
    requires u.content != "" && Text.Trim(u.content) == u.content
    ensures History(vs + [v], updates[v.updateId := u], Appended(v.body, u.content, u.published))
  {
    hide Text.Trim, Appended;
    var updates' := updates[v.updateId := u];
    var current := Appended(v.body, u.content, u.published);
    var edits := Edits(vs, updates);
    assert Known(vs + [v], updates');
    assert Edits(vs + [v], updates') == edits + [(u.content, u.published)];
    assert Bodies(vs + [v]) + [current] == Bodies(vs) + [v.body] + [current];
    ChainGrows(Bodies(vs) + [v.body], edits, u.content, u.published);
  }

  lemma ChainGrows(bodies: seq<Body>, edits: seq<(string, string)>, content: string, published: string)
    requires Chain(bodies, edits) && content != "" && Text.Trim(content) == content
    ensures Chain(bodies + [Appended(bodies[|bodies| - 1], content, published)], edits + [(content, published)])
  {
    hide Text.Trim, Appended;
    var current := Appended(bodies[|bodies| - 1], content, published);
    var all, edits' := bodies + [current], edits + [(content, published)];
    forall i | 0 <= i < |edits'|
      ensures edits'[i].0 != "" && Text.Trim(edits'[i].0) == edits'[i].0
              && all[i + 1] == Appended(all[i], edits'[i].0, edits'[i].1)
    {
      if i < |edits| {
        assert bodies[i + 1] == Appended(bodies[i], edits[i].0, edits[i].1);
      }
    }
  }

  lemma {:induction false} NothingOf(pk: string, versions: seq<Version>)
    requires forall v :: v in versions ==> v.objectPk != pk
    ensures Filter(Of(pk), versions) == []
  {
    if versions != [] {
      NothingOf(pk, versions[..|versions| - 1]);
    }
  }

  lemma TicketAddedVersioned(t: Tables, t': Tables, c: Change, now: Time)
    requires Versioned(t) && Made(t, t', c) && ChangeOk(t, c, now) && c.AddsTicket?
    ensures Versioned(t')
  {
    hide History, Filter, Text.Trim;
    NothingOf(c.row.actorId, t.versions);
    EmptyHistory(t.updates, c.row.body);
    forall key | key in t'.tickets
      ensures History(Filter(Of(t'.tickets[key].actorId), t'.versions), t'.updates, t'.tickets[key].body)
    {
      assert key != c.key ==> key in t.tickets && t'.tickets[key] == t.tickets[key];
    }
  }

  lemma CommentAddedVersioned(t: Tables, t': Tables, c: Change, now: Time)
    requires Versioned(t) && Made(t, t', c) && ChangeOk(t, c, now) && c.AddsComment?
    ensures Versioned(t')
  {
    hide History, Filter, CommentPk, TargetOf, Text.Trim;
    NothingOf(c.pk, t.versions);
    EmptyHistory(t.updates, c.note);
    forall pk | pk in t'.notes ensures History(Filter(Of(pk), t'.versions), t'.updates, t'.notes[pk]) {
      assert pk != c.pk ==> pk in t.notes && t'.notes[pk] == t.notes[pk];
    }
  }

  lemma ChangeVersioned(t: Tables, t': Tables, c: Change, now: Time)
    requires Threads(t) && Versioned(t) && Made(t, t', c) && ChangeOk(t, c, now)
    ensures Versioned(t')
  {
    match c
    case Leaves => hide History;
    case AddsTicket(_, _) => TicketAddedVersioned(t, t', c, now);
    case AddsComment(_, _, _) => CommentAddedVersioned(t, t', c, now);
    case EditsTicket(_, _, _) => EditVersioned(t, t', c, now);
    case EditsNote(_, _) => EditVersioned(t, t', c, now);
  }

  /** The edited object's history grows by one; the others are as they were. */
  lemma EditOne(t: Tables, v: Version, u: UpdateRow, now: Time, pk: string, current: Body)
    requires EditOk(t, v, u, now) && History(Filter(Of(pk), t.versions), t.updates, current)
    requires pk == v.objectPk ==> current == v.body
    ensures History(Filter(Of(pk), t.versions + [v]), t.updates[v.updateId := u],
                    if pk == v.objectPk then Appended(v.body, u.content, u.published) else current)
  {
    FilterSnoc(Of(pk), t.versions, v);
    if pk == v.objectPk {
      HistoryGrows(Filter(Of(pk), t.versions), t.updates, v, u);
    } else {
      HistoryKept(Filter(Of(pk), t.versions), t.updates, v.updateId, u, current);
      assert Filter(Of(pk), t.versions) + [] == Filter(Of(pk), t.versions);
    }
  }

  lemma EditVersioned(t: Tables, t': Tables, c: Change, now: Time)
    requires Threads(t) && Versioned(t) && Made(t, t', c) && ChangeOk(t, c, now)
    requires c.EditsTicket? || c.EditsNote?
    ensures Versioned(t')
  {
    hide History, Filter, Appended, CommentOk, CommentPk, TargetOf, Text.Trim;
    var v, u := c.version, c.update;
    forall key | key in t'.tickets
      ensures History(Filter(Of(t'.tickets[key].actorId), t'.versions), t'.updates, t'.tickets[key].body)
    {
      assert TicketOk(t, key);
      if c.EditsTicket? { assert TicketOk(t, c.ticket); }
      EditOne(t, v, u, now, t.tickets[key].actorId, t.tickets[key].body);
    }
    forall pk | pk in t'.notes
      ensures History(Filter(Of(pk), t'.versions), t'.updates, t'.notes[pk])
    {
      if c.EditsTicket? { assert TicketOk(t, c.ticket); }
      EditOne(t, v, u, now, pk, t.notes[pk]);
    }
  }

  lemma ChangeDated(t: Tables, t': Tables, c: Change, before: Time, now: Time)
    requires Dated(t, before) && before <= now && Made(t, t', c) && ChangeOk(t, c, now)
    ensures Dated(t', now)
  {
    hide FreshPk, Appended, CommentPk, TargetOf, Text.Trim;
  }

  lemma {:induction false} RunVersioned(t: Tables, run: seq<(Op, Time)>, now: Time)
    requires ValidRun(t, run, now) && Threads(t) && Versioned(t) && Dated(t, now)
    ensures Versioned(Exec(t, run)) && exists later :: Dated(Exec(t, run), later)
    decreases run
  {
    if run != [] {
      var (op, at) := run[0];
      var t1 := After(t, op, at);
      var c := OpChange(t, op, at);
      hide Threads, Versioned, Dated, Made, ChangeOk, Fresh, After;
      ChangeThreads(t, t1, c, at);
      ChangeVersioned(t, t1, c, at);
      ChangeDated(t, t1, c, now, at);
      RunVersioned(t1, run[1..], at);
    }
  }

  // ---------------------------------------------------------------- what the histories promise

  ghost function ContentsOf(t: Tables, vs: seq<Version>): seq<string>
    requires Known(vs, t.updates)
  {
    Texts(Edits(vs, t.updates))
  }

  /** The body is its first version with the logged updates appended, one blank line apart; its
      source says the same; every key outside the update's four is as it was at first. */
  ghost predicate TellsItsHistory(t: Tables, pk: string, current: Body) {
    var vs := VersionsOf(t, pk);
    && Known(vs, t.updates)
    && var first := if vs == [] then current else vs[0].body;
       var text := Joined(StringFromAny(first, Content), ContentsOf(t, vs));
       && StringFromAny(current, Content) == text
       && SameFrame(first, current)
       && (vs != [] ==> Shows(current, text))
  }

  lemma HistoryTold(t: Tables, pk: string, current: Body)
    requires History(Filter(Of(pk), t.versions), t.updates, current)
    ensures TellsItsHistory(t, pk, current)
  {
    var vs := Filter(Of(pk), t.versions);
    FilterAgree(Of(pk), (v: Version) => v.objectPk == pk, t.versions);
    assert VersionsOf(t, pk) == vs;
    ChainContent(Bodies(vs) + [current], Edits(vs, t.updates));
    hide Filter, Chain, SameFrame, Shows, StringFromAny, Joined;
  }

  /** Every ticket and every note of every store reachable from an empty one tells its history. */
  lemma ReachableHistories(t: Tables, run: seq<(Op, Time)>, now: Time)
    requires Empty(t) && ValidRun(t, run, now)
    ensures var t' := Exec(t, run);
            && (forall key :: key in t'.tickets ==> TellsItsHistory(t', t'.tickets[key].actorId, t'.tickets[key].body))
            && (forall pk :: pk in t'.notes ==> TellsItsHistory(t', pk, t'.notes[pk]))
  {
    RunVersioned(t, run, now);
    var t' := Exec(t, run);
    hide TellsItsHistory, History, Filter;
    forall key | key in t'.tickets ensures TellsItsHistory(t', t'.tickets[key].actorId, t'.tickets[key].body) {
      HistoryTold(t', t'.tickets[key].actorId, t'.tickets[key].body);
    }
    forall pk | pk in t'.notes ensures TellsItsHistory(t', pk, t'.notes[pk]) {
      HistoryTold(t', pk, t'.notes[pk]);
    }
  }

  // ---------------------------------------------------------------- the version list

  predicate Newer(a: Version, b: Version) {
    a.createdAt > b.createdAt || (a.createdAt == b.createdAt && a.id > b.id)
  }

  ghost predicate OldestFirst(vs: seq<Version>) {
    forall i, j :: 0 <= i < j < |vs| ==> Newer(vs[j], vs[i])
  }

  lemma {:induction false} FilterOldestFirst(p: Version -> bool, vs: seq<Version>)
    requires OldestFirst(vs)
    ensures OldestFirst(Filter(p, vs))
  {
    if vs != [] {
      var init, last := vs[..|vs| - 1], vs[|vs| - 1];
      FilterOldestFirst(p, init);
      var kept := Filter(p, init);
      forall i | 0 <= i < |kept| ensures Newer(last, kept[i]) {
        assert kept[i] in kept && kept[i] in init;
        var k :| 0 <= k < |init| && init[k] == kept[i];
        assert vs[k] == init[k];
      }
    }
  }

  /** The version list is the newest earlier bodies of the object, newest first by (created_at, id),
      and whatever the limit cuts off is older than everything listed. */
  lemma VersionsAreOrdered(t: Tables, now: Time, pk: string, limit: int)
    requires Dated(t, now)
    ensures Text.Trim(pk) == "" ==> ListVersions(t, pk, limit) == []
    ensures Text.Trim(pk) != "" ==>
            var rows, all := ListVersions(t, pk, limit), VersionsOf(t, Text.Trim(pk));
            var n := if limit <= 0 then 20 else if limit > 200 then 200 else limit;
            && (forall v :: v in all <==> v in t.versions && v.objectPk == Text.Trim(pk))
            && |rows| == (if |all| <= n then |all| else n)
            && (forall i :: 0 <= i < |rows| ==> rows[i] == all[|all| - 1 - i])
            && (forall i, j :: 0 <= i < j < |rows| ==> Newer(rows[i], rows[j]))
            && (forall v :: v in all ==> v in rows || forall r :: r in rows ==> Newer(r, v))
  {
    hide VersionsOf, Text.Trim, Dated;
    VersionsOfObject(t, now, Text.Trim(pk));
    if Text.Trim(pk) != "" {
      var all := VersionsOf(t, Text.Trim(pk));
      hide Newer;
      ListsTheNewest(ListVersions(t, pk, limit), all);
    }
  }

  lemma ListsTheNewest(rows: seq<Version>, all: seq<Version>)
    requires OldestFirst(all) && |rows| <= |all|
    requires forall i :: 0 <= i < |rows| ==> rows[i] == all[|all| - 1 - i]
    ensures forall i, j :: 0 <= i < j < |rows| ==> Newer(rows[i], rows[j])
    ensures forall v :: v in all ==> v in rows || forall r :: r in rows ==> Newer(r, v)
  {
    hide Newer;
    forall v | v in all ensures v in rows || forall r :: r in rows ==> Newer(r, v) {
      var k :| 0 <= k < |all| && all[k] == v;
      if |all| - 1 - k < |rows| {
        assert rows[|all| - 1 - k] == v;
      }
    }
  }

  lemma VersionsOfObject(t: Tables, now: Time, pk: string)
    requires Dated(t, now)
    ensures OldestFirst(VersionsOf(t, pk))
    ensures forall v :: v in VersionsOf(t, pk) <==> v in t.versions && v.objectPk == pk
  {
    FilterOldestFirst((v: Version) => v.objectPk == pk, t.versions);
  }
}
