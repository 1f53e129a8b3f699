/** A store, reached from an empty one, in which an assignment can no longer be removed: its assignee
    has lost access to the repository (src/internal/common/store_ticket.go). */
module LostAccess {
  import opened Assignments
  import opened Text
  import opened TicketRuns
  import opened TicketTables
  import opened Wrappers

  const KEY: TicketKey := ("k", "t")

  function Start(): Tables {
    Tables("b", map[], map[], map[], map[], map[], {}, map[], map[], map[], [], map[], {}, [], 0)
  }

  /** An administrator and a user, a repository with its tracker, and the user as its member. */
  function SetUp(): seq<(Op, Time)> {
    [(AddUser(1, "ann", "a", true), 0), (AddUser(2, "bob", "b", false), 0), (AddTracker("k", "tr"), 0),
     (AddRepository("r", Repository("ra", "k")), 0), (AddMember("r", 2), 0)]
  }

  /** The administrator makes a ticket and assigns the user, who then leaves the repository. */
  function MakeTicket(): Op {
    CreateTicket(1, "k", "r", "s", "c", 0, "t", "now")
  }

  function Naming(action: string): Op {
    Assign(1, "k", "t", action, "bob")
  }

  function TheRest(): seq<(Op, Time)> {
    [(MakeTicket(), 1)] + ([(Naming("add"), 2)] + ([(RemoveMember("r", 2), 3)] + []))
  }

  function Ready(): Tables {
    Tables("b", map["k" := "tr"], map["r" := Repository("ra", "k")], map[1 := true, 2 := false],
           map["ann" := 1, "bob" := 2], map[1 := "a", 2 := "b"], {("r", 2)}, map[], map[], map[], [], map[], {}, [], 0)
  }

  lemma SetUpReady()
    ensures Exec(Start(), SetUp()) == Ready() && ValidRun(Start(), SetUp(), 0)
  {
    var s := SetUp();
    assert s[1..] == [s[1], s[2], s[3], s[4]] && s[1..][1..] == [s[2], s[3], s[4]];
    assert s[1..][1..][1..] == [s[3], s[4]] && s[1..][1..][1..][1..] == [s[4]] && s[1..][1..][1..][1..][1..] == [];
  }

  /** Who may do what, once the ticket is there. */
  predicate HasTicket(t: Tables) {
    && t.users == map[1 := true, 2 := false] && t.actors == map[1 := "a", 2 := "b"]
    && t.usernames == map["ann" := 1, "bob" := 2]
    && KEY in t.tickets && t.tickets[KEY].isLocal && t.tickets[KEY].repository == "r"
  }

  lemma NamesAreTrimmed()
    ensures Trim("k") == "k" && Trim("t") == "t" && Trim("r") == "r" && Trim("s") == "s" && Trim("c") == "c"
    ensures Trim("bob") == "bob"
  {
    TrimWord("k");
    TrimWord("t");
    TrimWord("r");
    TrimWord("s");
    TrimWord("c");
    TrimWord("bob");
    hide Trim;
  }

  lemma TicketMade()
    ensures Fresh(Ready(), MakeTicket())
    ensures var t := After(Ready(), MakeTicket(), 1);
            HasTicket(t) && ("r", 2) in t.members && t.assignees == {}
  {
    hide Trim, TicketPk, FreshPk, Objects.TicketObject;
    NamesAreTrimmed();
    PkIsFresh();
    assert "s" != "" && "c" != "" && "k" != "" && "r" != "" && "t" != "";
  }

  lemma PkIsFresh()
    ensures FreshPk(Ready(), TicketPk("b", "k", "t"))
  {
    var pk := TicketPk("b", "k", "t");
    assert pk[0] == 'b' && pk[|pk| - 1] == 't';
    TrimWord(pk);
    hide Trim, TicketPk;
  }

  lemma AssignsBob(t: Tables, action: string)
    requires HasTicket(t)
    ensures AssignTarget(t, Naming(action)) == if ("r", 2) in t.members then Some((KEY, 2)) else None
  {
    NamesAreTrimmed();
    hide Trim;
  }

  lemma BobAssigned(t: Tables)
    requires HasTicket(t) && ("r", 2) in t.members && t.assignees == {}
    ensures var t' := After(t, Naming("add"), 2);
            HasTicket(t') && Assigned(t', KEY, 2) && ("r", 2) in t'.members
  {
    hide Trim, AssignTarget, CanAccess, LoadTicket;
    AssignsBob(t, "add");
    TrimWord("add");
    assert Reassigned(t, 1, "add", KEY, 2)
        == Ok(t.(assignees := {} + {(KEY, 2)}, notices := t.notices + [Notice(2, KEY, "r", 1)]));
    hide Reassigned;
  }

  lemma FirstStep(t: Tables, op: Op, at: Time, rest: seq<(Op, Time)>, now: Time)
    ensures Exec(t, [(op, at)] + rest) == Exec(After(t, op, at), rest)
    ensures ValidRun(t, [(op, at)] + rest, now) <==> Fresh(t, op) && now <= at && ValidRun(After(t, op, at), rest, at)
  {
    hide After, Fresh;
    assert ([(op, at)] + rest)[1..] == rest;
  }

  lemma NoStep(t: Tables, now: Time)
    ensures Exec(t, []) == t && ValidRun(t, [], now)
  {
  }

  /** The run is valid, the user is assigned at its end, and the administrator's removal is refused. */
  lemma RemovalRefused()
    ensures Empty(Start()) && ValidRun(Start(), SetUp(), 0) && ValidRun(Exec(Start(), SetUp()), TheRest(), 0)
    ensures var t := Exec(Exec(Start(), SetUp()), TheRest());
            && Assigned(t, KEY, 2) && Apply(t, Naming("remove"), 4) == Err(Invalid)
            && Assigned(After(t, Naming("remove"), 4), KEY, 2)
  {
    SetUpReady();
    hide Ready, SetUp, MakeTicket, Fresh, Exec, ValidRun, HasTicket;
    var t1 := After(Ready(), MakeTicket(), 1);
    var t2 := After(t1, Naming("add"), 2);
    var t3 := After(t2, RemoveMember("r", 2), 3);
    TicketMade();
    BobAssigned(t1);
    BobLeft(t2);
    var r2 := [(RemoveMember("r", 2), 3)] + [];
    var r1 := [(Naming("add"), 2)] + r2;
    FirstStep(Ready(), MakeTicket(), 1, r1, 0);
    FirstStep(t1, Naming("add"), 2, r2, 1);
    FirstStep(t2, RemoveMember("r", 2), 3, [], 2);
    NoStep(t3, 3);
    NothingDrawn(t1, t2);
  }

  lemma NothingDrawn(t1: Tables, t2: Tables)
    ensures Fresh(t1, Naming("add")) && Fresh(t2, RemoveMember("r", 2))
  {
  }

  lemma BobLeft(t: Tables)
    requires HasTicket(t) && Assigned(t, KEY, 2)
    ensures var t' := After(t, RemoveMember("r", 2), 3);
            && Assigned(t', KEY, 2) && Apply(t', Naming("remove"), 4) == Err(Invalid)
            && After(t', Naming("remove"), 4) == t'
  {
    hide AssignTarget, Trim, Reassigned;
    AssignsBob(After(t, RemoveMember("r", 2), 3), "remove");
  }
}
