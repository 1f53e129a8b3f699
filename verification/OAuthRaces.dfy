/** Exchanges and rotations, statement by statement. Two of them may look at a code or a refresh token
    before either spends it: InvalidateAuthorizeCodeSession does not ask whether the code is still
    active, and RotateRefreshToken asks in one statement and updates in another, without locking the row
    (src/internal/common/oauth.go). */
module OAuthRaces {
  import opened OAuthRuns
  import opened OAuthTables
  import opened Requests
  import opened Wrappers

  /** What a flow uses up: a code, or a refresh token (with the request whose access tokens go with it). */
  datatype Voucher = Code(signature: string) | Token(signature: string, requestId: string)

  /** Flows that have found their voucher usable and have not spent it yet. */
  datatype Race = Race(tables: Tables, pending: map<int, Voucher>)

  datatype Event = Look(flow: int, voucher: Voucher) | Spend(flow: int) | Other(op: Op)

  /** The answer of the first statement. */
  predicate Usable(t: Tables, v: Voucher) {
    match v
    case Code(sig) => GetCode(t, sig).Ok? && GetCode(t, sig).value.usable
    case Token(sig, _) => sig in t.refresh && t.refresh[sig].active
  }

  /** The updates, which look at nothing but the signature. */
  function Spent(t: Tables, v: Voucher, now: Time): Tables {
    match v
    case Code(sig) => After(t, InvalidateCode(sig), now)
    case Token(sig, requestId) =>
      if sig !in t.refresh then t else
        t.(refresh := t.refresh[sig := t.refresh[sig].(active := false, usedAt := Some(now))],
           access := AccessRevokedFor(t.access, requestId, now))
  }

  function Step(r: Race, e: Event, now: Time): Race {
    match e
    case Look(flow, v) =>
      if flow in r.pending || !Usable(r.tables, v) then r else r.(pending := r.pending[flow := v])
    case Spend(flow) =>
      if flow !in r.pending then r
      else Race(Spent(r.tables, r.pending[flow], now), r.pending - {flow})
    case Other(op) => r.(tables := After(r.tables, op, now))
  }

  /** The same code, or the same refresh token. */
  predicate Same(v: Voucher, w: Voucher) {
    v.signature == w.signature && (v.Code? <==> w.Code?)
  }

  predicate Stored(t: Tables, v: Voucher) {
    if v.Code? then v.signature in t.codes else v.signature in t.refresh
  }

  /** The voucher is there and used up. */
  predicate UsedUp(t: Tables, v: Voucher) {
    if v.Code? then SpentCode(t, v.signature) else SpentRefresh(t, v.signature)
  }

  /** The flow goes ahead: its update finds the row. */
  predicate Spends(r: Race, e: Event, v: Voucher) {
    e.Spend? && e.flow in r.pending && Same(r.pending[e.flow], v) && Stored(r.tables, v)
  }

  predicate Waits(r: Race, v: Voucher, flow: int) {
    flow in r.pending && Same(r.pending[flow], v)
  }

  function Count(r: Race, run: seq<(Event, Time)>, v: Voucher): nat
    decreases |run|
  {
    if run == [] then 0 else
      (if Spends(r, run[0].0, v) then 1 else 0) + Count(Step(r, run[0].0, run[0].1), run[1..], v)
  }

  predicate SpendsLater(r: Race, run: seq<(Event, Time)>, v: Voucher, flow: int)
    decreases |run|
  {
    run != [] &&
    ((run[0].0 == Spend(flow) && Spends(r, run[0].0, v))
     || SpendsLater(Step(r, run[0].0, run[0].1), run[1..], v, flow))
  }

  /** When a flow spends the voucher, another one has already looked at it and spends it later. */
  ghost predicate Raced(r: Race, run: seq<(Event, Time)>, v: Voucher)
    decreases |run|
  {
    run != [] &&
    (|| (&& Spends(r, run[0].0, v)
         && exists other :: other != run[0].0.flow && Waits(r, v, other)
                            && SpendsLater(Step(r, run[0].0, run[0].1), run[1..], v, other))
     || Raced(Step(r, run[0].0, run[0].1), run[1..], v))
  }

  predicate Recreates(e: Event, v: Voucher) {
    e.Other? && if v.Code? then e.op.CreateCode? && e.op.signature == v.signature
                else e.op.CreateRefresh? && e.op.signature == v.signature
  }

  /** The signature is not drawn again. */
  predicate NotRecreated(run: seq<(Event, Time)>, v: Voucher) {
    forall i :: 0 <= i < |run| ==> !Recreates(run[i].0, v)
  }

  // ---------------------------------------------------------------- what is spent stays spent

  lemma SpendingKeepsUsedUp(t: Tables, u: Voucher, now: Time, v: Voucher)
    requires UsedUp(t, v)
    ensures UsedUp(Spent(t, u, now), v)
  {
    match u
    case Code(sig) =>
      CallKeepsSpent(t, InvalidateCode(sig), now, v.signature);
      hide After;
    case Token(_, _) => hide AccessRevokedFor;
  }

  lemma OtherKeepsUsedUp(t: Tables, op: Op, now: Time, v: Voucher)
    requires UsedUp(t, v) && !Recreates(Other(op), v)
    ensures UsedUp(After(t, op, now), v)
  {
    CallKeepsSpent(t, op, now, v.signature);
    hide After;
  }

  lemma UsedUpIsNotUsable(t: Tables, v: Voucher, w: Voucher)
    requires UsedUp(t, v) && Same(w, v)
    ensures !Usable(t, w)
  {
    hide Restore;
  }

  lemma StepKeepsUsedUp(r: Race, e: Event, now: Time, v: Voucher)
    requires UsedUp(r.tables, v) && !Recreates(e, v)
    ensures UsedUp(Step(r, e, now).tables, v)
    ensures forall flow :: Waits(Step(r, e, now), v, flow) ==> Waits(r, v, flow)
  {
    hide After, Usable, Spent, UsedUp;
    match e
    case Look(_, w) =>
      if Same(w, v) {
        UsedUpIsNotUsable(r.tables, v, w);
      }
    case Spend(flow) =>
      if flow in r.pending {
        SpendingKeepsUsedUp(r.tables, r.pending[flow], now, v);
      }
    case Other(op) => OtherKeepsUsedUp(r.tables, op, now, v);
  }

  lemma SpendingUsesUp(r: Race, e: Event, now: Time, v: Voucher)
    requires Spends(r, e, v)
    ensures UsedUp(Step(r, e, now).tables, v)
    ensures forall flow :: Waits(Step(r, e, now), v, flow) ==> flow != e.flow && Waits(r, v, flow)
  {
    if v.Code? {
      InvalidationSpends(r.tables, v.signature, now);
    }
    hide After, AccessRevokedFor;
  }

  // ---------------------------------------------------------------- the exact condition

  /** Once the voucher is used up, only those who looked before can still spend it. */
  lemma {:induction false} OnlyEarlierLooks(r: Race, run: seq<(Event, Time)>, v: Voucher)
    requires UsedUp(r.tables, v) && NotRecreated(run, v) && Count(r, run, v) >= 1
    ensures exists flow :: Waits(r, v, flow) && SpendsLater(r, run, v, flow)
    decreases |run|
  {
    hide Step, UsedUp;
    var r' := Step(r, run[0].0, run[0].1);
    if Spends(r, run[0].0, v) {
      assert Waits(r, v, run[0].0.flow) && SpendsLater(r, run, v, run[0].0.flow);
    } else {
      StepKeepsUsedUp(r, run[0].0, run[0].1, v);
      OnlyEarlierLooks(r', run[1..], v);
      var flow :| Waits(r', v, flow) && SpendsLater(r', run[1..], v, flow);
      assert Waits(r, v, flow) && SpendsLater(r, run, v, flow);
    }
  }

  lemma {:induction false} LaterCounts(r: Race, run: seq<(Event, Time)>, v: Voucher, flow: int)
    requires SpendsLater(r, run, v, flow)
    ensures Count(r, run, v) >= 1
    decreases |run|
  {
    hide Step, Spends;
    if !(run[0].0 == Spend(flow) && Spends(r, run[0].0, v)) {
      LaterCounts(Step(r, run[0].0, run[0].1), run[1..], v, flow);
    }
  }

  lemma {:induction false} RacedCounts(r: Race, run: seq<(Event, Time)>, v: Voucher)
    requires Raced(r, run, v)
    ensures Count(r, run, v) >= 1
    decreases |run|
  {
    hide Step, Spends;
    if !Spends(r, run[0].0, v) {
      RacedCounts(Step(r, run[0].0, run[0].1), run[1..], v);
    }
  }

  /** Statement by statement, a code is exchanged, or a refresh token rotated, more than once exactly
      when, at some flow's spending, another flow that also goes ahead has already looked at it. */
  lemma {:induction false} SpentTwiceExactly(r: Race, run: seq<(Event, Time)>, v: Voucher)
    requires NotRecreated(run, v)
    ensures Count(r, run, v) >= 2 <==> Raced(r, run, v)
    decreases |run|
  {
    hide Step, Spends, UsedUp;
    if run != [] {
      var r' := Step(r, run[0].0, run[0].1);
      SpentTwiceExactly(r', run[1..], v);
      if Spends(r, run[0].0, v) {
        SpendingUsesUp(r, run[0].0, run[0].1, v);
        if Count(r', run[1..], v) >= 1 {
          OnlyEarlierLooks(r', run[1..], v);
        }
        forall other | SpendsLater(r', run[1..], v, other) ensures Count(r', run[1..], v) >= 1 {
          LaterCounts(r', run[1..], v, other);
        }
        if Raced(r', run[1..], v) {
          RacedCounts(r', run[1..], v);
        }
      }
    }
  }

  /** Two flows that look before either spends. */
  function Pair(v: Voucher): seq<(Event, Time)> {
    [(Look(1, v), 1)] + ([(Look(2, v), 2)] + ([(Spend(1), 3)] + ([(Spend(2), 4)] + [])))
  }

  lemma CountFirst(r: Race, e: Event, now: Time, rest: seq<(Event, Time)>, v: Voucher)
    ensures Count(r, [(e, now)] + rest, v) == (if Spends(r, e, v) then 1 else 0) + Count(Step(r, e, now), rest, v)
  {
    hide Step, Spends;
    assert ([(e, now)] + rest)[1..] == rest;
  }

  lemma SpentIsStored(t: Tables, v: Voucher, now: Time)
    ensures Stored(t, v) ==> Stored(Spent(t, v, now), v)
    ensures Usable(t, v) ==> Stored(t, v)
  {
    if v.Code? && v.signature in t.codes {
      InvalidateEffect(t, v.signature, now);
    }
    hide After, AccessRevokedFor, Restore;
  }

  /** Wherever a code or a refresh token is usable, two flows can spend it. */
  lemma TwoFlows(t: Tables, v: Voucher)
    requires Usable(t, v)
    ensures Count(Race(t, map[]), Pair(v), v) == 2
  {
    hide Usable, Spent, Stored;
    var r0 := Race(t, map[]);
    var r1 := Step(r0, Look(1, v), 1);
    var r2 := Step(r1, Look(2, v), 2);
    var r3 := Step(r2, Spend(1), 3);
    SpentIsStored(t, v, 3);
    var e3 := [(Spend(2), 4)] + [];
    var e2 := [(Spend(1), 3)] + e3;
    var e1 := [(Look(2, v), 2)] + e2;
    CountFirst(r0, Look(1, v), 1, e1, v);
    CountFirst(r1, Look(2, v), 2, e2, v);
    CountFirst(r2, Spend(1), 3, e3, v);
    CountFirst(r3, Spend(2), 4, [], v);
  }

  /** With nothing in between, looking and spending is the rotation as one transaction. */
  lemma UndisturbedRotation(t: Tables, sig: string, requestId: string, now: Time)
    ensures Usable(t, Token(sig, requestId)) <==> Apply(t, RotateRefresh(requestId, sig), now).Ok?
    ensures Usable(t, Token(sig, requestId)) ==>
              Spent(t, Token(sig, requestId), now) == After(t, RotateRefresh(requestId, sig), now)
  {
    hide AccessRevokedFor;
  }
}
