/** When issuing breaks the safety of the store. The Create*Session methods look at neither the grant
    nor the client they issue for, nor at earlier tokens (src/internal/common/oauth.go); so over
    single calls, in any interleaving, safety is exactly a matter of what holds as they are called. */
module OAuthIssuing {
  import opened OAuthRuns
  import opened OAuthTables
  import opened Requests
  import opened Text
  import opened Wrappers

  predicate Creating(op: Op) {
    op.CreateCode? || op.CreateAccess? || op.CreateRefresh?
  }

  /** The call stores a row. */
  predicate Stores(t: Tables, op: Op, now: Time) {
    Creating(op) && Apply(t, op, now).Ok?
  }

  function SnapOf(op: Op): Snapshot
    requires Creating(op) && TakeSnapshot(op.requester).Ok?
  {
    TakeSnapshot(op.requester).value
  }

  /** The row's client is enabled and its grant stands, as the call is made. */
  ghost predicate Entitled(t: Tables, op: Op)
    requires Creating(op) && TakeSnapshot(op.requester).Ok?
  {
    Authorised(t, SnapOf(op).clientId, Nullable(GrantIdOf(op.requester)))
  }

  /** No other live token of the same family or request, as the call is made. */
  ghost predicate Alone(t: Tables, op: Op)
    requires Creating(op) && TakeSnapshot(op.requester).Ok?
  {
    match op
    case CreateAccess(sig, _) =>
      forall k :: k in t.access && k != sig && t.access[k].revokedAt.None? ==> t.access[k].requestId != SnapOf(op).id
    case CreateRefresh(sig, _, requester) =>
      forall k :: k in t.refresh && k != sig && t.refresh[k].active ==> t.refresh[k].familyId != FamilyIdOf(requester)
    case _ => true
  }

  lemma StoredSnapshot(t: Tables, op: Op, now: Time)
    requires Stores(t, op, now)
    ensures TakeSnapshot(op.requester).Ok?
  {
    hide TakeSnapshot, Refers, OnlyCodeOf;
  }

  // ---------------------------------------------------------------- what a creating call stores

  /** The tables with the new row. */
  ghost function WithRow(t: Tables, op: Op): Tables
    requires Creating(op) && TakeSnapshot(op.requester).Ok?
  {
    match op
    case CreateCode(sig, requester) => t.(codes := t.codes[sig := NewCode(requester, SnapOf(op))])
    case CreateAccess(sig, requester) => t.(access := t.access[sig := NewAccess(requester, SnapOf(op))])
    case CreateRefresh(sig, accessSig, requester) =>
      t.(refresh := t.refresh[sig := NewRefresh(requester, SnapOf(op), accessSig)])
  }

  lemma StoresEffect(t: Tables, op: Op, now: Time)
    requires Stores(t, op, now)
    ensures TakeSnapshot(op.requester).Ok? && After(t, op, now) == WithRow(t, op)
  {
    StoredSnapshot(t, op, now);
    hide TakeSnapshot, Refers, OnlyCodeOf, Apply, NewCode, NewAccess, NewRefresh;
    match op
    case CreateCode(sig, requester) => CreateCodeEffect(t, sig, requester, now);
    case CreateAccess(sig, requester) => CreateAccessEffect(t, sig, requester, now);
    case CreateRefresh(sig, accessSig, requester) => CreateRefreshEffect(t, sig, accessSig, requester, now);
  }

  lemma NewRowSafe(t: Tables, op: Op)
    requires Creating(op) && TakeSnapshot(op.requester).Ok? && Safe(t)
    ensures Safe(WithRow(t, op)) <==> Entitled(t, op)
  {
    hide TakeSnapshot, GrantIdOf, FamilyIdOf, Expiry, Authorised, Nullable;
    var t' := WithRow(t, op);
    SameGrants(t, t');
    if op.CreateCode? {
      assert t'.codes[op.signature].active && op.signature in t'.codes;
    } else if op.CreateAccess? {
      assert t'.access[op.signature].revokedAt.None? && op.signature in t'.access;
    } else {
      assert t'.refresh[op.signature].active && op.signature in t'.refresh;
    }
  }

  lemma SameGrants(t: Tables, t': Tables)
    requires t'.clients == t.clients && t'.grants == t.grants
    ensures forall clientId, grantId :: Authorised(t', clientId, grantId) == Authorised(t, clientId, grantId)
  {
  }

  lemma NewRowUnique(t: Tables, op: Op)
    requires Creating(op) && TakeSnapshot(op.requester).Ok? && Unique(t)
    ensures Unique(WithRow(t, op)) <==> Alone(t, op)
  {
    hide TakeSnapshot, GrantIdOf, FamilyIdOf, Expiry, Nullable, SnapOf;
    var t' := WithRow(t, op);
    if op.CreateAccess? {
      assert op.signature in t'.access && t'.access[op.signature].revokedAt.None?;
      assert forall k :: k in t.access && k != op.signature ==> k in t'.access && t'.access[k] == t.access[k];
    } else if op.CreateRefresh? {
      assert op.signature in t'.refresh && t'.refresh[op.signature].active;
      assert forall k :: k in t.refresh && k != op.signature ==> k in t'.refresh && t'.refresh[k] == t.refresh[k];
    }
  }

  /** A creating call keeps the store safe exactly when its client and grant stand, and keeps live
      tokens unique exactly when no other one of the same family or request is live. */
  lemma IssueExactly(t: Tables, op: Op, now: Time)
    requires Stores(t, op, now)
    ensures TakeSnapshot(op.requester).Ok?
    ensures Safe(t) ==> (Safe(After(t, op, now)) <==> Entitled(t, op))
    ensures Unique(t) ==> (Unique(After(t, op, now)) <==> Alone(t, op))
  {
    StoresEffect(t, op, now);
    hide After, WithRow, Safe, Unique, Entitled, Alone, Stores;
    if Safe(t) {
      NewRowSafe(t, op);
    }
    if Unique(t) {
      NewRowUnique(t, op);
    }
  }

  // ---------------------------------------------------------------- the other calls

  lemma UpsertKeepsRows(t: Tables, op: Op, now: Time)
    requires op.UpsertGrant?
    ensures var t' := After(t, op, now);
            && t'.clients == t.clients && t'.codes == t.codes && t'.access == t.access && t'.refresh == t.refresh
            && forall g :: g in t.grants ==> g in t'.grants && t'.grants[g] == t.grants[g]
  {
    UpsertEffect(t, op, now);
    hide Apply, Trim, Scopes.Normalize, Scopes.GrantScopesValid;
  }

  lemma OtherCallKeepsCodes(t: Tables, op: Op, now: Time, k: string)
    requires Safe(t) && Free(op) && k in After(t, op, now).codes && After(t, op, now).codes[k].active
    ensures Authorised(After(t, op, now), After(t, op, now).codes[k].clientId, After(t, op, now).codes[k].grantId)
  {
    hide After;
    CallAddsNoRow(t, op, now);
    CallWeakensCode(t, op, now, k);
    var row := t.codes[k];
    CallStandsCode(t, op, now, k, row.grantId.value);
    CallOnGrant(t, op, now, row.grantId.value);
  }

  lemma OtherCallKeepsAccess(t: Tables, op: Op, now: Time, k: string)
    requires Safe(t) && Free(op) && k in After(t, op, now).access && After(t, op, now).access[k].revokedAt.None?
    ensures Authorised(After(t, op, now), After(t, op, now).access[k].clientId, After(t, op, now).access[k].grantId)
  {
    hide After;
    CallAddsNoRow(t, op, now);
    CallWeakensAccess(t, op, now, k);
    var row := t.access[k];
    CallStandsAccess(t, op, now, k, row.grantId.value);
    CallOnGrant(t, op, now, row.grantId.value);
  }

  lemma OtherCallKeepsRefresh(t: Tables, op: Op, now: Time, k: string)
    requires Safe(t) && Free(op) && k in After(t, op, now).refresh && After(t, op, now).refresh[k].active
    ensures Authorised(After(t, op, now), After(t, op, now).refresh[k].clientId, After(t, op, now).refresh[k].grantId)
  {
    hide After;
    CallAddsNoRow(t, op, now);
    CallWeakensRefresh(t, op, now, k);
    var row := t.refresh[k];
    CallStandsRefresh(t, op, now, k, row.grantId.value);
    CallOnGrant(t, op, now, row.grantId.value);
  }

  lemma OtherCallKeepsSafe(t: Tables, op: Op, now: Time)
    requires Safe(t) && !Creating(op)
    ensures Safe(After(t, op, now))
  {
    hide After, Authorised;
    if op.UpsertGrant? {
      UpsertKeepsRows(t, op, now);
      UpsertKeepsAuthorised(t, op, now);
    } else {
      var t' := After(t, op, now);
      forall k | k in t'.codes && t'.codes[k].active
        ensures Authorised(t', t'.codes[k].clientId, t'.codes[k].grantId)
      {
        OtherCallKeepsCodes(t, op, now, k);
      }
      forall k | k in t'.access && t'.access[k].revokedAt.None?
        ensures Authorised(t', t'.access[k].clientId, t'.access[k].grantId)
      {
        OtherCallKeepsAccess(t, op, now, k);
      }
      forall k | k in t'.refresh && t'.refresh[k].active
        ensures Authorised(t', t'.refresh[k].clientId, t'.refresh[k].grantId)
      {
        OtherCallKeepsRefresh(t, op, now, k);
      }
    }
  }

  lemma UpsertKeepsAuthorised(t: Tables, op: Op, now: Time)
    requires op.UpsertGrant?
    ensures forall clientId, grantId ::
              Authorised(t, clientId, grantId) ==> Authorised(After(t, op, now), clientId, grantId)
  {
    hide After;
    UpsertKeepsRows(t, op, now);
  }

  lemma OtherCallKeepsUnique(t: Tables, op: Op, now: Time)
    requires Unique(t) && !Creating(op)
    ensures Unique(After(t, op, now))
  {
    hide After;
    var t' := After(t, op, now);
    if op.UpsertGrant? {
      UpsertKeepsRows(t, op, now);
    } else {
      CallAddsNoRow(t, op, now);
      forall k | k in t'.access ensures WeakerAccess(t.access[k], t'.access[k]) {
        CallWeakensAccess(t, op, now, k);
      }
      forall k | k in t'.refresh ensures WeakerRefresh(t.refresh[k], t'.refresh[k]) {
        CallWeakensRefresh(t, op, now, k);
      }
    }
  }

  // ---------------------------------------------------------------- runs of single calls

  ghost predicate Sound(t: Tables) {
    Safe(t) && Unique(t)
  }

  ghost predicate SoundThroughout(t: Tables, ops: seq<(Op, Time)>)
    decreases |ops|
  {
    Sound(t) && (ops != [] ==> SoundThroughout(After(t, ops[0].0, ops[0].1), ops[1..]))
  }

  /** Whenever a call stores a row, its client and grant stand and no other live token shares its family
      or request. */
  ghost predicate IssuesInOrder(t: Tables, ops: seq<(Op, Time)>)
    decreases |ops|
  {
    ops != [] ==>
      && (Stores(t, ops[0].0, ops[0].1) ==>
            TakeSnapshot(ops[0].0.requester).Ok? && Entitled(t, ops[0].0) && Alone(t, ops[0].0))
      && IssuesInOrder(After(t, ops[0].0, ops[0].1), ops[1..])
  }

  lemma CallSoundExactly(t: Tables, op: Op, now: Time)
    requires Sound(t)
    ensures Sound(After(t, op, now)) <==>
              (Stores(t, op, now) ==> TakeSnapshot(op.requester).Ok? && Entitled(t, op) && Alone(t, op))
  {
    if Stores(t, op, now) {
      IssueExactly(t, op, now);
    } else if Creating(op) {
      assert After(t, op, now) == t;
    } else {
      OtherCallKeepsSafe(t, op, now);
      OtherCallKeepsUnique(t, op, now);
    }
    hide Apply, After, Safe, Unique, Entitled, Alone;
  }

  /** Over single calls in any interleaving, in which flows may be suspended between any two of theirs:
      every live row keeps an enabled client and a standing grant, every family at most one active
      refresh token and every request at most one live access token, exactly when each row was stored
      while its client and grant stood and no other such token was live. */
  lemma {:induction false} SoundThroughoutExactly(t: Tables, ops: seq<(Op, Time)>)
    requires Sound(t)
    ensures SoundThroughout(t, ops) <==> IssuesInOrder(t, ops)
    decreases |ops|
  {
    if ops != [] {
      var (op, now) := ops[0];
      CallSoundExactly(t, op, now);
      hide Sound, Stores, Entitled, Alone, After;
      if Sound(After(t, op, now)) {
        SoundThroughoutExactly(After(t, op, now), ops[1..]);
      }
    }
  }

  // ---------------------------------------------------------------- interleavings that break it

  /** A grant revoked between an exchange's invalidation of the code and its creation of the token: the
      token is live on a revoked grant. */
  lemma RevokedBeforeIssue(t: Tables, g: string, sig: string, requester: Requester, now: Time, later: Time)
    requires g != "" && Trim(g) == g && g in t.grants
    requires TakeSnapshot(requester).Ok? && GrantIdOf(requester) == g
    requires TakeSnapshot(requester).value.clientId in t.clients
    ensures var t1 := After(t, RevokeGrant(t.grants[g].userId, g), now);
            var t2 := After(t1, CreateAccess(sig, requester), later);
            && sig in t2.access && t2.access[sig].revokedAt.None? && t2.access[sig].grantId == Some(g)
            && g in t2.grants && t2.grants[g].revokedAt.Some? && !Safe(t2)
  {
    hide TakeSnapshot, GrantIdOf, Expiry, Trim;
    var t1 := After(t, RevokeGrant(t.grants[g].userId, g), now);
    assert t1.clients == t.clients && g in t1.grants && t1.grants[g].revokedAt.Some?;
    hide Apply;
    CreateAccessEffect(t1, sig, requester, later);
  }

  /** Two flows that spent one code issue two pairs of tokens: the family has two active tokens. */
  lemma IssuedTwice(t: Tables, requester: Requester, first: string, a1: string, second: string, a2: string, now: Time)
    requires first != second && TakeSnapshot(requester).Ok?
    requires Refers(t.clients, t.grants, TakeSnapshot(requester).value.clientId, Nullable(GrantIdOf(requester)))
    ensures var t1 := After(t, CreateRefresh(first, a1, requester), now);
            var t2 := After(t1, CreateRefresh(second, a2, requester), now);
            && first in t2.refresh && t2.refresh[first].active && second in t2.refresh && t2.refresh[second].active
            && t2.refresh[first].familyId == t2.refresh[second].familyId && !Unique(t2)
  {
    hide TakeSnapshot, GrantIdOf, FamilyIdOf, Expiry, Apply;
    CreateRefreshEffect(t, first, a1, requester, now);
    CreateRefreshEffect(After(t, CreateRefresh(first, a1, requester), now), second, a2, requester, now);
  }
}
