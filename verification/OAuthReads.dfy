/** What reading a code or token promises, and which calls end it (src/internal/common/oauth.go). */
module OAuthReads {
  import opened OAuthRuns
  import opened OAuthTables
  import opened Requests
  import opened Text
  import opened Wrappers

  // ---------------------------------------------------------------- whom a call concerns

  /** The client that a call disables. */
  predicate Disables(t: Tables, op: Op, clientId: string) {
    op.SetClientEnabled? && !op.enabled && Trim(op.rawId) == clientId && clientId != "" && clientId in t.clients
  }

  /** The grant that its user revokes. */
  predicate EndsGrant(t: Tables, op: Op, grantId: Option<string>) {
    op.RevokeGrant? && grantId == Some(Trim(op.rawGrantId)) && Trim(op.rawGrantId) != ""
    && grantId.value in t.grants && t.grants[grantId.value].userId == op.user
  }

  /** The rotation goes through. */
  predicate RotatesNow(t: Tables, op: Op) {
    op.RotateRefresh? && op.signature in t.refresh && t.refresh[op.signature].active
  }

  predicate EndsAccess(t: Tables, op: Op, sig: string)
    requires sig in t.access
  {
    var row := t.access[sig];
    || Disables(t, op, row.clientId) || EndsGrant(t, op, row.grantId)
    || (op.DeleteAccess? && op.signature == sig)
    || (op.RevokeAccessTokens? && op.requestId == row.requestId)
    || (RotatesNow(t, op) && op.requestId == row.requestId)
  }

  predicate RevokesRefresh(t: Tables, op: Op, sig: string)
    requires sig in t.refresh
  {
    var row := t.refresh[sig];
    || Disables(t, op, row.clientId) || EndsGrant(t, op, row.grantId)
    || (op.DeleteRefresh? && op.signature == sig)
    || (op.RevokeRefreshTokens? && op.requestId == row.requestId)
  }

  predicate EndsCode(t: Tables, op: Op, sig: string)
    requires sig in t.codes
  {
    Disables(t, op, t.codes[sig].clientId) || EndsGrant(t, op, t.codes[sig].grantId)
  }

  function FirstTime(earlier: Option<Time>, now: Time): Option<Time> {
    if earlier == None then Some(now) else earlier
  }

  // ---------------------------------------------------------------- what each call does to each row

  /** An access token is revoked by exactly the calls that concern it, and nothing else about it changes. */
  lemma AccessAfter(t: Tables, op: Op, now: Time, sig: string)
    requires sig in t.access && !(op.CreateAccess? && op.signature == sig)
    ensures var row := t.access[sig];
            && sig in After(t, op, now).access
            && After(t, op, now).access[sig] ==
               if EndsAccess(t, op, sig) then row.(revokedAt := FirstTime(row.revokedAt, now)) else row
  {
    hide *;
    if op.SetClientEnabled? || op.RevokeGrant? {
      AccessAfterSweep(t, op, now, sig);
    } else {
      AccessAfterCall(t, op, now, sig);
    }
  }

  lemma AccessAfterSweep(t: Tables, op: Op, now: Time, sig: string)
    requires sig in t.access && !(op.CreateAccess? && op.signature == sig)
    requires op.SetClientEnabled? || op.RevokeGrant?
    ensures var row := t.access[sig];
            && sig in After(t, op, now).access
            && After(t, op, now).access[sig] ==
               if EndsAccess(t, op, sig) then row.(revokedAt := FirstTime(row.revokedAt, now)) else row
  {
    hide Trim, TakeSnapshot, Refers, OnlyCodeOf, NewAccess, NewCode, NewRefresh, Scopes.Normalize,
        Scopes.GrantScopesValid;
  }

  lemma AccessAfterCall(t: Tables, op: Op, now: Time, sig: string)
    requires sig in t.access && !(op.CreateAccess? && op.signature == sig)
    requires !op.SetClientEnabled? && !op.RevokeGrant?
    ensures var row := t.access[sig];
            && sig in After(t, op, now).access
            && After(t, op, now).access[sig] ==
               if EndsAccess(t, op, sig) then row.(revokedAt := FirstTime(row.revokedAt, now)) else row
  {
    hide Trim, TakeSnapshot, Refers, OnlyCodeOf, NewAccess, NewCode, NewRefresh, Scopes.Normalize,
        Scopes.GrantScopesValid, ApplySetEnabled, ApplyRevokeGrant;
  }

  /** So is a refresh token; a rotation spends the token it names without a revocation time. */
  lemma RefreshAfter(t: Tables, op: Op, now: Time, sig: string)
    requires sig in t.refresh && !(op.CreateRefresh? && op.signature == sig)
    ensures var row := t.refresh[sig];
            && sig in After(t, op, now).refresh
            && After(t, op, now).refresh[sig] ==
               if RevokesRefresh(t, op, sig) then
                 row.(active := false, revokedAt := FirstTime(row.revokedAt, now), usedAt := FirstTime(row.usedAt, now))
               else if RotatesNow(t, op) && op.signature == sig then row.(active := false, usedAt := Some(now))
               else row
  {
    hide *;
    if op.SetClientEnabled? || op.RevokeGrant? {
      RefreshAfterSweep(t, op, now, sig);
    } else {
      RefreshAfterCall(t, op, now, sig);
    }
  }

  lemma RefreshAfterSweep(t: Tables, op: Op, now: Time, sig: string)
    requires sig in t.refresh && !(op.CreateRefresh? && op.signature == sig)
    requires op.SetClientEnabled? || op.RevokeGrant?
    ensures var row := t.refresh[sig];
            && sig in After(t, op, now).refresh
            && After(t, op, now).refresh[sig] ==
               if RevokesRefresh(t, op, sig) then
                 row.(active := false, revokedAt := FirstTime(row.revokedAt, now), usedAt := FirstTime(row.usedAt, now))
               else if RotatesNow(t, op) && op.signature == sig then row.(active := false, usedAt := Some(now))
               else row
  {
    hide Trim, TakeSnapshot, Refers, OnlyCodeOf, NewAccess, NewCode, NewRefresh, Scopes.Normalize,
        Scopes.GrantScopesValid;
  }

  lemma RefreshAfterCall(t: Tables, op: Op, now: Time, sig: string)
    requires sig in t.refresh && !(op.CreateRefresh? && op.signature == sig)
    requires !op.SetClientEnabled? && !op.RevokeGrant?
    ensures var row := t.refresh[sig];
            && sig in After(t, op, now).refresh
            && After(t, op, now).refresh[sig] ==
               if RevokesRefresh(t, op, sig) then
                 row.(active := false, revokedAt := FirstTime(row.revokedAt, now), usedAt := FirstTime(row.usedAt, now))
               else if RotatesNow(t, op) && op.signature == sig then row.(active := false, usedAt := Some(now))
               else row
  {
    hide Trim, TakeSnapshot, Refers, OnlyCodeOf, NewAccess, NewCode, NewRefresh, Scopes.Normalize,
        Scopes.GrantScopesValid, ApplySetEnabled, ApplyRevokeGrant;
  }

  lemma CodeAfter(t: Tables, op: Op, now: Time, sig: string)
    requires sig in t.codes && !(op.CreateCode? && op.signature == sig)
    ensures var row := t.codes[sig];
            && sig in After(t, op, now).codes
            && After(t, op, now).codes[sig] ==
               if EndsCode(t, op, sig) then row.(active := false, consumedAt := FirstTime(row.consumedAt, now))
               else if op.InvalidateCode? && op.signature == sig then row.(active := false, consumedAt := Some(now))
               else row
  {
    hide *;
    if op.SetClientEnabled? || op.RevokeGrant? {
      CodeAfterSweep(t, op, now, sig);
    } else {
      CodeAfterCall(t, op, now, sig);
    }
  }

  lemma CodeAfterSweep(t: Tables, op: Op, now: Time, sig: string)
    requires sig in t.codes && !(op.CreateCode? && op.signature == sig)
    requires op.SetClientEnabled? || op.RevokeGrant?
    ensures var row := t.codes[sig];
            && sig in After(t, op, now).codes
            && After(t, op, now).codes[sig] ==
               if EndsCode(t, op, sig) then row.(active := false, consumedAt := FirstTime(row.consumedAt, now))
               else if op.InvalidateCode? && op.signature == sig then row.(active := false, consumedAt := Some(now))
               else row
  {
    hide Trim, TakeSnapshot, Refers, OnlyCodeOf, NewAccess, NewCode, NewRefresh, Scopes.Normalize,
        Scopes.GrantScopesValid;
  }

  lemma CodeAfterCall(t: Tables, op: Op, now: Time, sig: string)
    requires sig in t.codes && !(op.CreateCode? && op.signature == sig)
    requires !op.SetClientEnabled? && !op.RevokeGrant?
    ensures var row := t.codes[sig];
            && sig in After(t, op, now).codes
            && After(t, op, now).codes[sig] ==
               if EndsCode(t, op, sig) then row.(active := false, consumedAt := FirstTime(row.consumedAt, now))
               else if op.InvalidateCode? && op.signature == sig then row.(active := false, consumedAt := Some(now))
               else row
  {
    hide Trim, TakeSnapshot, Refers, OnlyCodeOf, NewAccess, NewCode, NewRefresh, Scopes.Normalize,
        Scopes.GrantScopesValid, ApplySetEnabled, ApplyRevokeGrant;
  }

  lemma GrantAfter(t: Tables, op: Op, now: Time, g: string)
    requires g in t.grants
    ensures var row := t.grants[g];
            && g in After(t, op, now).grants
            && After(t, op, now).grants[g] ==
               if Disables(t, op, row.clientId) || EndsGrant(t, op, Some(g))
               then row.(revokedAt := FirstTime(row.revokedAt, now)) else row
  {
    hide Trim, TakeSnapshot, Refers, OnlyCodeOf, NewAccess, NewCode, NewRefresh, Scopes.Normalize,
        Scopes.GrantScopesValid;
  }

  lemma ClientAfter(t: Tables, op: Op, now: Time, id: string)
    requires id in t.clients
    ensures id in After(t, op, now).clients
            && After(t, op, now).clients[id] ==
               if op.SetClientEnabled? && Trim(op.rawId) == id && id != "" then t.clients[id].(enabled := op.enabled)
               else t.clients[id]
  {
    hide Trim, TakeSnapshot, Refers, OnlyCodeOf, NewAccess, NewCode, NewRefresh, Scopes.Normalize,
        Scopes.GrantScopesValid;
  }

  /** Which of these calls are refused, and with what. */
  lemma RefusedExactly(t: Tables, op: Op, now: Time)
    ensures op.SetClientEnabled? ==>
              (Apply(t, op, now).Err? <==> Trim(op.rawId) == "" || Trim(op.rawId) !in t.clients)
    ensures op.RevokeGrant? ==>
              var g := Trim(op.rawGrantId);
              (Apply(t, op, now).Err? <==> g == "" || g !in t.grants || t.grants[g].userId != op.user)
    ensures op.InvalidateCode? ==> (Apply(t, op, now).Err? <==> op.signature !in t.codes)
    ensures op.RotateRefresh? ==>
              && (Apply(t, op, now) == Err(RowMissing) <==> op.signature !in t.refresh)
              && (Apply(t, op, now) == Err(InactiveToken) <==>
                    op.signature in t.refresh && !t.refresh[op.signature].active)
              && (Apply(t, op, now).Ok? <==> RotatesNow(t, op))
    ensures op.DeleteAccess? || op.DeleteRefresh? || op.RevokeAccessTokens? || op.RevokeRefreshTokens? ==>
              Apply(t, op, now).Ok?
    ensures op.CreateClient? ==>
              (Apply(t, op, now).Ok? <==>
                 && Trim(op.name) != "" && op.redirectsValid && op.id !in t.clients
                 && Scopes.Normalize(op.scopes).Ok?)
  {
    hide Trim, Scopes.Normalize, AccessRevokedFor;
  }

  /** A registered client is enabled, with its scopes normalised; no other client changes. */
  lemma ClientCreated(t: Tables, op: Op, now: Time)
    requires op.CreateClient? && Apply(t, op, now).Ok?
    ensures Scopes.Normalize(op.scopes).Ok?
    ensures After(t, op, now) == t.(clients := t.clients[op.id := Client(true, Scopes.Normalize(op.scopes).value)])
  {
    hide Trim, Scopes.Normalize;
  }

  // ---------------------------------------------------------------- what a new row holds

  /** The session's own expiry of that kind, if it is set; else a while after the request. */
  function ExpiresAt(r: Request, kind: TokenType, seconds: int): Time {
    if !r.session.NoSession? && kind in r.session.expiresAt && r.session.expiresAt[kind] != 0
    then r.session.expiresAt[kind] else r.requestedAt + seconds
  }

  /** The trimmed extra value of a default session; nothing when it is blank or missing. */
  function Extra(r: Request, key: string): Option<string> {
    if r.session.DefaultSession? && key in r.session.extra && Trim(r.session.extra[key]) != ""
    then Some(Trim(r.session.extra[key])) else None
  }

  /** The client and the grant that a request names are stored. */
  predicate Known(t: Tables, r: Request) {
    && r.client.Some? && r.client.value in t.clients
    && (Extra(r, "grant_id").Some? ==> Extra(r, "grant_id").value in t.grants)
  }

  /** When a code or token is stored; a code only while no other code belongs to its request. */
  lemma CreationsAccepted(t: Tables, op: Op, now: Time)
    ensures op.CreateAccess? || op.CreateRefresh? ==> (Apply(t, op, now).Ok? <==> Known(t, op.requester.request))
    ensures op.CreateCode? ==>
              (Apply(t, op, now).Ok? <==>
                 && Known(t, op.requester.request)
                 && forall sig :: sig in t.codes && sig != op.signature ==>
                      t.codes[sig].requestId != op.requester.request.id)
  {
    hide Apply;
    if op.CreateCode? || op.CreateAccess? || op.CreateRefresh? {
      TakenExactly(op.requester);
      if TakeSnapshot(op.requester).Ok? {
        SnapshotOf(op.requester);
        if op.CreateCode? {
          CreateCodeEffect(t, op.signature, op.requester, now);
        } else if op.CreateAccess? {
          CreateAccessEffect(t, op.signature, op.requester, now);
        } else {
          CreateRefreshEffect(t, op.signature, op.accessSignature, op.requester, now);
        }
      } else {
        NothingTaken(t, op, now);
      }
    }
    hide Trim, Expiry, TakeSnapshot;
  }

  lemma TakenExactly(requester: Requester)
    ensures TakeSnapshot(requester).Ok? <==> requester.request.client.Some?
  {
    hide MakeStoredSession;
  }

  lemma NothingTaken(t: Tables, op: Op, now: Time)
    requires (op.CreateCode? || op.CreateAccess? || op.CreateRefresh?) && TakeSnapshot(op.requester).Err?
    ensures Apply(t, op, now).Err?
  {
    hide TakeSnapshot;
  }

  /** A consent is stored when its client exists and both scope lists are valid, the granted within the
      requested: for its user and client, with both lists normalised, unrevoked. */
  lemma GrantCreated(t: Tables, op: Op, now: Time)
    requires op.UpsertGrant?
    ensures Apply(t, op, now).Ok? <==>
              && Trim(op.rawClientId) != "" && Trim(op.rawClientId) in t.clients && 0 < op.userId
              && op.grantId !in t.grants && Scopes.Normalize(op.requested).Ok? && Scopes.Normalize(op.granted).Ok?
              && Scopes.Names(op.granted) <= Scopes.Names(op.requested)
    ensures Apply(t, op, now).Ok? ==>
              && Scopes.Normalize(op.requested).Ok? && Scopes.Normalize(op.granted).Ok?
              && After(t, op, now) == t.(grants := t.grants[op.grantId := GrantRow(
                   Trim(op.rawClientId), op.userId, Scopes.Normalize(op.requested).value,
                   Scopes.Normalize(op.granted).value, None)])
  {
    UpsertEffect(t, op, now);
    Scopes.GrantScopesExact(op.requested, op.granted);
    hide Apply, Trim, Scopes.Normalize, Scopes.Names, Scopes.GrantScopesValid;
  }

  lemma CodeCreated(t: Tables, sig: string, requester: Requester, now: Time)
    requires Apply(t, CreateCode(sig, requester), now).Ok?
    ensures var t', r := After(t, CreateCode(sig, requester), now), requester.request;
            && r.client.Some? && sig in t'.codes && t' == t.(codes := t.codes[sig := t'.codes[sig]])
            && var row := t'.codes[sig];
               && row.active && row.consumedAt == None && row.requestId == r.id && row.clientId == r.client.value
               && row.grantId == Extra(r, "grant_id") && row.expiresAt == ExpiresAt(r, AuthorizeCode, 900)
               && TakeSnapshot(requester) == Ok(row.request)
  {
    SnapshotOf(requester);
    hide Trim, TakeSnapshot, Refers, OnlyCodeOf;
  }

  lemma AccessCreated(t: Tables, sig: string, requester: Requester, now: Time)
    requires Apply(t, CreateAccess(sig, requester), now).Ok?
    ensures var t', r := After(t, CreateAccess(sig, requester), now), requester.request;
            && r.client.Some? && sig in t'.access && t' == t.(access := t.access[sig := t'.access[sig]])
            && var row := t'.access[sig];
               && row.revokedAt == None && row.requestId == r.id && row.clientId == r.client.value
               && row.grantId == Extra(r, "grant_id") && row.expiresAt == ExpiresAt(r, AccessToken, 3600)
               && TakeSnapshot(requester) == Ok(row.request)
  {
    SnapshotOf(requester);
    hide Trim, TakeSnapshot, Refers, OnlyCodeOf;
  }

  lemma RefreshCreated(t: Tables, sig: string, accessSig: string, requester: Requester, now: Time)
    requires Apply(t, CreateRefresh(sig, accessSig, requester), now).Ok?
    ensures var t', r := After(t, CreateRefresh(sig, accessSig, requester), now), requester.request;
            && r.client.Some? && sig in t'.refresh && t' == t.(refresh := t.refresh[sig := t'.refresh[sig]])
            && var row := t'.refresh[sig];
               && row.active && row.revokedAt == None && row.usedAt == None
               && row.requestId == r.id && row.clientId == r.client.value && row.accessSignature == accessSig
               && row.familyId == (if Extra(r, "refresh_family_id").Some? then Extra(r, "refresh_family_id").value
                 else r.id)
               && row.grantId == Extra(r, "grant_id") && row.expiresAt == ExpiresAt(r, RefreshToken, 2592000)
               && TakeSnapshot(requester) == Ok(row.request)
  {
    SnapshotOf(requester);
    hide Trim, TakeSnapshot, Refers, OnlyCodeOf;
  }

  lemma SnapshotOf(requester: Requester)
    requires TakeSnapshot(requester).Ok?
    ensures var snap := TakeSnapshot(requester).value;
            requester.request.client.Some? && snap.id == requester.request.id
            && snap.clientId == requester.request.client.value
  {
    hide Trim;
  }

  // ---------------------------------------------------------------- reads

  /** A token is found exactly while it is stored, not revoked, and its request can be restored; what
      comes back is that request. */
  lemma AccessReads(t: Tables, sig: string)
    ensures sig !in t.access || t.access[sig].revokedAt.Some? ==> GetAccess(t, sig) == Err(RowMissing)
    ensures sig in t.access && t.access[sig].revokedAt.None? ==>
              var restored := Restore(t.clients, t.access[sig].request, true);
              && (GetAccess(t, sig).Ok? <==> restored.Ok?)
              && (restored.Ok? ==> GetAccess(t, sig).value == restored.value)
              && (restored.Err? ==> GetAccess(t, sig) == Err(BadRequest(restored.error)))
  {
    hide Restore;
  }

  /** A code's request comes back even when the code is used up, but then not usable. */
  lemma CodeReads(t: Tables, sig: string)
    ensures sig !in t.codes ==> GetCode(t, sig) == Err(RowMissing)
    ensures sig in t.codes ==>
              var restored := Restore(t.clients, t.codes[sig].request, true);
              && (GetCode(t, sig).Ok? <==> restored.Ok?)
              && (restored.Ok? ==>
                    GetCode(t, sig).value.requester == restored.value
                    && GetCode(t, sig).value.usable == t.codes[sig].active)
  {
    hide Restore;
  }

  lemma RefreshReads(t: Tables, sig: string, now: Time)
    ensures sig !in t.refresh ==> GetRefresh(t, sig, now) == Err(RowMissing)
    ensures sig in t.refresh ==>
              var row := t.refresh[sig];
              var restored := Restore(t.clients, row.request, true);
              && (GetRefresh(t, sig, now).Ok? <==> restored.Ok?)
              && (restored.Ok? ==>
                    GetRefresh(t, sig, now).value.requester == restored.value
                    && (GetRefresh(t, sig, now).value.usable <==>
                          row.active && row.revokedAt.None? && now <= row.expiresAt))
  {
    hide Restore;
  }

  /** In a reachable store exactly the unrevoked tokens are found, and each of them belongs to an enabled
      client and a standing grant and comes back with its own request. */
  lemma TokensFound(w: World, sig: string)
    requires Inv(w)
    ensures var t := w.tables;
            && (GetAccess(t, sig).Ok? <==> sig in t.access && t.access[sig].revokedAt.None?)
            && (GetAccess(t, sig).Ok? ==>
                  && Authorised(t, t.access[sig].clientId, t.access[sig].grantId)
                  && GetAccess(t, sig).value.request.id == t.access[sig].requestId
                  && GetAccess(t, sig).value.request.client == Some(t.access[sig].clientId))
  {
    AccessReads(w.tables, sig);
    InvMeansSafe(w);
    hide GetAccess, Restore, Within;
    if sig in w.tables.access {
      var row := w.tables.access[sig];
      assert AccessOk(w, sig, row);
      RestoredRequest(w, row.request, row.requestId, row.clientId, row.grantId.value, "");
      RestoredClient(w.tables.clients, row.request);
    }
  }

  lemma RestoredClient(clients: map<string, Client>, snap: Snapshot)
    ensures Restore(clients, snap, true).Ok? ==>
              Restore(clients, snap, true).value.request.client == Some(Trim(snap.clientId))
  {
    hide Trim, AddAll;
  }

  /** After every run from the empty store. */
  lemma OnlyLiveTokensFound(run: seq<(Step, Time)>, sig: string)
    requires ValidRun(Init(), run)
    ensures var t := Exec(Init(), run).tables;
            && (GetAccess(t, sig).Ok? <==> sig in t.access && t.access[sig].revokedAt.None?)
            && (GetAccess(t, sig).Ok? ==> Authorised(t, t.access[sig].clientId, t.access[sig].grantId))
  {
    RunKeepsInv(Init(), run);
    hide Inv, Exec, ValidRun, GetAccess;
    TokensFound(Exec(Init(), run), sig);
  }

  /** Once a call that concerns it has been made, a token is not found again until its signature is
      created again: after revoking or deleting it, revoking its grant, disabling its client or rotating
      its request. */
  lemma EndedTokensStayLost(t: Tables, op: Op, now: Time, sig: string, ops: seq<(Op, Time)>)
    requires sig in t.access && EndsAccess(t, op, sig)
    requires forall i :: 0 <= i < |ops| ==> !Creates(ops[i].0, sig)
    ensures GetAccess(After(t, op, now), sig) == Err(RowMissing)
    ensures GetAccess(Run(After(t, op, now), ops), sig) == Err(RowMissing)
  {
    EndingIsNoCreation(t, op, sig);
    AccessAfter(t, op, now, sig);
    var t1 := After(t, op, now);
    RunKeeps(t1, ops, sig);
    hide After, Run, GetAccess, EndsAccess;
    AccessReads(t1, sig);
    AccessReads(Run(t1, ops), sig);
  }

  lemma EndingIsNoCreation(t: Tables, op: Op, sig: string)
    requires sig in t.access && EndsAccess(t, op, sig)
    ensures !op.CreateAccess?
  {
  }

  /** Likewise a refresh token, which is never usable again. */
  lemma EndedRefreshStaysUnusable(t: Tables, op: Op, now: Time, sig: string, ops: seq<(Op, Time)>, later: Time)
    requires sig in t.refresh && (RevokesRefresh(t, op, sig) || (RotatesNow(t, op) && op.signature == sig))
    requires forall i :: 0 <= i < |ops| ==> !Creates(ops[i].0, sig)
    ensures var t' := Run(After(t, op, now), ops);
            GetRefresh(t', sig, later).Ok? ==> !GetRefresh(t', sig, later).value.usable
  {
    assert !op.CreateRefresh?;
    RefreshAfter(t, op, now, sig);
    var t1 := After(t, op, now);
    RunKeeps(t1, ops, sig);
    hide After, Run, GetRefresh, RevokesRefresh, RotatesNow;
    RefreshReads(Run(t1, ops), sig, later);
  }

  /** And a code. */
  lemma EndedCodeStaysUnusable(t: Tables, op: Op, now: Time, sig: string, ops: seq<(Op, Time)>)
    requires sig in t.codes && (EndsCode(t, op, sig) || (op.InvalidateCode? && op.signature == sig))
    requires forall i :: 0 <= i < |ops| ==> !Creates(ops[i].0, sig)
    ensures var t' := Run(After(t, op, now), ops);
            GetCode(t', sig).Ok? ==> !GetCode(t', sig).value.usable
  {
    assert !op.CreateCode?;
    CodeAfter(t, op, now, sig);
    var t1 := After(t, op, now);
    RunKeeps(t1, ops, sig);
    hide After, Run, GetCode, EndsCode;
    CodeReads(Run(t1, ops), sig);
  }
}
