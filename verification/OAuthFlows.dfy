/** What the three flows store when they succeed: a consent, an exchange and a refresh
    (src/internal/common/oauth.go, src/cmd/web/oauth_authorize.go). */
module OAuthFlows {
  import opened OAuthReads
  import opened OAuthRuns
  import opened OAuthTables
  import opened Requests
  import opened Text
  import opened Wrappers

  // ---------------------------------------------------------------- a consent

  /** A consent stores a grant of the signed-in user for the enabled client, whose granted names are exactly
      the requested ones that were selected, and one active code under it; nothing else. */
  lemma ConsentStores(w: World, s: Step, now: Time)
    requires s.Authorise? && Fresh(w, s) && DoAuthorise(w, s, now).Some?
    ensures var t, t', client := w.tables, Next(w, s, now).tables, Trim(s.rawClientId);
            && client in t.clients && t.clients[client].enabled && 0 < s.userId
            && s.grantId in t'.grants && s.code in t'.codes
            && t' == t.(grants := t.grants[s.grantId := t'.grants[s.grantId]],
                        codes := t.codes[s.code := t'.codes[s.code]])
            && ConsentHeld(t'.grants[s.grantId], s, client) && CodeHeld(t'.codes[s.code], s, client, now)
  {
    var t, client, approved := w.tables, Trim(s.rawClientId), Scopes.Approved(s.selected, s.requested);
    var upsert := UpsertGrant(s.grantId, client, s.userId, s.requested, approved);
    TrimIdempotent(s.rawClientId);
    GrantCreated(t, upsert, now);
    var t1 := After(t, upsert, now);
    var requester := ConsentRequester(s, client, now);
    hide ConsentHeld, CodeHeld, Apply, Scopes.Approved, Trim, ConsentRequester, Scopes.Normalize;
    CodeCreated(t1, s.code, requester, now);
    ConsentIsHeld(t1.grants[s.grantId], s, client);
    CodeIsHeld(After(t1, CreateCode(s.code, requester), now).codes[s.code], s, client, now);
  }

  ghost predicate ConsentHeld(grant: GrantRow, s: Step, client: string)
    requires s.Authorise?
  {
    && grant.clientId == client && grant.userId == s.userId && grant.revokedAt == None
    && Scopes.Elements(grant.requested) == Scopes.Names(s.requested)
    && Scopes.Elements(grant.granted) == Scopes.Names(s.selected) * Scopes.Elements(s.requested)
  }

  ghost predicate CodeHeld(code: CodeRow, s: Step, client: string, now: Time)
    requires s.Authorise?
  {
    && code.active && code.consumedAt == None && code.requestId == s.requestId && code.clientId == client
    && code.grantId == Some(s.grantId) && code.expiresAt == now + 900
    && code.request.requestedScopes == Firsts(s.requested)
    && Scopes.Elements(code.request.grantedScopes) == Scopes.Names(s.selected) * Scopes.Elements(s.requested)
  }

  lemma ConsentIsHeld(grant: GrantRow, s: Step, client: string)
    requires s.Authorise? && Scopes.Normalize(s.requested).Ok?
    requires var approved := Scopes.Approved(s.selected, s.requested);
             && Scopes.Normalize(approved).Ok?
             && grant == GrantRow(client, s.userId, Scopes.Normalize(s.requested).value,
                                  Scopes.Normalize(approved).value, None)
    ensures ConsentHeld(grant, s, client)
  {
    var approved := Scopes.Approved(s.selected, s.requested);
    Scopes.NormalizeExact(s.requested);
    Scopes.NormalizeExact(approved);
    Scopes.ApprovedElements(s.selected, s.requested);
    Scopes.NamesOfTrimmed(approved);
  }

  lemma CodeIsHeld(code: CodeRow, s: Step, client: string, now: Time)
    requires s.Authorise? && s.grantId != "" && Trim(s.grantId) == s.grantId
    requires var requester := ConsentRequester(s, client, now);
             && code.active && code.consumedAt == None && code.requestId == requester.request.id
             && code.clientId == client && code.grantId == Extra(requester.request, "grant_id")
             && code.expiresAt == ExpiresAt(requester.request, AuthorizeCode, 900)
             && TakeSnapshot(requester) == Ok(code.request)
    ensures CodeHeld(code, s, client, now)
  {
    var approved := Scopes.Approved(s.selected, s.requested);
    AddAllFirsts(s.requested);
    AddAllElements([], approved);
    Scopes.ApprovedElements(s.selected, s.requested);
    SnapshotHolds(ConsentRequester(s, client, now));
    hide AddAll, Firsts, Trim, Scopes.Approved, TakeSnapshot, SessionHeld, Scopes.Names;
    assert forall x :: x in code.request.grantedScopes <==> x in Scopes.Elements(approved);
  }

  // ---------------------------------------------------------------- an exchange and a refresh

  /** The two tokens issued on the request that `snap` holds: its id, client and grant, live, each of them
      storing that request as an access request. */
  ghost predicate Issued(t: Tables, snap: Snapshot, g: string, accessSig: string, refreshSig: string) {
    && accessSig in t.access && refreshSig in t.refresh
    && var access, refresh := t.access[accessSig], t.refresh[refreshSig];
       && access.requestId == refresh.requestId == snap.id && access.grantId == refresh.grantId == Some(g)
       && access.clientId == refresh.clientId == Trim(snap.clientId)
       && access.revokedAt == None && refresh.revokedAt == None && refresh.usedAt == None && refresh.active
       && refresh.accessSignature == accessSig && refresh.familyId == g
       && access.request == refresh.request && SameRequest(snap, access.request)
  }

  predicate SameRequest(snap: Snapshot, stored: Snapshot) {
    && stored.kind == "access" && stored.id == snap.id && stored.requestedAt == snap.requestedAt
    && stored.requestedScopes == Firsts(snap.requestedScopes) && stored.grantedScopes == Firsts(snap.grantedScopes)
    && stored.form == snap.form && stored.session.extra == snap.session.extra
    && stored.session.subject == Trim(snap.session.subject)
  }

  /** The tables after tokens were issued, without the definition of the new rows. */
  lemma IssuedHolds(t: Tables, clients: Tables, requester: Requester, snap: Snapshot, grantType: string, g: string,
                    accessSig: string, refreshSig: string)
    requires g != "" && Issues(clients, requester, snap, grantType, g)
    ensures TakeSnapshot(requester).Ok?
    ensures var t' := WithTokens(t, requester, accessSig, refreshSig);
            && Issued(t', snap, g, accessSig, refreshSig)
            && t' == t.(access := t.access[accessSig := t'.access[accessSig]],
                        refresh := t.refresh[refreshSig := t'.refresh[refreshSig]])
  {
    hide Restore, Firsts, Trim, GrantIdOf, FamilyIdOf, Expiry;
    RestoreHolds(clients.clients, snap, true);
    SnapshotHolds(requester);
  }

  /** An exchange uses up the code and issues one access and one refresh token on its request; nothing else. */
  lemma ExchangeStores(w: World, s: Step, now: Time)
    requires Inv(w) && s.Exchange? && DoExchange(w, s, now).Some?
    ensures var t, t' := w.tables, Next(w, s, now).tables;
            && s.code in t.codes && s.accessSignature in t'.access && s.refreshSignature in t'.refresh
            && var row := t.codes[s.code];
               && row.active && row.grantId.Some?
               && t' == t.(codes := t.codes[s.code := row.(active := false, consumedAt := Some(now))],
                           access := t.access[s.accessSignature := t'.access[s.accessSignature]],
                           refresh := t.refresh[s.refreshSignature := t'.refresh[s.refreshSignature]])
               && Issued(t', row.request, row.grantId.value, s.accessSignature, s.refreshSignature)
  {
    hide *;
    ExchangeSucceeds(w, s, now);
    var t, row := w.tables, w.tables.codes[s.code];
    var requester := ExchangeResult(w, s, now);
    var t1 := t.(codes := t.codes[s.code := row.(active := false, consumedAt := Some(now))]);
    GrantIdsSet(w);
    IssuedHolds(t1, t, requester, row.request, "authorization_code", row.grantId.value, s.accessSignature,
                s.refreshSignature);
    FlowReached(w, s, now, WithTokens(t1, requester, s.accessSignature, s.refreshSignature), requester);
  }

  lemma FlowReached(w: World, s: Step, now: Time, t: Tables, requester: Requester)
    requires s.Exchange? || s.Refresh?
    requires var done := if s.Exchange? then DoExchange(w, s, now) else DoRefresh(w, s, now);
             done == Some(Advance(w, t, requester, s.accessSignature, s.refreshSignature))
    ensures Next(w, s, now).tables == t
  {
    hide DoExchange, DoRefresh, GrantIdOf;
  }

  lemma GrantIdsSet(w: World)
    requires Inv(w)
    ensures forall k :: k in w.tables.codes ==> w.tables.codes[k].grantId.Some? && w.tables.codes[k].grantId.value != ""
    ensures forall k :: k in w.tables.refresh ==>
        w.tables.refresh[k].grantId.Some? && w.tables.refresh[k].grantId.value != ""
  {
  }

  /** A refresh spends the token, revokes what is left of its request's access tokens, and issues the next
      two tokens on the same request and family; nothing else. */
  lemma RefreshStores(w: World, s: Step, now: Time)
    requires Inv(w) && Fresh(w, s) && s.Refresh? && DoRefresh(w, s, now).Some?
    ensures var t, t' := w.tables, Next(w, s, now).tables;
            && s.signature in t.refresh && s.refreshSignature in t'.refresh
            && var row := t.refresh[s.signature];
               && row.active && row.grantId.Some?
               && t' == t.(access := t'.access, refresh :=
                             t.refresh[s.signature := row.(active := false, usedAt := Some(now))]
                             [s.refreshSignature := t'.refresh[s.refreshSignature]])
               && s.accessSignature !in t.access && s.accessSignature in t'.access
               && RevokedOf(t.access, row.requestId, now, t'.access - {s.accessSignature})
               && Issued(t', row.request, row.grantId.value, s.accessSignature, s.refreshSignature)
  {
    assert s.accessSignature !in w.tables.access;
    hide *;
    RefreshSucceeds(w, s, now);
    var t, row := w.tables, w.tables.refresh[s.signature];
    var requester := RefreshResult(w, s, now);
    var t1 := t.(refresh := t.refresh[s.signature := row.(active := false, usedAt := Some(now))],
                 access := AccessRevokedFor(t.access, row.requestId, now));
    GrantIdsSet(w);
    IssuedHolds(t1, t, requester, row.request, "refresh_token", row.grantId.value, s.accessSignature,
                s.refreshSignature);
    var t' := WithTokens(t1, requester, s.accessSignature, s.refreshSignature);
    FlowReached(w, s, now, t', requester);
    RevokedRows(t.access, row.requestId, now);
    Added(t1.access, s.accessSignature, t'.access[s.accessSignature]);
  }

  /** The rows of a request revoked, at the first time, and the others as they were. */
  ghost predicate RevokedOf(before: map<string, AccessRow>, requestId: string, now: Time,
                            rows: map<string, AccessRow>) {
    && rows.Keys == before.Keys
    && forall k :: k in rows ==>
         rows[k] == if before[k].requestId == requestId
                    then before[k].(revokedAt := FirstTime(before[k].revokedAt, now)) else before[k]
  }

  lemma RevokedRows(access: map<string, AccessRow>, requestId: string, now: Time)
    ensures AccessRevokedFor(access, requestId, now).Keys == access.Keys
    ensures RevokedOf(access, requestId, now, AccessRevokedFor(access, requestId, now))
  {
  }

  lemma Added(access: map<string, AccessRow>, sig: string, row: AccessRow)
    requires sig !in access
    ensures access[sig := row] - {sig} == access
  {
  }
}
