/** Runs of the authorization server: the consent page's authorise flow and fosite's exchange
    and refresh flows, interleaved with every other store call
    (src/cmd/web/oauth_authorize.go, src/internal/common/oauth.go). */
module OAuthRuns {
  import opened OAuthTables
  import opened Requests
  import opened Text
  import opened Wrappers

  /** Which rows of a grant may still be live: its code, or its newest pair of tokens. */
  datatype Stage = AtCode(code: string) | AtTokens(accessSignature: string, refreshSignature: string)

  /** History of a grant: the request it was made for, and how far the flow has come. */
  datatype Thread = Thread(requestId: string, stage: Stage)

  datatype World = World(tables: Tables, threads: map<string, Thread>)

  datatype Step =
    | Call(op: Op)
    | Authorise(rawClientId: string, userId: int, subject: string, username: string, requestId: string,
                requested: seq<string>, selected: seq<string>, grantId: string, code: string)
    | Exchange(code: string, accessSignature: string, refreshSignature: string)
    | Refresh(signature: string, accessSignature: string, refreshSignature: string)

  /** Calls that a run may make on their own; rows are created by the flows. */
  predicate Free(op: Op) {
    !op.CreateCode? && !op.CreateAccess? && !op.CreateRefresh? && !op.UpsertGrant?
  }

  // ---------------------------------------------------------------- flows

  function ConsentRequester(s: Step, clientId: string, now: Time): Requester
    requires s.Authorise?
  {
    var session := DefaultSession(s.subject, s.username, map[],
                                  map["grant_id" := s.grantId, "refresh_family_id" := s.grantId]);
    Requester.Authorize(
      Request(s.requestId, now, Some(clientId), AddAll([], s.requested),
              AddAll([], Scopes.Approved(s.selected, s.requested)), [], [], map[], session),
      None, "", ["code"])
  }

  function DoAuthorise(w: World, s: Step, now: Time): Option<World>
    requires s.Authorise?
  {
    var client := ClientForFosite(w.tables.clients, s.rawClientId, false);
    var approved := Scopes.Approved(s.selected, s.requested);
    if client.None? || approved == [] then None else
      match Apply(w.tables, UpsertGrant(s.grantId, client.value, s.userId, s.requested, approved), now)
      case Err(_) => None
      case Ok(t) =>
        match Apply(t, CreateCode(s.code, ConsentRequester(s, client.value, now)), now)
        case Err(_) => None
        case Ok(t') => Some(World(t', w.threads[s.grantId := Thread(s.requestId, AtCode(s.code))]))
  }

  /** Access and refresh rows under the restored request. */
  function IssueTokens(t: Tables, request: Request, grantType: string, accessSig: string, refreshSig: string,
                       now: Time): Option<Tables> {
    var requester := Requester.Access(request, [grantType]);
    match Apply(t, CreateAccess(accessSig, requester), now)
    case Err(_) => None
    case Ok(t1) =>
      match Apply(t1, CreateRefresh(refreshSig, accessSig, requester), now)
      case Err(_) => None
      case Ok(t2) => Some(t2)
  }

  function Advance(w: World, t: Tables, requester: Requester, accessSig: string, refreshSig: string): World {
    var g := GrantIdOf(requester);
    World(t, if g in w.threads
             then w.threads[g := w.threads[g].(stage := AtTokens(accessSig, refreshSig))] else w.threads)
  }

  function DoExchange(w: World, s: Step, now: Time): Option<World>
    requires s.Exchange?
  {
    match GetCode(w.tables, s.code)
    case Ok(Lookup(requester, true)) =>
      (match Apply(w.tables, InvalidateCode(s.code), now)
       case Err(_) => None
       case Ok(t) =>
         match IssueTokens(t, requester.request, "authorization_code", s.accessSignature, s.refreshSignature, now)
         case None => None
         case Some(t') => Some(Advance(w, t', requester, s.accessSignature, s.refreshSignature)))
    case _ => None
  }

  function DoRefresh(w: World, s: Step, now: Time): Option<World>
    requires s.Refresh?
  {
    match GetRefresh(w.tables, s.signature, now)
    case Ok(Lookup(requester, true)) =>
      (match Apply(w.tables, RotateRefresh(requester.request.id, s.signature), now)
       case Err(_) => None
       case Ok(t) =>
         match IssueTokens(t, requester.request, "refresh_token", s.accessSignature, s.refreshSignature, now)
         case None => None
         case Some(t') => Some(Advance(w, t', requester, s.accessSignature, s.refreshSignature)))
    case _ => None
  }

  /** Signatures, grant ids and request ids are drawn fresh. */
  predicate Fresh(w: World, s: Step) {
    match s
    case Call(op) => Free(op)
    case Authorise(_, _, _, _, requestId, _, _, g, code) =>
      && g != "" && Trim(g) == g && g !in w.tables.grants
      && (forall h :: h in w.threads ==> w.threads[h].requestId != requestId) && code !in w.tables.codes
    case Exchange(_, a, r) => a !in w.tables.access && r !in w.tables.refresh
    case Refresh(_, a, r) => a !in w.tables.access && r !in w.tables.refresh
  }

  /** A step that fails changes nothing. */
  function Next(w: World, s: Step, now: Time): World {
    match s
    case Call(op) => w.(tables := After(w.tables, op, now))
    case Authorise(_, _, _, _, _, _, _, _, _) =>
      (match DoAuthorise(w, s, now) case Some(w') => w' case None => w)
    case Exchange(_, _, _) => (match DoExchange(w, s, now) case Some(w') => w' case None => w)
    case Refresh(_, _, _) => (match DoRefresh(w, s, now) case Some(w') => w' case None => w)
  }

  // ---------------------------------------------------------------- invariant

  ghost predicate Carries(snap: Snapshot, requestId: string, clientId: string, g: string) {
    && snap.id == requestId && snap.clientId == clientId
    && snap.kind in {"authorize", "access"}
    && "grant_id" in snap.session.extra && Trim(snap.session.extra["grant_id"]) == g
    && "refresh_family_id" in snap.session.extra && Trim(snap.session.extra["refresh_family_id"]) == g
  }

  ghost predicate Within(scopes: seq<string>, granted: seq<string>) {
    forall s :: s in scopes ==> s in granted
  }

  /** The client row of a grant exists under a trimmed, non-empty id. */
  ghost predicate HasClient(t: Tables, row: GrantRow) {
    row.clientId in t.clients && row.clientId != "" && Trim(row.clientId) == row.clientId
  }

  /** A row belongs to grant `g`: it carries the grant's client and request, and no scope
      beyond the granted ones. */
  ghost predicate Bound(w: World, snap: Snapshot, requestId: string, clientId: string, g: string) {
    && g in w.threads && g in w.tables.grants && g != ""
    && w.threads[g].requestId == requestId
    && w.tables.grants[g].clientId == clientId && HasClient(w.tables, w.tables.grants[g])
    && Carries(snap, requestId, clientId, g)
    && Within(snap.grantedScopes, w.tables.grants[g].granted)
  }

  /** The client of grant `g` is enabled and the grant is not revoked. */
  ghost predicate Standing(t: Tables, g: string) {
    && g in t.grants && t.grants[g].revokedAt.None?
    && t.grants[g].clientId in t.clients && t.clients[t.grants[g].clientId].enabled
  }

  ghost predicate CodeOk(w: World, k: string, row: CodeRow) {
    && row.grantId.Some? && Bound(w, row.request, row.requestId, row.clientId, row.grantId.value)
    && (row.active ==> Standing(w.tables, row.grantId.value) && w.threads[row.grantId.value].stage == AtCode(k))
  }

  ghost predicate AccessOk(w: World, k: string, row: AccessRow) {
    && row.grantId.Some? && Bound(w, row.request, row.requestId, row.clientId, row.grantId.value)
    && (row.revokedAt.None? ==>
      && Standing(w.tables, row.grantId.value)
      && w.threads[row.grantId.value].stage.AtTokens?
      && w.threads[row.grantId.value].stage.accessSignature == k)
  }

  ghost predicate RefreshOk(w: World, k: string, row: RefreshRow) {
    && row.grantId.Some? && Bound(w, row.request, row.requestId, row.clientId, row.grantId.value)
    && row.familyId == row.grantId.value
    && (row.active ==>
      && Standing(w.tables, row.grantId.value)
      && w.threads[row.grantId.value].stage.AtTokens?
      && w.threads[row.grantId.value].stage.refreshSignature == k)
  }

  /** The tokens that a grant has come to were stored for it. */
  ghost predicate NewestOk(w: World, g: string)
    requires g in w.threads
  {
    var stage := w.threads[g].stage;
    stage.AtTokens? ==>
      && stage.refreshSignature in w.tables.refresh
      && w.tables.refresh[stage.refreshSignature].grantId == Some(g)
  }

  ghost predicate Inv(w: World) {
    && w.threads.Keys == w.tables.grants.Keys
    && (forall g, h :: g in w.threads && h in w.threads && w.threads[g].requestId == w.threads[h].requestId ==> g == h)
    && (forall k :: k in w.tables.codes ==> CodeOk(w, k, w.tables.codes[k]))
    && (forall k :: k in w.tables.access ==> AccessOk(w, k, w.tables.access[k]))
    && (forall k :: k in w.tables.refresh ==> RefreshOk(w, k, w.tables.refresh[k]))
    && (forall g :: g in w.threads ==> NewestOk(w, g))
  }

  // ---------------------------------------------------------------- free calls

  /** Same ties, and no livelier than before. */
  ghost predicate WeakerCode(a: CodeRow, b: CodeRow) {
    b.(active := false, consumedAt := None) == a.(active := false, consumedAt := None) && (b.active ==> a.active)
  }

  ghost predicate WeakerAccess(a: AccessRow, b: AccessRow) {
    b.(revokedAt := None) == a.(revokedAt := None) && (b.revokedAt.None? ==> a.revokedAt.None?)
  }

  ghost predicate WeakerRefresh(a: RefreshRow, b: RefreshRow) {
    && b.(active := false, usedAt := None, revokedAt := None) == a.(active := false, usedAt := None, revokedAt := None)
    && (b.active ==> a.active)
  }

  /** A call that takes a grant's standing away also kills the rows of that grant. */
  lemma CallWeakensCode(t: Tables, op: Op, now: Time, k: string)
    requires Free(op) && k in t.codes
    ensures var t' := After(t, op, now);
            k in t'.codes && WeakerCode(t.codes[k], t'.codes[k])
  {
    hide Trim, Scopes.Normalize, Scopes.GrantScopesValid, Refers, OnlyCodeOf;
  }

  lemma CallStandsCode(t: Tables, op: Op, now: Time, k: string, g: string)
    requires Free(op) && k in t.codes && t.codes[k].grantId == Some(g)
    requires g in t.grants && t.grants[g].clientId == t.codes[k].clientId
    ensures var t' := After(t, op, now);
            k in t'.codes && t'.codes[k].active && Standing(t, g) ==> Standing(t', g)
  {
    hide Trim, Scopes.Normalize, Scopes.GrantScopesValid, Refers, OnlyCodeOf;
  }

  lemma CallOnCode(t: Tables, op: Op, now: Time, k: string, g: string)
    requires Free(op) && k in t.codes && t.codes[k].grantId == Some(g)
    requires g in t.grants && t.grants[g].clientId == t.codes[k].clientId
    ensures var t' := After(t, op, now);
            && k in t'.codes && WeakerCode(t.codes[k], t'.codes[k])
            && (t'.codes[k].active && Standing(t, g) ==> Standing(t', g))
  {
    hide After, Standing;
    CallWeakensCode(t, op, now, k);
    CallStandsCode(t, op, now, k, g);
  }

  lemma CallWeakensAccess(t: Tables, op: Op, now: Time, k: string)
    requires Free(op) && k in t.access
    ensures var t' := After(t, op, now);
            k in t'.access && WeakerAccess(t.access[k], t'.access[k])
  {
    hide Trim, Scopes.Normalize, Scopes.GrantScopesValid, Refers, OnlyCodeOf;
  }

  lemma CallStandsAccess(t: Tables, op: Op, now: Time, k: string, g: string)
    requires Free(op) && k in t.access && t.access[k].grantId == Some(g)
    requires g in t.grants && t.grants[g].clientId == t.access[k].clientId
    ensures var t' := After(t, op, now);
            k in t'.access && t'.access[k].revokedAt.None? && Standing(t, g) ==> Standing(t', g)
  {
    hide Trim, Scopes.Normalize, Scopes.GrantScopesValid, Refers, OnlyCodeOf;
  }

  lemma CallOnAccess(t: Tables, op: Op, now: Time, k: string, g: string)
    requires Free(op) && k in t.access && t.access[k].grantId == Some(g)
    requires g in t.grants && t.grants[g].clientId == t.access[k].clientId
    ensures var t' := After(t, op, now);
            && k in t'.access && WeakerAccess(t.access[k], t'.access[k])
            && (t'.access[k].revokedAt.None? && Standing(t, g) ==> Standing(t', g))
  {
    hide After, Standing;
    CallWeakensAccess(t, op, now, k);
    CallStandsAccess(t, op, now, k, g);
  }

  lemma CallWeakensRefresh(t: Tables, op: Op, now: Time, k: string)
    requires Free(op) && k in t.refresh
    ensures var t' := After(t, op, now);
            k in t'.refresh && WeakerRefresh(t.refresh[k], t'.refresh[k])
  {
    hide Trim, Scopes.Normalize, Scopes.GrantScopesValid, Refers, OnlyCodeOf;
  }

  lemma CallStandsRefresh(t: Tables, op: Op, now: Time, k: string, g: string)
    requires Free(op) && k in t.refresh && t.refresh[k].grantId == Some(g)
    requires g in t.grants && t.grants[g].clientId == t.refresh[k].clientId
    ensures var t' := After(t, op, now);
            k in t'.refresh && t'.refresh[k].active && Standing(t, g) ==> Standing(t', g)
  {
    hide Trim, Scopes.Normalize, Scopes.GrantScopesValid, Refers, OnlyCodeOf;
  }

  lemma CallOnRefresh(t: Tables, op: Op, now: Time, k: string, g: string)
    requires Free(op) && k in t.refresh && t.refresh[k].grantId == Some(g)
    requires g in t.grants && t.grants[g].clientId == t.refresh[k].clientId
    ensures var t' := After(t, op, now);
            && k in t'.refresh && WeakerRefresh(t.refresh[k], t'.refresh[k])
            && (t'.refresh[k].active && Standing(t, g) ==> Standing(t', g))
  {
    hide After, Standing;
    CallWeakensRefresh(t, op, now, k);
    CallStandsRefresh(t, op, now, k, g);
  }

  lemma CallOnGrant(t: Tables, op: Op, now: Time, g: string)
    requires Free(op) && g in t.grants
    ensures var t' := After(t, op, now);
            g in t'.grants && t'.grants[g].(revokedAt := None) == t.grants[g].(revokedAt := None)
  {
    hide Trim, Scopes.Normalize, Scopes.GrantScopesValid, Refers, OnlyCodeOf;
  }

  lemma CallKeepsBound(w: World, op: Op, now: Time, snap: Snapshot, requestId: string, clientId: string, g: string)
    requires Free(op) && Bound(w, snap, requestId, clientId, g)
    ensures Bound(w.(tables := After(w.tables, op, now)), snap, requestId, clientId, g)
  {
    hide After;
    CallOnGrant(w.tables, op, now, g);
    CallAddsNoRow(w.tables, op, now);
  }

  lemma CallKeepsClients(t: Tables, op: Op, now: Time)
    requires Free(op)
    ensures t.clients.Keys <= After(t, op, now).clients.Keys && After(t, op, now).grants.Keys == t.grants.Keys
  {
    hide Trim, Scopes.Normalize, Scopes.GrantScopesValid, Refers, OnlyCodeOf;
  }

  lemma CallKeepsCodes(t: Tables, op: Op, now: Time)
    requires Free(op)
    ensures After(t, op, now).codes.Keys == t.codes.Keys
  {
    hide Trim, Scopes.Normalize, Scopes.GrantScopesValid, Refers, OnlyCodeOf;
  }

  lemma CallKeepsAccess(t: Tables, op: Op, now: Time)
    requires Free(op)
    ensures After(t, op, now).access.Keys == t.access.Keys
  {
    hide Trim, Scopes.Normalize, Scopes.GrantScopesValid, Refers, OnlyCodeOf;
  }

  lemma CallKeepsRefresh(t: Tables, op: Op, now: Time)
    requires Free(op)
    ensures After(t, op, now).refresh.Keys == t.refresh.Keys
  {
    hide Trim, Scopes.Normalize, Scopes.GrantScopesValid, Refers, OnlyCodeOf;
  }

  lemma CallAddsNoRow(t: Tables, op: Op, now: Time)
    requires Free(op)
    ensures var t' := After(t, op, now);
            && t.clients.Keys <= t'.clients.Keys && t'.grants.Keys == t.grants.Keys && t'.codes.Keys == t.codes.Keys
            && t'.access.Keys == t.access.Keys && t'.refresh.Keys == t.refresh.Keys
  {
    hide After;
    CallKeepsClients(t, op, now);
    CallKeepsCodes(t, op, now);
    CallKeepsAccess(t, op, now);
    CallKeepsRefresh(t, op, now);
  }

  lemma CallKeepsInv(w: World, op: Op, now: Time)
    requires Inv(w) && Free(op)
    ensures Inv(w.(tables := After(w.tables, op, now)))
  {
    hide After, Standing;
    CallAddsNoRow(w.tables, op, now);
    var t, t' := w.tables, After(w.tables, op, now);
    var w' := w.(tables := t');
    forall k | k in t'.codes ensures CodeOk(w', k, t'.codes[k]) {
      var row := t.codes[k];
      assert CodeOk(w, k, row);
      CallOnCode(t, op, now, k, row.grantId.value);
      CallKeepsBound(w, op, now, row.request, row.requestId, row.clientId, row.grantId.value);
    }
    forall k | k in t'.access ensures AccessOk(w', k, t'.access[k]) {
      var row := t.access[k];
      assert AccessOk(w, k, row);
      CallOnAccess(t, op, now, k, row.grantId.value);
      CallKeepsBound(w, op, now, row.request, row.requestId, row.clientId, row.grantId.value);
    }
    forall k | k in t'.refresh
      ensures RefreshOk(w', k, t'.refresh[k]) && t'.refresh[k].grantId == t.refresh[k].grantId
    {
      var row := t.refresh[k];
      assert RefreshOk(w, k, row);
      CallOnRefresh(t, op, now, k, row.grantId.value);
      CallKeepsBound(w, op, now, row.request, row.requestId, row.clientId, row.grantId.value);
    }
    forall g | g in w'.threads ensures NewestOk(w', g) {
      assert NewestOk(w, g);
    }
  }

  // ---------------------------------------------------------------- flows

  lemma {:induction false} AddAllElements(list: seq<string>, values: seq<string>)
    ensures forall s :: s in AddAll(list, values) <==> s in list || s in values
    decreases values
  {
    if values != [] {
      AddAllElements(if values[0] in list then list else list + [values[0]], values[1..]);
    }
  }

  /** What a stored request gives back, and what a token stored under it will carry. */
  ghost predicate Reissues(w: World, requester: Requester, requestId: string, clientId: string, g: string) {
    && TakeSnapshot(requester).Ok?
    && Bound(w, TakeSnapshot(requester).value, requestId, clientId, g)
    && GrantIdOf(requester) == g && FamilyIdOf(requester) == g
  }

  lemma RestoredRequest(w: World, snap: Snapshot, requestId: string, clientId: string, g: string, grantType: string)
    requires Bound(w, snap, requestId, clientId, g)
    ensures var restored := Restore(w.tables.clients, snap, true);
            restored.Ok? && restored.value.request.id == requestId && GrantIdOf(restored.value) == g
            && Reissues(w, Requester.Access(restored.value.request, [grantType]), requestId, clientId, g)
  {
    AddAllElements([], snap.grantedScopes);
    hide AddAll;
  }

  /** Only grant `g` moves on, and its earlier rows are dead: every other row stays in order. */
  ghost predicate MovedOn(w: World, w': World, g: string) {
    && w'.threads.Keys == w.threads.Keys && w'.tables.grants == w.tables.grants && w'.tables.clients == w.tables.clients
    && (forall h :: h in w.threads ==> w'.threads[h].requestId == w.threads[h].requestId)
    && (forall h :: h in w.threads && h != g ==> w'.threads[h] == w.threads[h])
  }

  lemma MovedCode(w: World, w': World, g: string, k: string, row: CodeRow)
    requires MovedOn(w, w', g) && CodeOk(w, k, row) && (row.active ==> row.grantId != Some(g))
    ensures CodeOk(w', k, row)
  {
  }

  lemma MovedAccess(w: World, w': World, g: string, k: string, row: AccessRow)
    requires MovedOn(w, w', g) && AccessOk(w, k, row) && (row.revokedAt.None? ==> row.grantId != Some(g))
    ensures AccessOk(w', k, row)
  {
  }

  lemma MovedRefresh(w: World, w': World, g: string, k: string, row: RefreshRow)
    requires MovedOn(w, w', g) && RefreshOk(w, k, row) && (row.active ==> row.grantId != Some(g))
    ensures RefreshOk(w', k, row)
  {
  }

  /** No live code or token of grant `g`. */
  ghost predicate Quiet(t: Tables, g: string) {
    && (forall k :: k in t.codes && t.codes[k].active ==> t.codes[k].grantId != Some(g))
    && (forall k :: k in t.access && t.access[k].revokedAt.None? ==> t.access[k].grantId != Some(g))
    && (forall k :: k in t.refresh && t.refresh[k].active ==> t.refresh[k].grantId != Some(g))
  }

  lemma IssueEffect(t: Tables, requester: Requester, accessSig: string, refreshSig: string, now: Time)
    requires requester.Access? && |requester.grantTypes| == 1 && TakeSnapshot(requester).Ok?
    requires Refers(t.clients, t.grants, TakeSnapshot(requester).value.clientId, Nullable(GrantIdOf(requester)))
    ensures var snap := TakeSnapshot(requester).value;
            IssueTokens(t, requester.request, requester.grantTypes[0], accessSig, refreshSig, now)
            == Some(t.(access := t.access[accessSig := NewAccess(requester, snap)],
                       refresh := t.refresh[refreshSig := NewRefresh(requester, snap, accessSig)]))
  {
    hide TakeSnapshot, Apply, GrantIdOf, FamilyIdOf, Expiry;
    assert requester == Requester.Access(requester.request, [requester.grantTypes[0]]);
    var snap := TakeSnapshot(requester).value;
    CreateAccessEffect(t, accessSig, requester, now);
    var t1 := t.(access := t.access[accessSig := NewAccess(requester, snap)]);
    CreateRefreshEffect(t1, refreshSig, accessSig, requester, now);
  }

  lemma IssueKeepsInv(w: World, requester: Requester, requestId: string, clientId: string, g: string,
                      accessSig: string, refreshSig: string, now: Time)
    requires Inv(w) && Quiet(w.tables, g) && Standing(w.tables, g)
    requires requester.Access? && |requester.grantTypes| == 1 && Reissues(w, requester, requestId, clientId, g)
    requires accessSig !in w.tables.access && refreshSig !in w.tables.refresh
    ensures var r := IssueTokens(w.tables, requester.request, requester.grantTypes[0], accessSig, refreshSig, now);
            r.Some? && Inv(Advance(w, r.value, requester, accessSig, refreshSig))
  {
    hide TakeSnapshot, GrantIdOf, FamilyIdOf, Expiry, IssueTokens, Quiet, Standing, Within, AccessOk, RefreshOk;
    var t := w.tables;
    var snap := TakeSnapshot(requester).value;
    var a, b := NewAccess(requester, snap), NewRefresh(requester, snap, accessSig);
    var t' := t.(access := t.access[accessSig := a], refresh := t.refresh[refreshSig := b]);
    IssueEffect(t, requester, accessSig, refreshSig, now);
    var w' := Advance(w, t', requester, accessSig, refreshSig);
    assert g in w.threads && w'.threads == w.threads[g := w.threads[g].(stage := AtTokens(accessSig, refreshSig))];
    IssuedRowsOk(w, w', requester, requestId, clientId, g, accessSig, refreshSig);
    IssuedInv(w, w', g, accessSig, a, refreshSig, b);
  }

  lemma IssuedInv(w: World, w': World, g: string, accessSig: string, a: AccessRow, refreshSig: string, b: RefreshRow)
    requires Inv(w) && Quiet(w.tables, g) && MovedOn(w, w', g)
    requires w'.tables.codes == w.tables.codes
    requires w'.tables.access == w.tables.access[accessSig := a] && AccessOk(w', accessSig, a)
    requires w'.tables.refresh == w.tables.refresh[refreshSig := b] && RefreshOk(w', refreshSig, b)
    requires refreshSig !in w.tables.refresh && b.grantId == Some(g)
    requires g in w'.threads && w'.threads[g].stage == AtTokens(accessSig, refreshSig)
    ensures Inv(w')
  {
    hide CodeOk, AccessOk, RefreshOk;
    forall h | h in w'.threads ensures NewestOk(w', h) {
      assert NewestOk(w, h);
    }
    var t, t' := w.tables, w'.tables;
    forall k | k in t'.codes ensures CodeOk(w', k, t'.codes[k]) {
      MovedCode(w, w', g, k, t.codes[k]);
    }
    forall k | k in t'.access ensures AccessOk(w', k, t'.access[k]) {
      if k != accessSig {
        MovedAccess(w, w', g, k, t.access[k]);
      }
    }
    forall k | k in t'.refresh ensures RefreshOk(w', k, t'.refresh[k]) {
      if k != refreshSig {
        MovedRefresh(w, w', g, k, t.refresh[k]);
      }
    }
  }

  lemma IssuedRowsOk(w: World, w': World, requester: Requester, requestId: string, clientId: string, g: string,
                     accessSig: string, refreshSig: string)
    requires Reissues(w, requester, requestId, clientId, g) && Standing(w.tables, g)
    requires MovedOn(w, w', g) && w'.threads[g].stage == AtTokens(accessSig, refreshSig)
    ensures AccessOk(w', accessSig, NewAccess(requester, TakeSnapshot(requester).value))
    ensures RefreshOk(w', refreshSig, NewRefresh(requester, TakeSnapshot(requester).value, accessSig))
  {
  }

  /** The steps of a successful exchange, in the words of the invariant. */
  lemma ExchangeSteps(w: World, s: Step, now: Time, g: string)
    requires s.Exchange? && s.code in w.tables.codes && w.tables.codes[s.code].active
    requires w.tables.codes[s.code].grantId == Some(g)
    requires CodeOk(w, s.code, w.tables.codes[s.code])
    ensures var row := w.tables.codes[s.code];
            var restored := Restore(w.tables.clients, row.request, true);
            && restored.Ok?
            && var requester := Requester.Access(restored.value.request, ["authorization_code"]);
               var t1 := After(w.tables, InvalidateCode(s.code), now);
               var issued := IssueTokens(t1, requester.request, "authorization_code", s.accessSignature,
                                         s.refreshSignature, now);
               && Reissues(w, requester, row.requestId, row.clientId, g)
               && DoExchange(w, s, now)
                  == if issued.None? then None
                     else Some(Advance(w, issued.value, requester, s.accessSignature, s.refreshSignature))
  {
    var row := w.tables.codes[s.code];
    RestoredRequest(w, row.request, row.requestId, row.clientId, g, "authorization_code");
    hide Restore, IssueTokens, TakeSnapshot, Bound;
  }

  lemma ExchangeKeepsInv(w: World, s: Step, now: Time)
    requires Inv(w) && s.Exchange? && Fresh(w, s)
    ensures Inv(Next(w, s, now))
  {
    hide DoExchange, IssueTokens, After, Restore, TakeSnapshot, Carries, Within, Quiet, AccessOk, RefreshOk, NewestOk,
      Expiry, GrantIdOf, FamilyIdOf;
    var t := w.tables;
    if s.code in t.codes && t.codes[s.code].active {
      var row := t.codes[s.code];
      assert CodeOk(w, s.code, row);
      var g := row.grantId.value;
      ExchangeSteps(w, s, now, g);
      var requester := Requester.Access(Restore(t.clients, row.request, true).value.request, ["authorization_code"]);
      CallKeepsInv(w, InvalidateCode(s.code), now);
      InvalidateEffect(t, s.code, now);
      QuietAfterInvalidate(w, s.code, now);
      var w1 := w.(tables := After(t, InvalidateCode(s.code), now));
      hide Next;
      assert Reissues(w1, requester, row.requestId, row.clientId, g);
      IssueKeepsInv(w1, requester, row.requestId, row.clientId, g, s.accessSignature, s.refreshSignature, now);
    } else {
      SpentCodeRefused(w, s, now);
    }
  }

  lemma SpentCodeRefused(w: World, s: Step, now: Time)
    requires s.Exchange? && (s.code in w.tables.codes ==> !w.tables.codes[s.code].active)
    ensures DoExchange(w, s, now) == None
  {
    hide Apply, IssueTokens, Restore, Advance;
  }

  lemma SpentTokenRefused(w: World, s: Step, now: Time)
    requires s.Refresh? && (s.signature in w.tables.refresh ==> !w.tables.refresh[s.signature].active)
    ensures DoRefresh(w, s, now) == None
  {
    hide Apply, IssueTokens, Restore, Advance;
  }

  /** What was restored for grant `g` of client `clientId` and is issued again. */
  ghost predicate Issues(t: Tables, requester: Requester, snap: Snapshot, grantType: string, g: string) {
    && Restore(t.clients, snap, true).Ok?
    && requester == Requester.Access(Restore(t.clients, snap, true).value.request, [grantType])
    && TakeSnapshot(requester).Ok? && GrantIdOf(requester) == g && FamilyIdOf(requester) == g
  }

  /** The tables after tokens were issued to `requester`. */
  ghost function WithTokens(t: Tables, requester: Requester, accessSig: string, refreshSig: string): Tables
    requires TakeSnapshot(requester).Ok?
  {
    var snap := TakeSnapshot(requester).value;
    t.(access := t.access[accessSig := NewAccess(requester, snap)],
       refresh := t.refresh[refreshSig := NewRefresh(requester, snap, accessSig)])
  }

  lemma ExchangeResult(w: World, s: Step, now: Time) returns (requester: Requester)
    requires Inv(w) && s.Exchange? && s.code in w.tables.codes && w.tables.codes[s.code].active
    ensures var t, row := w.tables, w.tables.codes[s.code];
            && row.grantId.Some? && Issues(t, requester, row.request, "authorization_code", row.grantId.value)
            && var t1 := t.(codes := t.codes[s.code := row.(active := false, consumedAt := Some(now))]);
               DoExchange(w, s, now) ==
                 Some(Advance(w, WithTokens(t1, requester, s.accessSignature, s.refreshSignature), requester,
                              s.accessSignature, s.refreshSignature))
  {
    var t, row := w.tables, w.tables.codes[s.code];
    hide DoExchange, Restore, TakeSnapshot, Trim, IssueTokens, After, Within, AccessOk, RefreshOk, NewestOk;
    hide GrantIdOf, FamilyIdOf, Expiry;
    assert CodeOk(w, s.code, row);
    ExchangeSteps(w, s, now, row.grantId.value);
    requester := Requester.Access(Restore(t.clients, row.request, true).value.request, ["authorization_code"]);
    InvalidateEffect(t, s.code, now);
    IssueEffect(After(t, InvalidateCode(s.code), now), requester, s.accessSignature, s.refreshSignature, now);
  }

  /** In a reachable store an exchange succeeds exactly when the code is active. */
  lemma ExchangeSucceeds(w: World, s: Step, now: Time)
    requires Inv(w) && s.Exchange?
    ensures DoExchange(w, s, now).Some? <==> s.code in w.tables.codes && w.tables.codes[s.code].active
  {
    hide DoExchange, Inv, Issues, WithTokens, Advance;
    if s.code in w.tables.codes && w.tables.codes[s.code].active {
      var requester := ExchangeResult(w, s, now);
    } else {
      SpentCodeRefused(w, s, now);
    }
  }

  lemma InvalidateEffect(t: Tables, code: string, now: Time)
    requires code in t.codes
    ensures After(t, InvalidateCode(code), now)
            == t.(codes := t.codes[code := t.codes[code].(active := false, consumedAt := Some(now))])
  {
  }

  lemma QuietAfterInvalidate(w: World, code: string, now: Time)
    requires Inv(w) && code in w.tables.codes && w.tables.codes[code].active
    ensures Quiet(After(w.tables, InvalidateCode(code), now), w.tables.codes[code].grantId.value)
  {
    hide Bound, Standing, Apply;
    InvalidateEffect(w.tables, code, now);
    assert CodeOk(w, code, w.tables.codes[code]);
    assert forall k :: k in w.tables.codes ==> CodeOk(w, k, w.tables.codes[k]);
    assert forall k :: k in w.tables.access ==> AccessOk(w, k, w.tables.access[k]);
    assert forall k :: k in w.tables.refresh ==> RefreshOk(w, k, w.tables.refresh[k]);
  }

  /** The steps of a successful refresh. */
  lemma RefreshSteps(w: World, s: Step, now: Time, g: string)
    requires s.Refresh? && s.signature in w.tables.refresh && w.tables.refresh[s.signature].active
    requires w.tables.refresh[s.signature].grantId == Some(g)
    requires RefreshOk(w, s.signature, w.tables.refresh[s.signature])
    ensures var row := w.tables.refresh[s.signature];
            var restored := Restore(w.tables.clients, row.request, true);
            && restored.Ok?
            && var requester := Requester.Access(restored.value.request, ["refresh_token"]);
               var t1 := After(w.tables, RotateRefresh(row.requestId, s.signature), now);
               var issued := IssueTokens(t1, requester.request, "refresh_token", s.accessSignature,
                                         s.refreshSignature, now);
               && Reissues(w, requester, row.requestId, row.clientId, g)
               && DoRefresh(w, s, now)
                  == if issued.None? || row.revokedAt.Some? || row.expiresAt < now then None
                     else Some(Advance(w, issued.value, requester, s.accessSignature, s.refreshSignature))
  {
    var row := w.tables.refresh[s.signature];
    RestoredRequest(w, row.request, row.requestId, row.clientId, g, "refresh_token");
    hide Restore, IssueTokens, TakeSnapshot, Bound;
  }

  lemma RefreshKeepsInv(w: World, s: Step, now: Time)
    requires Inv(w) && s.Refresh? && Fresh(w, s)
    ensures Inv(Next(w, s, now))
  {
    hide DoRefresh, IssueTokens, After, Restore, TakeSnapshot, Carries, Within, Quiet, AccessOk, CodeOk, NewestOk,
        Expiry,
      GrantIdOf, FamilyIdOf;
    var t := w.tables;
    if s.signature in t.refresh && t.refresh[s.signature].active {
      var row := t.refresh[s.signature];
      assert RefreshOk(w, s.signature, row);
      var g := row.grantId.value;
      RefreshSteps(w, s, now, g);
      var requester := Requester.Access(Restore(t.clients, row.request, true).value.request, ["refresh_token"]);
      var op := RotateRefresh(row.requestId, s.signature);
      CallKeepsInv(w, op, now);
      RotateEffect(t, row.requestId, s.signature, now);
      QuietAfterRotate(w, s.signature, now);
      var w1 := w.(tables := After(t, op, now));
      hide Next;
      assert Reissues(w1, requester, row.requestId, row.clientId, g);
      IssueKeepsInv(w1, requester, row.requestId, row.clientId, g, s.accessSignature, s.refreshSignature, now);
    } else {
      SpentTokenRefused(w, s, now);
    }
  }

  lemma RefreshResult(w: World, s: Step, now: Time) returns (requester: Requester)
    requires Inv(w) && s.Refresh? && s.signature in w.tables.refresh && w.tables.refresh[s.signature].active
    ensures var t, row := w.tables, w.tables.refresh[s.signature];
            && row.grantId.Some? && row.familyId == row.grantId.value
            && Issues(t, requester, row.request, "refresh_token", row.grantId.value)
            && var t1 := t.(refresh := t.refresh[s.signature := row.(active := false, usedAt := Some(now))],
                            access := AccessRevokedFor(t.access, row.requestId, now));
               DoRefresh(w, s, now) ==
                 if row.revokedAt.Some? || row.expiresAt < now then None
                 else Some(Advance(w, WithTokens(t1, requester, s.accessSignature, s.refreshSignature), requester,
                                   s.accessSignature, s.refreshSignature))
  {
    var t, row := w.tables, w.tables.refresh[s.signature];
    hide DoRefresh, Restore, TakeSnapshot, Trim, IssueTokens, After, Within, CodeOk, AccessOk, NewestOk;
    hide GrantIdOf, FamilyIdOf, Expiry, AccessRevokedFor;
    assert RefreshOk(w, s.signature, row);
    RefreshSteps(w, s, now, row.grantId.value);
    requester := Requester.Access(Restore(t.clients, row.request, true).value.request, ["refresh_token"]);
    RotateEffect(t, row.requestId, s.signature, now);
    IssueEffect(After(t, RotateRefresh(row.requestId, s.signature), now), requester, s.accessSignature,
                s.refreshSignature, now);
  }

  /** In a reachable store a refresh succeeds exactly when the token is active, not revoked and
      not past its expiry. */
  lemma RefreshSucceeds(w: World, s: Step, now: Time)
    requires Inv(w) && s.Refresh?
    ensures DoRefresh(w, s, now).Some? <==>
              s.signature in w.tables.refresh && w.tables.refresh[s.signature].active
              && w.tables.refresh[s.signature].revokedAt.None? && now <= w.tables.refresh[s.signature].expiresAt
  {
    hide DoRefresh, Inv, Issues, WithTokens, Advance;
    if s.signature in w.tables.refresh && w.tables.refresh[s.signature].active {
      var requester := RefreshResult(w, s, now);
    } else {
      SpentTokenRefused(w, s, now);
    }
  }

  lemma RotateEffect(t: Tables, requestId: string, sig: string, now: Time)
    requires sig in t.refresh && t.refresh[sig].active
    ensures After(t, RotateRefresh(requestId, sig), now)
            == t.(refresh := t.refresh[sig := t.refresh[sig].(active := false, usedAt := Some(now))],
                  access := AccessRevokedFor(t.access, requestId, now))
  {
  }

  lemma QuietAfterRotate(w: World, sig: string, now: Time)
    requires Inv(w) && sig in w.tables.refresh && w.tables.refresh[sig].active
    ensures Quiet(After(w.tables, RotateRefresh(w.tables.refresh[sig].requestId, sig), now),
                  w.tables.refresh[sig].grantId.value)
  {
    hide Standing, Apply, After, Carries, Within, HasClient;
    var t, row := w.tables, w.tables.refresh[sig];
    RotateEffect(t, row.requestId, sig, now);
    assert RefreshOk(w, sig, row);
    var g := row.grantId.value;
    forall k | k in t.codes && t.codes[k].active ensures t.codes[k].grantId != Some(g) {
      assert CodeOk(w, k, t.codes[k]);
    }
    forall k | k in t.access && t.access[k].grantId == Some(g) ensures t.access[k].requestId == row.requestId {
      assert AccessOk(w, k, t.access[k]);
    }
    forall k | k in t.refresh && t.refresh[k].active && t.refresh[k].grantId == Some(g) ensures k == sig {
      assert RefreshOk(w, k, t.refresh[k]);
    }
    hide Inv, CodeOk, AccessOk, RefreshOk;
  }

  /** A new grant leaves the rows of the others alone. */
  ghost predicate Extended(w: World, w': World) {
    && w'.tables.clients == w.tables.clients
    && w'.tables.access == w.tables.access && w'.tables.refresh == w.tables.refresh
    && (forall h :: h in w.threads ==> h in w'.threads && w'.threads[h] == w.threads[h])
    && (forall h :: h in w.tables.grants ==> h in w'.tables.grants && w'.tables.grants[h] == w.tables.grants[h])
  }

  lemma ExtendedRows(w: World, w': World)
    requires Extended(w, w')
    ensures forall k, row :: CodeOk(w, k, row) ==> CodeOk(w', k, row)
    ensures forall k, row :: AccessOk(w, k, row) ==> AccessOk(w', k, row)
    ensures forall k, row :: RefreshOk(w, k, row) ==> RefreshOk(w', k, row)
  {
    hide Carries, Within;
  }

  function ConsentGrant(s: Step, clientId: string): GrantRow
    requires s.Authorise? && Scopes.GrantScopesValid(s.requested, Scopes.Approved(s.selected, s.requested))
  {
    GrantRow(clientId, s.userId, Scopes.Normalize(s.requested).value,
             Scopes.Normalize(Scopes.Approved(s.selected, s.requested)).value, None)
  }

  lemma AuthoriseSteps(w: World, s: Step, now: Time)
    requires s.Authorise? && DoAuthorise(w, s, now).Some?
    ensures var client := ClientForFosite(w.tables.clients, s.rawClientId, false);
            && client.Some? && Scopes.Approved(s.selected, s.requested) != []
            && Scopes.GrantScopesValid(s.requested, Scopes.Approved(s.selected, s.requested))
            && var requester := ConsentRequester(s, client.value, now);
               var t := w.tables;
               && TakeSnapshot(requester).Ok?
               && DoAuthorise(w, s, now).value == World(
                    t.(grants := t.grants[s.grantId := ConsentGrant(s, client.value)],
                       codes := t.codes[s.code := NewCode(requester, TakeSnapshot(requester).value)]),
                    w.threads[s.grantId := Thread(s.requestId, AtCode(s.code))])
  {
    TrimIdempotent(s.rawClientId);
    hide Trim, AddAll, Scopes.Approved, Scopes.Normalize, Scopes.GrantScopesValid, Apply, TakeSnapshot, NewCode;
    var clientId := Trim(s.rawClientId);
    var approved := Scopes.Approved(s.selected, s.requested);
    var upsert := UpsertGrant(s.grantId, clientId, s.userId, s.requested, approved);
    UpsertEffect(w.tables, upsert, now);
    var requester := ConsentRequester(s, clientId, now);
    ConsentStored(s, clientId, now);
    hide ConsentRequester;
    if Apply(w.tables, upsert, now).Ok? {
      CreateCodeEffect(Apply(w.tables, upsert, now).value, s.code, requester, now);
    }
  }

  lemma ConsentStored(s: Step, clientId: string, now: Time)
    requires s.Authorise?
    ensures TakeSnapshot(ConsentRequester(s, clientId, now)).Ok?
    ensures var snap := TakeSnapshot(ConsentRequester(s, clientId, now)).value;
            snap.id == s.requestId && snap.clientId == clientId
  {
    hide AddAll, Trim, Scopes.Approved;
  }

  lemma ConsentCarries(s: Step, clientId: string, now: Time)
    requires s.Authorise? && Trim(s.grantId) == s.grantId && s.grantId != ""
    requires Scopes.Approved(s.selected, s.requested) != []
    requires Scopes.GrantScopesValid(s.requested, Scopes.Approved(s.selected, s.requested))
    ensures var requester := ConsentRequester(s, clientId, now);
            var snap := TakeSnapshot(requester).value;
            && GrantIdOf(requester) == s.grantId
            && Carries(snap, s.requestId, clientId, s.grantId)
            && Within(snap.grantedScopes, Scopes.Normalize(Scopes.Approved(s.selected, s.requested)).value)
  {
    var approved := Scopes.Approved(s.selected, s.requested);
    AddAllElements([], approved);
    Scopes.ApprovalPassesValidation(s.selected, s.requested);
    hide AddAll, Trim, Scopes.Approved, Scopes.Normalize;
    var stored := Scopes.Normalize(approved).value;
    forall name | name in approved ensures name in stored {
      assert name in Scopes.Elements(approved);
      assert name in Scopes.Elements(stored);
    }
  }

  lemma AuthoriseKeepsInv(w: World, s: Step, now: Time)
    requires Inv(w) && s.Authorise? && Fresh(w, s)
    ensures Inv(Next(w, s, now))
  {
    hide Apply, AddAll, TakeSnapshot, DoAuthorise, Trim, NewCode, ConsentRequester, Carries, Within, CodeOk;
    hide Scopes.Normalize, Scopes.Approved, Scopes.GrantScopesValid;
    if DoAuthorise(w, s, now).Some? {
      AuthoriseSteps(w, s, now);
      var w' := DoAuthorise(w, s, now).value;
      var clientId := ClientForFosite(w.tables.clients, s.rawClientId, false).value;
      TrimIdempotent(s.rawClientId);
      ConsentCarries(s, clientId, now);
      NewCodeOk(w', s, clientId, now);
      hide ConsentGrant;
      AddedCodeInv(w, w', s.grantId, s.code);
    }
  }

  lemma NewCodeOk(w': World, s: Step, clientId: string, now: Time)
    requires s.Authorise? && s.grantId != ""
    requires Scopes.GrantScopesValid(s.requested, Scopes.Approved(s.selected, s.requested))
    requires s.grantId in w'.threads && w'.threads[s.grantId] == Thread(s.requestId, AtCode(s.code))
    requires s.grantId in w'.tables.grants && w'.tables.grants[s.grantId] == ConsentGrant(s, clientId)
    requires clientId in w'.tables.clients && w'.tables.clients[clientId].enabled
    requires clientId != "" && Trim(clientId) == clientId
    requires var snap := TakeSnapshot(ConsentRequester(s, clientId, now)).value;
             && GrantIdOf(ConsentRequester(s, clientId, now)) == s.grantId
             && Carries(snap, s.requestId, clientId, s.grantId)
             && Within(snap.grantedScopes, w'.tables.grants[s.grantId].granted)
    ensures var requester := ConsentRequester(s, clientId, now);
            CodeOk(w', s.code, NewCode(requester, TakeSnapshot(requester).value))
  {
    hide Trim, AddAll, Carries, Within, Scopes.Approved, Scopes.Normalize, GrantIdOf;
    assert TakeSnapshot(ConsentRequester(s, clientId, now)).value.id == s.requestId;
  }

  lemma AddedCodeInv(w: World, w': World, g: string, code: string)
    requires Inv(w) && Extended(w, w') && g !in w.tables.grants && code !in w.tables.codes
    requires w'.threads.Keys == w.threads.Keys + {g} && w'.tables.grants.Keys == w.tables.grants.Keys + {g}
    requires forall h :: h in w.threads ==> w.threads[h].requestId != w'.threads[g].requestId
    requires code in w'.tables.codes && w'.tables.codes == w.tables.codes[code := w'.tables.codes[code]]
    requires CodeOk(w', code, w'.tables.codes[code]) && w'.threads[g].stage.AtCode?
    ensures Inv(w')
  {
    hide CodeOk, AccessOk, RefreshOk, Standing;
    ExtendedRows(w, w');
    AddedRowsOk(w, w', code);
    AddedThreadOk(w, w', g);
  }

  lemma AddedRowsOk(w: World, w': World, code: string)
    requires Inv(w) && Extended(w, w') && code in w'.tables.codes
    requires w'.tables.codes == w.tables.codes[code := w'.tables.codes[code]]
    requires CodeOk(w', code, w'.tables.codes[code])
    ensures forall k :: k in w'.tables.codes ==> CodeOk(w', k, w'.tables.codes[k])
    ensures forall k :: k in w'.tables.access ==> AccessOk(w', k, w'.tables.access[k])
    ensures forall k :: k in w'.tables.refresh ==> RefreshOk(w', k, w'.tables.refresh[k])
  {
    hide CodeOk, AccessOk, RefreshOk, NewestOk;
    ExtendedRows(w, w');
  }

  lemma AddedThreadOk(w: World, w': World, g: string)
    requires Inv(w) && Extended(w, w') && g in w'.threads && w'.threads[g].stage.AtCode?
    requires w'.threads.Keys == w.threads.Keys + {g}
    ensures forall h :: h in w'.threads ==> NewestOk(w', h)
  {
    hide CodeOk, AccessOk, RefreshOk;
    forall h | h in w'.threads ensures NewestOk(w', h) {
      assert h != g ==> NewestOk(w, h);
    }
  }

  /** In a reachable store a consent whose request normalises, by a signed-in user of an enabled
      client, always succeeds. */
  lemma ConsentSucceeds(w: World, s: Step, now: Time)
    requires Inv(w) && Fresh(w, s) && s.Authorise? && 0 < s.userId
    requires ClientForFosite(w.tables.clients, s.rawClientId, false).Some?
    requires Scopes.Normalize(s.requested).Ok? && Scopes.Approved(s.selected, s.requested) != []
    ensures DoAuthorise(w, s, now).Some?
  {
    TrimIdempotent(s.rawClientId);
    Scopes.ApprovalPassesValidation(s.selected, s.requested);
    hide Trim, AddAll, Scopes.Approved, Scopes.Normalize, Scopes.GrantScopesValid, Apply, TakeSnapshot, Bound;
    hide AccessOk, RefreshOk;
    var t := w.tables;
    var clientId := Trim(s.rawClientId);
    var approved := Scopes.Approved(s.selected, s.requested);
    var upsert := UpsertGrant(s.grantId, clientId, s.userId, s.requested, approved);
    UpsertEffect(t, upsert, now);
    ConsentStored(s, clientId, now);
    ConsentGrantId(s, clientId, now);
    RequestIsNew(w, s.requestId, s.code);
    hide ConsentRequester, CodeOk, GrantIdOf, Expiry, OnlyCodeOf;
    CreateCodeEffect(Apply(t, upsert, now).value, s.code, ConsentRequester(s, clientId, now), now);
  }

  lemma ConsentGrantId(s: Step, clientId: string, now: Time)
    requires s.Authorise? && Trim(s.grantId) == s.grantId
    ensures GrantIdOf(ConsentRequester(s, clientId, now)) == s.grantId
  {
    hide AddAll, Trim, Scopes.Approved;
  }

  /** A request without a thread has no code yet. */
  lemma RequestIsNew(w: World, requestId: string, code: string)
    requires Inv(w) && forall h :: h in w.threads ==> w.threads[h].requestId != requestId
    ensures OnlyCodeOf(w.tables.codes, requestId, code)
  {
    hide Carries, Within, AccessOk, RefreshOk, Standing;
    forall k | k in w.tables.codes ensures w.tables.codes[k].requestId != requestId {
      assert CodeOk(w, k, w.tables.codes[k]);
    }
  }

  // ---------------------------------------------------------------- whole runs

  function Init(): World {
    World(Tables(map[], map[], map[], map[], map[]), map[])
  }

  predicate ValidRun(w: World, run: seq<(Step, Time)>)
    decreases run
  {
    run != [] ==> Fresh(w, run[0].0) && ValidRun(Next(w, run[0].0, run[0].1), run[1..])
  }

  function Exec(w: World, run: seq<(Step, Time)>): World
    decreases run
  {
    if run == [] then w else Exec(Next(w, run[0].0, run[0].1), run[1..])
  }

  lemma StepKeepsInv(w: World, s: Step, now: Time)
    requires Inv(w) && Fresh(w, s)
    ensures Inv(Next(w, s, now))
  {
    match s
    case Call(op) => CallKeepsInv(w, op, now);
    case Authorise(_, _, _, _, _, _, _, _, _) => AuthoriseKeepsInv(w, s, now);
    case Exchange(_, _, _) => ExchangeKeepsInv(w, s, now);
    case Refresh(_, _, _) => RefreshKeepsInv(w, s, now);
  }

  lemma {:induction false} RunKeepsInv(w: World, run: seq<(Step, Time)>)
    requires Inv(w) && ValidRun(w, run)
    ensures Inv(Exec(w, run))
    decreases run
  {
    if run != [] {
      hide Inv, Fresh, Next;
      StepKeepsInv(w, run[0].0, run[0].1);
      RunKeepsInv(Next(w, run[0].0, run[0].1), run[1..]);
    }
  }

  /** A live row belongs to an unrevoked grant of an enabled client. */
  ghost predicate Authorised(t: Tables, clientId: string, grantId: Option<string>) {
    && clientId in t.clients && t.clients[clientId].enabled
    && grantId.Some? && grantId.value in t.grants
    && t.grants[grantId.value].revokedAt.None? && t.grants[grantId.value].clientId == clientId
  }

  ghost predicate Safe(t: Tables) {
    && (forall k :: k in t.codes && t.codes[k].active ==> Authorised(t, t.codes[k].clientId, t.codes[k].grantId))
    && (forall k :: k in t.access && t.access[k].revokedAt.None? ==>
          Authorised(t, t.access[k].clientId, t.access[k].grantId))
    && (forall k :: k in t.refresh && t.refresh[k].active ==>
          Authorised(t, t.refresh[k].clientId, t.refresh[k].grantId))
  }

  ghost predicate Unique(t: Tables) {
    && (forall j, k :: j in t.refresh && k in t.refresh && t.refresh[j].active && t.refresh[k].active ==>
          t.refresh[j].familyId == t.refresh[k].familyId ==> j == k)
    && (forall j, k :: j in t.access && k in t.access && t.access[j].revokedAt.None? && t.access[k].revokedAt.None? ==>
          t.access[j].requestId == t.access[k].requestId ==> j == k)
  }

  /** No stored request was granted a scope that its grant does not hold. */
  ghost predicate Contained(t: Tables) {
    && (forall k :: k in t.codes ==> WithinGrant(t, t.codes[k].request, t.codes[k].grantId))
    && (forall k :: k in t.access ==> WithinGrant(t, t.access[k].request, t.access[k].grantId))
    && (forall k :: k in t.refresh ==> WithinGrant(t, t.refresh[k].request, t.refresh[k].grantId))
  }

  ghost predicate WithinGrant(t: Tables, snap: Snapshot, grantId: Option<string>) {
    grantId.Some? && grantId.value in t.grants && Within(snap.grantedScopes, t.grants[grantId.value].granted)
  }

  lemma InvMeansSafe(w: World)
    requires Inv(w)
    ensures Safe(w.tables)
  {
    hide Carries, Within;
    var t := w.tables;
    assert forall k :: k in t.codes ==> CodeOk(w, k, t.codes[k]);
    assert forall k :: k in t.access ==> AccessOk(w, k, t.access[k]);
    assert forall k :: k in t.refresh ==> RefreshOk(w, k, t.refresh[k]);
  }

  lemma InvMeansContained(w: World)
    requires Inv(w)
    ensures Contained(w.tables)
  {
    hide Carries, Within, Standing;
    var t := w.tables;
    assert forall k :: k in t.codes ==> CodeOk(w, k, t.codes[k]);
    assert forall k :: k in t.access ==> AccessOk(w, k, t.access[k]);
    assert forall k :: k in t.refresh ==> RefreshOk(w, k, t.refresh[k]);
  }

  lemma InvMeansUnique(w: World)
    requires Inv(w)
    ensures Unique(w.tables)
  {
    hide Carries, Within, Standing;
    var t := w.tables;
    assert forall k :: k in t.access ==> AccessOk(w, k, t.access[k]);
    assert forall k :: k in t.refresh ==> RefreshOk(w, k, t.refresh[k]);
  }

  /** Safety of every run from the empty store. */
  lemma RunsAreSafe(run: seq<(Step, Time)>)
    requires ValidRun(Init(), run)
    ensures var t := Exec(Init(), run).tables; Safe(t) && Unique(t) && Contained(t)
  {
    RunKeepsInv(Init(), run);
    var w := Exec(Init(), run);
    hide Inv, Exec, Safe, Unique, Contained;
    InvMeansSafe(w);
    InvMeansUnique(w);
    InvMeansContained(w);
  }

  // ---------------------------------------------------------------- single use

  predicate Rotates(w: World, s: Step, now: Time, sig: string) {
    match s
    case Refresh(r, _, _) => r == sig && DoRefresh(w, s, now).Some?
    case Call(op) => op.RotateRefresh? && op.signature == sig && Apply(w.tables, op, now).Ok?
    case _ => false
  }

  function Rotations(w: World, run: seq<(Step, Time)>, sig: string): nat
    decreases run
  {
    if run == [] then 0 else
      (if Rotates(w, run[0].0, run[0].1, sig) then 1 else 0)
      + Rotations(Next(w, run[0].0, run[0].1), run[1..], sig)
  }

  function Exchanges(w: World, run: seq<(Step, Time)>, code: string): nat
    decreases run
  {
    if run == [] then 0 else
      (if run[0].0.Exchange? && run[0].0.code == code && DoExchange(w, run[0].0, run[0].1).Some? then 1 else 0)
      + Exchanges(Next(w, run[0].0, run[0].1), run[1..], code)
  }

  predicate SpentRefresh(t: Tables, sig: string) {
    sig in t.refresh && !t.refresh[sig].active
  }

  predicate SpentCode(t: Tables, code: string) {
    code in t.codes && !t.codes[code].active
  }

  /** A successful exchange as the three calls it makes. */
  lemma ExchangeCalls(w: World, s: Step, now: Time) returns (issued: Requester)
    requires s.Exchange? && DoExchange(w, s, now).Some?
    ensures var t1 := After(w.tables, InvalidateCode(s.code), now);
            var t2 := After(t1, CreateAccess(s.accessSignature, issued), now);
            && Apply(w.tables, InvalidateCode(s.code), now).Ok?
            && DoExchange(w, s, now).value.tables ==
                After(t2, CreateRefresh(s.refreshSignature, s.accessSignature, issued), now)
  {
    hide Apply;
    var requester := GetCode(w.tables, s.code).value.requester;
    hide GetCode;
    issued := Requester.Access(requester.request, ["authorization_code"]);
  }

  lemma RefreshCalls(w: World, s: Step, now: Time) returns (requestId: string, issued: Requester)
    requires s.Refresh? && DoRefresh(w, s, now).Some?
    ensures var t1 := After(w.tables, RotateRefresh(requestId, s.signature), now);
            var t2 := After(t1, CreateAccess(s.accessSignature, issued), now);
            && Apply(w.tables, RotateRefresh(requestId, s.signature), now).Ok?
            && DoRefresh(w, s, now).value.tables ==
                After(t2, CreateRefresh(s.refreshSignature, s.accessSignature, issued), now)
  {
    hide Apply;
    var requester := GetRefresh(w.tables, s.signature, now).value.requester;
    hide GetRefresh;
    requestId := requester.request.id;
    issued := Requester.Access(requester.request, ["refresh_token"]);
  }

  lemma AuthoriseCalls(w: World, s: Step, now: Time) returns (upsert: Op, requester: Requester)
    requires s.Authorise? && DoAuthorise(w, s, now).Some?
    ensures upsert.UpsertGrant?
    ensures DoAuthorise(w, s, now).value.tables ==
        After(After(w.tables, upsert, now), CreateCode(s.code, requester), now)
  {
    hide Apply, ConsentRequester, Trim;
    var clientId := ClientForFosite(w.tables.clients, s.rawClientId, false).value;
    upsert := UpsertGrant(s.grantId, clientId, s.userId, s.requested, Scopes.Approved(s.selected, s.requested));
    requester := ConsentRequester(s, clientId, now);
  }

  lemma RotationSpends(t: Tables, requestId: string, sig: string, now: Time)
    requires Apply(t, RotateRefresh(requestId, sig), now).Ok?
    ensures SpentRefresh(After(t, RotateRefresh(requestId, sig), now), sig) && !SpentRefresh(t, sig)
  {
  }

  lemma InvalidationSpends(t: Tables, code: string, now: Time)
    requires code in t.codes
    ensures SpentCode(After(t, InvalidateCode(code), now), code)
  {
  }

  /** Calls that do not create the row again leave what is spent as it is. */
  lemma CallKeepsSpent(t: Tables, op: Op, now: Time, sig: string)
    ensures SpentRefresh(t, sig) && !(op.CreateRefresh? && op.signature == sig) ==> SpentRefresh(After(t, op, now), sig)
    ensures SpentCode(t, sig) && !(op.CreateCode? && op.signature == sig) ==> SpentCode(After(t, op, now), sig)
  {
    hide After;
    if !(op.CreateRefresh? && op.signature == sig) {
      OpKeepsRefresh(t, op, now, sig);
    }
    if !(op.CreateCode? && op.signature == sig) {
      OpKeepsCode(t, op, now, sig);
    }
  }

  lemma ExchangeKeepsSpent(w: World, s: Step, now: Time, sig: string)
    requires Fresh(w, s) && s.Exchange? && DoExchange(w, s, now).Some?
    ensures SpentRefresh(w.tables, sig) ==> SpentRefresh(Next(w, s, now).tables, sig)
    ensures SpentCode(w.tables, sig) || s.code == sig ==> SpentCode(Next(w, s, now).tables, sig)
  {
    var issued := ExchangeCalls(w, s, now);
    var t1 := After(w.tables, InvalidateCode(s.code), now);
    var t2 := After(t1, CreateAccess(s.accessSignature, issued), now);
    InvalidationSpends(w.tables, s.code, now);
    hide DoExchange, Apply, After, SpentCode;
    CallKeepsSpent(w.tables, InvalidateCode(s.code), now, sig);
    CallKeepsSpent(t1, CreateAccess(s.accessSignature, issued), now, sig);
    CallKeepsSpent(t2, CreateRefresh(s.refreshSignature, s.accessSignature, issued), now, sig);
  }

  lemma RefreshKeepsSpent(w: World, s: Step, now: Time, sig: string)
    requires Fresh(w, s) && s.Refresh? && DoRefresh(w, s, now).Some?
    ensures SpentRefresh(w.tables, sig) || s.signature == sig ==> SpentRefresh(Next(w, s, now).tables, sig)
    ensures SpentCode(w.tables, sig) ==> SpentCode(Next(w, s, now).tables, sig)
  {
    var requestId, issued := RefreshCalls(w, s, now);
    var t1 := After(w.tables, RotateRefresh(requestId, s.signature), now);
    var t2 := After(t1, CreateAccess(s.accessSignature, issued), now);
    RotationSpends(w.tables, requestId, s.signature, now);
    OpKeepsRefresh(w.tables, RotateRefresh(requestId, s.signature), now, s.refreshSignature);
    OpKeepsRefresh(t1, CreateAccess(s.accessSignature, issued), now, s.refreshSignature);
    hide DoRefresh, Apply, After, SpentCode;
    CallKeepsSpent(w.tables, RotateRefresh(requestId, s.signature), now, sig);
    CallKeepsSpent(t1, CreateAccess(s.accessSignature, issued), now, sig);
    CallKeepsSpent(t2, CreateRefresh(s.refreshSignature, s.accessSignature, issued), now, sig);
  }

  lemma AuthoriseKeepsSpent(w: World, s: Step, now: Time, sig: string)
    requires Fresh(w, s) && s.Authorise? && DoAuthorise(w, s, now).Some?
    ensures SpentRefresh(w.tables, sig) ==> SpentRefresh(Next(w, s, now).tables, sig)
    ensures SpentCode(w.tables, sig) ==> SpentCode(Next(w, s, now).tables, sig)
  {
    var upsert, requester := AuthoriseCalls(w, s, now);
    hide DoAuthorise, Apply, After, SpentRefresh;
    CallKeepsSpent(w.tables, upsert, now, sig);
    CallKeepsSpent(After(w.tables, upsert, now), CreateCode(s.code, requester), now, sig);
  }

  lemma StepKeepsSpent(w: World, s: Step, now: Time, sig: string)
    requires Fresh(w, s)
    ensures SpentRefresh(w.tables, sig) || Rotates(w, s, now, sig) ==> SpentRefresh(Next(w, s, now).tables, sig)
    ensures SpentRefresh(w.tables, sig) ==> !Rotates(w, s, now, sig)
  {
    hide DoAuthorise, DoExchange, DoRefresh, After, Apply;
    match s
    case Call(op) =>
      CallKeepsSpent(w.tables, op, now, sig);
      if op.RotateRefresh? && Apply(w.tables, op, now).Ok? {
        RotationSpends(w.tables, op.requestId, op.signature, now);
      }
    case Authorise(_, _, _, _, _, _, _, _, _) =>
      if DoAuthorise(w, s, now).Some? {
        AuthoriseKeepsSpent(w, s, now, sig);
      }
    case Exchange(_, _, _) =>
      if DoExchange(w, s, now).Some? {
        ExchangeKeepsSpent(w, s, now, sig);
      }
    case Refresh(_, _, _) =>
      if DoRefresh(w, s, now).Some? {
        RefreshKeepsSpent(w, s, now, sig);
      }
      if SpentRefresh(w.tables, s.signature) {
        SpentTokenRefused(w, s, now);
      }
  }

  lemma StepKeepsSpentCode(w: World, s: Step, now: Time, code: string)
    requires Fresh(w, s)
    ensures SpentCode(w.tables, code) || (s.Exchange? && s.code == code && DoExchange(w, s, now).Some?)
            ==> SpentCode(Next(w, s, now).tables, code)
    ensures SpentCode(w.tables, code) && s.Exchange? && s.code == code ==> DoExchange(w, s, now).None?
  {
    hide DoAuthorise, DoExchange, DoRefresh, After, Apply;
    match s
    case Call(op) => CallKeepsSpent(w.tables, op, now, code);
    case Authorise(_, _, _, _, _, _, _, _, _) =>
      if DoAuthorise(w, s, now).Some? {
        AuthoriseKeepsSpent(w, s, now, code);
      }
    case Exchange(_, _, _) =>
      if DoExchange(w, s, now).Some? {
        ExchangeKeepsSpent(w, s, now, code);
      }
      if SpentCode(w.tables, s.code) {
        SpentCodeRefused(w, s, now);
      }
    case Refresh(_, _, _) =>
      if DoRefresh(w, s, now).Some? {
        RefreshKeepsSpent(w, s, now, code);
      }
  }

  /** A refresh token is rotated successfully at most once in any run. */
  lemma {:induction false} RotatedAtMostOnce(w: World, run: seq<(Step, Time)>, sig: string)
    requires ValidRun(w, run)
    ensures Rotations(w, run, sig) <= 1
    ensures SpentRefresh(w.tables, sig) ==> Rotations(w, run, sig) == 0
    decreases run
  {
    if run != [] {
      hide Fresh, Next, Rotates;
      StepKeepsSpent(w, run[0].0, run[0].1, sig);
      RotatedAtMostOnce(Next(w, run[0].0, run[0].1), run[1..], sig);
    }
  }

  /** A code is exchanged at most once in any run. */
  lemma {:induction false} ExchangedAtMostOnce(w: World, run: seq<(Step, Time)>, code: string)
    requires ValidRun(w, run)
    ensures Exchanges(w, run, code) <= 1
    ensures SpentCode(w.tables, code) ==> Exchanges(w, run, code) == 0
    decreases run
  {
    if run != [] {
      hide Fresh, Next, DoExchange;
      StepKeepsSpentCode(w, run[0].0, run[0].1, code);
      ExchangedAtMostOnce(Next(w, run[0].0, run[0].1), run[1..], code);
    }
  }
}
