/** The OAuth tables and what each store operation does to them
    (src/internal/common/oauth.go). Times are the database clock's. */
module OAuthTables {
  import opened Requests
  import opened Text
  import opened Wrappers
  import Scopes

  type Time = int

  datatype GrantRow = GrantRow(
    clientId: string, userId: int, requested: seq<string>, granted: seq<string>, revokedAt: Option<Time>)

  datatype CodeRow = CodeRow(
    requestId: string, clientId: string, grantId: Option<string>, request: Snapshot,
    active: bool, consumedAt: Option<Time>, expiresAt: Time)

  datatype AccessRow = AccessRow(
    requestId: string, clientId: string, grantId: Option<string>, request: Snapshot, revokedAt: Option<Time>,
    expiresAt: Time)

  datatype RefreshRow = RefreshRow(
    requestId: string, accessSignature: string, familyId: string, clientId: string, grantId: Option<string>,
    request: Snapshot, active: bool, usedAt: Option<Time>, revokedAt: Option<Time>, expiresAt: Time)

  datatype Tables = Tables(
    clients: map<string, Client>, grants: map<string, GrantRow>,
    codes: map<string, CodeRow>, access: map<string, AccessRow>, refresh: map<string, RefreshRow>)

  datatype StoreError =
    | Invalid | RowMissing | InactiveToken | Violation | BadRequest(cause: RequestError)

  // ---------------------------------------------------------------- rows

  function Coalesce(t: Option<Time>, now: Time): Option<Time> {
    if t.Some? then t else Some(now)
  }

  function Nullable(s: string): Option<string> {
    if s == "" then None else Some(s)
  }

  function RevokedGrant(row: GrantRow, now: Time): GrantRow {
    row.(revokedAt := Coalesce(row.revokedAt, now))
  }

  function ConsumedCode(row: CodeRow, now: Time): CodeRow {
    row.(active := false, consumedAt := Coalesce(row.consumedAt, now))
  }

  function RevokedAccess(row: AccessRow, now: Time): AccessRow {
    row.(revokedAt := Coalesce(row.revokedAt, now))
  }

  function RevokedRefresh(row: RefreshRow, now: Time): RefreshRow {
    row.(active := false, revokedAt := Coalesce(row.revokedAt, now), usedAt := Coalesce(row.usedAt, now))
  }

  function NewCode(requester: Requester, snap: Snapshot): CodeRow {
    CodeRow(snap.id, snap.clientId, Nullable(GrantIdOf(requester)), snap, true, None,
            Expiry(requester, AuthorizeCode, FIFTEEN_MINUTES))
  }

  function NewAccess(requester: Requester, snap: Snapshot): AccessRow {
    AccessRow(snap.id, snap.clientId, Nullable(GrantIdOf(requester)), snap, None,
              Expiry(requester, AccessToken, ONE_HOUR))
  }

  const FIFTEEN_MINUTES: int := 15 * 60
  const ONE_HOUR: int := 3600
  const THIRTY_DAYS: int := 30 * 24 * 3600

  function Expiry(requester: Requester, token: TokenType, fallback: int): Time {
    var session := requester.request.session;
    if !session.NoSession? && token in session.expiresAt && session.expiresAt[token] != ZERO_TIME
    then session.expiresAt[token]
    else requester.request.requestedAt + fallback
  }

  function NewRefresh(requester: Requester, snap: Snapshot, accessSignature: string): RefreshRow {
    RefreshRow(snap.id, accessSignature, FamilyIdOf(requester), snap.clientId, Nullable(GrantIdOf(requester)),
               snap, true, None, None, Expiry(requester, RefreshToken, THIRTY_DAYS))
  }

  // ---------------------------------------------------------------- what the schema refuses

  /** The client and the grant, if any, that a row names exist. */
  predicate Refers(clients: map<string, Client>, grants: map<string, GrantRow>, clientId: string,
                   grantId: Option<string>) {
    clientId in clients && (grantId.Some? ==> grantId.value in grants)
  }

  /** No other code belongs to the same request. */
  predicate OnlyCodeOf(codes: map<string, CodeRow>, requestId: string, sig: string) {
    forall k | k in codes :: codes[k].requestId == requestId ==> k == sig
  }

  // ---------------------------------------------------------------- operations

  /** Every call that may write. Only the three Create*Session calls are upserts. */
  datatype Op =
    | CreateClient(id: string, name: string, redirectsValid: bool, scopes: seq<string>)
    | SetClientEnabled(rawId: string, enabled: bool)
    | UpsertGrant(grantId: string, rawClientId: string, userId: int, requested: seq<string>, granted: seq<string>)
    | RevokeGrant(user: int, rawGrantId: string)
    | CreateCode(signature: string, requester: Requester)
    | InvalidateCode(signature: string)
    | CreateAccess(signature: string, requester: Requester)
    | DeleteAccess(signature: string)
    | CreateRefresh(signature: string, accessSignature: string, requester: Requester)
    | DeleteRefresh(signature: string)
    | RotateRefresh(requestId: string, signature: string)
    | RevokeRefreshTokens(requestId: string)
    | RevokeAccessTokens(requestId: string)

  function Apply(t: Tables, op: Op, now: Time): Result<Tables, StoreError> {
    match op
    case CreateClient(id, name, redirectsValid, scopes) =>
      if Trim(name) == "" || !redirectsValid || Scopes.Normalize(scopes).Err? then Err(Invalid)
      else if id in t.clients then Err(Violation)
      else Ok(t.(clients := t.clients[id := Client(true, Scopes.Normalize(scopes).value)]))
    case SetClientEnabled(rawId, enabled) => ApplySetEnabled(t, Trim(rawId), enabled, now)
    case UpsertGrant(grantId, rawClientId, userId, requested, granted) =>
      ApplyUpsertGrant(t, grantId, Trim(rawClientId), userId, requested, granted)
    case RevokeGrant(user, rawGrantId) => ApplyRevokeGrant(t, user, Trim(rawGrantId), now)
    case CreateCode(sig, requester) =>
      (match TakeSnapshot(requester)
       case Err(e) => Err(BadRequest(e))
       case Ok(snap) =>
         var row := NewCode(requester, snap);
         if !Refers(t.clients, t.grants, row.clientId, row.grantId) || !OnlyCodeOf(t.codes, row.requestId, sig)
         then Err(Violation) else Ok(t.(codes := t.codes[sig := row])))
    case InvalidateCode(sig) =>
      if sig !in t.codes then Err(RowMissing)
      else Ok(t.(codes := t.codes[sig := t.codes[sig].(active := false, consumedAt := Some(now))]))
    case CreateAccess(sig, requester) =>
      (match TakeSnapshot(requester)
       case Err(e) => Err(BadRequest(e))
       case Ok(snap) =>
         var row := NewAccess(requester, snap);
         if !Refers(t.clients, t.grants, row.clientId, row.grantId)
         then Err(Violation) else Ok(t.(access := t.access[sig := row])))
    case DeleteAccess(sig) =>
      Ok(if sig in t.access then t.(access := t.access[sig := RevokedAccess(t.access[sig], now)]) else t)
    case CreateRefresh(sig, accessSig, requester) =>
      (match TakeSnapshot(requester)
       case Err(e) => Err(BadRequest(e))
       case Ok(snap) =>
         var row := NewRefresh(requester, snap, accessSig);
         if !Refers(t.clients, t.grants, row.clientId, row.grantId)
         then Err(Violation) else Ok(t.(refresh := t.refresh[sig := row])))
    case DeleteRefresh(sig) =>
      Ok(if sig in t.refresh then t.(refresh := t.refresh[sig := RevokedRefresh(t.refresh[sig], now)]) else t)
    case RotateRefresh(requestId, sig) => ApplyRotate(t, requestId, sig, now)
    case RevokeRefreshTokens(requestId) =>
      Ok(t.(refresh := map k | k in t.refresh ::
                if t.refresh[k].requestId == requestId then RevokedRefresh(t.refresh[k], now) else t.refresh[k]))
    case RevokeAccessTokens(requestId) =>
      Ok(t.(access := AccessRevokedFor(t.access, requestId, now)))
  }

  function AccessRevokedFor(access: map<string, AccessRow>, requestId: string, now: Time): map<string, AccessRow> {
    map k | k in access :: if access[k].requestId == requestId then RevokedAccess(access[k], now) else access[k]
  }

  function ApplySetEnabled(t: Tables, id: string, enabled: bool, now: Time): Result<Tables, StoreError> {
    if id == "" || id !in t.clients then Err(Invalid) else
      var clients := t.clients[id := t.clients[id].(enabled := enabled)];
      if enabled then Ok(t.(clients := clients)) else
        Ok(Tables(clients,
          map k | k in t.grants :: if t.grants[k].clientId == id then RevokedGrant(t.grants[k], now) else t.grants[k],
          map k | k in t.codes :: if t.codes[k].clientId == id then ConsumedCode(t.codes[k], now) else t.codes[k],
          map k | k in t.access :: if t.access[k].clientId == id then RevokedAccess(t.access[k], now) else t.access[k],
          map k | k in t.refresh ::
            if t.refresh[k].clientId == id then RevokedRefresh(t.refresh[k], now) else t.refresh[k]))
  }

  function ApplyUpsertGrant(t: Tables, grantId: string, clientId: string, userId: int,
                            requested: seq<string>, granted: seq<string>): Result<Tables, StoreError> {
    if clientId == "" || userId <= 0 || !Scopes.GrantScopesValid(requested, granted) then Err(Invalid)
    else if clientId !in t.clients || grantId in t.grants then Err(Violation)
    else Ok(t.(grants := t.grants[grantId := GrantRow(
      clientId, userId, Scopes.Normalize(requested).value, Scopes.Normalize(granted).value, None)]))
  }

  function ApplyRevokeGrant(t: Tables, userId: int, g: string, now: Time): Result<Tables, StoreError> {
    if g == "" || g !in t.grants || t.grants[g].userId != userId then Err(Invalid) else
      Ok(Tables(t.clients,
        t.grants[g := RevokedGrant(t.grants[g], now)],
        map k | k in t.codes :: if t.codes[k].grantId == Some(g) then ConsumedCode(t.codes[k], now) else t.codes[k],
        map k | k in t.access :: if t.access[k].grantId == Some(g) then RevokedAccess(t.access[k], now)
          else t.access[k],
        map k | k in t.refresh ::
          if t.refresh[k].grantId == Some(g) then RevokedRefresh(t.refresh[k], now) else t.refresh[k]))
  }

  /** An inactive token ends in an error, so its transaction keeps nothing. */
  function ApplyRotate(t: Tables, requestId: string, sig: string, now: Time): Result<Tables, StoreError> {
    if sig !in t.refresh then Err(RowMissing)
    else if !t.refresh[sig].active then Err(InactiveToken)
    else Ok(t.(refresh := t.refresh[sig := t.refresh[sig].(active := false, usedAt := Some(now))],
               access := AccessRevokedFor(t.access, requestId, now)))
  }

  // ---------------------------------------------------------------- reads

  /** The stored request, and whether the row may still be used. */
  datatype Lookup = Lookup(requester: Requester, usable: bool)

  function LookupRow(t: Tables, snap: Snapshot, usable: bool): Result<Lookup, StoreError> {
    match Restore(t.clients, snap, true)
    case Err(e) => Err(BadRequest(e))
    case Ok(requester) => Ok(Lookup(requester, usable))
  }

  function GetCode(t: Tables, sig: string): Result<Lookup, StoreError> {
    if sig !in t.codes then Err(RowMissing) else LookupRow(t, t.codes[sig].request, t.codes[sig].active)
  }

  function GetAccess(t: Tables, sig: string): Result<Requester, StoreError> {
    if sig !in t.access || t.access[sig].revokedAt.Some? then Err(RowMissing)
    else match Restore(t.clients, t.access[sig].request, true)
      case Err(e) => Err(BadRequest(e))
      case Ok(requester) => Ok(requester)
  }

  function GetRefresh(t: Tables, sig: string, now: Time): Result<Lookup, StoreError> {
    if sig !in t.refresh then Err(RowMissing) else
      var row := t.refresh[sig];
      LookupRow(t, row.request, row.revokedAt.None? && row.active && row.expiresAt >= now)
  }

  // ---------------------------------------------------------------- creating rows

  lemma UpsertEffect(t: Tables, op: Op, now: Time)
    requires op.UpsertGrant?
    ensures var id := Trim(op.rawClientId);
            Apply(t, op, now) ==
              if id == "" || op.userId <= 0 || !Scopes.GrantScopesValid(op.requested, op.granted) then Err(Invalid)
              else if id !in t.clients || op.grantId in t.grants then Err(Violation)
              else Ok(t.(grants := t.grants[op.grantId := GrantRow(
                id, op.userId, Scopes.Normalize(op.requested).value, Scopes.Normalize(op.granted).value, None)]))
  {
    hide Trim, Scopes.Normalize, Scopes.GrantScopesValid;
  }

  lemma CreateCodeEffect(t: Tables, sig: string, requester: Requester, now: Time)
    requires TakeSnapshot(requester).Ok?
    ensures var row := NewCode(requester, TakeSnapshot(requester).value);
            Apply(t, CreateCode(sig, requester), now) ==
              if Refers(t.clients, t.grants, row.clientId, row.grantId) && OnlyCodeOf(t.codes, row.requestId, sig)
              then Ok(t.(codes := t.codes[sig := row])) else Err(Violation)
  {
    hide TakeSnapshot, NewCode, Refers, OnlyCodeOf;
  }

  lemma CreateAccessEffect(t: Tables, sig: string, requester: Requester, now: Time)
    requires TakeSnapshot(requester).Ok?
    ensures var row := NewAccess(requester, TakeSnapshot(requester).value);
            Apply(t, CreateAccess(sig, requester), now) ==
              if Refers(t.clients, t.grants, row.clientId, row.grantId)
              then Ok(t.(access := t.access[sig := row])) else Err(Violation)
  {
    hide TakeSnapshot, NewAccess, Refers;
  }

  lemma CreateRefreshEffect(t: Tables, sig: string, accessSig: string, requester: Requester, now: Time)
    requires TakeSnapshot(requester).Ok?
    ensures var row := NewRefresh(requester, TakeSnapshot(requester).value, accessSig);
            Apply(t, CreateRefresh(sig, accessSig, requester), now) ==
              if Refers(t.clients, t.grants, row.clientId, row.grantId)
              then Ok(t.(refresh := t.refresh[sig := row])) else Err(Violation)
  {
    hide TakeSnapshot, NewRefresh, Refers;
  }

  // ---------------------------------------------------------------- what no operation undoes

  predicate Creates(op: Op, sig: string) {
    match op
    case CreateCode(s, _) => s == sig
    case CreateAccess(s, _) => s == sig
    case CreateRefresh(s, _, _) => s == sig
    case _ => false
  }

  predicate Kept(before: Option<Time>, after: Option<Time>) {
    before.Some? ==> after == before
  }

  /** The facts about a signature and a grant that only re-creation can undo. */
  ghost predicate Keeps(t: Tables, t': Tables, sig: string) {
    KeepsCode(t, t', sig) && KeepsAccess(t, t', sig) && KeepsRefresh(t, t', sig)
  }

  ghost predicate KeepsCode(t: Tables, t': Tables, sig: string) {
    && (sig in t'.codes <==> sig in t.codes)
    && (sig in t.codes && t'.codes[sig].active ==> t.codes[sig].active)
  }

  ghost predicate KeepsAccess(t: Tables, t': Tables, sig: string) {
    && (sig in t'.access <==> sig in t.access)
    && (sig in t.access ==> Kept(t.access[sig].revokedAt, t'.access[sig].revokedAt))
  }

  ghost predicate KeepsRefresh(t: Tables, t': Tables, sig: string) {
    && (sig in t'.refresh <==> sig in t.refresh)
    && (sig in t.refresh && t'.refresh[sig].active ==> t.refresh[sig].active)
    && (sig in t.refresh ==> Kept(t.refresh[sig].revokedAt, t'.refresh[sig].revokedAt))
  }

  ghost predicate KeepsGrant(t: Tables, t': Tables, g: string) {
    g in t.grants ==>
      g in t'.grants && Kept(t.grants[g].revokedAt, t'.grants[g].revokedAt)
  }

  function After(t: Tables, op: Op, now: Time): Tables {
    match Apply(t, op, now) case Ok(t') => t' case Err(_) => t
  }

  function Run(t: Tables, ops: seq<(Op, Time)>): Tables
    decreases ops
  {
    if ops == [] then t else Run(After(t, ops[0].0, ops[0].1), ops[1..])
  }

  lemma OpKeepsCode(t: Tables, op: Op, now: Time, sig: string)
    requires op.CreateCode? ==> op.signature != sig
    ensures KeepsCode(t, After(t, op, now), sig)
  {
    hide TakeSnapshot, Trim, Expiry, GrantIdOf, FamilyIdOf, Scopes.Normalize, Scopes.GrantScopesValid, OnlyCodeOf,
        Refers;
  }

  lemma OpKeepsAccess(t: Tables, op: Op, now: Time, sig: string)
    requires op.CreateAccess? ==> op.signature != sig
    ensures KeepsAccess(t, After(t, op, now), sig)
  {
    hide TakeSnapshot, Trim, Expiry, GrantIdOf, FamilyIdOf, Scopes.Normalize, Scopes.GrantScopesValid, OnlyCodeOf,
        Refers;
  }

  lemma OpKeepsRefresh(t: Tables, op: Op, now: Time, sig: string)
    requires op.CreateRefresh? ==> op.signature != sig
    ensures KeepsRefresh(t, After(t, op, now), sig)
  {
    hide TakeSnapshot, Trim, Expiry, GrantIdOf, FamilyIdOf, Scopes.Normalize, Scopes.GrantScopesValid, OnlyCodeOf,
        Refers;
  }

  lemma OpKeeps(t: Tables, op: Op, now: Time, sig: string)
    requires !Creates(op, sig)
    ensures Keeps(t, After(t, op, now), sig)
  {
    hide After;
    OpKeepsCode(t, op, now, sig);
    OpKeepsAccess(t, op, now, sig);
    OpKeepsRefresh(t, op, now, sig);
  }

  lemma OpKeepsGrant(t: Tables, op: Op, now: Time, g: string)
    ensures KeepsGrant(t, After(t, op, now), g)
  {
  }

  /** Over any sequence of calls that does not create `sig` again: a dead row stays dead and a
      set revocation time keeps its value. Enabling a client again is one of those calls. */
  lemma {:induction false} RunKeeps(t: Tables, ops: seq<(Op, Time)>, sig: string)
    requires forall i :: 0 <= i < |ops| ==> !Creates(ops[i].0, sig)
    ensures Keeps(t, Run(t, ops), sig)
    decreases ops
  {
    if ops != [] {
      var t1 := After(t, ops[0].0, ops[0].1);
      OpKeeps(t, ops[0].0, ops[0].1, sig);
      RunKeeps(t1, ops[1..], sig);
    }
  }

  /** Over any sequence of calls no grant is lost and no set revocation time changes. */
  lemma {:induction false} RunKeepsGrant(t: Tables, ops: seq<(Op, Time)>, g: string)
    ensures KeepsGrant(t, Run(t, ops), g)
    decreases ops
  {
    if ops != [] {
      OpKeepsGrant(t, ops[0].0, ops[0].1, g);
      RunKeepsGrant(After(t, ops[0].0, ops[0].1), ops[1..], g);
    }
  }
}
