/** OAuth requests and the snapshots stored beside codes and tokens
    (src/internal/common/oauth.go). The requester types are fosite's. */
module Requests {
  import opened Text
  import opened Wrappers

  datatype TokenType = AccessToken | RefreshToken | AuthorizeCode

  const ZERO_TIME: int := 0

  datatype Session =
    | NoSession
    | DefaultSession(subject: string, username: string, expiresAt: map<TokenType, int>, extra: map<string, string>)
    | OtherSession(subject: string, username: string, expiresAt: map<TokenType, int>)

  datatype Request = Request(
    id: string, requestedAt: int, client: Option<string>,
    requestedScopes: seq<string>, grantedScopes: seq<string>,
    requestedAudience: seq<string>, grantedAudience: seq<string>,
    form: map<string, seq<string>>, session: Session)

  datatype Requester =
    | Generic(request: Request)
    | Authorize(request: Request, redirectURI: Option<string>, state: string, responseTypes: seq<string>)
    | Access(request: Request, grantTypes: seq<string>)

  datatype StoredSession = StoredSession(
    subject: string, username: string, expiresAt: map<TokenType, int>, extra: map<string, string>)

  datatype Snapshot = Snapshot(
    kind: string, id: string, requestedAt: int, clientId: string,
    requestedScopes: seq<string>, grantedScopes: seq<string>,
    requestedAudience: seq<string>, grantedAudience: seq<string>,
    form: map<string, seq<string>>, session: StoredSession,
    redirectURI: string, state: string, responseTypes: seq<string>, grantTypes: seq<string>)

  datatype RequestError = ClientRequired | NotFound | UnknownKind

  datatype Client = Client(enabled: bool, scopes: seq<string>)

  // ---------------------------------------------------------------- taking a snapshot

  function MakeStoredSession(session: Session): StoredSession {
    match session
    case NoSession => StoredSession("", "", map[], map[])
    case DefaultSession(subject, username, expiresAt, extra) =>
      StoredSession(Trim(subject), Trim(username), Lasting(expiresAt), extra)
    case OtherSession(subject, username, expiresAt) =>
      StoredSession(Trim(subject), Trim(username), Lasting(expiresAt), map[])
  }

  /** Expiry times that are set. */
  function Lasting(expiresAt: map<TokenType, int>): map<TokenType, int> {
    map t | t in expiresAt && expiresAt[t] != ZERO_TIME :: expiresAt[t]
  }

  function TakeSnapshot(requester: Requester): Result<Snapshot, RequestError> {
    var r := requester.request;
    if r.client.None? then Err(ClientRequired) else
      var snap := Snapshot("request", r.id, r.requestedAt, r.client.value,
                           r.requestedScopes, r.grantedScopes, r.requestedAudience, r.grantedAudience,
                           r.form, MakeStoredSession(r.session), "", "", [], []);
      match requester
      case Generic(_) => Ok(snap)
      case Authorize(_, uri, state, responseTypes) =>
        Ok(snap.(kind := "authorize", redirectURI := if uri.Some? then uri.value else "",
                 state := state, responseTypes := responseTypes))
      case Access(_, grantTypes) =>
        Ok(snap.(kind := "access", grantTypes := grantTypes))
  }

  // ---------------------------------------------------------------- restoring it

  /** fosite's argument lists ignore a value they already hold. */
  function AddAll(list: seq<string>, values: seq<string>): seq<string>
    decreases values
  {
    if values == [] then list
    else AddAll(if values[0] in list then list else list + [values[0]], values[1..])
  }

  function ClientForFosite(clients: map<string, Client>, rawId: string, allowDisabled: bool): Option<string> {
    var id := Trim(rawId);
    if id == "" || id !in clients || (!allowDisabled && !clients[id].enabled) then None else Some(id)
  }

  function MakeDefaultSession(stored: StoredSession): Session {
    DefaultSession(stored.subject, stored.username, stored.expiresAt, stored.extra)
  }

  function Restore(clients: map<string, Client>, snap: Snapshot, allowDisabled: bool): Result<Requester, RequestError> {
    var client := ClientForFosite(clients, snap.clientId, allowDisabled);
    if client.None? then Err(NotFound) else
      var r := Request(snap.id, snap.requestedAt, client,
                       AddAll([], snap.requestedScopes), AddAll([], snap.grantedScopes),
                       AddAll([], snap.requestedAudience), AddAll([], snap.grantedAudience),
                       snap.form, MakeDefaultSession(snap.session));
      match snap.kind
      case "request" => Ok(Generic(r))
      case "authorize" =>
        Ok(Authorize(r, if snap.redirectURI != "" then Some(snap.redirectURI)
          else None, snap.state, snap.responseTypes))
      case "access" => Ok(Access(r, snap.grantTypes))
      case _ => Err(UnknownKind)
  }

  // ---------------------------------------------------------------- identifiers read from a session

  function ExtraValue(requester: Requester, key: string): string {
    match requester.request.session
    case DefaultSession(_, _, _, extra) => if key in extra then Trim(extra[key]) else ""
    case _ => ""
  }

  function GrantIdOf(requester: Requester): string {
    ExtraValue(requester, "grant_id")
  }

  function FamilyIdOf(requester: Requester): string {
    var family := ExtraValue(requester, "refresh_family_id");
    if family == "" then requester.request.id else family
  }

  // ---------------------------------------------------------------- round trips

  predicate DuplicateFree(values: seq<string>) {
    forall i, j :: 0 <= i < j < |values| ==> values[i] != values[j]
  }

  lemma Repeated(list: seq<string>, values: seq<string>, all: seq<string>)
    requires values != [] && values[0] in list && |all| < |list| + |values|
    ensures !DuplicateFree(list + values) && all != list + values
  {
    var i :| 0 <= i < |list| && list[i] == values[0];
    assert (list + values)[i] == (list + values)[|list|];
  }

  lemma Shifted(list: seq<string>, values: seq<string>)
    requires values != []
    ensures list + [values[0]] + values[1..] == list + values
  {
    assert values == [values[0]] + values[1..];
  }

  lemma StillDistinct(list: seq<string>, value: string)
    requires DuplicateFree(list) && value !in list
    ensures DuplicateFree(list + [value])
  {
  }

  lemma AddAllUnfolds(list: seq<string>, values: seq<string>)
    requires values != []
    ensures AddAll(list, values) == AddAll(if values[0] in list then list else list + [values[0]], values[1..])
  {
  }

  lemma {:induction false} AddAllDistinct(list: seq<string>, values: seq<string>)
    requires DuplicateFree(list)
    ensures DuplicateFree(AddAll(list, values))
    ensures |AddAll(list, values)| <= |list| + |values|
    ensures AddAll(list, values) == list + values <==> DuplicateFree(list + values)
    decreases |values|
  {
    hide DuplicateFree;
    if values == [] {
      assert list + values == list;
    } else {
      AddAllUnfolds(list, values);
      hide AddAll;
      if values[0] in list {
        AddAllDistinct(list, values[1..]);
        Repeated(list, values, AddAll(list, values));
      } else {
        StillDistinct(list, values[0]);
        AddAllDistinct(list + [values[0]], values[1..]);
        Shifted(list, values);
      }
    }
  }

  lemma AddAllIdempotent(values: seq<string>)
    ensures AddAll([], values) == values <==> DuplicateFree(values)
    ensures AddAll([], AddAll([], values)) == AddAll([], values)
  {
    AddAllDistinct([], values);
    assert [] + values == values;
    AddAllDistinct([], AddAll([], values));
    assert [] + AddAll([], values) == AddAll([], values);
  }

  /** The values of a list, each where it first occurs. */
  function Firsts(values: seq<string>): seq<string> {
    if values == [] then [] else
      var init, last := values[..|values| - 1], values[|values| - 1];
      Firsts(init) + if last in init then [] else [last]
  }

  lemma {:induction false} AddAllSnoc(list: seq<string>, values: seq<string>, value: string)
    ensures var added := AddAll(list, values);
            AddAll(list, values + [value]) == if value in added then added else added + [value]
    ensures forall x :: x in AddAll(list, values) <==> x in list || x in values
    decreases |values|
  {
    if values == [] {
      assert values + [value] == [value] && [value][1..] == [];
    } else {
      assert (values + [value])[1..] == values[1..] + [value];
      assert values == [values[0]] + values[1..];
      AddAllSnoc(if values[0] in list then list else list + [values[0]], values[1..], value);
    }
  }

  /** A restored argument list is the stored one with repetitions left out. */
  lemma {:induction false} AddAllFirsts(values: seq<string>)
    ensures AddAll([], values) == Firsts(values)
    decreases |values|
  {
    hide AddAll;
    if values == [] {
      NothingAdded();
    } else {
      var init, last := values[..|values| - 1], values[|values| - 1];
      AddAllFirsts(init);
      AddAllSnoc([], init, last);
      assert values == init + [last];
    }
  }

  lemma NothingAdded()
    ensures AddAll([], []) == []
  {
  }

  /** A snapshot holds the request's own data, field by field, and what its kind adds. */
  lemma SnapshotHolds(requester: Requester)
    ensures var r := requester.request;
            match TakeSnapshot(requester)
            case Err(e) => r.client.None? && e == ClientRequired
            case Ok(snap) =>
              && r.client == Some(snap.clientId) && snap.id == r.id && snap.requestedAt == r.requestedAt
              && snap.requestedScopes == r.requestedScopes && snap.grantedScopes == r.grantedScopes
              && snap.requestedAudience == r.requestedAudience && snap.grantedAudience == r.grantedAudience
              && snap.form == r.form && SessionHeld(r.session, snap.session)
              && (snap.kind == "authorize" <==> requester.Authorize?) && (snap.kind == "access" <==> requester.Access?)
              && (snap.kind == "request" <==> requester.Generic?)
              && (requester.Authorize? ==>
                    && snap.state == requester.state && snap.responseTypes == requester.responseTypes
                    && snap.redirectURI == if requester.redirectURI == None then "" else requester.redirectURI.value)
              && (requester.Access? ==> snap.grantTypes == requester.grantTypes)
  {
    hide MakeStoredSession;
    SessionKept(requester.request.session);
    assert |"request"| == 7 && |"authorize"| == 9 && |"access"| == 6;
  }

  /** The stored session: trimmed names, the expiry times that are set, and fosite's extra values. */
  ghost predicate SessionHeld(session: Session, stored: StoredSession) {
    && (session.NoSession? ==> stored == StoredSession("", "", map[], map[]))
    && (!session.NoSession? ==>
          && stored.subject == Trim(session.subject) && stored.username == Trim(session.username)
          && (forall t :: t in stored.expiresAt <==> t in session.expiresAt && session.expiresAt[t] != 0)
          && (forall t :: t in stored.expiresAt ==> stored.expiresAt[t] == session.expiresAt[t]))
    && (session.DefaultSession? ==> stored.extra == session.extra)
    && (session.OtherSession? ==> stored.extra == map[])
  }

  lemma SessionKept(session: Session)
    ensures SessionHeld(session, MakeStoredSession(session))
  {
    hide Trim;
  }

  /** A restored request is the snapshot's, field by field, with the client that its trimmed id names and
      repetitions left out of its argument lists. */
  lemma RestoreHolds(clients: map<string, Client>, snap: Snapshot, allowDisabled: bool)
    ensures var id := Trim(snap.clientId);
            match Restore(clients, snap, allowDisabled)
            case Err(NotFound) => id == "" || id !in clients || (!allowDisabled && !clients[id].enabled)
            case Err(e) =>
              e == UnknownKind && id in clients && snap.kind !in {"request", "authorize", "access"}
            case Ok(restored) =>
              var r := restored.request;
              && id != "" && id in clients && (allowDisabled || clients[id].enabled) && r.client == Some(id)
              && r.id == snap.id && r.requestedAt == snap.requestedAt && r.form == snap.form
              && r.requestedScopes == Firsts(snap.requestedScopes) && r.grantedScopes == Firsts(snap.grantedScopes)
              && r.requestedAudience == Firsts(snap.requestedAudience)
              && r.grantedAudience == Firsts(snap.grantedAudience)
              && r.session == DefaultSession(snap.session.subject, snap.session.username, snap.session.expiresAt,
                                             snap.session.extra)
              && (restored.Generic? <==> snap.kind == "request") && (restored.Access? <==> snap.kind == "access")
              && (restored.Authorize? <==> snap.kind == "authorize")
              && (restored.Access? ==> restored.grantTypes == snap.grantTypes)
              && (restored.Authorize? ==>
                    && restored.state == snap.state && restored.responseTypes == snap.responseTypes
                    && restored.redirectURI == if snap.redirectURI == "" then None else Some(snap.redirectURI))
  {
    AddAllFirsts(snap.requestedScopes);
    AddAllFirsts(snap.grantedScopes);
    AddAllFirsts(snap.requestedAudience);
    AddAllFirsts(snap.grantedAudience);
    hide AddAll, Trim, Firsts;
    assert |"request"| == 7 && |"authorize"| == 9 && |"access"| == 6;
  }

  /** The grant and the refresh family that a session names; without one the family is the request's own. */
  lemma IdsNamed(requester: Requester, grant: string, family: string)
    ensures var session := requester.request.session;
            var extra := if session.DefaultSession? then session.extra else map[];
            && ("grant_id" in extra && Trim(extra["grant_id"]) == grant ==> GrantIdOf(requester) == grant)
            && ("grant_id" !in extra ==> GrantIdOf(requester) == "")
            && ("refresh_family_id" in extra && Trim(extra["refresh_family_id"]) == family && family != "" ==>
                  FamilyIdOf(requester) == family)
            && ("refresh_family_id" !in extra || Trim(extra["refresh_family_id"]) == "" ==>
                  FamilyIdOf(requester) == requester.request.id)
  {
    hide Trim;
  }

  lemma SessionRoundTrip(session: Session)
    ensures var stored := MakeStoredSession(session);
            MakeStoredSession(MakeDefaultSession(stored)) == stored
  {
    if !session.NoSession? {
      TrimIdempotent(session.subject);
      TrimIdempotent(session.username);
      assert Lasting(Lasting(session.expiresAt)) == Lasting(session.expiresAt);
    }
  }

  predicate FaithfullyStored(snap: Snapshot) {
    && DuplicateFree(snap.requestedScopes) && DuplicateFree(snap.grantedScopes)
    && DuplicateFree(snap.requestedAudience) && DuplicateFree(snap.grantedAudience)
    && Trim(snap.clientId) == snap.clientId
  }

  lemma NothingRepeats()
    ensures DuplicateFree([])
  {
  }

  /** A stored request can be restored exactly while its client row exists, and restoring it
      and storing it again changes nothing exactly when no argument list repeats a value. */
  lemma SnapshotRoundTrip(clients: map<string, Client>, requester: Requester)
    requires TakeSnapshot(requester).Ok?
    ensures var snap := TakeSnapshot(requester).value;
            var restored := Restore(clients, snap, true);
            && (restored.Ok? <==> Trim(snap.clientId) != "" && Trim(snap.clientId) in clients)
            && (restored.Ok? ==> (TakeSnapshot(restored.value) == Ok(snap) <==> FaithfullyStored(snap)))
  {
    hide AddAll, Trim, DuplicateFree;
    var snap := TakeSnapshot(requester).value;
    SessionRoundTrip(requester.request.session);
    AddAllIdempotent(snap.requestedScopes);
    AddAllIdempotent(snap.grantedScopes);
    AddAllIdempotent(snap.requestedAudience);
    AddAllIdempotent(snap.grantedAudience);
  }

  /** A request whose scopes repeat is not the same after a round trip. */
  lemma RepeatedScopeIsLost()
    ensures var r := Request("r", 0, Some("c"), ["s", "s"], [], [], [], map[], NoSession);
            var snap := TakeSnapshot(Generic(r)).value;
            var restored := Restore(map["c" := Client(true, [])], snap, true);
            restored.Ok? && TakeSnapshot(restored.value) != Ok(snap)
  {
    TrimTrimmed("c");
    hide Trim, AddAll;
    var r := Request("r", 0, Some("c"), ["s", "s"], [], [], [], map[], NoSession);
    SnapshotRoundTrip(map["c" := Client(true, [])], Generic(r));
    var snap := TakeSnapshot(Generic(r)).value;
    assert snap.requestedScopes[0] == snap.requestedScopes[1] == "s";
  }

  /** One restore reaches a fixed point: later ones change nothing. */
  lemma RestoreStabilises(clients: map<string, Client>, requester: Requester)
    requires TakeSnapshot(requester).Ok?
    requires Restore(clients, TakeSnapshot(requester).value, true).Ok?
    ensures var once := Restore(clients, TakeSnapshot(requester).value, true).value;
            && TakeSnapshot(once).Ok?
            && FaithfullyStored(TakeSnapshot(once).value)
            && var twice := Restore(clients, TakeSnapshot(once).value, true);
               twice.Ok? && TakeSnapshot(twice.value) == TakeSnapshot(once)
  {
    hide Trim, AddAll, DuplicateFree, MakeStoredSession;
    var snap := TakeSnapshot(requester).value;
    var once := Restore(clients, snap, true).value;
    TrimIdempotent(snap.clientId);
    NothingRepeats();
    AddAllDistinct([], snap.requestedScopes);
    AddAllDistinct([], snap.grantedScopes);
    AddAllDistinct([], snap.requestedAudience);
    AddAllDistinct([], snap.grantedAudience);
    SnapshotRoundTrip(clients, once);
  }
}
