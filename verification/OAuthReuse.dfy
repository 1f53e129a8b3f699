/** What presenting a spent refresh token does: RotateRefreshToken means to revoke the token's whole
    family, but its error rolls the revocation back (src/internal/common/oauth.go). */
module OAuthReuse {
  import opened OAuthRuns
  import opened OAuthTables
  import opened Requests
  import opened Text
  import opened Wrappers

  ghost predicate FamilyLive(t: Tables, family: string) {
    exists k :: k in t.refresh && t.refresh[k].familyId == family && t.refresh[k].active
  }

  /** Rotating a spent token is an error that changes nothing. */
  lemma ReuseChangesNothing(t: Tables, requestId: string, sig: string, now: Time)
    requires SpentRefresh(t, sig)
    ensures Apply(t, RotateRefresh(requestId, sig), now) == Err(InactiveToken)
    ensures After(t, RotateRefresh(requestId, sig), now) == t
  {
  }

  /** In a reachable store, the family of a spent token has a live token after the token is presented
      again exactly when the newest token of its grant was live before. */
  lemma ReuseRevokesFamily(w: World, requestId: string, sig: string, now: Time)
    requires Inv(w) && SpentRefresh(w.tables, sig)
    ensures var family := w.tables.refresh[sig].familyId;
            && family in w.threads
            && var stage := w.threads[family].stage;
               FamilyLive(After(w.tables, RotateRefresh(requestId, sig), now), family) <==>
                 && stage.AtTokens? && stage.refreshSignature in w.tables.refresh
                 && w.tables.refresh[stage.refreshSignature].active
  {
    ReuseChangesNothing(w.tables, requestId, sig, now);
    hide After, Carries, Within, Standing, CodeOk, AccessOk;
    var t := w.tables;
    assert RefreshOk(w, sig, t.refresh[sig]);
    var family := t.refresh[sig].familyId;
    assert NewestOk(w, family);
    assert forall k :: k in t.refresh ==> RefreshOk(w, k, t.refresh[k]);
  }

  /** After any successful refresh, presenting the old token leaves its successor live. */
  lemma SuccessorSurvivesReuse(w: World, s: Step, now: Time, requestId: string, later: Time)
    requires Inv(w) && Fresh(w, s) && s.Refresh? && DoRefresh(w, s, now).Some?
    ensures var t := w.tables;
            var t' := After(Next(w, s, now).tables, RotateRefresh(requestId, s.signature), later);
            && s.signature in t.refresh && SpentRefresh(t', s.signature)
            && s.refreshSignature in t'.refresh && t'.refresh[s.refreshSignature].active
            && t'.refresh[s.refreshSignature].familyId == t'.refresh[s.signature].familyId ==
                t.refresh[s.signature].familyId
  {
    hide Inv, DoRefresh, After, Apply, TakeSnapshot, Issues, GrantIdOf, FamilyIdOf, Expiry, AccessRevokedFor;
    RefreshSucceeds(w, s, now);
    var requester := RefreshResult(w, s, now);
    ReuseChangesNothing(Next(w, s, now).tables, requestId, s.signature, later);
    assert FamilyIdOf(requester) == w.tables.refresh[s.signature].familyId
        by { IssuesFamily(w.tables, requester, s.signature); }
  }

  lemma IssuesFamily(t: Tables, requester: Requester, sig: string)
    requires sig in t.refresh && t.refresh[sig].grantId.Some?
    requires Issues(t, requester, t.refresh[sig].request, "refresh_token", t.refresh[sig].grantId.value)
    ensures FamilyIdOf(requester) == t.refresh[sig].grantId.value
  {
  }

  // ---------------------------------------------------------------- a run in which it happens

  const SCOPE := "ticket:read"

  /** The identifiers drawn in the run. */
  datatype Names = Names(client: string, grant: string, request: string, code: string,
                         access: string, first: string, access2: string, second: string)

  predicate Distinct(n: Names) {
    && n.client != "" && Trim(n.client) == n.client && n.grant != "" && Trim(n.grant) == n.grant
    && n.access != n.access2 && n.first != n.second
  }

  function MakeClient(n: Names): Step {
    Call(CreateClient(n.client, "agent", true, [SCOPE]))
  }

  function Consent(n: Names): Step {
    Authorise(n.client, 1, "1", "ann", n.request, [SCOPE], [SCOPE], n.grant, n.code)
  }

  function Redeem(n: Names): Step {
    Exchange(n.code, n.access, n.first)
  }

  function Renew(n: Names): Step {
    Refresh(n.first, n.access2, n.second)
  }

  function Reuse(n: Names): Step {
    Call(RotateRefresh(n.request, n.first))
  }

  /** A client, a consent, an exchange, a refresh; then the first refresh token is presented again. */
  function ReuseRun(n: Names): seq<(Step, Time)> {
    [(MakeClient(n), 10)] + ([(Consent(n), 20)] + ([(Redeem(n), 30)] + ([(Renew(n), 40)] + ([(Reuse(n), 50)] + []))))
  }

  lemma ScopeNormalises()
    ensures Scopes.Normalize([SCOPE]).Ok? && Scopes.Approved([SCOPE], [SCOPE]) != []
  {
    TrimWord(SCOPE);
    Scopes.NormalizeExact([SCOPE]);
    assert Trim([SCOPE][0]) in Scopes.Names([SCOPE]);
    assert Scopes.Names([SCOPE]) == {SCOPE};
    Scopes.ApprovedElements([SCOPE], [SCOPE]);
    assert SCOPE in Scopes.Elements([SCOPE]);
    assert SCOPE in Scopes.Elements(Scopes.Approved([SCOPE], [SCOPE]));
  }

  ghost predicate HasOnlyClient(w: World, n: Names) {
    && Inv(w) && n.client in w.tables.clients && w.tables.clients[n.client].enabled
    && w.tables.(clients := map[]) == Init().tables && w.threads == map[]
  }

  lemma ClientMade(n: Names)
    ensures Fresh(Init(), MakeClient(n)) && HasOnlyClient(Next(Init(), MakeClient(n), 10), n)
  {
    TrimWord("agent");
    ScopeNormalises();
    hide Trim, Scopes.Normalize;
  }

  ghost predicate HasCode(w: World, n: Names) {
    && Inv(w) && n.client in w.tables.clients && w.tables.access == map[] && w.tables.refresh == map[]
    && n.code in w.tables.codes && w.tables.codes[n.code].active
    && w.tables.codes[n.code].request == TakeSnapshot(ConsentRequester(Consent(n), n.client, 20)).value
  }

  lemma ConsentMade(w: World, n: Names)
    requires Distinct(n) && HasOnlyClient(w, n)
    ensures Fresh(w, Consent(n)) && HasCode(Next(w, Consent(n), 20), n)
  {
    ScopeNormalises();
    hide Trim, Scopes.Normalize, Scopes.Approved, Inv;
    ConsentSucceeds(w, Consent(n), 20);
    AuthoriseSteps(w, Consent(n), 20);
    AuthoriseKeepsInv(w, Consent(n), 20);
    hide DoAuthorise, TakeSnapshot, ConsentRequester, ConsentGrant;
  }

  /** What the consent stores carries no expiry of its own, and is restored with its time. */
  lemma RestoredTime(clients: map<string, Client>, n: Names)
    requires Distinct(n) && n.client in clients
    ensures var snap := TakeSnapshot(ConsentRequester(Consent(n), n.client, 20)).value;
            var r := Restore(clients, snap, true);
            && r.Ok? && r.value.request.requestedAt == 20
            && !r.value.request.session.NoSession? && RefreshToken !in r.value.request.session.expiresAt
  {
    TrimWord("1");
    hide Trim, AddAll, Scopes.Approved;
  }

  ghost predicate HasTokens(w: World, n: Names) {
    && Inv(w) && w.tables.access.Keys == {n.access} && w.tables.refresh.Keys == {n.first}
    && w.tables.refresh[n.first].active && w.tables.refresh[n.first].revokedAt.None?
    && w.tables.refresh[n.first].expiresAt == 20 + THIRTY_DAYS
  }

  lemma Exchanged(w: World, n: Names)
    requires Distinct(n) && HasCode(w, n)
    ensures Fresh(w, Redeem(n)) && HasTokens(Next(w, Redeem(n), 30), n)
  {
    hide Inv, DoExchange, TakeSnapshot, ConsentRequester, GrantIdOf, FamilyIdOf, Restore, Distinct;
    var s := Redeem(n);
    RestoredTime(w.tables.clients, n);
    ExchangeKeepsInv(w, s, 30);
    var requester := ExchangeResult(w, s, 30);
    var snap := TakeSnapshot(requester).value;
    assert requester.request.requestedAt == 20;
    TokenExpiry(requester, snap, n.access);
    hide NewRefresh, Issues;
  }

  /** A session without an expiry of its own gives the token thirty days. */
  lemma TokenExpiry(requester: Requester, snap: Snapshot, accessSig: string)
    requires !requester.request.session.NoSession? && RefreshToken !in requester.request.session.expiresAt
    ensures var row := NewRefresh(requester, snap, accessSig);
            row.expiresAt == requester.request.requestedAt + THIRTY_DAYS && row.active && row.revokedAt.None?
  {
  }

  lemma Reused(w: World, n: Names)
    requires Distinct(n) && HasTokens(w, n)
    ensures Fresh(w, Renew(n)) && Fresh(Next(w, Renew(n), 40), Reuse(n))
    ensures var t := Next(Next(w, Renew(n), 40), Reuse(n), 50).tables;
            && SpentRefresh(t, n.first) && n.second in t.refresh && t.refresh[n.second].active
            && t.refresh[n.second].familyId == t.refresh[n.first].familyId
  {
    hide Inv, Trim, DoRefresh, Apply;
    RefreshSucceeds(w, Renew(n), 40);
    SuccessorSurvivesReuse(w, Renew(n), 40, n.request, 50);
  }

  lemma FirstStep(w: World, s: Step, now: Time, rest: seq<(Step, Time)>)
    ensures Exec(w, [(s, now)] + rest) == Exec(Next(w, s, now), rest)
    ensures ValidRun(w, [(s, now)] + rest) <==> Fresh(w, s) && ValidRun(Next(w, s, now), rest)
  {
    hide Next, Fresh;
    assert ([(s, now)] + rest)[1..] == rest;
  }

  lemma NoStep(w: World)
    ensures Exec(w, []) == w && ValidRun(w, [])
  {
  }

  /** In such a run a token is spent and presented again, and its family still has a live token. */
  lemma ReuseRunKeepsFamily(n: Names)
    requires Distinct(n)
    ensures ValidRun(Init(), ReuseRun(n))
    ensures var t := Exec(Init(), ReuseRun(n)).tables;
            && SpentRefresh(t, n.first) && n.second in t.refresh && t.refresh[n.second].active
            && t.refresh[n.second].familyId == t.refresh[n.first].familyId
  {
    hide Next, Fresh, Exec, ValidRun, HasOnlyClient, HasCode, HasTokens, Distinct, Init, SpentRefresh;
    hide MakeClient, Consent, Redeem, Renew, Reuse;
    var w1 := Next(Init(), MakeClient(n), 10);
    var w2 := Next(w1, Consent(n), 20);
    var w3 := Next(w2, Redeem(n), 30);
    var w4 := Next(w3, Renew(n), 40);
    var r4 := [(Reuse(n), 50)] + [];
    var r3 := [(Renew(n), 40)] + r4;
    var r2 := [(Redeem(n), 30)] + r3;
    var r1 := [(Consent(n), 20)] + r2;
    ClientMade(n);
    ConsentMade(w1, n);
    Exchanged(w2, n);
    Reused(w3, n);
    FirstStep(Init(), MakeClient(n), 10, r1);
    FirstStep(w1, Consent(n), 20, r2);
    FirstStep(w2, Redeem(n), 30, r3);
    FirstStep(w3, Renew(n), 40, r4);
    FirstStep(w4, Reuse(n), 50, []);
    NoStep(Next(w4, Reuse(n), 50));
  }

  const NAMES := Names("c", "g", "r", "code", "a1", "s1", "a2", "s2")

  /** One such run, in full. */
  lemma ReusedTokenKeepsItsFamily()
    ensures ValidRun(Init(), ReuseRun(NAMES))
    ensures var t := Exec(Init(), ReuseRun(NAMES)).tables;
            SpentRefresh(t, "s1") && FamilyLive(t, t.refresh["s1"].familyId)
  {
    TrimWord("c");
    TrimWord("g");
    hide Trim, Exec, ValidRun, ReuseRun;
    ReuseRunKeepsFamily(NAMES);
  }
}
