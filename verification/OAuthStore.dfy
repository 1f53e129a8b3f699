/** The OAuth store: the statements each method runs, against OAuthTables. */
module OAuthStore {
  import opened OAuthTables
  import opened Requests
  import opened Text
  import opened Wrappers

  class OAuthStore {
    var clients: map<string, Client>
    var grants: map<string, GrantRow>
    var codes: map<string, CodeRow>
    var access: map<string, AccessRow>
    var refresh: map<string, RefreshRow>

    ghost function View(): Tables
      reads this
    {
      Tables(clients, grants, codes, access, refresh)
    }

    ghost predicate Did(before: Tables, op: Op, now: Time, err: Option<StoreError>)
      reads this
    {
      match Apply(before, op, now)
      case Ok(after) => err == None && View() == after
      case Err(e) => err == Some(e) && View() == before
    }

    constructor ()
      ensures View() == Tables(map[], map[], map[], map[], map[])
    {
      clients, grants, codes, access, refresh := map[], map[], map[], map[], map[];
    }

    /** The end of a transaction that began at `begin`: an error undoes every write. */
    method EndTx(begin: Tables, err: Option<StoreError>)
      modifies this
      ensures View() == if err.Some? then begin else old(View())
    {
      if err.Some? {
        clients, grants, codes, access, refresh := begin.clients, begin.grants, begin.codes, begin.access,
            begin.refresh;
      }
    }

    /** `redirectsValid` is the verdict of the URL check, `id` the identifier drawn at random. */
    method CreateOAuthClient(id: string, name: string, redirectsValid: bool, scopes: seq<string>, now: Time)
      returns (err: Option<StoreError>)
      modifies this
      ensures Did(old(View()), CreateClient(id, name, redirectsValid, scopes), now, err)
    {
      if Trim(name) == "" || !redirectsValid {
        return Some(Invalid);
      }
      var allowed := Scopes.NormalizeOAuthScopes(scopes);
      if allowed.Err? {
        return Some(Invalid);
      }
      if id in clients {
        return Some(Violation);
      }
      clients := clients[id := Client(true, allowed.value)];
      return None;
    }

    method SetOAuthClientEnabled(rawId: string, enabled: bool, now: Time) returns (err: Option<StoreError>)
      modifies this
      ensures Did(old(View()), SetClientEnabled(rawId, enabled), now, err)
    {
      var id := Trim(rawId);
      if id == "" {
        return Some(Invalid);
      }
      if id !in clients {
        return Some(Invalid);
      }
      clients := clients[id := clients[id].(enabled := enabled)];
      if !enabled {
        grants := map k | k in grants :: if grants[k].clientId == id then RevokedGrant(grants[k], now) else grants[k];
        codes := map k | k in codes :: if codes[k].clientId == id then ConsumedCode(codes[k], now) else codes[k];
        access := map k | k in access :: if access[k].clientId == id then RevokedAccess(access[k], now) else access[k];
        refresh := map k | k in refresh ::
          if refresh[k].clientId == id then RevokedRefresh(refresh[k], now) else refresh[k];
      }
      return None;
    }

    method CreateAuthorizeCodeSession(code: string, requester: Requester, now: Time) returns (err: Option<StoreError>)
      modifies this`codes
      ensures Did(old(View()), CreateCode(code, requester), now, err)
    {
      hide TakeSnapshot, Refers, OnlyCodeOf;
      var snap := TakeSnapshot(requester);
      if snap.Err? {
        return Some(BadRequest(snap.error));
      }
      hide NewCode;
      var row := NewCode(requester, snap.value);
      if !Refers(clients, grants, row.clientId, row.grantId) || !OnlyCodeOf(codes, row.requestId, code) {
        return Some(Violation);
      }
      codes := codes[code := row];
      return None;
    }

    method GetAuthorizeCodeSession(code: string) returns (r: Result<Lookup, StoreError>)
      ensures r == GetCode(View(), code)
    {
      if code !in codes {
        return Err(RowMissing);
      }
      var requester := Restore(clients, codes[code].request, true);
      if requester.Err? {
        return Err(BadRequest(requester.error));
      }
      if !codes[code].active {
        return Ok(Lookup(requester.value, false));
      }
      return Ok(Lookup(requester.value, true));
    }

    method InvalidateAuthorizeCodeSession(code: string, now: Time) returns (err: Option<StoreError>)
      modifies this`codes
      ensures Did(old(View()), InvalidateCode(code), now, err)
    {
      if code !in codes {
        return Some(RowMissing);
      }
      codes := codes[code := codes[code].(active := false, consumedAt := Some(now))];
      return None;
    }

    method CreateAccessTokenSession(signature: string, requester: Requester, now: Time)
        returns (err: Option<StoreError>)
      modifies this`access
      ensures Did(old(View()), CreateAccess(signature, requester), now, err)
    {
      hide TakeSnapshot, Refers, OnlyCodeOf;
      var snap := TakeSnapshot(requester);
      if snap.Err? {
        return Some(BadRequest(snap.error));
      }
      hide NewAccess;
      var row := NewAccess(requester, snap.value);
      if !Refers(clients, grants, row.clientId, row.grantId) {
        return Some(Violation);
      }
      access := access[signature := row];
      return None;
    }

    method GetAccessTokenSession(signature: string) returns (r: Result<Requester, StoreError>)
      ensures r == GetAccess(View(), signature)
    {
      if signature !in access || access[signature].revokedAt.Some? {
        return Err(RowMissing);
      }
      var requester := Restore(clients, access[signature].request, true);
      if requester.Err? {
        return Err(BadRequest(requester.error));
      }
      return Ok(requester.value);
    }

    method DeleteAccessTokenSession(signature: string, now: Time)
      modifies this`access
      ensures Did(old(View()), DeleteAccess(signature), now, None)
    {
      if signature in access {
        access := access[signature := RevokedAccess(access[signature], now)];
      }
    }

    method CreateRefreshTokenSession(signature: string, accessSignature: string, requester: Requester, now: Time)
      returns (err: Option<StoreError>)
      modifies this`refresh
      ensures Did(old(View()), CreateRefresh(signature, accessSignature, requester), now, err)
    {
      hide TakeSnapshot, Refers, OnlyCodeOf;
      var snap := TakeSnapshot(requester);
      if snap.Err? {
        return Some(BadRequest(snap.error));
      }
      hide NewRefresh;
      var row := NewRefresh(requester, snap.value, accessSignature);
      if !Refers(clients, grants, row.clientId, row.grantId) {
        return Some(Violation);
      }
      refresh := refresh[signature := row];
      return None;
    }

    method GetRefreshTokenSession(signature: string, now: Time) returns (r: Result<Lookup, StoreError>)
      ensures r == GetRefresh(View(), signature, now)
    {
      if signature !in refresh {
        return Err(RowMissing);
      }
      var row := refresh[signature];
      var requester := Restore(clients, row.request, true);
      if requester.Err? {
        return Err(BadRequest(requester.error));
      }
      if row.revokedAt.Some? || !row.active || row.expiresAt < now {
        return Ok(Lookup(requester.value, false));
      }
      return Ok(Lookup(requester.value, true));
    }

    method DeleteRefreshTokenSession(signature: string, now: Time)
      modifies this`refresh
      ensures Did(old(View()), DeleteRefresh(signature), now, None)
    {
      if signature in refresh {
        refresh := refresh[signature := RevokedRefresh(refresh[signature], now)];
      }
    }

    method RotateRefreshToken(requestId: string, signature: string, now: Time) returns (err: Option<StoreError>)
      modifies this
      ensures Did(old(View()), RotateRefresh(requestId, signature), now, err)
    {
      var begin := Tables(clients, grants, codes, access, refresh);
      err := RotateInTx(requestId, signature, now);
      EndTx(begin, err);
    }

    /** The statements of the rotation; on a spent token they revoke its family before the error. */
    method RotateInTx(requestId: string, signature: string, now: Time) returns (err: Option<StoreError>)
      modifies this
      ensures match Apply(old(View()), RotateRefresh(requestId, signature), now)
              case Ok(after) => err == None && View() == after
              case Err(e) => err == Some(e)
      ensures err == Some(InactiveToken) ==>
                && signature in old(refresh) && clients == old(clients) && grants == old(grants) && codes == old(codes)
                && access == AccessRevokedFor(old(access), requestId, now) && refresh.Keys == old(refresh).Keys
                && forall k :: k in refresh ==>
                     refresh[k] == if old(refresh)[k].familyId == old(refresh)[signature].familyId
                                   then RevokedRefresh(old(refresh)[k], now) else old(refresh)[k]
      ensures err == Some(RowMissing) ==> View() == old(View())
    {
      if signature !in refresh {
        return Some(RowMissing);
      }
      var active, familyId := refresh[signature].active, refresh[signature].familyId;
      if !active {
        refresh := map k | k in refresh ::
          if refresh[k].familyId == familyId then RevokedRefresh(refresh[k], now) else refresh[k];
        access := AccessRevokedFor(access, requestId, now);
        return Some(InactiveToken);
      }
      refresh := refresh[signature := refresh[signature].(active := false, usedAt := Some(now))];
      access := AccessRevokedFor(access, requestId, now);
      return None;
    }

    method RevokeRefreshToken(requestId: string, now: Time)
      modifies this`refresh
      ensures Did(old(View()), RevokeRefreshTokens(requestId), now, None)
    {
      refresh := map k | k in refresh ::
        if refresh[k].requestId == requestId then RevokedRefresh(refresh[k], now) else refresh[k];
    }

    method RevokeAccessToken(requestId: string, now: Time)
      modifies this`access
      ensures Did(old(View()), RevokeAccessTokens(requestId), now, None)
    {
      access := AccessRevokedFor(access, requestId, now);
    }

    /** `grantId` is the identifier the program draws at random. */
    method UpsertOAuthConsentGrant(grantId: string, rawClientId: string, userId: int,
                                   requested: seq<string>, granted: seq<string>, now: Time)
      returns (err: Option<StoreError>)
      modifies this`grants
      ensures Did(old(View()), UpsertGrant(grantId, rawClientId, userId, requested, granted), now, err)
    {
      var clientId := Trim(rawClientId);
      if clientId == "" || userId <= 0 {
        return Some(Invalid);
      }
      var wanted := Scopes.NormalizeOAuthScopes(requested);
      if wanted.Err? {
        return Some(Invalid);
      }
      if |granted| == 0 {
        assert Scopes.Normalize(granted).Err?;
        return Some(Invalid);
      }
      var given := Scopes.NormalizeOAuthScopes(granted);
      if given.Err? {
        return Some(Invalid);
      }
      var subset := Scopes.IsSubset(given.value, wanted.value);
      assert subset <==> forall s :: s in given.value ==> s in wanted.value by {
        assert forall s :: s in Scopes.Elements(given.value) <==> s in given.value;
        assert forall s :: s in Scopes.Elements(wanted.value) <==> s in wanted.value;
      }
      if !subset {
        return Some(Invalid);
      }
      if clientId !in clients || grantId in grants {
        return Some(Violation);
      }
      grants := grants[grantId := GrantRow(clientId, userId, wanted.value, given.value, None)];
      return None;
    }

    method RevokeOAuthConsentGrant(userId: int, rawGrantId: string, now: Time) returns (err: Option<StoreError>)
      modifies this
      ensures Did(old(View()), RevokeGrant(userId, rawGrantId), now, err)
    {
      var g := Trim(rawGrantId);
      if g == "" {
        return Some(Invalid);
      }
      if g !in grants || grants[g].userId != userId {
        return Some(Invalid);
      }
      grants := grants[g := RevokedGrant(grants[g], now)];
      access := map k | k in access :: if access[k].grantId == Some(g) then RevokedAccess(access[k], now)
        else access[k];
      refresh := map k | k in refresh ::
        if refresh[k].grantId == Some(g) then RevokedRefresh(refresh[k], now) else refresh[k];
      codes := map k | k in codes :: if codes[k].grantId == Some(g) then ConsumedCode(codes[k], now) else codes[k];
      return None;
    }
  }
}
