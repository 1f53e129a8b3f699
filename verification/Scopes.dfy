/** Scope lists: normalisation for storage, and the consent form's selection
    (src/internal/common/oauth.go, src/cmd/web/oauth_authorize.go). */
module Scopes {
  import opened Sequences
  import opened Text
  import opened Wrappers

  const SUPPORTED: set<string> := {
    "profile:read", "repo:read", "repo:write", "tracker:read", "tracker:write",
    "ticket:read", "ticket:write", "notification:read", "notification:write"
  }

  datatype ScopeError = ScopeRequired | Unsupported(scope: string)

  predicate Ascending(scopes: seq<string>) {
    forall i, j :: 0 <= i < j < |scopes| ==> scopes[i] != scopes[j] && StringLe(scopes[i], scopes[j])
  }

  ghost function Elements<T>(s: seq<T>): set<T> {
    set x | x in s
  }

  /** The scope names a list mentions: trimmed, blanks ignored. */
  ghost function Names(scopes: seq<string>): set<string> {
    set raw | raw in scopes && Trim(raw) != "" :: Trim(raw)
  }

  // ---------------------------------------------------------------- specification

  predicate Keeps(raw: string, out: seq<string>) {
    Trim(raw) != "" && Trim(raw) !in out
  }

  /** First occurrences, in order, of the names in `scopes`. */
  function Distinct(scopes: seq<string>): seq<string> {
    if scopes == [] then [] else
      var out := Distinct(scopes[..|scopes| - 1]);
      var raw := scopes[|scopes| - 1];
      if Keeps(raw, out) then out + [Trim(raw)] else out
  }

  predicate IsSupported(scope: string) {
    scope in SUPPORTED
  }

  predicate Acceptable(raw: string) {
    Trim(raw) == "" || IsSupported(Trim(raw))
  }

  function FirstUnsupported(scopes: seq<string>): (r: Option<string>) {
    if scopes == [] then None
    else if Acceptable(scopes[0]) then FirstUnsupported(scopes[1..])
    else Some(Trim(scopes[0]))
  }

  function Normalize(scopes: seq<string>): Result<seq<string>, ScopeError> {
    match FirstUnsupported(scopes)
    case Some(s) => Err(Unsupported(s))
    case None =>
      if Distinct(scopes) == [] then Err(ScopeRequired) else Ok(SortBy(StringLe, Distinct(scopes)))
  }

  // ---------------------------------------------------------------- the program's loops

  lemma NextUnsupported(scopes: seq<string>, i: nat)
    requires i < |scopes|
    ensures FirstUnsupported(scopes[i..])
         == if Acceptable(scopes[i]) then FirstUnsupported(scopes[i + 1..]) else Some(Trim(scopes[i]))
  {
    hide Acceptable, Trim;
    assert scopes[i..][0] == scopes[i] && scopes[i..][1..] == scopes[i + 1..];
  }

  lemma NextDistinct(scopes: seq<string>, i: nat)
    requires i < |scopes|
    ensures Distinct(scopes[..i + 1])
         == Distinct(scopes[..i]) + if Keeps(scopes[i], Distinct(scopes[..i])) then [Trim(scopes[i])] else []
  {
    hide Keeps, Trim;
    assert scopes[..i + 1][..i] == scopes[..i];
  }

  method NormalizeOAuthScopes(scopes: seq<string>) returns (r: Result<seq<string>, ScopeError>)
    ensures r == Normalize(scopes)
  {
    hide Trim, Distinct, FirstUnsupported, IsSupported;
    assert scopes[..0] == [] && scopes[0..] == scopes;
    NothingYet();
    if |scopes| == 0 {
      return Err(ScopeRequired);
    }
    var seen: set<string>, out: seq<string> := {}, [];
    for i := 0 to |scopes|
      invariant out == Distinct(scopes[..i]) && seen == Elements(out)
      invariant FirstUnsupported(scopes) == FirstUnsupported(scopes[i..])
    {
      NextUnsupported(scopes, i);
      NextDistinct(scopes, i);
      var s := Trim(scopes[i]);
      if s == "" {
        continue;
      }
      TrimIdempotent(scopes[i]);
      if !IsSupported(Trim(s)) {
        return Err(Unsupported(s));
      }
      if s in seen {
        continue;
      }
      seen := seen + {s};
      out := out + [s];
    }
    assert scopes[..|scopes|] == scopes && scopes[|scopes|..] == [];
    if |out| == 0 {
      return Err(ScopeRequired);
    }
    return Ok(SortBy(StringLe, out));
  }

  lemma NothingYet()
    ensures Distinct([]) == [] && FirstUnsupported([]) == None
  {
  }

  method IsSubset(subset: seq<string>, superset: seq<string>) returns (r: bool)
    ensures r <==> Elements(subset) <= Elements(superset)
  {
    if |subset| == 0 {
      return true;
    }
    var m: set<string> := {};
    for i := 0 to |superset|
      invariant m == Elements(superset[..i])
    {
      m := m + {superset[i]};
    }
    assert superset[..|superset|] == superset;
    for i := 0 to |subset|
      invariant Elements(subset[..i]) <= m
    {
      if subset[i] !in m {
        assert subset[i] in Elements(subset);
        return false;
      }
    }
    assert subset[..|subset|] == subset;
    return true;
  }

  /** The scopes approved on the consent form: first occurrences of requested names. */
  function Approved(selected: seq<string>, requested: seq<string>): seq<string> {
    if selected == [] then [] else
      var out := Approved(selected[..|selected| - 1], requested);
      var raw := selected[|selected| - 1];
      if Trim(raw) in requested && Keeps(raw, out) then out + [Trim(raw)] else out
  }

  method ApprovedScopesSubset(selected: seq<string>, requested: seq<string>) returns (out: seq<string>)
    ensures out == Approved(selected, requested)
  {
    var allowed: set<string> := {};
    for i := 0 to |requested|
      invariant allowed == Elements(requested[..i])
    {
      allowed := allowed + {requested[i]};
    }
    assert requested[..|requested|] == requested;
    var seen: set<string> := {};
    out := [];
    for i := 0 to |selected|
      invariant out == Approved(selected[..i], requested) && seen == Elements(out)
    {
      assert selected[..i + 1][..i] == selected[..i];
      var scope := Trim(selected[i]);
      if scope == "" {
        continue;
      }
      if scope !in allowed {
        continue;
      }
      if scope in seen {
        continue;
      }
      seen := seen + {scope};
      out := out + [scope];
    }
    assert selected[..|selected|] == selected;
  }

  // ---------------------------------------------------------------- what normalisation promises

  lemma StringOrder()
    ensures TotalOrder(StringLe)
  {
    forall a, b {
      StringLeTotal(a, b);
    }
    forall a, b, c | StringLe(a, b) && StringLe(b, c) ensures StringLe(a, c) {
      StringLeTransitive(a, b, c);
    }
  }

  lemma {:induction false} DistinctElements(scopes: seq<string>)
    ensures Elements(Distinct(scopes)) == Names(scopes)
    ensures forall i, j :: 0 <= i < j < |Distinct(scopes)| ==> Distinct(scopes)[i] != Distinct(scopes)[j]
  {
    if scopes != [] {
      var init, raw := scopes[..|scopes| - 1], scopes[|scopes| - 1];
      DistinctElements(init);
      NamesSnoc(scopes);
    }
  }

  lemma {:induction false} FirstUnsupportedNone(scopes: seq<string>)
    ensures FirstUnsupported(scopes).None? <==> Names(scopes) <= SUPPORTED
  {
    if scopes != [] {
      FirstUnsupportedNone(scopes[1..]);
      var raw := scopes[0];
      assert scopes == [raw] + scopes[1..];
      assert Names(scopes) == Names(scopes[1..]) + if Trim(raw) != "" then {Trim(raw)} else {};
    }
  }

  lemma AscendingListing(scopes: seq<string>)
    requires forall i, j :: 0 <= i < j < |scopes| ==> scopes[i] != scopes[j]
    ensures Ascending(SortBy(StringLe, scopes))
    ensures Elements(SortBy(StringLe, scopes)) == Elements(scopes)
  {
    StringOrder();
    var out := SortBy(StringLe, scopes);
    SortByOrdered(StringLe, scopes);
    forall x ensures x in out <==> x in scopes {
      assert x in out <==> x in multiset(out);
    }
    forall i, j | 0 <= i < j < |out| ensures out[i] != out[j] {
      if out[i] == out[j] {
        TwiceCounted(out, i, j);
        OnceCounted(scopes, out[i]);
        assert false;
      }
    }
  }

  lemma TwiceCounted(s: seq<string>, i: nat, j: nat)
    requires i < j < |s| && s[i] == s[j]
    ensures multiset(s)[s[i]] >= 2
  {
    assert s == s[..i] + [s[i]] + s[i + 1..j] + [s[j]] + s[j + 1..];
  }

  lemma {:induction false} OnceCounted(s: seq<string>, x: string)
    requires forall i, j :: 0 <= i < j < |s| ==> s[i] != s[j]
    ensures multiset(s)[x] <= 1
  {
    if s != [] {
      assert s == [s[0]] + s[1..];
      OnceCounted(s[1..], x);
      if x == s[0] {
        assert x !in s[1..];
      }
    }
  }

  /** Strictly ascending listings of one set are equal. */
  lemma {:induction false} AscendingUnique(a: seq<string>, b: seq<string>)
    requires Ascending(a) && Ascending(b) && Elements(a) == Elements(b)
    ensures a == b
  {
    StringOrder();
    forall x ensures multiset(a)[x] == multiset(b)[x] {
      OnceCounted(a, x);
      OnceCounted(b, x);
      assert x in multiset(a) <==> x in Elements(a);
      assert x in multiset(b) <==> x in Elements(b);
    }
    OrderedUnique(StringLe, a, b);
  }

  /** Success and the stored list are decided by the set of names alone. */
  lemma NormalizeExact(scopes: seq<string>)
    ensures Normalize(scopes).Ok? <==> Names(scopes) != {} && Names(scopes) <= SUPPORTED
    ensures Normalize(scopes).Ok? ==>
              Ascending(Normalize(scopes).value) && Elements(Normalize(scopes).value) == Names(scopes)
    ensures Normalize(scopes) == Err(ScopeRequired) <==> Names(scopes) == {}
  {
    DistinctElements(scopes);
    FirstUnsupportedNone(scopes);
    if Distinct(scopes) != [] {
      assert Distinct(scopes)[0] in Elements(Distinct(scopes));
    }
    AscendingListing(Distinct(scopes));
  }

  /** `k` is where a list first mentions a name. */
  predicate FirstMention(scopes: seq<string>, k: nat, name: string) {
    k < |scopes| && Trim(scopes[k]) == name && forall j :: 0 <= j < k ==> Trim(scopes[j]) != name
  }

  /** A refusal reports the first name in the list that is not supported. */
  lemma {:induction false} RefusedFirst(scopes: seq<string>, name: string)
    ensures Normalize(scopes) == Err(Unsupported(name)) <==>
              && name != "" && name !in SUPPORTED
              && exists k: nat :: k < |scopes| && Trim(scopes[k]) == name
                                  && forall j :: 0 <= j < k ==> Trim(scopes[j]) == "" || Trim(scopes[j]) in SUPPORTED
  {
    FirstRefused(scopes, name);
    hide Trim, FirstUnsupported;
  }

  lemma {:induction false} FirstRefused(scopes: seq<string>, name: string)
    ensures FirstUnsupported(scopes) == Some(name) <==>
              && name != "" && name !in SUPPORTED
              && exists k: nat :: k < |scopes| && Trim(scopes[k]) == name
                                  && forall j :: 0 <= j < k ==> Trim(scopes[j]) == "" || Trim(scopes[j]) in SUPPORTED
  {
    hide Trim;
    if scopes != [] && Acceptable(scopes[0]) {
      var rest := scopes[1..];
      FirstRefused(rest, name);
      if FirstUnsupported(rest) == Some(name) {
        var k: nat :| k < |rest| && Trim(rest[k]) == name
                      && forall j :: 0 <= j < k ==> Trim(rest[j]) == "" || Trim(rest[j]) in SUPPORTED;
        assert Trim(scopes[k + 1]) == name;
      }
      if k: nat :| k < |scopes| && Trim(scopes[k]) == name && name != "" && name !in SUPPORTED
                   && forall j :: 0 <= j < k ==> Trim(scopes[j]) == "" || Trim(scopes[j]) in SUPPORTED {
        assert k != 0;
        assert Trim(rest[k - 1]) == name;
        forall j | 0 <= j < k - 1 ensures Trim(rest[j]) == "" || Trim(rest[j]) in SUPPORTED {
          assert rest[j] == scopes[j + 1];
        }
      }
    } else if scopes != [] {
      if k: nat :| k < |scopes| && Trim(scopes[k]) == name && name != "" && name !in SUPPORTED
                   && forall j :: 0 <= j < k ==> Trim(scopes[j]) == "" || Trim(scopes[j]) in SUPPORTED {
        assert k == 0;
      }
    }
  }

  lemma NormalizeIgnoresOrder(a: seq<string>, b: seq<string>)
    requires Names(a) == Names(b) && Normalize(a).Ok?
    ensures Normalize(a) == Normalize(b)
  {
    NormalizeExact(a);
    NormalizeExact(b);
    AscendingUnique(Normalize(a).value, Normalize(b).value);
  }

  lemma NamesOfTrimmed(scopes: seq<string>)
    requires forall s :: s in scopes ==> s != "" && Trim(s) == s
    ensures Names(scopes) == Elements(scopes)
  {
  }

  lemma NormalizeIdempotent(scopes: seq<string>)
    requires Normalize(scopes).Ok?
    ensures Normalize(Normalize(scopes).value) == Normalize(scopes)
  {
    NormalizeExact(scopes);
    NamesAreTrimmed(scopes);
    var out := Normalize(scopes).value;
    hide Normalize, Ascending;
    assert forall s :: s in out ==> s in Elements(out);
    NamesOfTrimmed(out);
    NormalizeExact(out);
    NormalizeIgnoresOrder(out, scopes);
  }

  lemma NamesAreTrimmed(scopes: seq<string>)
    ensures forall s :: s in Names(scopes) ==> s != "" && Trim(s) == s
  {
    forall s | s in Names(scopes) ensures s != "" && Trim(s) == s {
      var raw :| raw in scopes && Trim(raw) == s && s != "";
      TrimIdempotent(raw);
    }
  }

  lemma {:induction false} ApprovedElements(selected: seq<string>, requested: seq<string>)
    ensures Elements(Approved(selected, requested)) == Names(selected) * Elements(requested)
    ensures forall s :: s in Approved(selected, requested) ==> s != "" && Trim(s) == s
  {
    if selected != [] {
      var init, raw := selected[..|selected| - 1], selected[|selected| - 1];
      ApprovedElements(init, requested);
      TrimIdempotent(raw);
      var s, out := Trim(raw), Approved(init, requested);
      hide Trim, Approved;
      NamesSnoc(selected);
      assert Elements(out + [s]) == Elements(out) + {s};
    }
  }

  /** Each entry is a name in the list, and they stand in the order of their first mentions. */
  ghost predicate ByFirstMention(scopes: seq<string>, out: seq<string>) {
    && (forall i :: 0 <= i < |out| ==> Mentioned(scopes, out[i]))
    && (forall i, j :: 0 <= i < j < |out| ==> MentionedBefore(scopes, out[i], out[j]))
  }

  ghost predicate Mentioned(scopes: seq<string>, name: string) {
    exists k: nat :: FirstMention(scopes, k, name)
  }

  ghost predicate MentionedBefore(scopes: seq<string>, x: string, y: string) {
    forall a: nat, b: nat :: FirstMention(scopes, a, x) && FirstMention(scopes, b, y) ==> a < b
  }

  lemma MentionSnoc(scopes: seq<string>, out: seq<string>)
    requires scopes != [] && ByFirstMention(scopes[..|scopes| - 1], out)
    ensures ByFirstMention(scopes, out)
    ensures forall i, a: nat :: 0 <= i < |out| && FirstMention(scopes, a, out[i]) ==> a < |scopes| - 1
  {
    var init := scopes[..|scopes| - 1];
    forall name, a: nat | FirstMention(init, a, name) ensures SameMention(scopes, a, name) {
      MentionKept(scopes, a, name);
    }
    hide FirstMention;
    forall i | 0 <= i < |out|
      ensures Mentioned(scopes, out[i]) && forall a: nat :: FirstMention(scopes, a, out[i]) ==> a < |scopes| - 1
    {
      assert Mentioned(init, out[i]);
      var a: nat :| FirstMention(init, a, out[i]);
      assert SameMention(scopes, a, out[i]);
    }
    forall i, j | 0 <= i < j < |out| ensures MentionedBefore(scopes, out[i], out[j]) {
      assert MentionedBefore(init, out[i], out[j]);
      assert Mentioned(init, out[i]) && Mentioned(init, out[j]);
      var a: nat :| FirstMention(init, a, out[i]);
      var b: nat :| FirstMention(init, b, out[j]);
      assert SameMention(scopes, a, out[i]) && SameMention(scopes, b, out[j]);
    }
  }

  ghost predicate SameMention(scopes: seq<string>, a: nat, name: string) {
    a < |scopes| - 1 && FirstMention(scopes, a, name) && forall b: nat :: FirstMention(scopes, b, name) ==> a == b
  }

  lemma MentionKept(scopes: seq<string>, a: nat, name: string)
    requires scopes != [] && FirstMention(scopes[..|scopes| - 1], a, name)
    ensures SameMention(scopes, a, name)
  {
    hide Trim;
    var init := scopes[..|scopes| - 1];
    assert forall j :: 0 <= j <= a ==> scopes[j] == init[j];
  }

  /** Approved names come in the order in which the form first mentions them, each once. */
  lemma {:induction false} ApprovedInOrder(selected: seq<string>, requested: seq<string>)
    ensures ByFirstMention(selected, Approved(selected, requested))
  {
    if selected != [] {
      var n := |selected| - 1;
      var init, raw := selected[..n], selected[n];
      ApprovedInOrder(init, requested);
      ApprovedElements(init, requested);
      var before, out := Approved(init, requested), Approved(selected, requested);
      assert out == before || (out == before + [Trim(raw)] && Trim(raw) in requested && Keeps(raw, before));
      hide Approved, Trim;
      MentionSnoc(selected, before);
      if out != before {
        NewMention(selected, before, requested);
        AddMention(selected, before, Trim(raw), n);
      }
    }
  }

  lemma AddMention(scopes: seq<string>, out: seq<string>, name: string, n: nat)
    requires ByFirstMention(scopes, out) && FirstMention(scopes, n, name)
    requires forall i, a: nat :: 0 <= i < |out| && FirstMention(scopes, a, out[i]) ==> a < n
    ensures ByFirstMention(scopes, out + [name])
  {
    hide Trim;
    var all := out + [name];
    forall i | 0 <= i < |all| ensures Mentioned(scopes, all[i]) {
      if i == |out| {
        assert FirstMention(scopes, n, all[i]);
      } else {
        assert all[i] == out[i];
      }
    }
    forall i, j | 0 <= i < j < |all| ensures MentionedBefore(scopes, all[i], all[j]) {
      assert all[i] == out[i];
      assert j < |out| ==> all[j] == out[j];
    }
  }

  lemma NewMention(selected: seq<string>, before: seq<string>, requested: seq<string>)
    requires selected != [] && Elements(before) == Names(selected[..|selected| - 1]) * Elements(requested)
    requires var raw := selected[|selected| - 1]; Trim(raw) in requested && Keeps(raw, before)
    ensures FirstMention(selected, |selected| - 1, Trim(selected[|selected| - 1]))
  {
    hide Trim;
    var n, name := |selected| - 1, Trim(selected[|selected| - 1]);
    assert name in Elements(requested) && name !in Elements(before);
    forall j | 0 <= j < n ensures Trim(selected[j]) != name {
      assert selected[..n][j] in selected[..n];
    }
  }

  lemma NamesSnoc(scopes: seq<string>)
    requires scopes != []
    ensures var raw := scopes[|scopes| - 1];
            Names(scopes) == Names(scopes[..|scopes| - 1]) + if Trim(raw) != "" then {Trim(raw)} else {}
  {
    assert scopes == scopes[..|scopes| - 1] + [scopes[|scopes| - 1]];
  }

  /** What UpsertOAuthConsentGrant checks of a requested and a granted list. */
  predicate GrantScopesValid(requested: seq<string>, granted: seq<string>) {
    && Normalize(requested).Ok?
    && Normalize(granted).Ok?
    && forall s :: s in Normalize(granted).value ==> s in Normalize(requested).value
  }

  /** Both lists are valid, and the granted names are among the requested ones. */
  lemma GrantScopesExact(requested: seq<string>, granted: seq<string>)
    ensures GrantScopesValid(requested, granted) <==>
              Normalize(requested).Ok? && Normalize(granted).Ok? && Names(granted) <= Names(requested)
  {
    NormalizeExact(requested);
    NormalizeExact(granted);
    hide Normalize, Names, Ascending;
    if Normalize(requested).Ok? && Normalize(granted).Ok? {
      var all, some := Normalize(requested).value, Normalize(granted).value;
      assert forall s :: s in some <==> s in Elements(some);
      assert forall s :: s in all <==> s in Elements(all);
    }
  }

  /** A non-empty approval of a request that normalises always passes those checks, and the
      grant then stores exactly the approved names. */
  lemma ApprovalPassesValidation(selected: seq<string>, requested: seq<string>)
    requires Normalize(requested).Ok? && Approved(selected, requested) != []
    ensures GrantScopesValid(requested, Approved(selected, requested))
    ensures Elements(Normalize(Approved(selected, requested)).value) == Elements(Approved(selected, requested))
  {
    var approved := Approved(selected, requested);
    ApprovedElements(selected, requested);
    NamesOfTrimmed(approved);
    NormalizeExact(requested);
    NormalizeExact(approved);
    assert approved[0] in Names(approved);
    assert Names(approved) <= Names(requested) by {
      forall s | s in approved ensures s in Names(requested) {
        assert s in Elements(approved);
        assert s in requested && Trim(s) == s;
      }
    }
    var out := Normalize(approved).value;
    forall s | s in out ensures s in Normalize(requested).value {
      assert s in Elements(out);
      assert s in Elements(Normalize(requested).value);
    }
  }
}
