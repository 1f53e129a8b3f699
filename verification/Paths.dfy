/** Lexical paths: the agent's sandbox check (src/internal/common/agent/tools.go) and the
    repository path mapper (src/cmd/web/repo_path.go). Paths are Unix paths. */
module Paths {
  import opened Text
  import opened Wrappers

  // ---------------------------------------------------------------- filepath.Clean and filepath.Join

  function Split(path: string): (cs: seq<string>)
    ensures cs != [] && forall i :: 0 <= i < |cs| ==> '/' !in cs[i]
  {
    if path == "" then [""]
    else
      var rest := Split(path[1..]);
      if path[0] == '/' then [""] + rest else [[path[0]] + rest[0]] + rest[1..]
  }

  function Slashed(cs: seq<string>): string {
    if cs == [] then "" else if |cs| == 1 then cs[0] else cs[0] + "/" + Slashed(cs[1..])
  }

  predicate Rooted(path: string) {
    path != "" && path[0] == '/'
  }

  /** One component of a path, after the components in `stack`. */
  function Push(rooted: bool, stack: seq<string>, c: string): seq<string> {
    if c == "" || c == "." then stack
    else if c == ".." then
      if stack != [] && stack[|stack| - 1] != ".." then stack[..|stack| - 1]
      else if rooted then stack else stack + [c]
    else stack + [c]
  }

  function Resolve(rooted: bool, stack: seq<string>, cs: seq<string>): seq<string>
    decreases cs
  {
    if cs == [] then stack else Resolve(rooted, Push(rooted, stack, cs[0]), cs[1..])
  }

  function Show(rooted: bool, cs: seq<string>): string {
    if rooted then "/" + Slashed(cs) else if cs == [] then "." else Slashed(cs)
  }

  /** The components that `path` resolves to. */
  function Components(path: string): seq<string> {
    Resolve(Rooted(path), [], Split(path))
  }

  function Clean(path: string): string {
    Show(Rooted(path), Components(path))
  }

  function Join(dir: string, rest: string): string {
    if dir == "" then (if rest == "" then "" else Clean(rest))
    else if rest == "" then Clean(dir) else Clean(dir + "/" + rest)
  }

  // ---------------------------------------------------------------- clean component lists

  predicate Plain(c: string) {
    c != "" && c != "." && c != ".." && '/' !in c
  }

  /** What Resolve leaves: plain names, after leading ".."s if the path is relative. */
  predicate Settled(rooted: bool, cs: seq<string>) {
    forall i :: 0 <= i < |cs| ==>
      Plain(cs[i]) || (cs[i] == ".." && !rooted && forall j :: 0 <= j < i ==> cs[j] == "..")
  }

  lemma {:induction false} ResolveSettled(rooted: bool, stack: seq<string>, cs: seq<string>)
    requires Settled(rooted, stack) && forall i :: 0 <= i < |cs| ==> '/' !in cs[i]
    ensures Settled(rooted, Resolve(rooted, stack, cs))
    decreases cs
  {
    if cs != [] {
      if |stack| > 0 && cs[0] == ".." && stack[|stack| - 1] == ".." {
        assert !Plain(stack[|stack| - 1]);
      }
      ResolveSettled(rooted, Push(rooted, stack, cs[0]), cs[1..]);
    }
  }

  lemma {:induction false} ResolveConcat(rooted: bool, stack: seq<string>, a: seq<string>, b: seq<string>)
    ensures Resolve(rooted, stack, a + b) == Resolve(rooted, Resolve(rooted, stack, a), b)
    decreases a
  {
    if a == [] {
      assert a + b == b;
    } else {
      assert (a + b)[0] == a[0] && (a + b)[1..] == a[1..] + b;
      ResolveConcat(rooted, Push(rooted, stack, a[0]), a[1..], b);
    }
  }

  lemma {:induction false} ResolvePlain(rooted: bool, stack: seq<string>, cs: seq<string>)
    requires Settled(rooted, stack + cs)
    ensures Resolve(rooted, stack, cs) == stack + cs
    decreases cs
  {
    if cs == [] {
      assert stack + cs == stack;
    } else {
      assert (stack + cs)[|stack|] == cs[0];
      assert stack != [] ==> (stack + cs)[|stack| - 1] == stack[|stack| - 1];
      assert stack + [cs[0]] + cs[1..] == stack + cs;
      ResolvePlain(rooted, stack + [cs[0]], cs[1..]);
    }
  }

  lemma SplitCons(c: char, s: string)
    ensures Split([c] + s) == AddChar(c, Split(s))
  {
    assert ([c] + s)[1..] == s;
  }

  lemma HeadFirst(a: string, b: string)
    requires a != ""
    ensures a == [a[0]] + a[1..] && a + "/" + b == [a[0]] + (a[1..] + "/" + b)
  {
  }

  /** Split, one character on, given the pieces of the rest. */
  function AddChar(c: char, pieces: seq<string>): seq<string>
    requires pieces != []
  {
    if c == '/' then [""] + pieces else [[c] + pieces[0]] + pieces[1..]
  }

  lemma AddCharConcat(c: char, r: seq<string>, t: seq<string>)
    requires r != []
    ensures AddChar(c, r + t) == AddChar(c, r) + t
  {
    if c == '/' {
      assert [""] + (r + t) == [""] + r + t;
    } else {
      assert (r + t)[0] == r[0] && (r + t)[1..] == r[1..] + t;
    }
  }

  lemma SplitLetter(c: char, a: string, b: string)
    requires Split(a + "/" + b) == Split(a) + Split(b)
    ensures Split([c] + (a + "/" + b)) == Split([c] + a) + Split(b)
  {
    SplitCons(c, a + "/" + b);
    SplitCons(c, a);
    hide Split;
    AddCharConcat(c, Split(a), Split(b));
  }

  lemma SplitSlash(b: string)
    ensures Split("" + "/" + b) == Split("") + Split(b)
  {
    SplitName("");
    SplitCons('/', b);
    assert "" + "/" + b == ['/'] + b;
  }

  lemma {:induction false} SplitConcat(a: string, b: string)
    ensures Split(a + "/" + b) == Split(a) + Split(b)
    decreases |a|
  {
    hide Split;
    if a == "" {
      SplitSlash(b);
    } else {
      SplitConcat(a[1..], b);
      HeadFirst(a, b);
      SplitLetter(a[0], a[1..], b);
    }
  }

  lemma {:induction false} SplitName(c: string)
    requires '/' !in c
    ensures Split(c) == [c]
  {
    if c != "" {
      SplitName(c[1..]);
      assert c == [c[0]] + c[1..];
    }
  }

  lemma {:induction false} SplitSlashed(cs: seq<string>)
    requires cs != [] && forall i :: 0 <= i < |cs| ==> '/' !in cs[i]
    ensures Split(Slashed(cs)) == cs
  {
    SplitName(cs[0]);
    if |cs| > 1 {
      SplitSlashed(cs[1..]);
      SplitConcat(cs[0], Slashed(cs[1..]));
    }
  }

  lemma {:induction false} SlashedConcat(a: seq<string>, b: seq<string>)
    requires a != [] && b != []
    ensures Slashed(a + b) == Slashed(a) + "/" + Slashed(b)
  {
    if |a| == 1 {
      assert (a + b)[1..] == b;
    } else {
      assert (a + b)[1..] == a[1..] + b;
      SlashedConcat(a[1..], b);
    }
  }

  /** A settled list is what its path resolves to, and that path is clean. */
  lemma ShowResolves(rooted: bool, cs: seq<string>)
    requires Settled(rooted, cs)
    ensures Rooted(Show(rooted, cs)) == rooted
    ensures Components(Show(rooted, cs)) == cs && Clean(Show(rooted, cs)) == Show(rooted, cs)
  {
    hide Resolve, Split;
    if cs == [] {
      EmptyResolves(rooted);
    } else {
      assert [] + cs == cs;
      ResolvePlain(rooted, [], cs);
      SplitSlashed(cs);
      SplitName("");
      SplitConcat("", Slashed(cs));
      assert "" + "/" + Slashed(cs) == "/" + Slashed(cs);
      FirstOfSlashed(cs);
      ResolveConcat(rooted, [], [""], cs);
      SkipEmpty(rooted);
    }
  }

  lemma EmptyResolves(rooted: bool)
    ensures Rooted(Show(rooted, [])) == rooted && Components(Show(rooted, [])) == []
  {
    SplitConcat("", "");
    assert "" + "/" + "" == "/" == "/" + Slashed([]);
    assert Split("/") == ["", ""];
    assert Resolve(true, [], ["", ""]) == Resolve(true, [], ["", ""][1..]) == [];
    SplitName(".");
    assert Resolve(false, [], ["."]) == [];
  }

  lemma SkipEmpty(rooted: bool)
    ensures Resolve(rooted, [], [""]) == []
  {
  }

  lemma FirstOfSlashed(cs: seq<string>)
    requires cs != [] && cs[0] != "" && '/' !in cs[0]
    ensures !Rooted(Slashed(cs))
  {
  }

  lemma ComponentsSettled(path: string)
    ensures Settled(Rooted(path), Components(path))
  {
    ResolveSettled(Rooted(path), [], Split(path));
  }

  // ---------------------------------------------------------------- what cleaning does, one component at a time

  /** An empty component and "." say nothing; ".." takes back a name, stays at the root, and is kept where a
      relative path has no name left to take back; anything else is one name more. */
  ghost predicate Follows(rooted: bool, before: seq<string>, c: string, cs: seq<string>) {
    if c in {"", "."} then cs == before
    else if c != ".." then cs == before + [c]
    else if before == [] || before[|before| - 1] == ".." then cs == if rooted then before else before + [".."]
    else exists name :: before == cs + [name]
  }

  lemma ResolveFollows(rooted: bool, stack: seq<string>, cs: seq<string>, c: string)
    requires '/' !in c
    ensures Follows(rooted, Resolve(rooted, stack, cs), c, Resolve(rooted, stack, cs + [c]))
  {
    ResolveConcat(rooted, stack, cs, [c]);
    var before := Resolve(rooted, stack, cs);
    assert [c][1..] == [];
    assert Resolve(rooted, before, [c]) == Push(rooted, before, c);
    hide Resolve;
    if before != [] {
      assert before == before[..|before| - 1] + [before[|before| - 1]];
    }
  }

  /** The components of every path, by its last one. */
  lemma ComponentRules(path: string, c: string)
    requires '/' !in c
    ensures Follows(false, [], c, Components(c))
    ensures Follows(true, [], c, Components("/" + c))
    ensures path != "" ==>
              Rooted(path + "/" + c) == Rooted(path)
              && Follows(Rooted(path), Components(path), c, Components(path + "/" + c))
  {
    SplitName(c);
    SplitName("");
    SplitConcat("", c);
    SplitConcat(path, c);
    assert "" + "/" + c == "/" + c && [""] == [] + [""] && [c] == [] + [c];
    SkipEmpty(true);
    ResolveFollows(false, [], [], c);
    ResolveFollows(true, [], [""], c);
    hide Resolve, Split, Follows;
    ResolveFollows(Rooted(path), [], Split(path), c);
    NoComponents();
    if path != "" {
      assert (path + "/" + c)[0] == path[0];
    }
  }

  lemma NoComponents()
    ensures Resolve(false, [], []) == []
  {
  }

  /** The clean path of a list of components. */
  lemma ShowRules(rooted: bool, cs: seq<string>, c: string)
    ensures Show(true, []) == "/" && Show(false, []) == "."
    ensures Show(true, [c]) == "/" + c && Show(false, [c]) == c
    ensures cs != [] ==> Show(rooted, cs + [c]) == Show(rooted, cs) + "/" + c
  {
    if cs != [] {
      SlashedConcat(cs, [c]);
      assert "/" + (Slashed(cs) + "/" + c) == "/" + Slashed(cs) + "/" + c;
    }
  }

  lemma CleanIdempotent(path: string)
    ensures Clean(Clean(path)) == Clean(path)
  {
    ComponentsSettled(path);
    ShowResolves(Rooted(path), Components(path));
  }

  // ---------------------------------------------------------------- prefixes

  /** The string test of both programs is a test on components. */
  lemma PrefixIsComponentPrefix(rooted: bool, cs: seq<string>, ds: seq<string>)
    requires Settled(rooted, cs) && Settled(rooted, ds)
    ensures Show(rooted, cs) == Show(rooted, ds) <==> cs == ds
    ensures HasPrefix(Show(rooted, ds), Show(rooted, cs) + "/") <==> cs != [] && cs < ds
  {
    ShowResolves(rooted, cs);
    ShowResolves(rooted, ds);
    hide Components, Clean, Settled, Slashed;
    if cs == [] {
      NothingUnderEmpty(rooted, ds);
    } else {
      if cs < ds {
        ComponentsGivePrefix(rooted, cs, ds);
      }
      if HasPrefix(Show(rooted, ds), Show(rooted, cs) + "/") {
        PrefixGivesComponents(rooted, cs, ds);
      }
    }
  }

  lemma ComponentsGivePrefix(rooted: bool, cs: seq<string>, ds: seq<string>)
    requires cs != [] && cs < ds
    ensures Show(rooted, ds) == Show(rooted, cs) + "/" + Slashed(ds[|cs|..])
  {
    var rest := ds[|cs|..];
    SlashedConcat(cs, rest);
    assert cs + rest == ds;
    hide Slashed;
    SlashFirst(Slashed(cs), Slashed(rest));
  }

  lemma SlashFirst(a: string, b: string)
    ensures "/" + (a + "/" + b) == "/" + a + "/" + b
  {
  }

  lemma NothingUnderEmpty(rooted: bool, ds: seq<string>)
    requires Settled(rooted, ds)
    ensures !HasPrefix(Show(rooted, ds), Show(rooted, []) + "/")
  {
    var p := Show(rooted, []) + "/";
    assert |p| == 2 && p[1] == '/';
    if ds != [] {
      var c := ds[0];
      assert c != "" && c != "." && '/' !in c;
      assert Slashed(ds)[0] == c[0];
      assert !rooted && |c| > 1 ==> Slashed(ds)[1] == c[1];
    }
  }

  lemma PrefixGivesComponents(rooted: bool, cs: seq<string>, ds: seq<string>)
    requires Settled(rooted, cs) && Settled(rooted, ds) && cs != []
    requires HasPrefix(Show(rooted, ds), Show(rooted, cs) + "/")
    ensures cs < ds
  {
    var n := |Show(rooted, cs)| + 1;
    var rest := Show(rooted, ds)[n..];
    assert |Slashed(cs)| > 0;
    if ds != [] {
      hide Settled;
      PrefixSplits(Show(rooted, ds), Show(rooted, cs));
      SlashedRest(rooted, cs, ds, rest);
      hide Show, Slashed, Split;
      SplitSlashed(cs);
      SplitSlashed(ds);
      SplitConcat(Slashed(cs), rest);
      assert ds == cs + Split(rest);
    }
  }

  lemma PrefixSplits(path: string, dir: string)
    requires HasPrefix(path, dir + "/")
    ensures path == dir + "/" + path[|dir| + 1..]
  {
  }

  lemma SlashedRest(rooted: bool, cs: seq<string>, ds: seq<string>, rest: string)
    requires cs != [] && ds != [] && Show(rooted, ds) == Show(rooted, cs) + "/" + rest
    ensures Slashed(ds) == Slashed(cs) + "/" + rest
  {
    hide Slashed;
    assert rooted ==> Show(rooted, ds)[1..] == Slashed(ds);
    assert rooted ==> (Show(rooted, cs) + "/" + rest)[1..] == Slashed(cs) + "/" + rest;
  }

  // ---------------------------------------------------------------- the sandbox

  function Sandboxed(root: string, userPath: string): Result<string, ()> {
    if Rooted(userPath) then Err(()) else
      var abs := Clean(Join(root, userPath));
      if abs != root && !HasPrefix(abs, root + "/") then Err(()) else Ok(abs)
  }

  lemma JoinResolves(rooted: bool, cs: seq<string>, rest: string)
    requires Settled(rooted, cs)
    ensures var ds := Resolve(rooted, cs, Split(rest));
            Settled(rooted, ds) && Join(Show(rooted, cs), rest) == Show(rooted, ds)
  {
    var root := Show(rooted, cs);
    var ds := Resolve(rooted, cs, Split(rest));
    ShowResolves(rooted, cs);
    ResolveSettled(rooted, cs, Split(rest));
    assert root != "" by { ShowNotEmpty(rooted, cs); }
    if rest == "" {
      NothingAdded(rooted, cs);
    } else {
      SplitConcat(root, rest);
      ResolveConcat(rooted, [], Split(root), Split(rest));
      hide Resolve, Split, Show;
      assert Rooted(root + "/" + rest) == Rooted(root);
    }
  }

  lemma NothingAdded(rooted: bool, cs: seq<string>)
    ensures Resolve(rooted, cs, Split("")) == cs
  {
  }

  lemma ShowNotEmpty(rooted: bool, cs: seq<string>)
    requires Settled(rooted, cs)
    ensures Show(rooted, cs) != ""
  {
  }

  /** For every clean root: a relative path is accepted exactly when the components it resolves
      to extend the root's, and what comes back is the clean path of those components. */
  lemma SandboxExact(rooted: bool, cs: seq<string>, userPath: string)
    requires Settled(rooted, cs)
    ensures var r := Sandboxed(Show(rooted, cs), userPath);
            var ds := Resolve(rooted, cs, Split(userPath));
            && (r.Ok? <==> !Rooted(userPath) && (ds == cs || (cs != [] && cs < ds)))
            && (r.Ok? ==> r.value == Show(rooted, ds) && Clean(r.value) == r.value)
  {
    var ds := Resolve(rooted, cs, Split(userPath));
    JoinResolves(rooted, cs, userPath);
    ShowResolves(rooted, ds);
    PrefixIsComponentPrefix(rooted, cs, ds);
    hide Resolve, Split, Settled, Show, Components, Join;
  }

  /** `ds` stays at or below `cs`. */
  predicate Inside(cs: seq<string>, ds: seq<string>) {
    cs <= ds && ".." !in ds[|cs|..]
  }

  ghost predicate Contains(rooted: bool, cs: seq<string>) {
    forall userPath :: Sandboxed(Show(rooted, cs), userPath).Ok? ==> Inside(cs, Resolve(rooted, cs, Split(userPath)))
  }

  /** The sandbox keeps every accepted path inside exactly when the clean root does not end in
      "..", which no absolute root does. */
  lemma SandboxContains(rooted: bool, cs: seq<string>)
    requires Settled(rooted, cs)
    ensures Contains(rooted, cs) <==> cs == [] || cs[|cs| - 1] != ".."
    ensures rooted ==> Contains(rooted, cs)
  {
    if cs == [] || cs[|cs| - 1] != ".." {
      forall userPath | Sandboxed(Show(rooted, cs), userPath).Ok?
        ensures Inside(cs, Resolve(rooted, cs, Split(userPath)))
      {
        SandboxExact(rooted, cs, userPath);
        var ds := Resolve(rooted, cs, Split(userPath));
        JoinResolves(rooted, cs, userPath);
        hide Resolve, Split, Sandboxed, Show;
        assert cs != [] ==> ds[|cs| - 1] == cs[|cs| - 1];
      }
    } else {
      SandboxExact(rooted, cs, "..");
      SplitName("..");
      assert Push(rooted, cs, "..") == cs + [".."];
      assert Resolve(rooted, cs, [".."]) == cs + [".."];
      assert (cs + [".."])[|cs|..] == [".."];
    }
  }

  // ---------------------------------------------------------------- the repository path mapper

  datatype Mapper = Mapper(from: string, to: string)

  function NewMapper(rawFrom: string, rawTo: string): Result<Option<Mapper>, ()> {
    var from, to := Trim(rawFrom), Trim(rawTo);
    if from == "" && to == "" then Ok(None)
    else if from == "" || to == "" then Err(())
    else Ok(Some(Mapper(Clean(from), Clean(to))))
  }

  /** Both ends or neither must be given; a mapper's ends are clean. */
  lemma NewMapperExact(rawFrom: string, rawTo: string)
    ensures var r := NewMapper(rawFrom, rawTo);
            && (r.Err? <==> (Trim(rawFrom) == "") != (Trim(rawTo) == ""))
            && (r == Ok(None) <==> Trim(rawFrom) == "" && Trim(rawTo) == "")
            && (r.Ok? && r.value.Some? ==>
                  r.value.value.from == Clean(Trim(rawFrom)) && r.value.value.to == Clean(Trim(rawTo)))
            && (r.Ok? && r.value.Some? ==>
                  Clean(r.value.value.from) == r.value.value.from && Clean(r.value.value.to) == r.value.value.to)
  {
    CleanIdempotent(Trim(rawFrom));
    CleanIdempotent(Trim(rawTo));
    hide Trim, Clean;
  }

  function Translate(mapper: Option<Mapper>, rawPath: string): string {
    if mapper.None? then rawPath else
      var m, path := mapper.value, Clean(Trim(rawPath));
      if path == "" then path
      else if path == m.from then m.to
      else
        var prefix := m.from + "/";
        if !HasPrefix(path, prefix) then path
        else
          var suffix := path[|prefix|..];
          if suffix == "" then m.to else Join(m.to, suffix)
  }

  /** Components with the leading `cs` exchanged for `es`. */
  function Rebase(cs: seq<string>, es: seq<string>, ps: seq<string>): seq<string> {
    if ps == cs then es else if cs != [] && cs < ps then es + ps[|cs|..] else ps
  }

  lemma SameRoot(a: bool, cs: seq<string>, c: bool, ps: seq<string>)
    requires Settled(a, cs) && Settled(c, ps) && a != c
    ensures Show(c, ps) != Show(a, cs) && !HasPrefix(Show(c, ps), Show(a, cs) + "/")
  {
    ShowResolves(a, cs);
    ShowResolves(c, ps);
    ShowNotEmpty(a, cs);
    hide Show, Components;
    assert (Show(a, cs) + "/")[0] == Show(a, cs)[0];
  }

  /** Translation on any clean ends and any path, relative ones included: what follows `from` is
      resolved from `to`. */
  lemma TranslateResolves(a: bool, cs: seq<string>, b: bool, es: seq<string>, rawPath: string)
    requires Settled(a, cs) && Settled(b, es)
    ensures var c, ps := Rooted(Trim(rawPath)), Components(Trim(rawPath));
            Translate(Some(Mapper(Show(a, cs), Show(b, es))), rawPath) ==
              if c == a && ps == cs then Show(b, es)
              else if c == a && cs != [] && cs < ps then Show(b, Resolve(b, es, ps[|cs|..]))
              else Show(c, ps)
  {
    var c, ps := Rooted(Trim(rawPath)), Components(Trim(rawPath));
    ComponentsSettled(Trim(rawPath));
    if c != a {
      SameRoot(a, cs, c, ps);
    } else {
      PrefixIsComponentPrefix(a, cs, ps);
      if cs != [] && cs < ps {
        var suffix := Slashed(ps[|cs|..]);
        ComponentsGivePrefix(a, cs, ps);
        SplitSlashed(ps[|cs|..]);
        JoinResolves(b, es, suffix);
        SuffixNotEmpty(a, ps, |cs|);
      }
    }
    hide Components, Split, Resolve, Join;
    ShowNotEmpty(c, ps);
  }

  lemma SuffixNotEmpty(rooted: bool, ps: seq<string>, n: nat)
    requires Settled(rooted, ps) && n < |ps|
    ensures Slashed(ps[n..]) != ""
  {
    assert ps[n..][0] == ps[n];
  }

  /** On absolute ends and paths the leading components of `from` become those of `to`. */
  lemma TranslateRebases(cs: seq<string>, es: seq<string>, rawPath: string)
    requires Settled(true, cs) && Settled(true, es) && Rooted(Trim(rawPath))
    ensures Translate(Some(Mapper(Show(true, cs), Show(true, es))), rawPath)
         == Show(true, Rebase(cs, es, Components(Trim(rawPath))))
    ensures Settled(true, Rebase(cs, es, Components(Trim(rawPath))))
  {
    var ps := Components(Trim(rawPath));
    ComponentsSettled(Trim(rawPath));
    TranslateResolves(true, cs, true, es, rawPath);
    if cs != [] && cs < ps {
      ResolvePlain(true, es, ps[|cs|..]);
    }
    hide Components, Split, Resolve, Translate;
  }

  lemma {:induction false} SlashedSnoc(gs: seq<string>, l: string)
    ensures Slashed(gs + [l]) == if gs == [] then l else Slashed(gs) + "/" + l
  {
    if gs != [] {
      SlashedConcat(gs, [l]);
    } else {
      assert gs + [l] == [l];
    }
  }

  /** Trimming a clean absolute path only touches its last component. */
  lemma TrimmedComponents(gs: seq<string>, l: string)
    requires Settled(true, gs + [l])
    ensures var t := Trim(Show(true, gs + [l]));
            Rooted(t) && Components(t) == Push(true, gs, TrimRight(l))
  {
    hide Settled, Components, Slashed, TrimRight, Trim, Show, Push;
    FrontSettled(gs, l);
    ShowSnoc(gs, l);
    TrimKeepsBase(Base(gs), l);
    TrimRightPrefix(l);
    NoSlashPrefix(l, TrimRight(l));
    ComponentsOfBase(gs, TrimRight(l));
  }

  /** What precedes the last name of an absolute path. */
  function Base(gs: seq<string>): (base: string)
    ensures base != "" && base[0] == '/' && base[|base| - 1] == '/'
  {
    if gs == [] then "/" else "/" + Slashed(gs) + "/"
  }

  lemma FrontSettled(gs: seq<string>, l: string)
    requires Settled(true, gs + [l])
    ensures Settled(true, gs) && '/' !in l
  {
    assert forall i :: 0 <= i < |gs| ==> (gs + [l])[i] == gs[i];
    assert Plain((gs + [l])[|gs|]);
  }

  lemma NoSlashPrefix(l: string, r: string)
    requires '/' !in l && r <= l
    ensures '/' !in r
  {
    assert forall i :: 0 <= i < |r| ==> r[i] == l[i];
  }

  lemma ShowSnoc(gs: seq<string>, l: string)
    ensures Show(true, gs + [l]) == Base(gs) + l
  {
    SlashedSnoc(gs, l);
    hide Slashed;
    if gs != [] {
      assert "/" + (Slashed(gs) + "/" + l) == "/" + Slashed(gs) + "/" + l;
    }
  }

  lemma TrimKeepsBase(base: string, l: string)
    requires base != "" && base[0] == '/' && base[|base| - 1] == '/'
    ensures Trim(base + l) == base + TrimRight(l) && Rooted(base + TrimRight(l))
  {
    TrimRightKeepsPrefix(base, l);
    assert (base + l)[0] == base[0];
    assert TrimLeft(base + l) == base + l;
    hide TrimRight, TrimLeft;
  }

  lemma ComponentsOfBase(gs: seq<string>, r: string)
    requires Settled(true, gs) && '/' !in r
    ensures Components(Base(gs) + r) == Push(true, gs, r)
  {
    hide Split, Resolve, Show, Slashed;
    SplitName(r);
    ResolveOne(true, gs, r);
    if gs == [] {
      SkipEmpty(true);
      SplitConcat("", r);
      SplitName("");
      assert "" + "/" + r == Base(gs) + r;
      ResolveConcat(true, [], [""], [r]);
    } else {
      var dir := Show(true, gs);
      BaseIsDir(gs);
      assert Base(gs) + r == dir + "/" + r && (dir + "/" + r)[0] == dir[0];
      ShowResolves(true, gs);
      SplitConcat(dir, r);
      ResolveConcat(true, [], Split(dir), [r]);
    }
  }

  lemma BaseIsDir(gs: seq<string>)
    requires gs != []
    ensures Base(gs) == Show(true, gs) + "/" && Show(true, gs) != "" && Show(true, gs)[0] == '/'
  {
  }

  /** Trimming a clean absolute path changes nothing exactly when its components stay as they are. */
  lemma TrimmedSame(fs: seq<string>)
    requires Settled(true, fs)
    ensures var t := Trim(Show(true, fs));
            && Rooted(t) && |Components(t)| <= |fs|
            && (t == Show(true, fs) <==> Components(t) == fs)
  {
    if fs == [] {
      RootIsTrimmed();
    } else {
      var gs, l := fs[..|fs| - 1], fs[|fs| - 1];
      assert fs == gs + [l] && Plain(l);
      TrimmedComponents(gs, l);
      ShowResolves(true, fs);
      hide Components, Settled, Trim, Show;
      var r := TrimRight(l);
      hide TrimRight;
      assert r == l ==> Push(true, gs, r) == fs;
      assert r != l ==> Push(true, gs, r) != fs;
      TrimmedName(gs, l);
    }
  }

  lemma TrimmedName(gs: seq<string>, l: string)
    ensures Trim(Show(true, gs + [l])) == Show(true, gs + [l]) <==> TrimRight(l) == l
  {
    hide Slashed, TrimRight, Trim, Show, Base;
    ShowSnoc(gs, l);
    TrimKeepsBase(Base(gs), l);
    var base := Base(gs);
    assert base + TrimRight(l) == base + l ==> (base + TrimRight(l))[|base|..] == (base + l)[|base|..];
  }

  /** Under `dir`, as Translate tests it. */
  predicate Below(dir: seq<string>, ps: seq<string>) {
    ps == dir || (dir != [] && dir < ps)
  }

  function Last(ps: seq<string>): string {
    if ps == [] then "" else ps[|ps| - 1]
  }

  /** When mapping back gives `ps`: `ts` is what became of the translated path by trimming. */
  predicate ComesBack(cs: seq<string>, es: seq<string>, ps: seq<string>, ts: seq<string>)
    requires cs <= ps
  {
    if ps == cs then ts == es || ts == ps
    else if cs == [] then ts == ps && !Below(es, ps)
    else es != [] && (ts == es + ps[|cs|..] || (ts == ps && !Below(es, ts)))
  }

  /** Mapping back, on components. */
  lemma RebaseBack(cs: seq<string>, es: seq<string>, ps: seq<string>, ts: seq<string>)
    requires cs <= ps && |ts| <= |Rebase(cs, es, ps)|
    ensures Rebase(es, cs, ts) == ps <==> ComesBack(cs, es, ps, ts)
  {
    var suffix := ps[|cs|..];
    assert ps == cs + suffix && (suffix == [] <==> ps == cs);
    assert (es + suffix)[|es|..] == suffix;
    if es != [] && es < ts {
      var rest := ts[|es|..];
      assert ts == es + rest && (cs + rest)[|cs|..] == rest;
      assert Rebase(es, cs, ts) == cs + rest;
      assert cs + rest == cs + suffix <==> rest == suffix;
    }
  }

  lemma RootIsTrimmed()
    ensures Trim(Show(true, [])) == Show(true, []) && Rooted(Show(true, [])) && Components(Show(true, [])) == []
  {
    assert Show(true, []) == "/";
    EmptyResolves(true);
    TrimTrimmed("/");
  }

  predicate EndsInSpace(s: string) {
    s != "" && IsSpace(s[|s| - 1])
  }

  lemma SpaceIsTrimmed(fs: seq<string>)
    requires Settled(true, fs)
    ensures var path := Show(true, fs);
            && Rooted(Trim(path)) && |Components(Trim(path))| <= |fs|
            && (EndsInSpace(path) <==> Components(Trim(path)) != fs)
  {
    TrimmedSame(fs);
    var path := Show(true, fs);
    assert TrimLeft(path) == path;
    TrimRightPrefix(path);
    hide Components, Settled, Show, TrimLeft;
  }

  /** The directory above a path. */
  function Dir(path: string): string {
    Clean(path + "/..")
  }

  lemma DirDrops(fs: seq<string>)
    requires Settled(true, fs)
    ensures Dir(Show(true, fs)) == Show(true, if fs == [] then [] else fs[..|fs| - 1])
  {
    var path := Show(true, fs);
    ShowResolves(true, fs);
    SplitConcat(path, "..");
    SplitName("..");
    ResolveConcat(true, [], Split(path), [".."]);
    assert Resolve(true, fs, [".."]) == Push(true, fs, "..");
    ShowNotEmpty(true, fs);
    assert (path + "/..")[0] == path[0];
    assert path + "/" + ".." == path + "/..";
    assert fs != [] ==> Plain(fs[|fs| - 1]);
    hide Split, Resolve, Show, Settled, Plain;
  }

  /** Whether exchanging the ends of a mapper undoes the translation of `path`, at or under `from`.
      White space at the end of the translated path is lost on the way back. The last alternative is
      a coincidence: `path` is from/".. " and `to` lies directly in it, so that what is left after
      trimming is the directory above `to`, which is `path` itself. */
  predicate Recoverable(from: string, to: string, path: string) {
    if path == from then !EndsInSpace(to) || Clean(Trim(to)) == from
    else if from == "/" then !EndsInSpace(path) && path != to && !HasPrefix(path, to + "/")
    else
      && to != "/"
      && (|| !EndsInSpace(path)
          || (Dir(path) == from && TrimRight(Last(Components(path))) == ".." && Dir(to) == path))
  }

  /** Exchanging `from` and `to` undoes the translation of a path at or under `from` exactly when
      that path is recoverable. */
  lemma TranslateRoundTrip(cs: seq<string>, es: seq<string>, rawPath: string)
    requires Settled(true, cs) && Settled(true, es) && Rooted(Trim(rawPath)) && cs <= Components(Trim(rawPath))
    ensures var from, to := Show(true, cs), Show(true, es);
            var there := Translate(Some(Mapper(from, to)), rawPath);
            var path := Clean(Trim(rawPath));
            Translate(Some(Mapper(to, from)), there) == path <==> Recoverable(from, to, path)
  {
    var ps := Components(Trim(rawPath));
    ComponentsSettled(Trim(rawPath));
    var fs := Rebase(cs, es, ps);
    TranslateRebases(cs, es, rawPath);
    SpaceIsTrimmed(fs);
    var ts := Components(Trim(Show(true, fs)));
    ComponentsSettled(Trim(Show(true, fs)));
    TranslateRebases(es, cs, Show(true, fs));
    RebaseBack(cs, es, ps, ts);
    ShowInjective(ps, Rebase(es, cs, ts));
    hide Components, Trim, Translate, Rebase, Slashed, Settled, ComesBack, Recoverable, TrimRight;
    RecoverableComesBack(cs, es, ps);
  }

  /** `Recoverable`, said on components. */
  lemma RecoverableComesBack(cs: seq<string>, es: seq<string>, ps: seq<string>)
    requires Settled(true, cs) && Settled(true, es) && Settled(true, ps) && cs <= ps
    ensures var fs := Rebase(cs, es, ps);
            Recoverable(Show(true, cs), Show(true, es), Show(true, ps))
            <==> ComesBack(cs, es, ps, Components(Trim(Show(true, fs))))
  {
    ShowInjective(ps, cs);
    if ps == cs {
      RecoverFrom(cs, es);
    } else if cs == [] {
      RecoverUnderRoot(es, ps);
    } else {
      RecoverBelow(cs, es, ps);
    }
  }

  lemma RecoverFrom(cs: seq<string>, es: seq<string>)
    requires Settled(true, cs) && Settled(true, es)
    ensures Recoverable(Show(true, cs), Show(true, es), Show(true, cs))
            <==> ComesBack(cs, es, cs, Components(Trim(Show(true, es))))
  {
    var t := Trim(Show(true, es));
    SpaceIsTrimmed(es);
    ComponentsSettled(t);
    ShowInjective(Components(t), cs);
    hide Components, Trim, Show, Settled;
  }

  lemma RecoverUnderRoot(es: seq<string>, ps: seq<string>)
    requires Settled(true, es) && Settled(true, ps) && ps != []
    ensures Recoverable("/", Show(true, es), Show(true, ps))
            <==> ComesBack([], es, ps, Components(Trim(Show(true, ps))))
  {
    ShowInjective(ps, []);
    SlashedNothing();
    SpaceIsTrimmed(ps);
    PrefixIsComponentPrefix(true, es, ps);
    hide Components, Trim, Settled, Slashed;
  }

  /** The last name of a clean path, and what trimming the path leaves of its components. */
  lemma TrimmedEnd(gs: seq<string>, l: string)
    requires Settled(true, gs + [l])
    ensures EndsInSpace(Show(true, gs + [l])) <==> TrimRight(l) != l
    ensures Components(Trim(Show(true, gs + [l]))) == Push(true, gs, TrimRight(l))
  {
    assert Plain((gs + [l])[|gs|]);
    TrimmedComponents(gs, l);
    SpaceIsTrimmed(gs + [l]);
    hide Components, Trim, TrimRight, Show, Settled, Plain, EndsInSpace;
    var r := TrimRight(l);
    assert r == l ==> Push(true, gs, r) == gs + [l];
    assert r != l ==> Push(true, gs, r) != gs + [l];
  }

  lemma AlongsideSettled(cs: seq<string>, es: seq<string>, ps: seq<string>)
    requires Settled(true, cs) && Settled(true, es) && Settled(true, ps) && cs <= ps
    ensures Settled(true, es + ps[|cs|..])
    ensures ps != [] ==> Settled(true, ps[..|ps| - 1])
  {
    assert forall i :: 0 <= i < |ps[|cs|..]| ==> ps[|cs|..][i] == ps[|cs| + i];
  }

  /** The questions that Recoverable asks about directories, on components. */
  lemma DirsOf(cs: seq<string>, es: seq<string>, ps: seq<string>)
    requires Settled(true, cs) && Settled(true, es) && Settled(true, ps) && cs != [] && ps != []
    ensures Components(Show(true, ps)) == ps
    ensures Show(true, ps) == Show(true, cs) <==> ps == cs
    ensures Show(true, cs) != "/" && (Show(true, es) == "/" <==> es == [])
    ensures Dir(Show(true, ps)) == Show(true, cs) <==> ps[..|ps| - 1] == cs
    ensures es != [] ==> (Dir(Show(true, es)) == Show(true, ps) <==> es[..|es| - 1] == ps)
  {
    ShowResolves(true, ps);
    AlongsideSettled([], [], ps);
    AlongsideSettled([], [], es);
    ShowInjective(ps, cs);
    ShowInjective(cs, []);
    ShowInjective(es, []);
    SlashedNothing();
    DirDrops(ps);
    DirDrops(es);
    ShowInjective(ps[..|ps| - 1], cs);
    if es != [] {
      ShowInjective(es[..|es| - 1], ps);
    }
    hide Components, Dir, Settled, Slashed;
  }

  lemma RecoverBelow(cs: seq<string>, es: seq<string>, ps: seq<string>)
    requires Settled(true, cs) && Settled(true, es) && Settled(true, ps) && cs != [] && cs < ps
    ensures Recoverable(Show(true, cs), Show(true, es), Show(true, ps))
            <==> ComesBack(cs, es, ps, Components(Trim(Show(true, es + ps[|cs|..]))))
  {
    hide Components, Trim, TrimRight, Dir, EndsInSpace, Settled, Show, Clean;
    var above, l := ps[..|ps| - 1], ps[|ps| - 1];
    var gs := es + ps[|cs|..|ps| - 1];
    assert ps == above + [l] && es + ps[|cs|..] == gs + [l];
    AlongsideSettled(cs, es, ps);
    TrimmedEnd(above, l);
    TrimmedEnd(gs, l);
    DirsOf(cs, es, ps);
    if es != [] {
      NotAbove(gs, l);
      if TrimRight(l) != l {
        Coincidence(cs, es, ps, TrimRight(l));
      }
      NameKept(gs, l);
    }
  }

  lemma NameKept(gs: seq<string>, l: string)
    requires Settled(true, gs + [l])
    ensures forall r :: Push(true, gs, r) == gs + [l] <==> r == l
  {
    assert Plain((gs + [l])[|gs|]);
  }

  lemma NotAbove(gs: seq<string>, l: string)
    requires Settled(true, gs + [l])
    ensures gs != [] ==> gs[|gs| - 1] != ".."
  {
    assert gs != [] ==> (gs + [l])[|gs| - 1] == gs[|gs| - 1];
  }

  /** When the trimmed translation is the original path, outside `to`. */
  lemma Coincidence(cs: seq<string>, es: seq<string>, ps: seq<string>, r: string)
    requires cs < ps && es != [] && r != ps[|ps| - 1]
    requires var gs := es + ps[|cs|..|ps| - 1]; gs[|gs| - 1] != ".."
    ensures var ts := Push(true, es + ps[|cs|..|ps| - 1], r);
            (ts == ps && !Below(es, ts)) <==> (ps[..|ps| - 1] == cs && r == ".." && es[..|es| - 1] == ps)
  {
    var middle := ps[|cs|..|ps| - 1];
    var gs := es + middle;
    var ts := Push(true, gs, r);
    assert ps[..|ps| - 1] == cs <==> middle == [] by {
      assert ps[..|ps| - 1] == cs + middle;
    }
    if r == ".." {
      assert ts == gs[..|gs| - 1];
      if middle == [] {
        assert gs == es;
      } else {
        assert ts == es + middle[..|middle| - 1];
      }
    } else {
      assert ts == gs || ts == gs + [r];
      assert gs + [r] == es + (middle + [r]);
    }
  }

  lemma SlashedNothing()
    ensures Slashed([]) == ""
  {
  }

  lemma ShowInjective(a: seq<string>, b: seq<string>)
    requires Settled(true, a) && Settled(true, b)
    ensures Show(true, a) == Show(true, b) <==> a == b
  {
    PrefixIsComponentPrefix(true, a, b);
  }

  // ---------------------------------------------------------------- inputs at which it fails

  lemma ResolveOne(rooted: bool, stack: seq<string>, c: string)
    ensures Resolve(rooted, stack, [c]) == Push(rooted, stack, c)
  {
    assert [c][1..] == [];
  }

  lemma ShowTwo(a: string, b: string)
    ensures Slashed([a]) == a && Slashed([a, b]) == a + "/" + b
  {
    assert [a, b][1..] == [b];
  }

  /** The relative root ".." lets a path out. */
  lemma ParentRootLeaks()
    ensures Sandboxed("..", "..") == Ok("../..") && !Contains(false, [".."])
  {
    hide Resolve, Split, Sandboxed, Slashed, Contains;
    ShowTwo("..", "..");
    SplitName("..");
    ResolveOne(false, [".."], "..");
    var ds := [".."] + [".."];
    assert ds == ["..", ".."] && [".."] < ds;
    assert ".." + "/" + ".." == "../..";
    SandboxExact(false, [".."], "..");
    SandboxContains(false, [".."]);
  }

  lemma TwoNames(a: string, b: string)
    requires Plain(a) && Plain(b)
    ensures Settled(true, [a]) && Settled(true, [a, b]) && Show(true, [a]) == "/" + a
    ensures Show(true, [a, b]) == "/" + a + "/" + b
    ensures Components(Show(true, [a, b])) == [a, b] && Clean(Show(true, [a, b])) == Show(true, [a, b])
    ensures [a] <= [a, b]
  {
    ShowTwo(a, b);
    hide Resolve, Split, Slashed;
    ShowResolves(true, [a, b]);
    assert "/" + (a + "/" + b) == "/" + a + "/" + b;
  }

  /** Below "/" nothing is recognised on the way back. */
  lemma MappedToRootIsLost()
    ensures Translate(Some(Mapper("/", "/a")), Translate(Some(Mapper("/a", "/")), "/a/b")) != "/a/b"
  {
    hide Clean, Components, Trim, Translate, Show, Dir, TrimRight;
    var path := "/" + "a" + "/" + "b";
    assert "/" + "a" == "/a" && path == "/a/b" && |path| == 4;
    TwoNames("a", "b");
    TrimTrimmed(path);
    RootShown();
    TranslateRoundTrip(["a"], [], path);
    assert path != "/a";
  }

  lemma RootShown()
    ensures Show(true, []) == "/" && Settled(true, [])
  {
    SlashedNothing();
  }

  /** A closing separator does not hide the white space before it from Clean. */
  lemma CleanKeepsSpace(a: string, b: string)
    requires Plain(a) && Plain(b)
    ensures var path := "/" + a + "/" + b;
            && Components(path + "/") == [a, b] && Clean(path + "/") == path && Trim(path + "/") == path + "/"
  {
    hide Resolve, Split, Trim, Slashed;
    var path := "/" + a + "/" + b;
    TwoNames(a, b);
    SplitConcat(path, "");
    SplitName("");
    assert path + "/" + "" == path + "/";
    ResolveConcat(true, [], Split(path), [""]);
    ResolveOne(true, [a, b], "");
    assert (path + "/")[0] == '/' && (path + "/")[|path|] == '/';
    TrimTrimmed(path + "/");
  }

  /** A name that ends in white space loses it. */
  lemma TrailingSpaceIsLost()
    ensures Clean("/a/b /") == "/a/b "
    ensures Translate(Some(Mapper("/c", "/a")), Translate(Some(Mapper("/a", "/c")), "/a/b /")) != "/a/b "
  {
    hide Clean, Components, Trim, TrimRight, Translate, Show, Dir;
    var path := "/" + "a" + "/" + "b ";
    assert "/" + "a" == "/a" && "/" + "c" == "/c" && path == "/a/b " && path + "/" == "/a/b /" && |path| == 5;
    CleanKeepsSpace("a", "b ");
    TwoNames("a", "b ");
    TwoNames("c", "b ");
    TrimmedB();
    TranslateRoundTrip(["a"], ["c"], path + "/");
    assert Last(["a", "b "]) == "b " && path[4] == ' ';
  }

  lemma TrimmedB()
    ensures TrimRight("b ") == "b"
  {
    assert "b "[..1] == "b";
  }
}
