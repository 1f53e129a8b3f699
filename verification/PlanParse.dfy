/** Extracting proposed plans from an answer (src/internal/common/agent/plan_parse.go). */
module PlanParse {
  import opened Sequences
  import opened Text
  import opened Wrappers

  const OPEN := "<proposed_plan>"
  const CLOSE := "</proposed_plan>"

  // ---------------------------------------------------------------- the pattern

  predicate At(text: string, tag: string, i: nat) {
    i + |tag| <= |text| && text[i..i + |tag|] == tag
  }

  predicate Absent(text: string, tag: string) {
    forall i: nat | i <= |text| :: !At(text, tag, i)
  }

  /** OPEN at i, then any text, then CLOSE at j. */
  predicate IsMatch(text: string, i: nat, j: nat) {
    At(text, OPEN, i) && i + |OPEN| <= j && At(text, CLOSE, j)
  }

  /** The match the regular expression reports: the leftmost start, and the shortest inner text. */
  ghost predicate Reported(text: string, i: nat, j: nat) {
    && IsMatch(text, i, j)
    && (forall i', j' :: IsMatch(text, i', j') ==> i <= i')
    && (forall j' :: IsMatch(text, i, j') ==> j <= j')
  }

  // ---------------------------------------------------------------- a scanner for it

  function Find(text: string, tag: string): (r: Option<nat>)
    ensures r.Some? ==> At(text, tag, r.value) && forall i: nat | i < r.value :: !At(text, tag, i)
    ensures r.None? ==> Absent(text, tag)
    decreases text
  {
    if |text| < |tag| then None
    else if tag <= text then Some(0)
    else
      var rest := Find(text[1..], tag);
      assert forall i: nat | i < |text| :: At(text, tag, i + 1) <==> At(text[1..], tag, i);
      assert forall i: nat | 0 < i <= |text| :: At(text, tag, i) <==> At(text[1..], tag, i - 1);
      match rest case None => None case Some(i) => Some(i + 1)
  }

  function Scan(text: string): (r: Option<(nat, nat)>)
    ensures r.Some? ==> r.value.0 + |OPEN| <= r.value.1 && r.value.1 + |CLOSE| <= |text|
  {
    match Find(text, OPEN)
    case None => None
    case Some(i) =>
      match Find(text[i + |OPEN|..], CLOSE)
      case None => None
      case Some(d) => Some((i, i + |OPEN| + d))
  }

  /** Inner texts of all successive matches. */
  function Matches(text: string): seq<string>
    decreases |text|
  {
    match Scan(text)
    case None => []
    case Some((i, j)) => [text[i + |OPEN|..j]] + Matches(text[j + |CLOSE|..])
  }

  /** The scanner reports exactly the regular expression's match. */
  lemma ScanIsReported(text: string)
    ensures Scan(text).Some? ==> Reported(text, Scan(text).value.0, Scan(text).value.1)
    ensures Scan(text).None? ==> forall i, j :: !IsMatch(text, i, j)
  {
    match Find(text, OPEN)
    case None =>
    case Some(i) =>
      var inner := text[i + |OPEN|..];
      forall j: nat | i + |OPEN| <= j <= |text|
        ensures At(text, CLOSE, j) <==> At(inner, CLOSE, j - (i + |OPEN|))
      {
        AtInTail(text, CLOSE, i + |OPEN|, j);
      }
      hide At, Find;
  }

  /** A position in the rest of a text. */
  lemma AtInTail(text: string, tag: string, n: nat, j: nat)
    requires n <= j <= |text|
    ensures At(text, tag, j) <==> At(text[n..], tag, j - n)
  {
    if j + |tag| <= |text| {
      assert text[n..][j - n..j - n + |tag|] == text[j..j + |tag|];
    }
  }

  // ---------------------------------------------------------------- the parser

  function Kept(contents: seq<string>): seq<string> {
    if contents == [] then [] else
      var c := Trim(contents[|contents| - 1]);
      Kept(contents[..|contents| - 1]) + if c == "" then [] else [c]
  }

  function Trims(contents: seq<string>): seq<string> {
    seq(|contents|, i requires 0 <= i < |contents| => Trim(contents[i]))
  }

  /** The contents, trimmed, without those that are blank. */
  lemma {:induction false} KeptExact(contents: seq<string>)
    ensures Kept(contents) == Filter((c: string) => c != "", Trims(contents))
    decreases |contents|
  {
    hide Trim, Filter;
    var keep := (c: string) => c != "";
    if contents == [] {
      NothingKept(keep);
      assert Trims(contents) == [];
    } else {
      var init, last := contents[..|contents| - 1], contents[|contents| - 1];
      KeptExact(init);
      assert Trims(contents) == Trims(init) + [Trim(last)];
      hide Trims;
      FilterSnoc(keep, Trims(init), Trim(last));
    }
  }

  lemma NothingKept(keep: string -> bool)
    ensures Filter(keep, []) == []
  {
  }

  method ParseProposedPlans(text: string) returns (result: seq<string>)
    ensures result == Kept(Matches(text))
  {
    var matches := Matches(text);
    if |matches| == 0 {
      return [];
    }
    result := [];
    for i := 0 to |matches|
      invariant result == Kept(matches[..i])
    {
      assert matches[..i + 1][..i] == matches[..i];
      var content := Trim(matches[i]);
      if content != "" {
        result := result + [content];
      }
    }
    assert matches[..|matches|] == matches;
  }

  // ---------------------------------------------------------------- round trip

  /** seps[0] <plan 0> seps[1] <plan 1> ... seps[n] */
  function Render(contents: seq<string>, seps: seq<string>): string
    requires |seps| == |contents| + 1
  {
    if contents == [] then seps[0]
    else seps[0] + OPEN + contents[0] + CLOSE + Render(contents[1..], seps[1..])
  }

  ghost predicate Separated(contents: seq<string>, seps: seq<string>) {
    && |seps| == |contents| + 1
    && (forall k :: 0 <= k < |contents| ==> Absent(contents[k], CLOSE) && Absent(seps[k], OPEN))
    && (forall i, j :: !IsMatch(seps[|contents|], i, j))
  }

  /** A tag whose first character occurs nowhere else in it cannot overlap itself. */
  predicate NoOverlap(tag: string) {
    |tag| > 0 && forall k :: 0 < k < |tag| ==> tag[k] != tag[0]
  }

  lemma TagsDoNotOverlap()
    ensures NoOverlap(OPEN) && NoOverlap(CLOSE)
  {
  }

  lemma FindAfter(tag: string, before: string, rest: string)
    requires NoOverlap(tag) && Absent(before, tag)
    ensures Find(before + tag + rest, tag) == Some(|before|)
  {
    var text := before + tag + rest;
    assert text[|before|..|before| + |tag|] == tag;
    forall i: nat | i < |before| ensures !At(text, tag, i) {
      if i + |tag| <= |before| {
        assert text[i..i + |tag|] == before[i..i + |tag|];
        assert !At(before, tag, i);
      } else {
        var k := |before| - i;
        assert text[i..i + |tag|][k] == text[|before|] == tag[0];
        assert tag[k] != tag[0];
      }
    }
    assert At(text, tag, |before|);
    assert !Absent(text, tag);
  }

  lemma ScanRendered(sep: string, content: string, rest: string)
    requires Absent(sep, OPEN) && Absent(content, CLOSE)
    ensures var text := sep + OPEN + content + CLOSE + rest;
            var j := |sep| + |OPEN| + |content|;
            && Scan(text) == Some((|sep|, j))
            && text[|sep| + |OPEN|..j] == content && text[j + |CLOSE|..] == rest
  {
    hide At, Absent, NoOverlap, Find;
    TagsDoNotOverlap();
    var inner := content + CLOSE + rest;
    Nested(sep, OPEN, content, CLOSE, rest);
    FindAfter(OPEN, sep, inner);
    FindAfter(CLOSE, content, rest);
  }

  lemma Nested(sep: string, open: string, content: string, close: string, rest: string)
    ensures var text := sep + open + content + close + rest;
            var inner := content + close + rest;
            var j := |sep| + |open| + |content|;
            && text == sep + open + inner && text[|sep| + |open|..] == inner
            && text[|sep| + |open|..j] == content && text[j + |close|..] == rest
  {
    var text := sep + open + content + close + rest;
    assert text == sep + open + (content + close + rest);
  }

  lemma {:induction false} MatchesOfRendered(contents: seq<string>, seps: seq<string>)
    requires Separated(contents, seps)
    ensures Matches(Render(contents, seps)) == contents
  {
    hide At, Absent, Scan;
    if contents == [] {
      ScanIsReported(seps[0]);
    } else {
      SeparatedTail(contents, seps);
      hide Separated;
      var rest := Render(contents[1..], seps[1..]);
      MatchesOfRendered(contents[1..], seps[1..]);
      ScanRendered(seps[0], contents[0], rest);
      assert contents == [contents[0]] + contents[1..];
    }
  }

  lemma SeparatedTail(contents: seq<string>, seps: seq<string>)
    requires Separated(contents, seps) && contents != []
    ensures Separated(contents[1..], seps[1..])
    ensures Absent(seps[0], OPEN) && Absent(contents[0], CLOSE) && |seps| == |contents| + 1
  {
    hide At, Absent, IsMatch;
    assert seps[1..][|contents| - 1] == seps[|contents|];
  }

  lemma {:induction false} KeptTrimmed(plans: seq<string>)
    requires forall p :: p in plans ==> p != "" && Trimmed(p)
    ensures Kept(plans) == plans
    decreases |plans|
  {
    hide Trim, Trimmed;
    if plans != [] {
      var init, last := plans[..|plans| - 1], plans[|plans| - 1];
      assert last in plans && forall p :: p in init ==> p in plans;
      TrimTrimmed(last);
      assert Kept(plans) == Kept(init) + [last];
      hide Kept;
      KeptTrimmed(init);
      assert plans == init + [last];
    }
  }

  /** Plans written between tags come back exactly, whatever free text separates them. */
  lemma ParseRoundTrip(plans: seq<string>, seps: seq<string>)
    requires Separated(plans, seps)
    requires forall p :: p in plans ==> p != "" && Trimmed(p)
    ensures Kept(Matches(Render(plans, seps))) == plans
  {
    MatchesOfRendered(plans, seps);
    KeptTrimmed(plans);
  }

  /** Every text is such a rendering of what the parser finds in it, and of nothing else. */
  lemma {:induction false} EveryTextIsRendered(text: string) returns (seps: seq<string>)
    ensures Separated(Matches(text), seps) && Render(Matches(text), seps) == text
    decreases |text|
  {
    ScanIsReported(text);
    hide Scan, At, Find;
    match Scan(text)
    case None =>
      seps := [text];
    case Some((i, j)) =>
      var inner := text[i + |OPEN|..j];
      var rest := text[j + |CLOSE|..];
      var tail := EveryTextIsRendered(rest);
      seps := [text[..i]] + tail;
      SplitAtMatch(text, i, j);
      assert Matches(text) == [inner] + Matches(rest);
      assert Matches(text)[1..] == Matches(rest) && seps[1..] == tail;
  }

  lemma SplitAtMatch(text: string, i: nat, j: nat)
    requires Scan(text) == Some((i, j))
    ensures Absent(text[..i], OPEN) && Absent(text[i + |OPEN|..j], CLOSE)
    ensures text == text[..i] + OPEN + text[i + |OPEN|..j] + CLOSE + text[j + |CLOSE|..]
  {
    var inner := text[i + |OPEN|..];
    var d := j - (i + |OPEN|);
    assert text[i + |OPEN|..j] == inner[..d];
    FirstSplits(text, OPEN, i);
    FirstSplits(inner, CLOSE, d);
    hide At, Absent, Find;
    assert inner[d + |CLOSE|..] == text[j + |CLOSE|..];
    Regroup(text[..i], inner[..d], text[j + |CLOSE|..]);
  }

  lemma Regroup(a: string, m: string, z: string)
    ensures a + OPEN + (m + CLOSE + z) == a + OPEN + m + CLOSE + z
  {
  }

  lemma FoundAt(text: string, tag: string, i: nat)
    requires Find(text, tag) == Some(i)
    ensures i + |tag| <= |text| && text == text[..i] + tag + text[i + |tag|..]
    ensures forall k: nat :: k < i ==> !At(text, tag, k)
  {
    hide Find;
    assert text == text[..i] + text[i..i + |tag|] + text[i + |tag|..];
  }

  lemma FirstSplits(text: string, tag: string, i: nat)
    requires Find(text, tag) == Some(i) && tag != ""
    ensures Absent(text[..i], tag)
    ensures text == text[..i] + tag + text[i + |tag|..]
  {
    FoundAt(text, tag, i);
    hide Find;
    forall k: nat | k <= i ensures !At(text[..i], tag, k) {
      if k + |tag| <= i {
        assert text[..i][k..k + |tag|] == text[k..k + |tag|];
        assert !At(text, tag, k);
      }
    }
  }
}
