/** The cursor parameters of the notification API (src/cmd/web/pagination.go). */
module Pagination {
  import opened Notifications
  import opened Radix
  import opened Text
  import opened Wrappers

  const MAX_INT64: int := 0x7FFF_FFFF_FFFF_FFFF

  /** URL query values. */
  type Values = map<string, seq<string>>

  // ---------------------------------------------------------------- numbers in text

  predicate IsDigit(c: char) {
    '0' <= c <= '9'
  }

  function DigitValues(text: string): (ds: seq<nat>)
    requires forall i :: 0 <= i < |text| ==> IsDigit(text[i])
    ensures |ds| == |text|
  {
    seq<nat>(|text|, i requires 0 <= i < |text| && IsDigit(text[i]) => text[i] as int - '0' as int)
  }

  function ParseNat(text: string): Option<nat> {
    if text != "" && (forall i :: 0 <= i < |text| ==> IsDigit(text[i])) then Some(Value(10, DigitValues(text)))
      else None
  }

  /** strconv.ParseInt(text, 10, 64). */
  function ParseInt64(text: string): Option<int> {
    var negative := text != "" && text[0] == '-';
    var body := if text != "" && (text[0] == '-' || text[0] == '+') then text[1..] else text;
    match ParseNat(body)
    case None => None
    case Some(n) =>
      var magnitude: int := n;
      var value := if negative then -magnitude else magnitude;
      if -MAX_INT64 - 1 <= value <= MAX_INT64 then Some(value) else None
  }

  function ParseOptionalPositiveInt64(rawText: string): Result<int, ()> {
    var raw := Trim(rawText);
    if raw == "" then Ok(0) else
      match ParseInt64(raw)
      case None => Err(())
      case Some(value) => if value <= 0 then Err(()) else Ok(value)
  }

  function ParseLimitQuery(rawText: string, defaultValue: int): int {
    var raw := Trim(rawText);
    if raw == "" then defaultValue else
      match ParseInt64(raw)
      case None => defaultValue
      case Some(value) => if value <= 0 then defaultValue else if value > 100 then 100 else value
  }

  // ---------------------------------------------------------------- the link to the next page

  function Get(q: Values, key: string): string {
    if key in q && q[key] != [] then q[key][0] else ""
  }

  /** What the handler asks the store for. */
  function ReadOptions(q: Values): Result<Options, ()> {
    match ParseOptionalPositiveInt64(Get(q, "min_id"))
    case Err(e) => Err(e)
    case Ok(minId) =>
      match ParseOptionalPositiveInt64(Get(q, "max_id"))
      case Err(e) => Err(e)
      case Ok(maxId) => Ok(Options(minId, maxId, ParseLimitQuery(Get(q, "limit"), 20)))
  }

  /** The values of `q` that occur at all. */
  function Occurring(q: Values): Values {
    map k | k in q && q[k] != [] :: q[k]
  }

  /** The query of the link to the next page; none when there is no last id. */
  method NextQuery(query: Values, lastId: int, limit: nat) returns (r: Option<Values>)
    ensures r == if lastId <= 0 then None else Some(Next(query, lastId, limit))
  {
    if lastId <= 0 {
      return None;
    }
    var q: Values := map[];
    var keys := query.Keys;
    while keys != {}
      invariant keys <= query.Keys
      invariant q == map k | k in query && k !in keys && query[k] != [] :: query[k]
      decreases keys
    {
      var key :| key in keys;
      keys := keys - {key};
      var values := query[key];
      ghost var before := q;
      for i := 0 to |values|
        invariant q == if i == 0 then before else before[key := values[..i]]
      {
        assert values[..i + 1] == values[..i] + [values[i]];
        q := q[key := (if key in q then q[key] else []) + [values[i]]];
      }
      assert values[..|values|] == values;
    }
    assert q == Occurring(query);
    q := q - {"min_id"};
    q := q["max_id" := [FormatInt(lastId)]];
    q := q["limit" := [FormatInt(limit)]];
    return Some(q);
  }

  function Next(query: Values, lastId: nat, limit: nat): Values {
    (Occurring(query) - {"min_id"})["max_id" := [FormatInt(lastId)]]["limit" := [FormatInt(limit)]]
  }

  // ---------------------------------------------------------------- following the link

  lemma FormatParses(n: nat)
    ensures ParseNat(FormatInt(n)) == Some(n)
    ensures FormatInt(n) != "" && Trim(FormatInt(n)) == FormatInt(n) && IsDigit(FormatInt(n)[0])
  {
    var text := FormatInt(n);
    if n == 0 {
      assert DigitValues("0") == [0];
      assert Value(10, [0]) == 0;
    } else {
      var ds := Digits(10, n);
      assert DigitValues(text) == ds;
      ValueOfDigits(10, n);
    }
    hide Digits, Value;
    assert Trimmed(text);
    TrimTrimmed(text);
  }

  lemma FormatParsesInt64(n: nat)
    requires n <= MAX_INT64
    ensures FormatInt(n) != "" && ParseInt64(FormatInt(n)) == Some(n)
  {
    FormatParses(n);
    hide FormatInt, ParseNat;
    var text := FormatInt(n);
    assert text != "" && IsDigit(text[0]) && text[0] != '-' && text[0] != '+';
  }

  // ---------------------------------------------------------------- what the parser accepts

  function Noughts(k: nat): string {
    seq(k, _ => '0')
  }

  /** `text` is leading zeros and the shortest digits of `n`. */
  ghost predicate Spells(text: string, n: nat) {
    exists k: nat :: text == Noughts(k) + FormatInt(n)
  }

  lemma PaddedParses(k: nat, n: nat)
    ensures ParseNat(Noughts(k) + FormatInt(n)) == Some(n)
  {
    FormatParses(n);
    var text, plain := Noughts(k) + FormatInt(n), FormatInt(n);
    assert forall i :: 0 <= i < |plain| ==> IsDigit(plain[i]);
    hide FormatInt;
    assert forall i :: 0 <= i < |text| ==> IsDigit(text[i]);
    assert DigitValues(text) == Zeros(k) + DigitValues(plain);
    ValueOfZeros(10, k, DigitValues(plain));
  }

  /** A text is read as the number it spells, and as no number when it spells none. */
  lemma ReadsExactly(text: string, n: nat)
    ensures ParseNat(text) == Some(n) <==> Spells(text, n)
  {
    if ParseNat(text) == Some(n) {
      var ds := DigitValues(text);
      assert InBase(10, ds);
      var k := LeadingZeros(ds);
      var zeros := if k == |ds| then |ds| - 1 else k;
      PaddedDigits(text, zeros, n);
    }
    if k: nat :| text == Noughts(k) + FormatInt(n) {
      PaddedParses(k, n);
    }
  }

  /** `text` is a 64-bit integer in decimal, with or without a sign. */
  ghost predicate Denotes(text: string, v: int) {
    && -0x8000_0000_0000_0000 <= v < 0x8000_0000_0000_0000
    && (|| (0 <= v && Spells(text, v))
        || (0 <= v && text != "" && text[0] == '+' && Spells(text[1..], v))
        || (v <= 0 && text != "" && text[0] == '-' && Spells(text[1..], -v)))
  }

  lemma Int64Exactly(text: string, v: int)
    ensures ParseInt64(text) == Some(v) <==> Denotes(text, v)
  {
    hide ParseNat, Spells;
    if text != "" && (text[0] == '+' || text[0] == '-') {
      ReadsExactly(text[1..], if v < 0 then -v else v);
      if 0 <= v {
        ReadsExactly(text, v);
        NoSign(text);
      }
      var read := ParseNat(text[1..]);
      if read.Some? {
        ReadsExactly(text[1..], read.value);
      }
    } else if 0 <= v {
      ReadsExactly(text, v);
    }
  }

  lemma NoSign(text: string)
    requires text != "" && (text[0] == '+' || text[0] == '-')
    ensures ParseNat(text).None?
  {
    assert !IsDigit(text[0]);
  }

  /** How the cursor and the limit of a query are read: a number below one counts as no limit and is no
      cursor, a limit is at most 100, and a text that is no number leaves the default limit and is refused
      as a cursor unless it is blank. */
  lemma QueryRead(rawText: string, defaultValue: int)
    ensures forall v :: Denotes(Trim(rawText), v) ==>
              && ParseLimitQuery(rawText, defaultValue) == (if v < 1 then defaultValue else if v < 100 then v else 100)
              && ParseOptionalPositiveInt64(rawText) == if v < 1 then Err(()) else Ok(v)
    ensures (forall v :: !Denotes(Trim(rawText), v)) ==>
              && ParseLimitQuery(rawText, defaultValue) == defaultValue
              && ParseOptionalPositiveInt64(rawText) == if Trim(rawText) == "" then Ok(0) else Err(())
  {
    hide ParseInt64, Denotes, Trim;
    var text := Trim(rawText);
    forall v ensures ParseInt64(text) == Some(v) <==> Denotes(text, v) {
      Int64Exactly(text, v);
    }
    if text == "" {
      BlankDenotesNothing();
    }
  }

  lemma BlankDenotesNothing()
    ensures forall v :: !Denotes("", v)
  {
    forall v: nat ensures !Spells("", v) {
      FormatParses(v);
    }
  }

  lemma PaddedDigits(text: string, k: nat, n: nat)
    requires ParseNat(text) == Some(n) && k < |text|
    requires forall i :: 0 <= i < k ==> DigitValues(text)[i] == 0
    requires DigitValues(text)[k] != 0 || k == |text| - 1
    ensures text == Noughts(k) + FormatInt(n)
  {
    hide Digits, Value, FormatInt;
    var ds, tail := DigitValues(text), text[k..];
    assert ds == Zeros(k) + ds[k..];
    ValueOfZeros(10, k, ds[k..]);
    assert forall i :: 0 <= i < |tail| ==> IsDigit(tail[i]);
    assert DigitValues(tail) == ds[k..];
    TailSpells(tail, n);
    assert forall i :: 0 <= i < k ==> DigitValues(text)[i] == text[i] as int - '0' as int;
    assert text[..k] == Noughts(k);
    assert text == text[..k] + tail;
  }

  lemma TailSpells(text: string, n: nat)
    requires text != "" && ParseNat(text) == Some(n) && (DigitValues(text)[0] != 0 || |text| == 1)
    ensures text == FormatInt(n)
  {
    var ds := DigitValues(text);
    if ds[0] == 0 {
      assert ds == [0] && Value(10, []) == 0;
      assert Value(10, ds) == 0;
    } else {
      DigitsOfValue(10, ds);
    }
    hide Digits, Value;
    assert forall i :: 0 <= i < |text| ==> text[i] == DigitChar(ds[i]);
  }

  /** Every parameter but the three of the cursor keeps its whole list of values, and none is added. */
  lemma OthersKept(query: Values, lastId: nat, limit: nat)
    ensures forall k :: k !in {"min_id", "max_id", "limit"} ==>
              && (k in Next(query, lastId, limit) <==> k in query && query[k] != [])
              && (k in Next(query, lastId, limit) ==> Next(query, lastId, limit)[k] == query[k])
  {
    hide FormatInt;
  }

  lemma CursorOf(query: Values, lastId: nat, limit: nat)
    ensures var q := Next(query, lastId, limit);
            Get(q, "max_id") == FormatInt(lastId) && Get(q, "limit") == FormatInt(limit) && Get(q, "min_id") == ""
  {
    hide FormatInt;
    KeysDiffer();
  }

  /** The next page is asked for with the last id as its upper cursor, no lower cursor, and the
      same limit; every other parameter is kept. */
  lemma LinkRoundTrip(query: Values, lastId: nat, limit: nat)
    requires 0 < lastId <= MAX_INT64 && 1 <= limit <= 100
    ensures var q := Next(query, lastId, limit);
            && ReadOptions(q) == Ok(Options(0, lastId, limit))
            && forall k :: k !in {"min_id", "max_id", "limit"} ==>
                 && (k in q <==> k in query && query[k] != [])
                 && (k in q ==> q[k] == query[k])
  {
    hide FormatInt, ParseInt64, Trim, Next, Get;
    FormatParses(lastId);
    FormatParses(limit);
    FormatParsesInt64(lastId);
    FormatParsesInt64(limit);
    OthersKept(query, lastId, limit);
    CursorOf(query, lastId, limit);
    TrimTrimmed("");
  }

  lemma KeysDiffer()
    ensures "min_id" != "max_id" && "min_id" != "limit" && "max_id" != "limit"
  {
    assert "min_id"[1] == 'i' && "max_id"[1] == 'a';
    assert |"limit"| == 5 && |"min_id"| == 6;
  }
}
