/** The base58 / multibase encoder of actor keys (src/internal/common/control_user_actor.go),
    with a decoder against which it is inverted. */
module Base58 {
  import opened Radix
  import opened Sequences
  import opened Wrappers

  type Byte = x: nat | x < 256

  // The alphabet: six runs of consecutive characters.
  const DIGITS := "123456789"
  const A_TO_H := "ABCDEFGH"
  const J_TO_N := "JKLMN"
  const P_TO_Z := "PQRSTUVWXYZ"
  const LOWER_A_TO_K := "abcdefghijk"
  const LOWER_M_TO_Z := "mnopqrstuvwxyz"
  const ALPHABET: string := DIGITS + A_TO_H + J_TO_N + P_TO_Z + LOWER_A_TO_K + LOWER_M_TO_Z

  // ---------------------------------------------------------------- specification

  function Letters(digits: seq<nat>): (s: string)
    requires InBase(58, digits)
    ensures |s| == |digits|
  {
    seq(|digits|, i requires 0 <= i < |digits| => ALPHABET[digits[i]])
  }

  /** What the encoder must produce: the base-58 numeral of the bytes, in letters. */
  function Encode(bytes: seq<Byte>): string {
    Letters(Convert(256, 58, bytes))
  }

  function IndexOf(s: string, c: char): (r: Option<nat>)
    ensures r.Some? ==> r.value < |s| && s[r.value] == c
    ensures r.None? ==> c !in s
  {
    if s == "" then None
    else if s[0] == c then Some(0)
    else match IndexOf(s[1..], c) case None => None case Some(i) => Some(i + 1)
  }

  ghost predicate IsBase58(text: string) {
    forall i :: 0 <= i < |text| ==> text[i] in ALPHABET
  }

  function Indices(text: string): (digits: seq<nat>)
    requires IsBase58(text)
    ensures InBase(58, digits) && |digits| == |text|
    ensures Letters(digits) == text
  {
    seq(|text|, i requires 0 <= i < |text| => IndexOf(ALPHABET, text[i]).value)
  }

  /** The decoder of the model: the program itself only encodes. */
  function Decode(text: string): seq<Byte>
    requires IsBase58(text)
  {
    Convert(58, 256, Indices(text))
  }

  function LeadingOnes(text: string): nat {
    if text == "" || text[0] != '1' then 0 else 1 + LeadingOnes(text[1..])
  }

  // ---------------------------------------------------------------- the code is a bijection

  predicate Run(s: string, first: char) {
    forall i :: 0 <= i < |s| ==> s[i] as int == first as int + i
  }

  lemma AlphabetRuns()
    ensures Run(DIGITS, '1') && Run(A_TO_H, 'A') && Run(J_TO_N, 'J') && Run(P_TO_Z, 'P')
    ensures Run(LOWER_A_TO_K, 'a') && Run(LOWER_M_TO_Z, 'm')
  {
  }

  lemma AlphabetIncreasing(i: nat, j: nat)
    requires i < j < 58
    ensures ALPHABET[i] < ALPHABET[j]
  {
    AlphabetRuns();
  }

  lemma RunMembers(s: string, first: char, c: char)
    requires Run(s, first)
    ensures c in s <==> first as int <= c as int < first as int + |s|
  {
    if first as int <= c as int < first as int + |s| {
      assert s[c as int - first as int] == c;
    }
  }

  /** The increasing alphabet holds every digit and letter but 0, O, I and l. */
  lemma AlphabetExact(c: char)
    ensures |ALPHABET| == 58
    ensures c in ALPHABET <==>
              || ('1' <= c <= '9') || ('A' <= c <= 'Z' && c != 'I' && c != 'O') || ('a' <= c <= 'z' && c != 'l')
  {
    AlphabetRuns();
    RunMembers(DIGITS, '1', c);
    RunMembers(A_TO_H, 'A', c);
    RunMembers(J_TO_N, 'J', c);
    RunMembers(P_TO_Z, 'P', c);
    RunMembers(LOWER_A_TO_K, 'a', c);
    RunMembers(LOWER_M_TO_Z, 'm', c);
    hide Run;
  }

  /** No letter occurs twice in the alphabet. */
  lemma AlphabetDistinct(d: nat)
    requires d < 58
    ensures IndexOf(ALPHABET, ALPHABET[d]) == Some(d)
  {
    var i := IndexOf(ALPHABET, ALPHABET[d]).value;
    if i < d {
      AlphabetIncreasing(i, d);
    } else if d < i {
      AlphabetIncreasing(d, i);
    }
  }

  lemma IndicesOfLetters(digits: seq<nat>)
    requires InBase(58, digits)
    ensures IsBase58(Letters(digits)) && Indices(Letters(digits)) == digits
  {
    forall i | 0 <= i < |digits|
      ensures Letters(digits)[i] in ALPHABET && IndexOf(ALPHABET, Letters(digits)[i]) == Some(digits[i])
    {
      AlphabetDistinct(digits[i]);
    }
  }

  lemma DecodeEncode(bytes: seq<Byte>)
    ensures IsBase58(Encode(bytes)) && Decode(Encode(bytes)) == bytes
  {
    IndicesOfLetters(Convert(256, 58, bytes));
    ConvertRoundTrip(256, 58, bytes);
  }

  lemma EncodeDecode(text: string)
    requires IsBase58(text)
    ensures Encode(Decode(text)) == text
  {
    ConvertRoundTrip(58, 256, Indices(text));
  }

  lemma EncodeInjective(a: seq<Byte>, b: seq<Byte>)
    requires Encode(a) == Encode(b)
    ensures a == b
  {
    DecodeEncode(a);
    DecodeEncode(b);
  }

  lemma OnlyZeroIsOne(d: nat)
    requires d < 58
    ensures ALPHABET[d] == '1' <==> d == 0
  {
    if d != 0 {
      AlphabetIncreasing(0, d);
    }
  }

  lemma {:induction false} LeadingOnesOfLetters(digits: seq<nat>)
    requires InBase(58, digits)
    ensures LeadingOnes(Letters(digits)) == LeadingZeros(digits)
  {
    if digits != [] {
      OnlyZeroIsOne(digits[0]);
      assert Letters(digits)[1..] == Letters(digits[1..]);
      LeadingOnesOfLetters(digits[1..]);
    }
  }

  /** Exactly one leading '1' per leading zero byte. */
  lemma LeadingOnesCountZeros(bytes: seq<Byte>)
    ensures LeadingOnes(Encode(bytes)) == LeadingZeros(bytes)
  {
    var k := LeadingZeros(bytes);
    LeadingOnesOfLetters(Convert(256, 58, bytes));
    LeadingZerosOfPadded(k, Digits(58, Value(256, bytes[k..])));
  }

  /** Two base-58 digits hold more than one byte, so `2 * len` slots are enough. */
  lemma {:induction false} DigitsFit(bytes: seq<Byte>)
    ensures |Digits(58, Value(256, bytes))| <= 2 * |bytes|
  {
    if bytes != [] {
      var high := Value(256, bytes[..|bytes| - 1]);
      var v := Value(256, bytes);
      DigitsFit(bytes[..|bytes| - 1]);
      DigitsMonotone(58, v / 58 / 58, high);
      assert |Digits(58, v)| <= 1 + |Digits(58, v / 58)| <= 2 + |Digits(58, v / 58 / 58)|;
    }
  }

  lemma EncodeLength(bytes: seq<Byte>)
    ensures |Encode(bytes)| <= 2 * |bytes| - LeadingZeros(bytes)
  {
    DigitsFit(bytes[LeadingZeros(bytes)..]);
  }

  // ---------------------------------------------------------------- the encoder


  /** One pass of the inner loop: divides buf[start..] by 58 in place. */
  method DivideInPlace(buf: array<Byte>, start: nat) returns (remainder: nat)
    requires start <= buf.Length
    modifies buf
    ensures buf[..start] == old(buf[..start])
    ensures Value(256, buf[start..]) == Value(256, old(buf[start..])) / 58
    ensures remainder == Value(256, old(buf[start..])) % 58
  {
    hide Value, Dividing;
    remainder := 0;
    ghost var before := buf[..];
    DividingBegins(before, start);
    for i := start to buf.Length
      invariant Dividing(before, buf[..], start, i, remainder)
    {
      ghost var now := buf[..];
      DividingStep(before, now, start, i, remainder);
      var value := buf[i] + remainder * 256;
      assert value <= 57 * 256 + 255;
      buf[i] := (value / 58) % 256;  // the conversion to byte; nothing is cut off
      remainder := value % 58;
      assert buf[..] == now[i := (value / 58) % 256];
    }
    DividingEnds(before, buf[..], start, remainder);
    assert before[start..] == old(buf[start..]) && before[..start] == old(buf[..start]);
    assert buf[..][start..] == buf[start..] && buf[..][..start] == buf[..start];
  }

  predicate Divided(quotient: nat, remainder: nat, dividend: nat) {
    remainder < 58 && quotient * 58 + remainder == dividend
  }

  /** The division of before[start..] with the bytes before `i` done: their value has been divided, the
      rest of the buffer is untouched. */
  ghost predicate Dividing(before: seq<Byte>, now: seq<Byte>, start: nat, i: nat, remainder: nat) {
    && start <= i <= |now| == |before|
    && now[..start] == before[..start] && now[i..] == before[i..]
    && Divided(Value(256, now[start..i]), remainder, Value(256, before[start..i]))
  }

  lemma DividingBegins(before: seq<Byte>, start: nat)
    requires start <= |before|
    ensures Dividing(before, before, start, start, 0)
  {
    EmptyValue(before[start..start]);
  }

  lemma DividingStep(before: seq<Byte>, now: seq<Byte>, start: nat, i: nat, remainder: nat)
    requires Dividing(before, now, start, i, remainder) && i < |now|
    ensures var value := now[i] + remainder * 256;
            && value <= 57 * 256 + 255 && (value / 58) % 256 == value / 58
            && Dividing(before, now[i := (value / 58) % 256], start, i + 1, value % 58)
  {
    hide Value, Divided;
    var byte := now[i];
    assert byte == now[i..][0] == before[i..][0] == before[i];
    ByteDivided(Value(256, now[start..i]), remainder, Value(256, before[start..i]), byte);
    var next: Byte := ((byte + remainder * 256) / 58) % 256;
    SetByte(now, start, i, next);
    assert before[start..i + 1] == before[start..i] + [byte] && before[i + 1..] == before[i..][1..];
    ValueSnoc(256, now[start..i], next);
    ValueSnoc(256, before[start..i], byte);
  }

  lemma SetByte(now: seq<Byte>, start: nat, i: nat, next: Byte)
    requires start <= i < |now|
    ensures var after := now[i := next];
            && after[..start] == now[..start] && after[i + 1..] == now[i..][1..]
            && after[start..i + 1] == now[start..i] + [next]
  {
  }

  lemma DividingEnds(before: seq<Byte>, now: seq<Byte>, start: nat, remainder: nat)
    requires Dividing(before, now, start, |now|, remainder)
    ensures now[..start] == before[..start]
    ensures Value(256, now[start..]) == Value(256, before[start..]) / 58
    ensures remainder == Value(256, before[start..]) % 58
  {
    hide Value;
    assert now[start..|now|] == now[start..] && before[start..|now|] == before[start..];
  }

  /** One byte of the division: no intermediate exceeds 57 * 256 + 255, and the quotient is a byte. */
  lemma ByteDivided(quotient: nat, remainder: nat, dividend: nat, byte: Byte)
    requires Divided(quotient, remainder, dividend)
    ensures var value := byte + remainder * 256;
            && value <= 57 * 256 + 255 && value / 58 < 256 && (value / 58) % 256 == value / 58
            && Divided(quotient * 256 + value / 58, value % 58, dividend * 256 + byte)
  {
    var value := byte + remainder * 256;
    assert value == (value / 58) * 58 + value % 58;
  }

  /** Drops the zero bytes that a division leaves in front. */
  method SkipZeros(buf: array<Byte>, from: nat) returns (start: nat)
    requires from <= buf.Length
    ensures from <= start <= buf.Length
    ensures start < buf.Length ==> buf[start] != 0
    ensures Value(256, buf[start..]) == Value(256, buf[from..])
  {
    start := from;
    while start < buf.Length && buf[start] == 0
      invariant from <= start <= buf.Length
      invariant Value(256, buf[start..]) == Value(256, buf[from..])
    {
      ValueSkipsZero(buf[start..]);
      assert buf[start..][1..] == buf[start + 1..];
      start := start + 1;
    }
  }

  method CountZeros(input: seq<Byte>) returns (zeros: nat)
    ensures zeros == LeadingZeros(input)
  {
    zeros := 0;
    while zeros < |input| && input[zeros] == 0
      invariant zeros <= |input|
      invariant LeadingZeros(input) == zeros + LeadingZeros(input[zeros..])
    {
      assert input[zeros..][1..] == input[zeros + 1..];
      zeros := zeros + 1;
    }
  }

  method ReverseInPlace(a: array<char>, n: nat)
    requires n <= a.Length
    modifies a
    ensures a[..n] == Reversed(old(a[..n]))
  {
    var i, j: int := 0, n - 1;
    while i < j
      invariant 0 <= i && i + j == n - 1 && i <= j + 2
      invariant forall k :: 0 <= k < n ==> a[k] == if k < i || j < k then old(a[n - 1 - k]) else old(a[k])
    {
      a[i], a[j] := a[j], a[i];
      i, j := i + 1, j - 1;
    }
  }

  /** Appends one '1' per leading zero byte and turns the collected letters round. */
  method Finish(out: array<char>, collected: nat, zeros: nat, ghost low: seq<nat>) returns (s: string)
    requires InBase(58, low) && |low| == collected && collected + zeros <= out.Length
    requires out[..collected] == Reversed(Letters(low))
    modifies out
    ensures s == Letters(Zeros(zeros) + low)
  {
    var n := collected;
    ghost var digits := low;
    assert digits == Zeros(0) + low;
    for i := 0 to zeros
      invariant n == collected + i
      invariant InBase(58, digits) && digits == Zeros(i) + low
      invariant out[..n] == Reversed(Letters(digits))
    {
      LettersPrepend(0, digits);
      digits := [0] + digits;
      assert digits == Zeros(i + 1) + low;
      out[n] := ALPHABET[0];
      n := n + 1;
    }
    ReverseInPlace(out, n);
    s := out[..n];
  }

  /** Repeated division: collects the base-58 digits of buf[zeros..], lowest first.
      The value left in the buffer is the measure. */
  method CollectDigits(buf: array<Byte>, zeros: nat, out: array<char>) returns (n: nat, ghost low: seq<nat>)
    requires zeros <= buf.Length && |Digits(58, Value(256, buf[zeros..]))| <= out.Length
    requires zeros < buf.Length ==> buf[zeros] != 0
    modifies buf, out
    ensures low == Digits(58, old(Value(256, buf[zeros..])))
    ensures n == |low| <= out.Length && out[..n] == Reversed(Letters(low))
  {
    hide Value, Digits, Letters, Reversed;
    n, low := 0, [];
    var start := zeros;
    ghost var target := Digits(58, Value(256, buf[zeros..]));
    while start < buf.Length
      invariant zeros <= start <= buf.Length
      invariant start < buf.Length ==> buf[start] != 0
      invariant InBase(58, low) && |low| == n
      invariant target == Digits(58, Value(256, buf[start..])) + low
      invariant out[..n] == Reversed(Letters(low))
      decreases Value(256, buf[start..])
    {
      ghost var v := Value(256, buf[start..]);
      LeadingDigitPositive(buf[start..]);
      var remainder := DivideInPlace(buf, start);
      LettersPrepend(remainder, low);
      DivisionStep(v, low);
      low := [remainder] + low;
      out[n] := ALPHABET[remainder];
      n := n + 1;
      start := SkipZeros(buf, start);
    }
    EmptyNumeral(buf[start..]);
  }

  method Base58EncodeRaw(input: seq<Byte>) returns (s: string)
    ensures s == Encode(input)
    ensures |s| <= 2 * |input|
  {
    if |input| == 0 {
      return "";
    }
    var zeros := CountZeros(input);
    var buf := new Byte[|input|](i requires 0 <= i < |input| => input[i]);
    assert buf[zeros..] == input[zeros..];
    var out := new char[|input| * 2];
    DigitsFit(input[zeros..]);
    var n, low := CollectDigits(buf, zeros, out);
    s := Finish(out, n, zeros, low);
    EncodeLength(input);
  }

  // ---------------------------------------------------------------- actor keys

  /** The multicodec prefix of an Ed25519 public key. */
  const ED25519: seq<Byte> := [0xed, 0x01]

  ghost function Multibase(publicKey: seq<Byte>): string {
    "z" + Encode(ED25519 + publicKey)
  }

  method Ed25519PublicKeyToMultibase(publicKey: seq<Byte>) returns (s: string)
    ensures s == Multibase(publicKey)
  {
    var encoded := Base58EncodeRaw(ED25519 + publicKey);
    s := "z" + encoded;
  }

  lemma MultibaseRecoversKey(publicKey: seq<Byte>)
    ensures var text := Multibase(publicKey)[1..];
            IsBase58(text) && Decode(text) == ED25519 + publicKey
  {
    assert Multibase(publicKey)[1..] == Encode(ED25519 + publicKey);
    DecodeEncode(ED25519 + publicKey);
  }

  /** Every 32-byte key gets 48 letters that start with "z6Mk". */
  lemma MultibaseShape(publicKey: seq<Byte>)
    requires |publicKey| == 32
    ensures |Multibase(publicKey)| == 48 && Multibase(publicKey)[..4] == "z6Mk"
  {
    var bytes := ED25519 + publicKey;
    var digits := Digits(58, Value(256, bytes));
    hide Digits, Value;
    KeyDigits(publicKey);
    assert bytes[0] != 0 && bytes[LeadingZeros(bytes)..] == bytes;
    assert Convert(256, 58, bytes) == digits;
    FirstLetters(digits);
    hide Letters, Convert;
    assert Encode(bytes) == Letters(digits);
  }

  lemma FirstLetters(digits: seq<nat>)
    requires InBase(58, digits) && |digits| == 47 && digits[0] == 5 && digits[1] == 20 && digits[2] == 43
    ensures ("z" + Letters(digits))[..4] == "z6Mk"
  {
    assert ALPHABET[5] == '6' && ALPHABET[20] == 'M' && ALPHABET[43] == 'k';
    var text := "z" + Letters(digits);
    assert text[0] == 'z' && text[1] == '6' && text[2] == 'M' && text[3] == 'k';
  }

  lemma KeyDigits(publicKey: seq<Byte>)
    requires |publicKey| == 32
    ensures var digits := Digits(58, Value(256, ED25519 + publicKey));
            |digits| == 47 && digits[0] == 5 && digits[1] == 20 && digits[2] == 43
  {
    hide Value, Digits, Pow;
    var v := Value(256, ED25519 + publicKey);
    KeyValueRange(publicKey);
    LeadingTriple();
    DigitsPrefix(58, v, LEAD, 44);
    var lead := Digits(58, v)[..3];
    assert lead[0] == 5 && lead[1] == 20 && lead[2] == 43;
  }

  const LEAD: nat := (5 * 58 + 20) * 58 + 43

  lemma LeadingTriple()
    ensures Digits(58, LEAD) == [5, 20, 43]
  {
    DigitsSnoc(58, 0, 5);
    DigitsSnoc(58, 5, 20);
    DigitsSnoc(58, 5 * 58 + 20, 43);
  }

  lemma KeyValueRange(publicKey: seq<Byte>)
    requires |publicKey| == 32
    ensures LEAD * Pow(58, 44) <= Value(256, ED25519 + publicKey) < (LEAD + 1) * Pow(58, 44)
  {
    hide Value, Pow;
    ValueAppend(256, ED25519, publicKey);
    ValueBound(256, publicKey);
    PrefixValue();
    BoundaryPowers();
  }

  lemma PrefixValue()
    ensures Value(256, ED25519) == 0xed01
  {
    assert ED25519 == [0xed] + [0x01] && [0xed] == [] + [0xed];
    ValueSnoc(256, [], 0xed);
    ValueSnoc(256, [0xed], 0x01);
  }

  /** 58^44 and 256^32, by repeated squaring. */
  lemma BoundaryPowers()
    ensures LEAD * Pow(58, 44) <= 0xed01 * Pow(256, 32)
    ensures 0xed02 * Pow(256, 32) <= (LEAD + 1) * Pow(58, 44)
  {
    hide Pow;
    PowOne(58);
    PowSum(58, 1, 1); PowSum(58, 2, 2); PowSum(58, 4, 1); PowSum(58, 5, 5);
    PowSum(58, 10, 1); PowSum(58, 11, 11); PowSum(58, 22, 22);
    PowOne(256);
    PowSum(256, 1, 1); PowSum(256, 2, 2); PowSum(256, 4, 4); PowSum(256, 8, 8); PowSum(256, 16, 16);
  }

  // ---------------------------------------------------------------- steps of the loops

  lemma EmptyValue(digits: seq<nat>)
    requires digits == []
    ensures Value(256, digits) == 0
  {
  }

  lemma EmptyNumeral(digits: seq<nat>)
    requires digits == []
    ensures Digits(58, Value(256, digits)) == []
  {
  }

  lemma DivisionStep(v: nat, low: seq<nat>)
    requires 0 < v
    ensures v / 58 < v
    ensures Digits(58, v) + low == Digits(58, v / 58) + ([v % 58] + low)
  {
    hide *;
    var high, last := Digits(58, v / 58), [v % 58];
    DigitsStep(58, v);
    assert high + last + low == high + (last + low);
  }

  lemma LeadingDigitPositive(digits: seq<nat>)
    requires digits != [] && digits[0] != 0
    ensures Value(256, digits) > 0
  {
  }

  lemma ValueSkipsZero(digits: seq<nat>)
    requires digits != [] && digits[0] == 0
    ensures Value(256, digits[1..]) == Value(256, digits)
  {
    assert digits == Zeros(1) + digits[1..];
    ValueOfZeros(256, 1, digits[1..]);
  }

  lemma LettersPrepend(d: nat, digits: seq<nat>)
    requires d < 58 && InBase(58, digits)
    ensures Reversed(Letters([d] + digits)) == Reversed(Letters(digits)) + [ALPHABET[d]]
  {
  }
}
