/** Positional numerals: values, shortest digit strings, and conversion between bases. */
module Radix {

  /** The number written by `digits`, most significant digit first. */
  function Value(base: nat, digits: seq<nat>): nat {
    if digits == [] then 0
    else Value(base, digits[..|digits| - 1]) * base + digits[|digits| - 1]
  }

  /** The shortest numeral of `n`, most significant digit first; zero has no digits. */
  function Digits(base: nat, n: nat): (ds: seq<nat>)
    requires 2 <= base
    ensures forall i :: 0 <= i < |ds| ==> ds[i] < base
    ensures ds != [] ==> ds[0] != 0
    ensures ds == [] <==> n == 0
    decreases n
  {
    if n == 0 then [] else
      QuotientShrinks(base, n);
      Digits(base, n / base) + [n % base]
  }

  function DigitChar(d: nat): char
    requires d < 10
  {
    '0' + d as char
  }

  /** The decimal numeral of `n`, as strconv.FormatInt writes it. */
  function FormatInt(n: nat): string {
    if n == 0 then "0" else
      var ds := Digits(10, n);
      seq(|ds|, i requires 0 <= i < |ds| => DigitChar(ds[i]))
  }

  ghost predicate InBase(base: nat, digits: seq<nat>) {
    forall i :: 0 <= i < |digits| ==> digits[i] < base
  }

  function LeadingZeros(digits: seq<nat>): (k: nat)
    ensures k <= |digits|
    ensures forall i :: 0 <= i < k ==> digits[i] == 0
    ensures k < |digits| ==> digits[k] != 0
  {
    if digits == [] || digits[0] != 0 then 0 else 1 + LeadingZeros(digits[1..])
  }

  function Zeros(k: nat): (zs: seq<nat>) {
    seq(k, _ => 0)
  }

  /** Rewrites a numeral in another base, keeping one leading zero per leading zero. */
  function Convert(source: nat, target: nat, digits: seq<nat>): (ds: seq<nat>)
    requires 2 <= target
    ensures InBase(target, ds)
  {
    var k := LeadingZeros(digits);
    Zeros(k) + Digits(target, Value(source, digits[k..]))
  }

  function Pow(base: nat, k: nat): nat {
    if k == 0 then 1 else base * Pow(base, k - 1)
  }

  lemma QuotientShrinks(base: nat, n: nat)
    requires 2 <= base && 0 < n
    ensures n / base < n
  {
    Divides(base, n);
    var q := n / base;
    assert q * base == q + q + q * (base - 2);
  }

  lemma Divides(base: nat, n: nat)
    requires 0 < base
    ensures n == (n / base) * base + n % base && n % base < base
  {
  }

  /** Euclid's division is unique. */
  lemma DivModUnique(base: nat, q: nat, r: nat)
    requires r < base
    ensures (q * base + r) / base == q && (q * base + r) % base == r
  {
    var n := q * base + r;
    var d := n / base - q;
    Divides(base, n);
    assert d * base == r - n % base;
    assert d >= 1 ==> d * base >= base;
    assert d <= -1 ==> d * base <= 0 - base;
  }

  lemma QuotientMonotone(base: nat, m: nat, n: nat)
    requires 0 < base && m <= n
    ensures m / base <= n / base
  {
    var a, b := m / base, n / base;
    Divides(base, m);
    Divides(base, n);
    assert a >= b + 1 ==> a * base >= (b + 1) * base == b * base + base;
  }

  lemma {:induction false} ValueOfDigits(base: nat, n: nat)
    requires 2 <= base
    ensures Value(base, Digits(base, n)) == n
    decreases n
  {
    if n != 0 {
      QuotientShrinks(base, n);
      var high, low := Digits(base, n / base), n % base;
      ValueOfDigits(base, n / base);
      ValueSnoc(base, high, low);
      Divides(base, n);
    }
  }

  lemma ValueSnoc(base: nat, high: seq<nat>, low: nat)
    ensures Value(base, high + [low]) == Value(base, high) * base + low
  {
    assert (high + [low])[..|high|] == high;
  }

  lemma DigitsSnoc(base: nat, q: nat, r: nat)
    requires 2 <= base && r < base && (q != 0 || r != 0)
    ensures Digits(base, q * base + r) == Digits(base, q) + [r]
  {
    DivModUnique(base, q, r);
    assert q * base >= 0;
    assert q != 0 ==> q * base >= base;
  }

  lemma {:induction false} DigitsOfValue(base: nat, digits: seq<nat>)
    requires 2 <= base && InBase(base, digits)
    requires digits != [] ==> digits[0] != 0
    ensures Digits(base, Value(base, digits)) == digits
  {
    if digits != [] {
      var high, low := digits[..|digits| - 1], digits[|digits| - 1];
      DigitsOfValue(base, high);
      assert high == [] ==> low != 0;
      DigitsSnoc(base, Value(base, high), low);
      assert digits == high + [low];
    }
  }

  lemma {:induction false} ValueAppend(base: nat, a: seq<nat>, b: seq<nat>)
    ensures Value(base, a + b) == Value(base, a) * Pow(base, |b|) + Value(base, b)
  {
    if b == [] {
      assert a + b == a;
    } else {
      var b', d := b[..|b| - 1], b[|b| - 1];
      assert a + b == (a + b') + [d];
      ValueAppend(base, a, b');
      ValueSnoc(base, a + b', d);
      Horner(Value(base, a), Pow(base, |b'|), base, Value(base, b'), d);
    }
  }

  lemma Horner(a: nat, p: nat, base: nat, b: nat, d: nat)
    ensures (a * p + b) * base + d == a * (base * p) + (b * base + d)
  {
  }

  lemma {:induction false} ValueBound(base: nat, digits: seq<nat>)
    requires 1 <= base && InBase(base, digits)
    ensures Value(base, digits) < Pow(base, |digits|)
  {
    if digits != [] {
      var high, low := digits[..|digits| - 1], digits[|digits| - 1];
      ValueBound(base, high);
      BoundStep(base, Value(base, high), low, Pow(base, |high|));
    }
  }

  lemma BoundStep(base: nat, v: nat, low: nat, p: nat)
    requires v < p && low < base
    ensures v * base + low < base * p
  {
    assert (v + 1) * base <= p * base;
  }

  lemma {:induction false} ValueOfZeros(base: nat, k: nat, rest: seq<nat>)
    ensures Value(base, Zeros(k) + rest) == Value(base, rest)
  {
    ValueAppend(base, Zeros(k), rest);
    if k == 0 {
      assert Zeros(k) + rest == rest;
    } else {
      ValueOfZeros(base, k - 1, []);
      assert Zeros(k)[..k - 1] == Zeros(k - 1) == Zeros(k - 1) + [];
      assert Value(base, Zeros(k)) == 0;
    }
  }

  lemma {:induction false} LeadingZerosOfPadded(k: nat, rest: seq<nat>)
    requires rest != [] ==> rest[0] != 0
    ensures LeadingZeros(Zeros(k) + rest) == k
  {
    if k != 0 {
      assert (Zeros(k) + rest)[1..] == Zeros(k - 1) + rest;
      LeadingZerosOfPadded(k - 1, rest);
    } else {
      assert Zeros(k) + rest == rest;
    }
  }

  lemma {:induction false} DigitsMonotone(base: nat, m: nat, n: nat)
    requires 2 <= base && m <= n
    ensures |Digits(base, m)| <= |Digits(base, n)|
    decreases m
  {
    if m != 0 {
      QuotientShrinks(base, m);
      QuotientMonotone(base, m, n);
      DigitsMonotone(base, m / base, n / base);
    }
  }

  lemma ConvertPadded(source: nat, target: nat, k: nat, rest: seq<nat>)
    requires 2 <= target && (rest != [] ==> rest[0] != 0)
    ensures Convert(source, target, Zeros(k) + rest) == Zeros(k) + Digits(target, Value(source, rest))
  {
    LeadingZerosOfPadded(k, rest);
    assert (Zeros(k) + rest)[k..] == rest;
  }

  /** Converting there and back is the identity, between any two bases. */
  lemma ConvertRoundTrip(source: nat, target: nat, digits: seq<nat>)
    requires 2 <= source && 2 <= target && InBase(source, digits)
    ensures Convert(target, source, Convert(source, target, digits)) == digits
  {
    var k := LeadingZeros(digits);
    var rest := digits[k..];
    var v := Value(source, rest);
    assert digits == Zeros(k) + rest;
    ConvertPadded(source, target, k, rest);
    ConvertPadded(target, source, k, Digits(target, v));
    ValueOfDigits(target, v);
    DigitsOfValue(source, rest);
  }

  /** A number in [c * base^k, (c + 1) * base^k) starts with the digits of c. */
  lemma {:induction false} DigitsPrefix(base: nat, v: nat, c: nat, k: nat)
    requires 2 <= base && 0 < c
    requires c * Pow(base, k) <= v < (c + 1) * Pow(base, k)
    ensures |Digits(base, v)| == |Digits(base, c)| + k
    ensures Digits(base, v)[..|Digits(base, c)|] == Digits(base, c)
    decreases k
  {
    hide Digits;
    if k == 0 {
      assert v == c;
    } else {
      var p, w := Pow(base, k - 1), v / base;
      PowPositive(base, k - 1);
      Horner(c, p, base, 0, 0);
      Horner(c + 1, p, base, 0, 0);
      QuotientInRange(base, v, c * p, (c + 1) * p);
      DigitsPrefix(base, w, c, k - 1);
      assert 0 < v;
      DigitsStep(base, v);
    }
  }

  lemma DigitsStep(base: nat, v: nat)
    requires 2 <= base && 0 < v
    ensures v / base < v
    ensures Digits(base, v) == Digits(base, v / base) + [v % base]
  {
    QuotientShrinks(base, v);
  }

  lemma QuotientInRange(base: nat, v: nat, low: nat, high: nat)
    requires 0 < base && low * base <= v < high * base
    ensures low <= v / base < high
  {
    Divides(base, v);
    var w := v / base;
    assert w < low ==> (w + 1) * base <= low * base;
    assert w >= high ==> w * base >= high * base;
  }

  lemma PowOne(base: nat)
    ensures Pow(base, 1) == base
  {
  }

  lemma {:induction false} PowSum(base: nat, j: nat, k: nat)
    ensures Pow(base, j + k) == Pow(base, j) * Pow(base, k)
  {
    if j != 0 {
      PowSum(base, j - 1, k);
      Horner(Pow(base, j - 1), Pow(base, k), base, 0, 0);
      assert base * Pow(base, j - 1) * Pow(base, k) == base * (Pow(base, j - 1) * Pow(base, k));
    }
  }

  lemma {:induction false} PowPositive(base: nat, k: nat)
    requires 1 <= base
    ensures 1 <= Pow(base, k)
  {
    if k != 0 {
      PowPositive(base, k - 1);
    }
  }
}
