/** Service-owned identifiers: 16 bytes printed as 26 base-32 characters that sort by creation time. */
module Ids {
  import opened Positional
  import opened Ordering

  const CROCKFORD := "0123456789ABCDEFGHJKMNPQRSTVWXYZ"

  const TWO_64: nat := 0x1_0000_0000_0000_0000
  const TWO_59: nat := 0x800_0000_0000_0000

  type Byte = n: nat | n < 256
  type Word = n: nat | n < TWO_64

  // ---- the printed form ---------------------------------------------------

  function CrockfordText(digits: seq<nat>): (s: string)
    requires InBase(digits, 32)
    ensures |s| == |digits|
    ensures forall k | 0 <= k < |s| :: s[k] == CROCKFORD[digits[k]]
  {
    seq(|digits|, k requires 0 <= k < |digits| => CROCKFORD[digits[k]])
  }

  /** The 128-bit big-endian integer that 16 bytes spell. */
  function Number(b: seq<Byte>): nat {
    Value(b, 256)
  }

  /** What an id is, by definition: the 26-digit big-endian base-32 form of the 128-bit number. */
  function Printed(b: seq<Byte>): string {
    CrockfordText(Digits(Number(b), 32, 26))
  }

  // ---- the two-halves loop ------------------------------------------------

  /** Bitwise or of two naturals, bit by bit. */
  function BitOr(a: nat, b: nat): nat
    decreases a + b
  {
    if a == 0 && b == 0 then 0
    else 2 * BitOr(a / 2, b / 2) + (if a % 2 == 1 || b % 2 == 1 then 1 else 0)
  }

  function ShiftLeft59(x: Word): Word {
    (x * TWO_59) % TWO_64
  }

  lemma {:induction false} BitOrDisjoint(a: nat, m: nat, k: nat)
    requires a < Pow(2, k)
    ensures BitOr(a, m * Pow(2, k)) == a + m * Pow(2, k)
    decreases k, m
  {
    if k == 0 {
      if m > 0 {
        BitOrDisjoint(0, m / 2, 0);
      }
    } else {
      var half := m * Pow(2, k - 1);
      assert m * Pow(2, k) == 2 * half;
      if a == 0 && half == 0 {
      } else {
        BitOrDisjoint(a / 2, m, k - 1);
      }
    }
  }

  lemma PowerOfTwo59()
    ensures Pow(2, 59) == TWO_59
  {
    assert Pow(2, 9) == 512 && Pow(2, 10) == 1024;
    PowSum(2, 10, 10);
    PowSum(2, 20, 20);
    PowSum(2, 40, 10);
    PowSum(2, 50, 9);
  }

  lemma HighBitsMove(high: Word)
    ensures ShiftLeft59(high) == (high % 32) * TWO_59
  {
    assert high == 32 * (high / 32) + high % 32;
    assert high * TWO_59 == (high / 32) * TWO_64 + (high % 32) * TWO_59;
  }

  /** One turn of the loop divides the 128-bit number held in the two halves by 32. */
  lemma ShiftByFive(high: Word, low: Word)
    ensures BitOr(low / 32, ShiftLeft59(high)) < TWO_64
    ensures (high / 32) * TWO_64 + BitOr(low / 32, ShiftLeft59(high)) == (high * TWO_64 + low) / 32
    ensures (high * TWO_64 + low) % 32 == low % 32
  {
    HighBitsMove(high);
    PowerOfTwo59();
    BitOrDisjoint(low / 32, high % 32, 59);
  }

  /** The number held in the two halves still has the first `n` digits of the target to print. */
  ghost predicate Holds(high: Word, low: Word, target: seq<nat>, n: nat)
    requires n <= |target|
  {
    Digits(high * TWO_64 + low, 32, n) == target[..n]
  }

  function NextLow(high: Word, low: Word): Word {
    ShiftByFive(high, low);
    BitOr(low / 32, ShiftLeft59(high))
  }

  lemma TurnPrintsOneDigit(high: Word, low: Word, target: seq<nat>, i: nat)
    requires i < |target| && Holds(high, low, target, i + 1)
    ensures low % 32 == target[i]
    ensures Holds(high / 32, NextLow(high, low), target, i)
  {
    ShiftByFive(high, low);
    var n := high * TWO_64 + low;
    assert Digits(n, 32, i + 1) == Digits(n / 32, 32, i) + [low % 32];
    assert target[..i + 1][..i] == target[..i] && target[..i + 1][i] == target[i];
  }

  method Encode(b: seq<Byte>) returns (id: string)
    requires |b| == 16
    ensures id == Printed(b)
  {
    var out := new char[26];
    var high: Word := Uint64(b[0..8]);
    var low: Word := Uint64(b[8..16]);
    ghost var target := Digits(Number(b), 32, 26);
    HalvesHoldNumber(b);
    var i := 25;
    while i >= 0
      invariant -1 <= i <= 25
      invariant Holds(high, low, target, i + 1)
      invariant forall k | i < k < 26 :: out[k] == CROCKFORD[target[k]]
    {
      TurnPrintsOneDigit(high, low, target, i);
      out[i] := CROCKFORD[low % 32];
      low := NextLow(high, low);
      high := high / 32;
      i := i - 1;
    }
    id := out[..];
  }

  lemma HalvesHoldNumber(b: seq<Byte>)
    requires |b| == 16
    ensures Holds(Uint64(b[0..8]), Uint64(b[8..16]), Digits(Number(b), 32, 26), 26)
  {
    assert b == b[0..8] + b[8..16];
    ValueConcat(b[0..8], b[8..16], 256);
    assert Pow(256, 8) == TWO_64;
    assert Digits(Number(b), 32, 26)[..26] == Digits(Number(b), 32, 26);
  }

  function Uint64(b: seq<Byte>): (w: Word)
    requires |b| == 8
    ensures w == Value(b, 256)
  {
    ValueBound(b, 256);
    assert Pow(256, 8) == TWO_64;
    Value(b, 256)
  }

  // ---- reading ids back ---------------------------------------------------

  function IndexIn(alphabet: string, c: char): (k: nat)
    requires c in alphabet
    ensures k < |alphabet| && alphabet[k] == c
  {
    if alphabet[0] == c then 0 else 1 + IndexIn(alphabet[1..], c)
  }

  function Decode(s: string): seq<nat>
    requires forall c | c in s :: c in CROCKFORD
  {
    Digits(Value(seq(|s|, k requires 0 <= k < |s| => assert s[k] in s; IndexIn(CROCKFORD, s[k])), 32), 256, 16)
  }

  lemma AlphabetIncreases(i: nat, j: nat)
    requires i < j < 32
    ensures CROCKFORD[i] < CROCKFORD[j]
  {
  }

  lemma NumberBound(b: seq<Byte>)
    requires |b| == 16
    ensures Number(b) < Pow(32, 26) && Number(b) < 8 * Pow(32, 25) && Number(b) < Pow(256, 16)
  {
    ValueBound(b, 256);
    assert Pow(2, 8) == 256 && Pow(2, 5) == 32 && Pow(2, 3) == 8;
    PowOfPow(2, 8, 16);
    PowOfPow(2, 5, 25);
    PowSum(2, 3, 125);
  }

  /** Printing loses nothing: the 16 bytes come back from the 26 characters. */
  lemma DecodePrinted(b: seq<Byte>)
    requires |b| == 16
    ensures forall c | c in Printed(b) :: c in CROCKFORD
    ensures Decode(Printed(b)) == b
  {
    var ds := Digits(Number(b), 32, 26);
    var s := Printed(b);
    forall k | 0 <= k < |s| ensures s[k] in CROCKFORD {
      assert s[k] == CROCKFORD[ds[k]];
    }
    var read := seq(|s|, k requires 0 <= k < |s| => assert s[k] in s; IndexIn(CROCKFORD, s[k]));
    forall k | 0 <= k < |s| ensures read[k] == ds[k] {
      assert s[k] == CROCKFORD[ds[k]] == CROCKFORD[read[k]];
      if read[k] < ds[k] {
        AlphabetIncreases(read[k], ds[k]);
      } else if ds[k] < read[k] {
        AlphabetIncreases(ds[k], read[k]);
      }
    }
    assert read == ds;
    NumberBound(b);
    ValueOfDigits(Number(b), 32, 26);
    DigitsOfValue(b, 256);
  }

  /** The top two of the 130 bits are always zero, so an id never starts past '7'. */
  lemma FirstCharacterAtMostSeven(b: seq<Byte>)
    requires |b| == 16
    ensures |Printed(b)| == 26 && Printed(b)[0] <= '7'
  {
    var ds := Digits(Number(b), 32, 26);
    NumberBound(b);
    ValueOfDigits(Number(b), 32, 26);
    LeadingDigit(ds, 32);
    if ds[0] >= 8 {
      MulMono(8, ds[0], Pow(32, 25));
      assert false;
    }
    AlphabetUpToSeven(ds[0]);
  }

  lemma AlphabetUpToSeven(d: nat)
    requires d < 8
    ensures CROCKFORD[d] <= '7'
  {
  }

  lemma {:induction false} CrockfordKeepsOrder(x: seq<nat>, y: seq<nat>)
    requires |x| == |y|
    requires InBase(x, 32)
    requires InBase(y, 32)
    ensures Before(CrockfordText(x), CrockfordText(y)) <==> Less(x, y)
  {
    if |x| > 0 {
      var s, t := CrockfordText(x), CrockfordText(y);
      if x[0] < y[0] {
        AlphabetIncreases(x[0], y[0]);
      } else if y[0] < x[0] {
        AlphabetIncreases(y[0], x[0]);
      } else {
        CrockfordKeepsOrder(x[1..], y[1..]);
        assert s[1..] == CrockfordText(x[1..]) && t[1..] == CrockfordText(y[1..]);
      }
    }
  }

  /** Ids sort as the bytes they print. */
  lemma PrintedKeepsOrder(b: seq<Byte>, c: seq<Byte>)
    requires |b| == |c| == 16
    ensures Before(Printed(b), Printed(c)) <==> Less(b, c)
  {
    NumberBound(b);
    NumberBound(c);
    ValueOfDigits(Number(b), 32, 26);
    ValueOfDigits(Number(c), 32, 26);
    LessIsValueOrder(b, c, 256);
    LessIsValueOrder(Digits(Number(b), 32, 26), Digits(Number(c), 32, 26), 32);
    CrockfordKeepsOrder(Digits(Number(b), 32, 26), Digits(Number(c), 32, 26));
  }

  // ---- minting ------------------------------------------------------------

  /** `byte(ms >> k)` keeps the low eight bits of the shifted clock. */
  function ByteOf(ms: nat, unit: nat): Byte
    requires unit > 0
  {
    (ms / unit) % 256
  }

  /** The layout `New` fills: a 48-bit big-endian millisecond clock, then ten random bytes. */
  function NewBytes(ms: nat, random: seq<Byte>): (b: seq<Byte>)
    requires |random| == 10
    ensures |b| == 16
  {
    [ByteOf(ms, 0x100_0000_0000), ByteOf(ms, 0x1_0000_0000), ByteOf(ms, 0x100_0000),
     ByteOf(ms, 0x1_0000), ByteOf(ms, 0x100), ByteOf(ms, 1)] + random
  }

  /** A fresh id: six clock bytes, then ten random ones, printed. */
  method New(ms: nat, random: seq<Byte>) returns (id: string)
    requires |random| == 10
    ensures id == Printed(NewBytes(ms, random))
  {
    var b := new Byte[16](_ => 0);
    b[0] := ByteOf(ms, 0x100_0000_0000);
    b[1] := ByteOf(ms, 0x1_0000_0000);
    b[2] := ByteOf(ms, 0x100_0000);
    b[3] := ByteOf(ms, 0x1_0000);
    b[4] := ByteOf(ms, 0x100);
    b[5] := ByteOf(ms, 1);
    for k := 0 to 10
      invariant b[..6] == NewBytes(ms, random)[..6]
      invariant b[6..6 + k] == random[..k]
    {
      b[6 + k] := random[k];
    }
    assert b[..] == b[..6] + b[6..16] && random[..10] == random;
    assert b[..] == NewBytes(ms, random);
    id := Encode(b[..]);
  }

  lemma ClockBytes(ms: nat)
    requires ms < 0x1_0000_0000_0000
    ensures Value([ByteOf(ms, 0x100_0000_0000), ByteOf(ms, 0x1_0000_0000), ByteOf(ms, 0x100_0000),
                   ByteOf(ms, 0x1_0000), ByteOf(ms, 0x100), ByteOf(ms, 1)], 256) == ms
  {
    var q1 := ms / 0x100;
    var q2 := q1 / 0x100;
    var q3 := q2 / 0x100;
    var q4 := q3 / 0x100;
    var q5 := q4 / 0x100;
    ClockQuotients(ms);
    assert Value([q5], 256) == q5 by { assert [q5][..0] == []; }
    ValueSnoc([q5], q4 % 256, 256);
    ValueSnoc([q5, q4 % 256], q3 % 256, 256);
    ValueSnoc([q5, q4 % 256, q3 % 256], q2 % 256, 256);
    ValueSnoc([q5, q4 % 256, q3 % 256, q2 % 256], q1 % 256, 256);
    ValueSnoc([q5, q4 % 256, q3 % 256, q2 % 256, q1 % 256], ms % 256, 256);
    assert [q5] + [q4 % 256] == [q5, q4 % 256];
    assert [q5, q4 % 256] + [q3 % 256] == [q5, q4 % 256, q3 % 256];
    assert [q5, q4 % 256, q3 % 256] + [q2 % 256] == [q5, q4 % 256, q3 % 256, q2 % 256];
    assert [q5, q4 % 256, q3 % 256, q2 % 256] + [q1 % 256] == [q5, q4 % 256, q3 % 256, q2 % 256, q1 % 256];
    assert [q5, q4 % 256, q3 % 256, q2 % 256, q1 % 256] + [ms % 256]
        == [q5, q4 % 256, q3 % 256, q2 % 256, q1 % 256, ms % 256];
  }

  lemma ClockQuotients(ms: nat)
    requires ms < 0x1_0000_0000_0000
    ensures ms / 0x1_0000 == ms / 0x100 / 0x100
    ensures ms / 0x100_0000 == ms / 0x100 / 0x100 / 0x100
    ensures ms / 0x1_0000_0000 == ms / 0x100 / 0x100 / 0x100 / 0x100
    ensures ms / 0x100_0000_0000 == ms / 0x100 / 0x100 / 0x100 / 0x100 / 0x100 < 256
  {
  }

  /** A later 48-bit millisecond prints a larger id, whatever the random bytes. */
  lemma LaterIsLarger(ms1: nat, random1: seq<Byte>, ms2: nat, random2: seq<Byte>)
    requires ms1 < ms2 < 0x1_0000_0000_0000
    requires |random1| == |random2| == 10
    ensures Before(Printed(NewBytes(ms1, random1)), Printed(NewBytes(ms2, random2)))
  {
    var b, c := NewBytes(ms1, random1), NewBytes(ms2, random2);
    ClockBytes(ms1);
    ClockBytes(ms2);
    assert b == b[..6] + random1 && c == c[..6] + random2;
    LessIsValueOrder(b[..6], c[..6], 256);
    LessExtends(b[..6], random1, c[..6], random2);
    PrintedKeepsOrder(b, c);
  }
}

/** Big-endian positional notation in any base. */
module Positional {
  import opened Ordering

  function Pow(base: nat, e: nat): (p: nat)
    ensures base > 0 ==> p > 0
  {
    if e == 0 then 1 else base * Pow(base, e - 1)
  }

  predicate InBase(ds: seq<nat>, base: nat) {
    forall k | 0 <= k < |ds| :: ds[k] < base
  }

  lemma {:induction false} PowSum(base: nat, m: nat, n: nat)
    ensures Pow(base, m + n) == Pow(base, m) * Pow(base, n)
  {
    if m > 0 {
      PowSum(base, m - 1, n);
    }
  }

  lemma {:induction false} PowOfPow(base: nat, m: nat, n: nat)
    ensures Pow(Pow(base, m), n) == Pow(base, m * n)
  {
    if n > 0 {
      PowOfPow(base, m, n - 1);
      PowSum(base, m, m * (n - 1));
      assert m * n == m + m * (n - 1);
    }
  }

  /** The low `n` digits of `v`, most significant first. */
  function Digits(v: nat, base: nat, n: nat): (ds: seq<nat>)
    requires base >= 2
    ensures |ds| == n && InBase(ds, base)
  {
    if n == 0 then [] else Digits(v / base, base, n - 1) + [v % base]
  }

  function Value(ds: seq<nat>, base: nat): nat {
    if ds == [] then 0 else Value(ds[..|ds| - 1], base) * base + ds[|ds| - 1]
  }

  lemma MulMono(a: nat, b: nat, c: nat)
    requires a <= b
    ensures a * c <= b * c
  {
  }

  lemma {:induction false} ValueConcat(x: seq<nat>, y: seq<nat>, base: nat)
    ensures Value(x + y, base) == Value(x, base) * Pow(base, |y|) + Value(y, base)
  {
    if y == [] {
      assert x + y == x;
    } else {
      var z := y[..|y| - 1];
      ValueConcat(x, z, base);
      ValueSnoc(x + z, y[|y| - 1], base);
      assert x + y == (x + z) + [y[|y| - 1]];
      Distribute(Value(x, base), Pow(base, |z|), Value(z, base), base);
    }
  }

  lemma Distribute(v: nat, p: nat, w: nat, base: nat)
    ensures (v * p + w) * base == v * (base * p) + w * base
  {
    assert (v * p) * base == v * (p * base);
  }

  lemma {:induction false} ValueBound(ds: seq<nat>, base: nat)
    requires base >= 2 && InBase(ds, base)
    ensures Value(ds, base) < Pow(base, |ds|)
  {
    if ds != [] {
      var init := ds[..|ds| - 1];
      ValueBound(init, base);
      var v, p := Value(init, base), Pow(base, |init|);
      MulMono(v + 1, p, base);
      assert (v + 1) * base == v * base + base;
      assert Pow(base, |ds|) == p * base;
    }
  }

  lemma QuotientBelow(v: nat, base: nat, n: nat)
    requires base >= 2 && n > 0 && v < Pow(base, n)
    ensures v / base < Pow(base, n - 1)
  {
    var q, p := v / base, Pow(base, n - 1);
    DivisionRule(v, base);
    if q >= p {
      MulMono(p, q, base);
    }
  }

  lemma DigitsUnfold(v: nat, base: nat, n: nat) returns (q: nat, r: nat)
    requires base >= 2 && n > 0 && v < Pow(base, n)
    ensures q < Pow(base, n - 1) && v == q * base + r
    ensures Digits(v, base, n) == Digits(q, base, n - 1) + [r]
  {
    q, r := v / base, v % base;
    QuotientBelow(v, base, n);
    DivisionRule(v, base);
  }

  lemma {:induction false} ValueOfDigits(v: nat, base: nat, n: nat)
    requires base >= 2 && v < Pow(base, n)
    ensures Value(Digits(v, base, n), base) == v
    decreases n
  {
    if n > 0 {
      var q, r := DigitsUnfold(v, base, n);
      ValueOfDigits(q, base, n - 1);
      ValueSnoc(Digits(q, base, n - 1), r, base);
    }
  }

  lemma DivisionRule(v: nat, base: nat)
    requires base >= 1
    ensures v / base * base + v % base == v
  {
  }

  lemma ValueSnoc(ds: seq<nat>, d: nat, base: nat)
    ensures Value(ds + [d], base) == Value(ds, base) * base + d
  {
    assert (ds + [d])[..|ds|] == ds;
  }

  lemma {:induction false} DigitsOfValue(ds: seq<nat>, base: nat)
    requires base >= 2 && InBase(ds, base)
    ensures Digits(Value(ds, base), base, |ds|) == ds
  {
    if ds != [] {
      var init, last := ds[..|ds| - 1], ds[|ds| - 1];
      DigitsOfValue(init, base);
      var v := Value(init, base);
      assert (v * base + last) / base == v && (v * base + last) % base == last by {
        DivMod(v, last, base);
      }
    }
  }

  lemma DivMod(q: nat, r: nat, base: nat)
    requires r < base
    ensures (q * base + r) / base == q && (q * base + r) % base == r
  {
    var n := q * base + r;
    var d := n / base;
    assert n == base * d + n % base;
    QuotientUnique(q, r, d, n % base, base);
  }

  lemma QuotientUnique(q1: nat, r1: nat, q2: nat, r2: nat, base: nat)
    requires r1 < base && r2 < base && base * q1 + r1 == base * q2 + r2
    ensures q1 == q2 && r1 == r2
  {
    assert q1 < q2 ==> base * q1 + base <= base * q2 by { if q1 < q2 { MulMono(q1 + 1, q2, base); } }
    assert q2 < q1 ==> base * q2 + base <= base * q1 by { if q2 < q1 { MulMono(q2 + 1, q1, base); } }
  }

  lemma LeadingDigit(ds: seq<nat>, base: nat)
    requires ds != []
    ensures Value(ds, base) == ds[0] * Pow(base, |ds| - 1) + Value(ds[1..], base)
  {
    var head := ds[..1];
    ValueConcat(head, ds[1..], base);
    assert ds == head + ds[1..];
    assert head[..0] == [];
  }

  /** On equally long digit strings, dictionary order is numeric order. */
  lemma {:induction false} LessIsValueOrder(x: seq<nat>, y: seq<nat>, base: nat)
    requires |x| == |y| && base >= 2
    requires InBase(x, base)
    requires InBase(y, base)
    ensures Less(x, y) <==> Value(x, base) < Value(y, base)
  {
    if x != [] {
      var p := Pow(base, |x| - 1);
      LeadingDigit(x, base);
      LeadingDigit(y, base);
      ValueBound(x[1..], base);
      ValueBound(y[1..], base);
      LessIsValueOrder(x[1..], y[1..], base);
      LeadingDigitDecides(x[0], Value(x[1..], base), y[0], Value(y[1..], base), p);
    }
  }

  lemma LeadingDigitDecides(d: nat, v: nat, e: nat, w: nat, p: nat)
    requires v < p && w < p
    ensures d * p + v < e * p + w <==> d < e || (d == e && v < w)
  {
    if d < e {
      MulMono(d + 1, e, p);
    } else if e < d {
      MulMono(e + 1, d, p);
    }
  }
}

/** Dictionary order, on numbers and on text. */
module Ordering {

  predicate Less(x: seq<int>, y: seq<int>) {
    if y == [] then false
    else if x == [] then true
    else x[0] < y[0] || (x[0] == y[0] && Less(x[1..], y[1..]))
  }

  predicate Before(s: string, t: string) {
    if t == "" then false
    else if s == "" then true
    else s[0] < t[0] || (s[0] == t[0] && Before(s[1..], t[1..]))
  }

  lemma {:induction false} LessExtends(x: seq<int>, x': seq<int>, y: seq<int>, y': seq<int>)
    requires |x| == |y| && Less(x, y)
    ensures Less(x + x', y + y')
  {
    assert (x + x')[0] == x[0] && (y + y')[0] == y[0];
    if x[0] == y[0] {
      LessExtends(x[1..], x', y[1..], y');
      assert (x + x')[1..] == x[1..] + x' && (y + y')[1..] == y[1..] + y';
    }
  }

  lemma {:induction false} BeforeIrreflexive(s: string)
    ensures !Before(s, s)
  {
    if s != "" {
      BeforeIrreflexive(s[1..]);
    }
  }

  lemma {:induction false} BeforeTotal(s: string, t: string)
    ensures s == t || Before(s, t) || Before(t, s)
  {
    if s != "" && t != "" && s[0] == t[0] {
      BeforeTotal(s[1..], t[1..]);
      assert s == [s[0]] + s[1..] && t == [t[0]] + t[1..];
    }
  }

  lemma {:induction false} BeforeTransitive(s: string, t: string, u: string)
    requires Before(s, t) && Before(t, u)
    ensures Before(s, u)
  {
    if s != "" && s[0] == t[0] == u[0] {
      BeforeTransitive(s[1..], t[1..], u[1..]);
    }
  }
}
