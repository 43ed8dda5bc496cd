/**
  Partitioners over murmur2. KafkaJS computes the hash on JavaScript Numbers:
  products are rounded to doubles, and the bitwise operators work on ToInt32
  and ToUint32 of their operands. The port computes with doubles and converts
  them by a saturating cast to 64 bits and a truncation to 32.
*/
module MurmurModel {
  type Byte = x: int | 0 <= x < 256

  const TWO_31 := 0x8000_0000
  const TWO_32 := 0x1_0000_0000
  const TWO_53 := 0x20_0000_0000_0000
  const TWO_62 := 0x4000_0000_0000_0000
  const TWO_63 := 0x8000_0000_0000_0000

  type Int32 = x: int | -TWO_31 <= x < TWO_31
  type Uint32 = x: int | 0 <= x < TWO_32

  const SEED: Uint32 := 0x9747_B28C
  const M: Uint32 := 0x5BD1_E995

  // ------------------------------------------------------------------- doubles

  /** The spacing of the doubles around a natural number. */
  function Ulp(x: nat): (u: nat)
    ensures u > 0
  {
    if x < TWO_53 then 1 else 2 * Ulp(x / 2)
  }

  /** The nearest double, ties to the even significand. */
  function RoundNat(x: nat): nat {
    RoundTo(x, Ulp(x))
  }

  function RoundTo(x: nat, u: nat): nat
    requires u > 0
  {
    var q, r := x / u, x % u;
    if 2 * r < u || (2 * r == u && q % 2 == 0) then q * u else (q + 1) * u
  }

  /** The spacing is a power of two; the significand has at most 53 bits, and all of them from two to the 53rd on. */
  lemma {:induction false} UlpIsSpacing(x: nat) returns (k: nat)
    ensures Ulp(x) == Pow2(k) && x < 0x20_0000_0000_0000 * Ulp(x)
    ensures Ulp(x) > 1 ==> 0x10_0000_0000_0000 * Ulp(x) <= x
  {
    if x < TWO_53 {
      k := 0;
    } else {
      k := UlpIsSpacing(x / 2);
      k := k + 1;
    }
  }

  lemma Split(x: nat, u: nat)
    requires u > 0
    ensures x == x / u * u + x % u && x % u < u
  {
  }

  /** Division by its defining property. */
  lemma DivUnique(q: nat, r: nat, u: nat)
    requires r < u
    ensures (q * u + r) / u == q && (q * u + r) % u == r
  {
    var x := q * u + r;
    Split(x, u);
    var d: int := x / u - q;
    assert d * u == r - x % u;
    assert (1 - d) * u == u - d * u > 0 && (d + 1) * u == d * u + u > 0;
    PositiveFactor(1 - d, u);
    PositiveFactor(d + 1, u);
  }

  /** Halving and dividing is dividing by twice as much. */
  lemma DivTwice(a: nat, p: nat)
    requires p > 0
    ensures a / 2 / p == a / (2 * p)
  {
    var half := a / 2;
    Split(half, p);
    var q, r := half / p, half % p;
    assert a == 2 * half + a % 2 == q * (2 * p) + (2 * r + a % 2);
    DivUnique(q, 2 * r + a % 2, 2 * p);
  }

  /** The rounded number is a multiple of the spacing, off by at most half of it, and an even one if off by half. */
  lemma RoundsToNearest(x: nat)
    ensures RoundNat(x) % Ulp(x) == 0
    ensures 2 * (RoundNat(x) - x) <= Ulp(x) && 2 * (x - RoundNat(x)) <= Ulp(x)
    ensures 2 * (RoundNat(x) - x) == Ulp(x) || 2 * (x - RoundNat(x)) == Ulp(x) ==> RoundNat(x) / Ulp(x) % 2 == 0
  {
    hide Ulp, RoundTo;
    NearestOf(x, Ulp(x));
  }

  predicate Divides(x: nat, u: nat, q: nat, r: nat) {
    r < u && x == q * u + r
  }

  predicate Multiple(n: nat, u: nat, m: nat) {
    u > 0 && n == m * u && n % u == 0 && n / u == m
  }

  predicate Nearest(x: nat, u: nat, n: nat) {
    && u > 0 && n % u == 0
    && 2 * (n - x) <= u && 2 * (x - n) <= u
    && (2 * (n - x) == u || 2 * (x - n) == u ==> n / u % 2 == 0)
  }

  lemma DividesBy(x: nat, u: nat)
    requires u > 0
    ensures Divides(x, u, x / u, x % u)
  {
    Split(x, u);
  }

  lemma MultipleIs(m: nat, u: nat)
    requires u > 0
    ensures Multiple(m * u, u, m)
  {
    DivUnique(m, 0, u);
  }

  lemma NearestOf(x: nat, u: nat)
    requires u > 0
    ensures Nearest(x, u, RoundTo(x, u))
  {
    hide RoundTo, Divides, Multiple, Nearest;
    var q, r := x / u, x % u;
    var m := if 2 * r > u || (2 * r == u && q % 2 == 1) then q + 1 else q;
    RoundToIs(x, u, q, r, m);
    DividesBy(x, u);
    MultipleIs(m, u);
    Rounded(x, u, q, r, m, RoundTo(x, u));
  }

  lemma RoundToIs(x: nat, u: nat, q: nat, r: nat, m: nat)
    requires u > 0 && q == x / u && r == x % u
    requires m == if 2 * r > u || (2 * r == u && q % 2 == 1) then q + 1 else q
    ensures RoundTo(x, u) == m * u
  {
  }

  lemma Rounded(x: nat, u: nat, q: nat, r: nat, m: nat, n: nat)
    requires Divides(x, u, q, r) && Multiple(n, u, m)
    requires m == if 2 * r > u || (2 * r == u && q % 2 == 1) then q + 1 else q
    ensures Nearest(x, u, n)
  {
    assert (q + 1) * u == q * u + u;
  }

  function Round(x: int): int {
    var size: int := RoundNat(if x < 0 then -x else x);
    if x < 0 then -size else size
  }

  function Pow2(k: nat): (p: nat)
    ensures p > 0
  {
    if k == 0 then 1 else 2 * Pow2(k - 1)
  }

  lemma {:induction false} UlpDivides(x: nat, k: nat) returns (j: nat)
    requires x < TWO_53 * Pow2(k)
    ensures Ulp(x) * j == Pow2(k)
  {
    if x < TWO_53 {
      j := Pow2(k);
    } else {
      j := UlpDivides(x / 2, k - 1);
      assert Ulp(x) * j == 2 * (Ulp(x / 2) * j);
    }
  }

  lemma PositiveFactor(d: int, u: nat)
    requires d * u > 0
    ensures d > 0 && (d - 1) * u >= 0
  {
  }

  lemma BelowMultiple(q: nat, u: nat, n: nat)
    requires q * u < u * n
    ensures (q + 1) * u <= u * n
  {
    assert (n - q) * u == u * n - q * u;
    PositiveFactor(n - q, u);
    assert (n - q - 1) * u == u * n - (q + 1) * u;
  }

  lemma Pow2Of9()
    ensures Pow2(9) == 512
  {
  }

  /** Rounding never leaves the bound, because the bound is a double itself. */
  lemma RoundStaysBounded(x: nat)
    requires x < TWO_62
    ensures RoundNat(x) <= TWO_62
  {
    Pow2Of9();
    var j := UlpDivides(x, 9);
    var u := Ulp(x);
    var q := x / u;
    assert q * u <= x;
    assert u * (j * TWO_53) == (u * j) * TWO_53 == TWO_62;
    BelowMultiple(q, u, j * TWO_53);
    assert q * u <= (q + 1) * u;
  }

  /** A value the hash computes with: an integer of magnitude at most two to the 62nd. */
  type Number = x: int | -TWO_62 <= x <= TWO_62

  /** A product of a 32-bit value and the multiplier, rounded, is still in bounds. */
  lemma ProductIsNumber(a: Int32)
    ensures -TWO_62 <= Round(a * M) <= TWO_62
  {
    assert -TWO_62 < a * M < TWO_62;
    RoundStaysBounded(if a < 0 then -(a * M) else a * M);
  }

  // ------------------------------------------- the JavaScript operators, by ECMA-262

  function Modulo32(x: int): Uint32 {
    x % TWO_32
  }

  /** ToInt32, section 7.1.6, of an integral Number. */
  function ToInt32(x: int): Int32 {
    if Modulo32(x) >= TWO_31 then Modulo32(x) - TWO_32 else Modulo32(x)
  }

  /** Exclusive or, bit by bit. */
  function Xor(a: nat, b: nat): nat {
    if a == 0 && b == 0 then 0 else (a + b) % 2 + 2 * Xor(a / 2, b / 2)
  }

  lemma {:induction false} XorBelow(a: nat, b: nat, bits: nat)
    requires a < Pow2(bits) && b < Pow2(bits)
    ensures Xor(a, b) < Pow2(bits)
  {
    if bits > 0 {
      XorBelow(a / 2, b / 2, bits - 1);
    }
  }

  lemma Pow2Of32()
    ensures Pow2(32) == TWO_32
  {
    assert Pow2(8) == 256;
    assert Pow2(16) == 256 * Pow2(8);
    assert Pow2(24) == 256 * Pow2(16);
  }

  lemma XorFits(a: Uint32, b: Uint32)
    ensures Xor(a, b) < TWO_32
  {
    Pow2Of32();
    XorBelow(a, b, 32);
  }

  /** One bit of each number. */
  function BitAt(a: nat, k: nat): nat {
    a / Pow2(k) % 2
  }

  lemma HalfBit(a: nat, k: nat)
    ensures BitAt(a, k + 1) == BitAt(a / 2, k)
  {
    DivTwice(a, Pow2(k));
  }

  lemma XorHigh(a: nat, b: nat)
    ensures Xor(a, b) / 2 == Xor(a / 2, b / 2)
  {
  }

  lemma LowestBit(a: nat)
    ensures BitAt(a, 0) == a % 2
  {
  }

  lemma XorParity(a: nat, b: nat)
    ensures Xor(a, b) % 2 == (a + b) % 2
  {
  }

  lemma XorLow(a: nat, b: nat)
    ensures BitAt(Xor(a, b), 0) == if BitAt(a, 0) == BitAt(b, 0) then 0 else 1
  {
    hide Xor, BitAt;
    LowestBit(a);
    LowestBit(b);
    LowestBit(Xor(a, b));
    XorParity(a, b);
  }

  /** Each bit of the exclusive or is set exactly where the two bits differ. */
  lemma {:induction false} XorBits(a: nat, b: nat, k: nat)
    ensures BitAt(Xor(a, b), k) == if BitAt(a, k) == BitAt(b, k) then 0 else 1
    decreases k
  {
    if k == 0 {
      XorLow(a, b);
    } else {
      XorHigh(a, b);
      hide Xor, BitAt;
      HalfBit(a, k - 1);
      HalfBit(b, k - 1);
      HalfBit(Xor(a, b), k - 1);
      XorBits(a / 2, b / 2, k - 1);
    }
  }

  function BitXor(a: Uint32, b: Uint32): Uint32 {
    XorFits(a, b);
    Xor(a, b)
  }

  /** The low `bits` bits shifted out. */
  function ShiftRight(a: Uint32, bits: nat): Uint32 {
    if bits == 0 then a else var half: int := a / 2; ShiftRight(half, bits - 1)
  }

  /** Shifting by n bits divides by the n-th power of two. */
  lemma {:induction false} ShiftDivides(a: Uint32, bits: nat)
    ensures ShiftRight(a, bits) == a / Pow2(bits)
    decreases bits
  {
    if bits > 0 {
      var half: int := a / 2;
      ShiftDivides(half, bits - 1);
      DivTwice(a, Pow2(bits - 1));
    }
  }

  /** A byte at a higher place. */
  function Place(b: Byte, place: nat): nat {
    var n: int := b;
    n * place
  }

  function JsXor(a: int, b: int): Int32 {
    ToInt32(BitXor(Modulo32(ToInt32(a)), Modulo32(ToInt32(b))))
  }

  function JsShift(a: int, bits: nat): Uint32 {
    ShiftRight(Modulo32(ToInt32(a)), bits)
  }

  function JsTimes(a: int): int {
    Round(a * M)
  }

  // --------------------------------------------------------- KafkaJS's murmur2

  /** The first four bytes, missing ones zero, as a little-endian 32-bit value. */
  function Word(chunk: seq<Byte>): Uint32 {
    var at := (i: nat) => if i < |chunk| then chunk[i] as int else 0;
    at(0) + 256 * at(1) + 0x1_0000 * at(2) + 0x100_0000 * at(3)
  }

  /** The bytes stand for a little-endian number, and missing ones for zeros. */
  lemma WordPlaces(a: Byte, b: Byte, c: Byte, d: Byte)
    ensures Word([a, b, c, d]) as int == (a as int) + 256 * (b as int) + 65536 * (c as int) + 16777216 * (d as int)
    ensures Word([a, b, c]) == Word([a, b, c, 0]) && Word([a, b]) == Word([a, b, 0, 0])
    ensures Word([a]) == Word([a, 0, 0, 0])
  {
  }

  function JsMix(h: int, chunk: seq<Byte>): int {
    var k := JsTimes(ToInt32(Word(chunk)));
    JsXor(JsTimes(h), JsTimes(JsXor(k, JsShift(k, 24))))
  }

  function First(key: seq<Byte>): nat {
    if |key| < 4 then |key| else 4
  }

  /** A hash carried over a key four bytes at a time, the last chunk maybe shorter. */
  function Blocks(mix: (int, seq<Byte>) -> int, h: int, key: seq<Byte>): int
    decreases |key|
  {
    if key == [] then h else Blocks(mix, mix(h, key[..First(key)]), key[First(key)..])
  }

  lemma BlocksStep(mix: (int, seq<Byte>) -> int, h: int, key: seq<Byte>, i: nat, size: nat)
    requires i < |key| && size == (if |key| - i < 4 then |key| - i else 4)
    ensures Blocks(mix, h, key[i..]) == Blocks(mix, mix(h, key[i..i + size]), key[i + size..])
  {
    assert key[i..][..size] == key[i..i + size] && key[i..][size..] == key[i + size..];
  }

  /** The trailing bytes once more; `rest` is what is left after whole words. */
  function JsTail(h: int, rest: seq<Byte>): int
    requires |rest| < 4
  {
    var h3 := if |rest| >= 3 then JsXor(h, Place(rest[2], 0x1_0000)) else h;
    var h2 := if |rest| >= 2 then JsXor(h3, Place(rest[1], 0x100)) else h3;
    if |rest| >= 1 then JsTimes(JsXor(h2, rest[0])) else h2
  }

  function JsFinish(h: int): int {
    var a := JsTimes(JsXor(h, JsShift(h, 13)));
    JsXor(a, JsShift(a, 15))
  }

  /** What is left of a key after its whole words. */
  function Rest(key: seq<Byte>): (rest: seq<Byte>)
    ensures |rest| == |key| % 4
  {
    key[|key| - |key| % 4..]
  }

  function JsBody(key: seq<Byte>): int {
    Blocks(JsMix, JsXor(SEED, |key|), key)
  }

  /** The hash as the JavaScript program computes it. */
  function JsMurmur2(key: seq<Byte>): int {
    JsFinish(JsTail(JsBody(key), Rest(key)))
  }

  // -------------------------------------------------------------------- the port

  /** A double cast to a 64-bit integer: out-of-range values saturate. */
  function AsI64(x: int): int {
    if x < -TWO_63 then -TWO_63 else if x >= TWO_63 then TWO_63 - 1 else x
  }

  /** A 64-bit integer truncated to its low 32 bits, signed. */
  function AsI32(x: int): Int32 {
    var low := x % TWO_32;
    if low < TWO_31 then low else low - TWO_32
  }

  function I(f: Number): Int32 {
    AsI32(AsI64(f))
  }

  function Unsigned(i: Int32): Uint32 {
    if i < 0 then i + TWO_32 else i
  }

  function Signed(u: Uint32): Int32 {
    if u < TWO_31 then u else u - TWO_32
  }

  function PortXor(a: Number, b: Number): Int32 {
    Signed(BitXor(Unsigned(I(a)), Unsigned(I(b))))
  }

  function PortShift(a: Number, bits: nat): Number {
    ShiftRight(Unsigned(I(a)), bits)
  }

  function PortTimes(a: Int32): Number {
    ProductIsNumber(a);
    Round(a * M)
  }

  /** On every value the hash computes with, the cast never saturates and is ToInt32. */
  lemma CastIsToInt32(f: Number)
    ensures AsI64(f) == f && I(f) == ToInt32(f)
  {
  }

  lemma PortXorIsJs(a: Number, b: Number)
    ensures PortXor(a, b) == JsXor(a, b)
  {
    CastIsToInt32(a);
    CastIsToInt32(b);
    assert forall i: Int32 :: Unsigned(i) == Modulo32(i);
    assert forall u: Uint32 :: Signed(u) == ToInt32(u);
  }

  lemma PortShiftIsJs(a: Number, bits: nat)
    ensures PortShift(a, bits) == JsShift(a, bits)
  {
  }

  lemma PortTimesIsJs(a: Int32)
    ensures PortTimes(a) == JsTimes(a)
  {
    hide Round;
  }

  lemma IntIsItself(i: Int32)
    ensures I(i) == i
  {
  }

  lemma SignedIsToInt32(u: Uint32)
    ensures Signed(u) == ToInt32(u)
  {
  }

  method Mix(h: Int32, chunk: seq<Byte>) returns (r: Int32)
    ensures r == JsMix(h, chunk)
  {
    hide Round, BitXor, ShiftRight, Word, Signed, ToInt32, I, JsXor, JsShift, JsTimes, PortXor, PortShift, PortTimes;
    SignedIsToInt32(Word(chunk));
    PortTimesIsJs(Signed(Word(chunk)));
    var k: Number := PortTimes(Signed(Word(chunk)));
    PortShiftIsJs(k, 24);
    PortXorIsJs(k, PortShift(k, 24));
    IntIsItself(PortXor(k, PortShift(k, 24)));
    var mixed: Int32 := I(PortXor(k, PortShift(k, 24)));
    PortTimesIsJs(mixed);
    k := PortTimes(mixed);
    PortTimesIsJs(h);
    var product: Number := PortTimes(h);
    PortXorIsJs(product, k);
    r := PortXor(product, k);
  }

  method PortBlocks(h: Int32, key: seq<Byte>) returns (hash: Int32)
    ensures hash == Blocks(JsMix, h, key)
  {
    hide JsMix;
    hash := h;
    var i := 0;
    assert key[i..] == key;
    while i < |key|
      invariant 0 <= i <= |key| && (i % 4 == 0 || i == |key|)
      invariant Blocks(JsMix, hash, key[i..]) == Blocks(JsMix, h, key)
    {
      var size := if |key| - i < 4 then |key| - i else 4;
      JsStep(hash, key, i, size);
      hash := Mix(hash, key[i..i + size]);
      i := i + size;
    }
  }

  /** The port's hash, every value in bounds, is the JavaScript program's. */
  method Murmur2(key: seq<Byte>) returns (h: Number)
    ensures h == JsMurmur2(key)
  {
    hide BitXor, Blocks, JsMix, JsXor, PortXor, JsTail, JsFinish;
    var length: Int32 := AsI32(|key|);
    PortXorIsJs(SEED, length);
    JsXorOfLength(|key|);
    var hash := PortBlocks(PortXor(SEED, length), key);
    h := Tail(hash, Rest(key));
    h := Finish(h);
  }

  lemma JsStep(h: Int32, key: seq<Byte>, i: nat, size: nat)
    requires i < |key| && size == (if |key| - i < 4 then |key| - i else 4)
    ensures Blocks(JsMix, h, key[i..]) == Blocks(JsMix, JsMix(h, key[i..i + size]), key[i + size..])
  {
    hide JsXor, JsTimes, JsShift, Word;
    BlocksStep(JsMix, h, key, i, size);
  }

  lemma JsXorOfLength(n: nat)
    ensures JsXor(SEED, AsI32(n)) == JsXor(SEED, n)
  {
    assert ToInt32(AsI32(n)) == ToInt32(n);
  }

  method Tail(h: Int32, rest: seq<Byte>) returns (r: Number)
    requires |rest| < 4
    ensures r == JsTail(h, rest)
  {
    hide Round, BitXor, ShiftRight, JsXor;
    var hash: Int32 := h;
    if |rest| >= 3 {
      hash := XorSmall(hash, Place(rest[2], 0x1_0000));
    }
    if |rest| >= 2 {
      hash := XorSmall(hash, Place(rest[1], 0x100));
    }
    r := hash;
    if |rest| >= 1 {
      hash := XorSmall(hash, rest[0]);
      r := PortTimes(hash);
    }
  }

  method XorSmall(a: Int32, b: Int32) returns (r: Int32)
    ensures r == JsXor(a, b)
  {
    PortXorIsJs(a, b);
    r := PortXor(a, b);
  }

  method Finish(h: Number) returns (r: Number)
    ensures r == JsFinish(h)
  {
    hide Round, BitXor, ShiftRight;
    PortShiftIsJs(h, 13);
    PortXorIsJs(h, PortShift(h, 13));
    var a: Number := PortTimes(PortXor(h, PortShift(h, 13)));
    PortShiftIsJs(a, 15);
    PortXorIsJs(a, PortShift(a, 15));
    r := PortXor(a, PortShift(a, 15));
  }

  // ------------------------------------------------------------- Java's murmur2

  function Times32(a: Uint32): Uint32 {
    a * M % TWO_32
  }

  function JavaMix(hash: int, chunk: seq<Byte>): (r: int)
    ensures 0 <= r < TWO_32
  {
    var k := Times32(Word(chunk));
    BitXor(Times32(Modulo32(hash)), Times32(BitXor(k, ShiftRight(k, 24))))
  }

  function JavaTail(hash: Uint32, rest: seq<Byte>): Uint32
    requires |rest| < 4
  {
    var h3 := if |rest| >= 3 then BitXor(hash, Place(rest[2], 0x1_0000)) else hash;
    var h2 := if |rest| >= 2 then BitXor(h3, Place(rest[1], 0x100)) else h3;
    if |rest| >= 1 then Times32(BitXor(h2, rest[0])) else h2
  }

  /** The part of a key that is whole words. */
  function Whole(key: seq<Byte>): seq<Byte> {
    key[..|key| - |key| % 4]
  }

  /** Kafka's own hash: wrapping 32-bit arithmetic over whole words, then the trailing bytes once. */
  function JavaReference(key: seq<Byte>): Int32 {
    var hash := JavaTail(Modulo32(Blocks(JavaMix, BitXor(SEED, Modulo32(|key|)), Whole(key))), Rest(key));
    var mixed := Times32(BitXor(hash, ShiftRight(hash, 13)));
    Signed(BitXor(mixed, ShiftRight(mixed, 15)))
  }

  lemma JavaStep(h: Uint32, key: seq<Byte>, i: nat)
    requires i + 4 <= |key|
    ensures Blocks(JavaMix, h, key[i..]) == Blocks(JavaMix, JavaMix(h, key[i..i + 4]), key[i + 4..])
  {
    hide Times32, BitXor, ShiftRight, Word;
    BlocksStep(JavaMix, h, key, i, 4);
  }

  method JavaBlocks(start: Uint32, data: seq<Byte>) returns (hash: Uint32, index: nat)
    ensures index == |Whole(data)| && hash == Modulo32(Blocks(JavaMix, start, Whole(data)))
  {
    hide BitXor, Times32, JavaMix, ShiftRight;
    hash, index := start, 0;
    assert Whole(data)[0..] == Whole(data);
    while index + 4 <= |data|
      invariant 0 <= index <= |Whole(data)| && index % 4 == 0
      invariant Blocks(JavaMix, hash, Whole(data)[index..]) == Blocks(JavaMix, start, Whole(data))
    {
      JavaStep(hash, Whole(data), index);
      assert Whole(data)[index..index + 4] == data[index..index + 4];
      hash := JavaMix(hash, data[index..index + 4]);
      index := index + 4;
    }
  }

  method JavaRest(start: Uint32, rest: seq<Byte>) returns (hash: Uint32)
    requires |rest| < 4
    ensures hash == JavaTail(start, rest)
  {
    hide BitXor, Times32;
    hash := start;
    if |rest| >= 3 {
      hash := BitXor(hash, Place(rest[2], 0x1_0000));
    }
    if |rest| >= 2 {
      hash := BitXor(hash, Place(rest[1], 0x100));
    }
    if |rest| >= 1 {
      hash := Times32(BitXor(hash, rest[0]));
    }
  }

  method JavaMurmur2(data: seq<Byte>) returns (r: Int32)
    ensures r == JavaReference(data)
  {
    hide BitXor, Times32, JavaMix, ShiftRight, JavaTail, Blocks, Signed;
    var hash, index := JavaBlocks(BitXor(SEED, Modulo32(|data|)), data);
    assert data[index..] == Rest(data);
    hash := JavaRest(hash, data[index..]);
    hash := Times32(BitXor(hash, ShiftRight(hash, 13)));
    hash := BitXor(hash, ShiftRight(hash, 15));
    r := Signed(hash);
  }

  // ---------------------------------------------------------------- partitions

  datatype Scheme = KafkaJs | Java

  /** The low 31 bits: `& 0x7fffffff`. */
  function LowBits(i: Int32): Int32 {
    Unsigned(i) % TWO_31
  }

  lemma LowBitsAreLow(i: Int32)
    ensures 0 <= LowBits(i) && LowBits(i) as int < 0x8000_0000 && ((LowBits(i) as int) - (i as int)) % 0x8000_0000 == 0
  {
  }

  function Magnitude(i: Int32): nat {
    var n: int := i;
    if n < 0 then 0 - n else n
  }

  lemma MagnitudeIs(i: Int32)
    ensures Magnitude(i) as int == i as int || Magnitude(i) as int == 0 - i as int
  {
  }

  function HashFor(scheme: Scheme, key: seq<Byte>): Int32 {
    match scheme
    case KafkaJs => ToInt32(JsMurmur2(key))
    case Java => JavaReference(key)
  }

  /** A count of zero is the caller's fault, as a division by it would be; a remainder takes its dividend's sign. */
  method Partition(count: Int32, scheme: Scheme, key: seq<Byte>) returns (p: Int32)
    requires count != 0
    ensures p == LowBits(HashFor(scheme, key)) % Magnitude(count)
    ensures count > 0 ==> 0 <= p < count
  {
    hide JsMurmur2, JavaReference;
    var hash: Int32;
    match scheme {
      case KafkaJs =>
        var h := Murmur2(key);
        CastIsToInt32(h);
        hash := I(h);
      case Java =>
        hash := JavaMurmur2(key);
    }
    var low: int := LowBits(hash);
    p := low % Magnitude(count);
  }
}
