/**
  One key's hash and partition by both schemes, as the live tests expect it on
  the broker. The solver does not evaluate an exclusive or of numbers, so each
  is taken apart into bytes, whose own exclusive or is the bit-vectors'.
*/
module MurmurVectors {
  import opened MurmurModel

  // ---------------------------------------------------- exclusive or, byte by byte

  lemma {:induction false} XorOfBytes(a: bv8, b: bv8)
    ensures Xor(a as int, b as int) == (a ^ b) as int
    decreases a as int
  {
    if a == 0 {
      XorZero(b as int);
    } else {
      hide Xor;
      Halves(a);
      XorOfBytes(a >> 1, b >> 1);
      XorByteStep(a, b);
    }
  }

  lemma XorByteStep(a: bv8, b: bv8)
    requires Xor((a >> 1) as int, (b >> 1) as int) == ((a >> 1) ^ (b >> 1)) as int
    ensures Xor(a as int, b as int) == (a ^ b) as int
  {
    hide Xor, Parts, Parity;
    Halves(a);
    Halves(b);
    LowBit(a, b);
    FromHalves(a as int, b as int, (a ^ b) as int, (a >> 1) as int, (b >> 1) as int, ((a >> 1) ^ (b >> 1)) as int,
               (a & 1) as int, (b & 1) as int, ((a ^ b) & 1) as int);
  }

  /** The number's half and its low bit. */
  predicate Parts(a: int, half: int, low: int) {
    a == 2 * half + low && 0 <= half && 0 <= low < 2
  }

  predicate Parity(a: int, b: int, c: int) {
    c == (a + b) % 2
  }

  lemma {:induction false} XorZero(b: nat)
    ensures Xor(0, b) == b
  {
    if b > 0 {
      XorZero(b / 2);
    }
  }

  lemma Halves(a: bv8)
    ensures Parts(a as int, (a >> 1) as int, (a & 1) as int) && (a > 0 ==> (a >> 1) as int < a as int)
  {
  }

  lemma LowBit(a: bv8, b: bv8)
    ensures Parts((a ^ b) as int, ((a >> 1) ^ (b >> 1)) as int, ((a ^ b) & 1) as int)
    ensures Parity((a & 1) as int, (b & 1) as int, ((a ^ b) & 1) as int)
  {
    hide Parts, Parity;
    Halves(a ^ b);
    assert (a ^ b) >> 1 == (a >> 1) ^ (b >> 1);
    ParityOfBits(a, b);
  }

  lemma ParityOfBits(a: bv8, b: bv8)
    ensures Parity((a & 1) as int, (b & 1) as int, ((a ^ b) & 1) as int)
  {
    assert (a ^ b) & 1 == if a & 1 == b & 1 then 0 else 1;
    ZeroOrOne(a);
    ZeroOrOne(b);
  }

  lemma ZeroOrOne(a: bv8)
    ensures a & 1 == 0 || a & 1 == 1
  {
  }

  lemma FromHalves(a: int, b: int, c: int, a1: int, b1: int, c1: int, a0: int, b0: int, c0: int)
    requires Parts(a, a1, a0) && Parts(b, b1, b0) && Parts(c, c1, c0) && Parity(a0, b0, c0)
    requires 0 <= a1 && 0 <= b1 && Xor(a1, b1) == c1
    ensures 0 <= a && 0 <= b && Xor(a, b) == c
  {
    hide Xor;
    XorTwice(a1, b1, a0, b0);
  }

  lemma {:induction false} XorSplit(a: nat, b: nat, p: nat, q: nat, k: nat)
    requires p < Pow2(k) && q < Pow2(k)
    ensures Xor(a * Pow2(k) + p, b * Pow2(k) + q) == Xor(a, b) * Pow2(k) + Xor(p, q)
    decreases k
  {
    if k > 0 {
      var h := Pow2(k - 1);
      XorSplit(a, b, p / 2, q / 2, k - 1);
      Doubled(a, h, p);
      Doubled(b, h, q);
      SplitStep(a, b, p, q, h);
    } else {
      assert Xor(0, 0) == 0 && a * Pow2(0) == a && b * Pow2(0) == b;
    }
  }

  lemma SplitStep(a: nat, b: nat, p: nat, q: nat, h: nat)
    requires Xor(a * h + p / 2, b * h + q / 2) == Xor(a, b) * h + Xor(p / 2, q / 2)
    requires a * (2 * h) + p == 2 * (a * h + p / 2) + p % 2 && b * (2 * h) + q == 2 * (b * h + q / 2) + q % 2
    ensures Xor(a * (2 * h) + p, b * (2 * h) + q) == Xor(a, b) * (2 * h) + Xor(p, q)
  {
    hide Xor;
    XorTwice(a * h + p / 2, b * h + q / 2, p % 2, q % 2);
    XorTwice(p / 2, q / 2, p % 2, q % 2);
    Doubled(Xor(a, b), h, 0);
  }

  lemma Doubled(a: nat, h: nat, p: nat)
    ensures a * (2 * h) + p == 2 * (a * h + p / 2) + p % 2
  {
  }

  lemma XorTwice(a: nat, b: nat, x: nat, y: nat)
    requires x < 2 && y < 2
    ensures Xor(2 * a + x, 2 * b + y) == 2 * Xor(a, b) + (x + y) % 2
  {
    var p, q := 2 * a + x, 2 * b + y;
    assert p / 2 == a && q / 2 == b && (p + q) % 2 == (x + y) % 2;
    XorHalves(p, q);
    hide Xor;
  }

  lemma XorHalves(p: nat, q: nat)
    ensures Xor(p, q) == (p + q) % 2 + 2 * Xor(p / 2, q / 2)
  {
  }

  lemma XorByte(a: nat, b: nat, p: bv8, q: bv8)
    ensures Xor(256 * a + p as int, 256 * b + q as int) == 256 * Xor(a, b) + (p ^ q) as int
  {
    assert Pow2(8) == 256;
    hide Pow2, Xor;
    XorSplit(a, b, p as int, q as int, 8);
    XorOfBytes(p, q);
  }

  /** Four bytes, the highest first. */
  function Bytes4(a: bv8, b: bv8, c: bv8, d: bv8): nat {
    256 * Bytes3(a, b, c) + d as int
  }

  lemma XorBytes4(a: bv8, b: bv8, c: bv8, d: bv8, p: bv8, q: bv8, r: bv8, s: bv8)
    ensures Xor(Bytes4(a, b, c, d), Bytes4(p, q, r, s)) == Bytes4(a ^ p, b ^ q, c ^ r, d ^ s)
  {
    hide Xor;
    XorBytes3(a, b, c, p, q, r);
    XorByte(Bytes3(a, b, c), Bytes3(p, q, r), d, s);
  }

  function Bytes3(a: bv8, b: bv8, c: bv8): nat {
    256 * (256 * (a as int) + b as int) + c as int
  }

  lemma XorBytes3(a: bv8, b: bv8, c: bv8, p: bv8, q: bv8, r: bv8)
    ensures Xor(Bytes3(a, b, c), Bytes3(p, q, r)) == Bytes3(a ^ p, b ^ q, c ^ r)
  {
    hide Xor;
    XorOfBytes(a, p);
    XorByte(a as int, p as int, b, q);
    XorByte(256 * (a as int) + b as int, 256 * (p as int) + q as int, c, r);
  }

  // ------------------------------------------------------------- single operations

  lemma XorIs(x: Uint32, y: Uint32, z: Uint32, a: bv8, b: bv8, c: bv8, d: bv8, p: bv8, q: bv8, r: bv8, s: bv8)
    requires x == Bytes4(a, b, c, d) && y == Bytes4(p, q, r, s) && z == Bytes4(a ^ p, b ^ q, c ^ r, d ^ s)
    ensures BitXor(x, y) == z
  {
    hide Xor, Bytes4;
    XorBytes4(a, b, c, d, p, q, r, s);
  }

  lemma JsXorIs(x: int, y: int, z: Int32, a: bv8, b: bv8, c: bv8, d: bv8, p: bv8, q: bv8, r: bv8, s: bv8)
    requires Modulo32(x) == Bytes4(a, b, c, d) && Modulo32(y) == Bytes4(p, q, r, s)
    requires Modulo32(z) == Bytes4(a ^ p, b ^ q, c ^ r, d ^ s)
    ensures JsXor(x, y) == z
  {
    hide BitXor, Bytes4, Modulo32, ToInt32;
    XorIs(Modulo32(x), Modulo32(y), Modulo32(z), a, b, c, d, p, q, r, s);
    SameModulo(x);
    SameModulo(y);
    SignedAgain(z);
  }

  lemma SameModulo(x: int)
    ensures Modulo32(ToInt32(x)) == Modulo32(x)
  {
  }

  lemma SignedAgain(z: Int32)
    ensures ToInt32(Modulo32(z)) == z
  {
  }

  lemma ShiftIs(x: Uint32, bits: nat, power: nat, z: nat)
    requires (bits, power) in {(13, 8192), (15, 32768), (24, 16777216)} && z == x / power
    ensures ShiftRight(x, bits) == z
  {
    ShiftDivides(x, bits);
    Powers();
    hide Pow2, ShiftRight;
  }

  lemma Powers()
    ensures Pow2(13) == 8192 && Pow2(15) == 32768 && Pow2(24) == 16777216
  {
    assert Pow2(8) == 256;
    assert Pow2(13) == 32 * Pow2(8);
    assert Pow2(15) == 4 * Pow2(13);
    assert Pow2(20) == 32 * Pow2(15);
    assert Pow2(24) == 16 * Pow2(20);
  }

  lemma JsShiftIs(x: int, bits: nat, power: nat, z: nat)
    requires (bits, power) in {(13, 8192), (15, 32768), (24, 16777216)} && z == Modulo32(x) / power
    ensures JsShift(x, bits) == z
  {
    hide ShiftRight;
    ShiftIs(Modulo32(x), bits, power, z);
    assert Modulo32(ToInt32(x)) == Modulo32(x);
  }

  lemma {:induction false} UlpIs(x: nat, k: nat)
    requires x < 0x20_0000_0000_0000 * Pow2(k) && (k > 0 ==> 0x10_0000_0000_0000 * Pow2(k) <= x)
    ensures Ulp(x) == Pow2(k)
  {
    if k > 0 {
      UlpIs(x / 2, k - 1);
    }
  }

  /** A product by its quotient and rest on the spacing of the doubles around it. */
  lemma JsTimesIs(x: int, k: nat, u: nat, q: nat, r: nat, z: int)
    requires k <= 9 && u == Pow2(k)
    requires (if x < 0 then 0 - x else x) * 0x5BD1_E995 == q * u + r && r < u
    requires q * u + r < 0x20_0000_0000_0000 * u && (k > 0 ==> 0x10_0000_0000_0000 * u <= q * u + r)
    requires var m := if 2 * r < u || (2 * r == u && q % 2 == 0) then q else q + 1;
             z == if x < 0 then 0 - m * u else m * u
    ensures JsTimes(x) == z
  {
    UlpIs(q * u + r, k);
    DivUnique(q, r, u);
    hide Ulp, Pow2;
    assert x < 0 ==> 0 - x * M == (0 - x) * M;
  }

  // -------------------------------------------------------------------- the key

  /** The text 599999. */
  const KEY: seq<Byte> := [53, 57, 57, 57, 57, 57]

  lemma JsFirst()
    ensures JsXor(SEED, 6) == -1756908918 && JsMix(-1756908918, [53, 57, 57, 57]) == -1031839360
  {
    hide JsXor, JsTimes, JsShift, Word;
    JsXorIs(2538058380, 6, -1756908918,
            0x97, 0x47, 0xB2, 0x8C, 0x00, 0x00, 0x00, 0x06);
    JsTimesIs(960051509, 8, 256, 5777122994857096, 217, 1478943486683416832);
    JsShiftIs(1478943486683416832, 24, 16777216, 238);
    JsXorIs(1478943486683416832, 238, -291206674,
            0xEE, 0xA4, 0x89, 0x00, 0x00, 0x00, 0x00, 0xEE);
    JsTimesIs(-291206674, 6, 64, 7009360463892585, 58, -448599069689125504);
    JsTimesIs(-1756908918, 9, 512, 5286111638228413, 430, -2706489158772947968);
    JsXorIs(-2706489158772947968, -448599069689125504, -1031839360,
            0x1E, 0xE4, 0x84, 0x00, 0xDC, 0x9B, 0xE5, 0x80);
    WordPlaces(53, 57, 57, 57);
  }

  lemma JsSecond()
    ensures JsMix(-1031839360, [57, 57]) == -1797105664
  {
    hide JsXor, JsTimes, JsShift, Word;
    JsTimesIs(14649, 0, 1, 22566542454573, 0, 22566542454573);
    JsShiftIs(22566542454573, 24, 16777216, 46);
    JsXorIs(22566542454573, 46, 784281347,
            0x2E, 0xBF, 0x2F, 0x2D, 0x00, 0x00, 0x00, 0x2E);
    JsTimesIs(784281347, 8, 256, 4719423657706263, 191, 1208172456372803584);
    JsTimesIs(-1031839360, 8, 256, 6209107363274432, 128, -1589531484998254592);
    JsXorIs(-1589531484998254592, 1208172456372803584, -1797105664,
            0x3D, 0x61, 0x40, 0x00, 0xA9, 0x83, 0x18, 0x00);
    WordPlaces(57, 57, 0, 0);
  }

  lemma JsEnd()
    ensures JsFinish(JsTail(-1797105664, [57, 57])) == 1142018082
  {
    hide JsXor, JsTimes, JsShift;
    JsXorIs(-1797105664, 14592, -1797103360,
            0x94, 0xE2, 0x58, 0x00, 0x00, 0x00, 0x39, 0x00);
    JsXorIs(-1797103360, 57, -1797103303,
            0x94, 0xE2, 0x61, 0x00, 0x00, 0x00, 0x00, 0x39);
    JsTimesIs(-1797103303, 9, 512, 5407046767057860, 211, -2768407944733624320);
    JsShiftIs(-2768407944733624320, 13, 8192, 173635);
    JsXorIs(-2768407944733624320, 173635, 1422581315,
            0x54, 0xC8, 0x78, 0x00, 0x00, 0x02, 0xA6, 0x43);
    JsTimesIs(1422581315, 8, 256, 8560402384556375, 255, 2191463010446432256);
    JsShiftIs(2191463010446432256, 15, 32768, 34850);
    JsXorIs(2191463010446432256, 34850, 1142018082,
            0x44, 0x11, 0x58, 0x00, 0x00, 0x00, 0x88, 0x22);
  }

  lemma KafkaJsHash()
    ensures JsMurmur2(KEY) == 1142018082
  {
    JsFirst();
    JsSecond();
    JsEnd();
    hide JsXor, JsMix, JsTail, JsFinish;
    assert KEY[..4] == [53, 57, 57, 57] && KEY[4..] == [57, 57] && Rest(KEY) == [57, 57];
    assert [57, 57][..2] == [57, 57] && [57, 57][2..] == [];
  }

  lemma JavaFirst()
    ensures BitXor(SEED, 6) == 2538058378
  {
    hide BitXor;
    XorIs(2538058380, 6, 2538058378,
          0x97, 0x47, 0xB2, 0x8C, 0x00, 0x00, 0x00, 0x06);
  }

  lemma JavaProducts()
    ensures Times32(960051509) == 4003760345 && Times32(4003760183) == 1738823427 && Times32(2538058378) == 518292562
    ensures Word([53, 57, 57, 57]) == 960051509 && Modulo32(2538058378) == 2538058378
  {
    hide Word, Times32;
    Times32Is(960051509, 344343363, 4003760345);
    Times32Is(4003760183, 1436035709, 1738823427);
    Times32Is(2538058378, 910329864, 518292562);
    WordPlaces(53, 57, 57, 57);
  }

  lemma Times32Is(a: Uint32, q: nat, z: nat)
    requires a * 0x5BD1_E995 == q * 0x1_0000_0000 + z && z < 0x1_0000_0000
    ensures Times32(a) == z
  {
    DivUnique(q, z, 0x1_0000_0000);
  }

  lemma JavaWord()
    ensures JavaMix(2538058378, [53, 57, 57, 57]) == 2034291537
  {
    hide BitXor, ShiftRight, Word, Times32, Modulo32;
    JavaProducts();
    ShiftIs(4003760345, 24, 16777216, 238);
    XorIs(4003760345, 238, 4003760183,
          0xEE, 0xA4, 0x88, 0xD9, 0x00, 0x00, 0x00, 0xEE);
    XorIs(518292562, 1738823427, 2034291537,
          0x1E, 0xE4, 0x84, 0x52, 0x67, 0xA4, 0x57, 0x03);
  }

  lemma JavaEnd()
    ensures JavaTail(2034291537, [57, 57]) == 4278785672
    ensures BitXor(4278785672, ShiftRight(4278785672, 13)) == 4279168704
    ensures BitXor(901625280, ShiftRight(901625280, 15)) == 901635771
  {
    hide BitXor, ShiftRight;
    XorIs(2034291537, 14592, 2034297425,
          0x79, 0x40, 0xD3, 0x51, 0x00, 0x00, 0x39, 0x00);
    XorIs(2034297425, 57, 2034297448,
          0x79, 0x40, 0xEA, 0x51, 0x00, 0x00, 0x00, 0x39);
    ShiftIs(4278785672, 13, 8192, 522312);
    XorIs(4278785672, 522312, 4279168704,
          0xFF, 0x09, 0x16, 0x88, 0x00, 0x07, 0xF8, 0x48);
    ShiftIs(901625280, 15, 32768, 27515);
    XorIs(901625280, 27515, 901635771,
          0x35, 0xBD, 0xB5, 0xC0, 0x00, 0x00, 0x6B, 0x7B);
  }

  lemma JavaHash()
    ensures JavaReference(KEY) == 901635771
  {
    JavaFirst();
    JavaWord();
    JavaEnd();
    hide BitXor, ShiftRight, JavaMix, JavaTail;
    assert Whole(KEY) == [53, 57, 57, 57] && Rest(KEY) == [57, 57];
    assert [53, 57, 57, 57][..4] == [53, 57, 57, 57] && [53, 57, 57, 57][4..] == [];
  }

  /** Of twelve partitions the key's is the sixth by KafkaJS and the third by Java, counted from zero. */
  method KeyPartitions() returns (kafkaJs: Int32, java: Int32)
    ensures kafkaJs == 6 && java == 3
  {
    KafkaJsHash();
    JavaHash();
    hide JsMurmur2, JavaReference;
    kafkaJs := Partition(12, KafkaJs, KEY);
    java := Partition(12, Java, KEY);
  }
}
