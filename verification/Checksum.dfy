/** CRC-32/ISO-HDLC as the reflected bit loop of section 8 of RFC 1952, and the
    changes it is certain to notice. */
module Checksum {
  import opened Wire

  const REFLECTED_POLYNOMIAL: bv32 := 0xEDB8_8320
  const ALL_ONES: bv32 := 0xFFFF_FFFF
  const TOP_BIT: bv32 := 0x8000_0000

  function Round(x: bv32): bv32 {
    if x & 1 == 1 then (x >> 1) ^ REFLECTED_POLYNOMIAL else x >> 1
  }

  function Rounds(x: bv32, n: nat): bv32
    decreases n
  {
    if n == 0 then x else Rounds(Round(x), n - 1)
  }

  /** The register after one more message byte. */
  function Feed(register: bv32, b: bv8): bv32 {
    Rounds(register ^ (b as bv32), 8)
  }

  function Register(register: bv32, data: Bytes): bv32
    decreases data
  {
    if data == [] then register else Register(Feed(register, data[0]), data[1..])
  }

  function Crc32(data: Bytes): bv32 {
    Register(ALL_ONES, data) ^ ALL_ONES
  }

  // Running the register backwards. Two registers that agree on the bits of a
  // mask with its top bit set came, one round earlier, from registers that agree
  // on the mask moved up one place and on the bit that was shifted out.

  predicate Same(x: bv32, y: bv32, mask: bv32) {
    x & mask == y & mask
  }

  lemma RoundBack(x: bv32, y: bv32, mask: bv32)
    requires mask & TOP_BIT == TOP_BIT && Same(Round(x), Round(y), mask)
    ensures Same(x, y, (mask << 1) | 1)
  {
  }

  /** What agreement on `mask` after n rounds says of the registers before them. */
  function Widen(mask: bv32, n: nat): bv32
    decreases n
  {
    if n == 0 then mask else (Widen(mask, n - 1) << 1) | 1
  }

  predicate Roomy(mask: bv32, n: nat)
    decreases n
  {
    n == 0 || (Widen(mask, n - 1) & TOP_BIT == TOP_BIT && Roomy(mask, n - 1))
  }

  lemma {:induction false} RoundsBack(x: bv32, y: bv32, n: nat, mask: bv32)
    requires Same(Rounds(x, n), Rounds(y, n), mask) && Roomy(mask, n)
    ensures Same(x, y, Widen(mask, n))
    decreases n
  {
    hide Round, Same;
    if n > 0 {
      RoundsBack(Round(x), Round(y), n - 1, mask);
      RoundBack(x, y, Widen(mask, n - 1));
    }
  }

  lemma WidenOnce(mask: bv32, n: nat)
    requires Roomy(mask, n) && Widen(mask, n) & TOP_BIT == TOP_BIT
    ensures Roomy(mask, n + 1) && Widen(mask, n + 1) == (Widen(mask, n) << 1) | 1
  {
  }

  predicate LeadingBytes(mask: bv32) {
    mask == 0xFFFF_FFFF || mask == 0xFFFF_FF00 || mask == 0xFFFF_0000 || mask == 0xFF00_0000
  }

  lemma WidenByByte(mask: bv32)
    requires LeadingBytes(mask)
    ensures Roomy(mask, 8) && Widen(mask, 8) == (mask << 8) | 0xFF
  {
    WidenOnce(mask, 0); WidenOnce(mask, 1); WidenOnce(mask, 2); WidenOnce(mask, 3);
    WidenOnce(mask, 4); WidenOnce(mask, 5); WidenOnce(mask, 6); WidenOnce(mask, 7);
  }

  lemma SeparateByte(s: bv32, b: bv8, t: bv32, c: bv8, mask: bv32)
    requires Same(s ^ (b as bv32), t ^ (c as bv32), (mask << 8) | 0xFF)
    ensures Same(s, t, mask << 8) && (s == t ==> b == c)
    ensures mask == ALL_ONES && b == c ==> s == t
  {
  }

  /** One byte backwards: the registers agreed on a mask one byte shorter, and
      equal registers can only have been fed equal bytes. */
  lemma FeedBack(s: bv32, b: bv8, t: bv32, c: bv8, mask: bv32)
    requires LeadingBytes(mask) && Same(Feed(s, b), Feed(t, c), mask)
    ensures Same(s, t, mask << 8) && (s == t ==> b == c)
    ensures mask == ALL_ONES && b == c ==> s == t
  {
    WidenByByte(mask);
    RoundsBack(s ^ (b as bv32), t ^ (c as bv32), 8, mask);
    SeparateByte(s, b, t, c, mask);
  }

  /** From one register, different words of four bytes lead to different registers. */
  lemma WordInjective(s: bv32, u: Bytes, v: Bytes)
    requires |u| == |v| == 4 && Register(s, u) == Register(s, v)
    ensures u == v
  {
    Unroll(s, u);
    Unroll(s, v);
    var s1, t1 := Feed(s, u[0]), Feed(s, v[0]);
    var s2, t2 := Feed(s1, u[1]), Feed(t1, v[1]);
    var s3, t3 := Feed(s2, u[2]), Feed(t2, v[2]);
    FeedBack(s3, u[3], t3, v[3], 0xFFFF_FFFF);
    FeedBack(s2, u[2], t2, v[2], 0xFFFF_FF00);
    FeedBack(s1, u[1], t1, v[1], 0xFFFF_0000);
    FeedBack(s, u[0], s, v[0], 0xFF00_0000);
  }

  lemma Unroll(s: bv32, u: Bytes)
    requires |u| == 4
    ensures Register(s, u) == Feed(Feed(Feed(Feed(s, u[0]), u[1]), u[2]), u[3])
  {
    FeedFirst(s, u);
    FeedFirst(Feed(s, u[0]), u[1..]);
    FeedFirst(Feed(Feed(s, u[0]), u[1]), u[1..][1..]);
    FeedFirst(Feed(Feed(Feed(s, u[0]), u[1]), u[2]), u[1..][1..][1..]);
  }

  lemma FeedFirst(s: bv32, u: Bytes)
    requires u != []
    ensures Register(s, u) == Register(Feed(s, u[0]), u[1..])
  {
  }

  /** Equal tails carry different registers to different registers. */
  lemma {:induction false} TailInjective(s: bv32, t: bv32, tail: Bytes)
    requires Register(s, tail) == Register(t, tail)
    ensures s == t
    decreases tail
  {
    if tail != [] {
      TailInjective(Feed(s, tail[0]), Feed(t, tail[0]), tail[1..]);
      FeedBack(s, tail[0], t, tail[0], ALL_ONES);
    }
  }

  lemma Complement(x: bv32, y: bv32)
    requires x ^ ALL_ONES == y ^ ALL_ONES
    ensures x == y
  {
  }

  lemma {:induction false} RegisterConcat(s: bv32, a: Bytes, b: Bytes)
    ensures Register(s, a + b) == Register(Register(s, a), b)
    decreases a
  {
    if a == [] {
      assert a + b == b;
    } else {
      assert (a + b)[1..] == a[1..] + b;
      RegisterConcat(Feed(s, a[0]), a[1..], b);
    }
  }

  /** The two messages differ, and only inside the four bytes from `at` on. */
  predicate DifferOnlyInWord(a: Bytes, b: Bytes, at: nat) {
    |a| == |b| && at + 4 <= |a| && a[..at] == b[..at] && a[at + 4..] == b[at + 4..] && a != b
  }

  /** Every change confined to four consecutive bytes changes the checksum. */
  lemma BurstChangesCrc(a: Bytes, b: Bytes, at: nat)
    requires DifferOnlyInWord(a, b, at)
    ensures Crc32(a) != Crc32(b)
  {
    var head, tail := a[..at], a[at + 4..];
    var u, v := a[at..at + 4], b[at..at + 4];
    assert a == head + (u + tail) && b == head + (v + tail);
    if Crc32(a) == Crc32(b) {
      Complement(Register(ALL_ONES, a), Register(ALL_ONES, b));
      RegisterConcat(ALL_ONES, head, u + tail);
      RegisterConcat(ALL_ONES, head, v + tail);
      var s := Register(ALL_ONES, head);
      RegisterConcat(s, u, tail);
      RegisterConcat(s, v, tail);
      TailInjective(Register(s, u), Register(s, v), tail);
      WordInjective(s, u, v);
      assert false;
    }
  }

  /** The standard check: the nine characters 123456789 have the checksum 0xCBF43926. */
  lemma CheckValue()
    ensures Crc32([0x31, 0x32, 0x33, 0x34, 0x35, 0x36, 0x37, 0x38, 0x39]) == 0xCBF4_3926
  {
    assert Feed(ALL_ONES, 0x31) == 0x7C23_1048;
    assert Feed(0x7C23_1048, 0x32) == 0xB0AC_BB32;
    assert Feed(0xB0AC_BB32, 0x33) == 0x77B7_9C2D;
    assert Feed(0x77B7_9C2D, 0x34) == 0x641C_1F5C;
    assert Feed(0x641C_1F5C, 0x35) == 0x340A_C5E3;
    assert Feed(0x340A_C5E3, 0x36) == 0xF68D_2C9E;
    assert Feed(0xF68D_2C9E, 0x37) == 0xAFFC_9660;
    assert Feed(0xAFFC_9660, 0x38) == 0x651F_2550;
    assert Feed(0x651F_2550, 0x39) == 0x340B_C6D9;
    FeedNext(ALL_ONES, 0x31, [0x32, 0x33, 0x34, 0x35, 0x36, 0x37, 0x38, 0x39]);
    FeedNext(0x7C23_1048, 0x32, [0x33, 0x34, 0x35, 0x36, 0x37, 0x38, 0x39]);
    FeedNext(0xB0AC_BB32, 0x33, [0x34, 0x35, 0x36, 0x37, 0x38, 0x39]);
    FeedNext(0x77B7_9C2D, 0x34, [0x35, 0x36, 0x37, 0x38, 0x39]);
    FeedNext(0x641C_1F5C, 0x35, [0x36, 0x37, 0x38, 0x39]);
    FeedNext(0x340A_C5E3, 0x36, [0x37, 0x38, 0x39]);
    FeedNext(0xF68D_2C9E, 0x37, [0x38, 0x39]);
    FeedNext(0xAFFC_9660, 0x38, [0x39]);
    FeedNext(0x651F_2550, 0x39, []);
  }

  lemma FeedNext(s: bv32, b: bv8, rest: Bytes)
    ensures Register(s, [b] + rest) == Register(Feed(s, b), rest)
  {
    assert ([b] + rest)[1..] == rest;
  }
}
