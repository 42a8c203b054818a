/** The tables of arc-intel/indexer/token_risk.py, and the proof that its round
    constants are the LFSR output of FIPS 202, Algorithm 5. */
module KeccakTables {
  import opened PyInt
  import Fips202

  const KECCAK_RC: seq<nat> := [
    0x0000000000000001, 0x0000000000008082, 0x800000000000808A, 0x8000000080008000,
    0x000000000000808B, 0x0000000080000001, 0x8000000080008081, 0x8000000000008009,
    0x000000000000008A, 0x0000000000000088, 0x0000000080008009, 0x000000008000000A,
    0x000000008000808B, 0x800000000000008B, 0x8000000000008089, 0x8000000000008003,
    0x8000000000008002, 0x8000000000000080, 0x000000000000800A, 0x800000008000000A,
    0x8000000080008081, 0x8000000000008080, 0x0000000080000001, 0x8000000080008008]

  const KECCAK_R: seq<seq<nat>> := [
    [0, 36, 3, 41, 18], [1, 44, 10, 45, 2], [62, 6, 43, 15, 61],
    [28, 55, 25, 21, 56], [27, 20, 39, 8, 14]]

  const MASK64: nat := 0xFFFF_FFFF_FFFF_FFFF

  lemma Pow64()
    ensures Pow2(64) == MASK64 + 1
  {
    Pow32();
    Pow2Add(32, 32);
  }

  lemma Pow32()
    ensures Pow2(16) == 65536 && Pow2(32) == 4294967296
  {
    assert Pow2(8) == 256;
    Pow2Add(8, 8);
    assert Pow2(16) == 256 * 256;
    Pow2Add(16, 16);
    assert Pow2(32) == 65536 * 65536;
  }

  // ----- the round constant table against the LFSR of Algorithm 5

  function B(b: bool): nat {
    if b then 1 else 0
  }

  /** Seven bits at positions 0, 1, 3, 7, 15, 31 and 63. */
  function Spread(b0: bool, b1: bool, b2: bool, b3: bool, b4: bool, b5: bool, b6: bool): nat {
    B(b0) + 2 * (B(b1) + 4 * (B(b2) + 16 * (B(b3) + 256 * (B(b4) + 65536 * (B(b5) + 4294967296 * B(b6))))))
  }

  function L(r0: bool, r1: bool, r2: bool, r3: bool, r4: bool, r5: bool, r6: bool, r7: bool): Fips202.Lfsr {
    Fips202.Lfsr(r0, r1, r2, r3, r4, r5, r6, r7)
  }

  /** Seven steps of the LFSR at once, and the constant spelled by its next seven outputs. */
  function Advance7(s: Fips202.Lfsr): Fips202.Lfsr {
    L((s.r1 != s.r3) != s.r4, (s.r2 != s.r4) != s.r5, (s.r3 != s.r5) != s.r6, (s.r4 != s.r6) != s.r7,
      (((s.r1 != s.r3) != s.r4) != s.r5) != s.r7, (((s.r1 != s.r2) != s.r3) != s.r5) != s.r6,
      ((s.r1 != s.r2) != s.r6) != s.r7, ((s.r0 != s.r2) != s.r3) != s.r7)
  }

  function ConstantFrom(s: Fips202.Lfsr): nat {
    Spread(s.r0, s.r7, s.r6, s.r5 != s.r7, (s.r4 != s.r6) != s.r7, (s.r3 != s.r5) != s.r6, (s.r2 != s.r4) != s.r5)
  }

  lemma SevenAhead(t: nat)
    ensures Fips202.LfsrAt(t + 7) == Advance7(Fips202.LfsrAt(t))
  {
    LfsrSteps(t); LfsrSteps(t + 1); LfsrSteps(t + 2); LfsrSteps(t + 3);
    LfsrSteps(t + 4); LfsrSteps(t + 5); LfsrSteps(t + 6);
    SevenAdvance(Fips202.LfsrAt(t));
    hide *;
  }

  lemma ConstantOutputs(t: nat)
    ensures ConstantFrom(Fips202.LfsrAt(t)) ==
            Spread(Fips202.LfsrAt(t).r0, Fips202.LfsrAt(t + 1).r0, Fips202.LfsrAt(t + 2).r0,
                   Fips202.LfsrAt(t + 3).r0, Fips202.LfsrAt(t + 4).r0, Fips202.LfsrAt(t + 5).r0,
                   Fips202.LfsrAt(t + 6).r0)
  {
    LfsrSteps(t); LfsrSteps(t + 1); LfsrSteps(t + 2); LfsrSteps(t + 3);
    LfsrSteps(t + 4); LfsrSteps(t + 5);
    FirstOutputs(Fips202.LfsrAt(t));
    LastOutputs(Fips202.LfsrAt(t));
    hide Fips202.LfsrAt, Spread, Advance7, Fips202.Lfsr.Step;
  }

  lemma LfsrSteps(t: nat)
    ensures Fips202.LfsrAt(t + 1) == Fips202.LfsrAt(t).Step()
  {
  }

  lemma FirstOutputs(s: Fips202.Lfsr)
    ensures s.Step().r0 == s.r7 && s.Step().Step().r0 == s.r6 && s.Step().Step().Step().r0 == (s.r5 != s.r7)
  {
  }

  lemma LastOutputs(s: Fips202.Lfsr)
    ensures s.Step().Step().Step().Step().r0 == ((s.r4 != s.r6) != s.r7)
    ensures s.Step().Step().Step().Step().Step().r0 == ((s.r3 != s.r5) != s.r6)
    ensures s.Step().Step().Step().Step().Step().Step().r0 == ((s.r2 != s.r4) != s.r5)
  {
  }

  lemma SevenAdvance(s: Fips202.Lfsr)
    ensures s.Step().Step().Step().Step().Step().Step().Step() == Advance7(s)
  {
  }

  /** The LFSR after 0, 7, 14, ... 161 steps. */
  function Seventh(i: nat): Fips202.Lfsr {
    match i
    case 0 => L(true, false, false, false, false, false, false, false)
    case 1 => L(false, false, false, false, false, false, false, true)
    case 2 => L(false, false, false, true, true, false, true, true)
    case 3 => L(false, true, false, true, true, false, false, false)
    case 4 => L(true, true, true, true, true, false, true, true)
    case 5 => L(true, false, false, true, false, false, false, false)
    case 6 => L(true, false, true, false, true, true, false, false)
    case 7 => L(true, true, true, true, false, false, true, false)
    case 8 => L(false, true, false, true, false, false, true, true)
    case 9 => L(false, false, false, false, true, true, true, false)
    case 10 => L(true, false, false, false, false, false, true, false)
    case 11 => L(false, false, true, true, false, true, true, true)
    case 12 => L(true, false, true, false, true, false, true, true)
    case 13 => L(true, false, true, true, false, false, true, true)
    case 14 => L(true, true, false, false, false, true, true, false)
    case 15 => L(true, true, false, true, false, true, false, true)
    case 16 => L(false, true, false, true, false, true, false, true)
    case 17 => L(false, true, false, true, false, true, false, false)
    case 18 => L(false, true, false, false, true, true, true, true)
    case 19 => L(false, false, false, true, false, true, true, true)
    case 20 => L(true, true, true, false, true, true, false, false)
    case 21 => L(false, true, true, true, true, true, false, false)
    case 22 => L(true, true, false, true, false, false, false, false)
    case _ => L(false, false, true, false, false, false, true, false)
  }

  lemma SeventhAdvances(i: nat)
    requires i < 23
    ensures Seventh(i + 1) == Advance7(Seventh(i))
  {
    if i < 6 {
      assert i == 0 || i == 1 || i == 2 || i == 3 || i == 4 || i == 5;
    } else if i < 12 {
      assert i == 6 || i == 7 || i == 8 || i == 9 || i == 10 || i == 11;
    } else if i < 18 {
      assert i == 12 || i == 13 || i == 14 || i == 15 || i == 16 || i == 17;
    } else {
      assert i == 18 || i == 19 || i == 20 || i == 21 || i == 22;
    }
  }

  lemma FirstSeventh()
    ensures Seventh(0) == Fips202.LfsrAt(0)
  {
  }

  lemma {:induction false} SeventhIsLfsr(i: nat)
    requires i < 24
    ensures Seventh(i) == Fips202.LfsrAt(7 * i)
  {
    hide *;
    if i == 0 {
      FirstSeventh();
    } else {
      SeventhIsLfsr(i - 1);
      SeventhAdvances(i - 1);
      SevenAhead(7 * (i - 1));
      assert 7 * (i - 1) + 7 == 7 * i;
    }
  }

  lemma TableConstants(i: nat)
    requires i < 24
    ensures KECCAK_RC[i] == ConstantFrom(Seventh(i))
  {
    if i < 8 {
      assert i == 0 || i == 1 || i == 2 || i == 3 || i == 4 || i == 5 || i == 6 || i == 7;
    } else if i < 16 {
      assert i == 8 || i == 9 || i == 10 || i == 11 || i == 12 || i == 13 || i == 14 || i == 15;
    } else {
      assert i == 16 || i == 17 || i == 18 || i == 19 || i == 20 || i == 21 || i == 22 || i == 23;
    }
  }

  lemma {:induction false} PlaceBit(b: bool, high: nat, k: nat, p: nat, z: nat)
    requires k >= 1 && p == Pow2(k)
    ensures Bit(B(b) + p * high, z) == if z == 0 then b else if z < k then false else Bit(high, z - k)
  {
    assert B(b) < p && Pow2(1) == 2;
    SplitBit(B(b), high, k, z);
    if 0 < z < k { SmallHasNoHighBit(B(b), 1, z); }
  }

  lemma TopTwoBits(b5: bool, b6: bool, z: nat)
    requires z < 33
    ensures Bit(B(b5) + 4294967296 * B(b6), z) == ((z == 0 && b5) || (z == 32 && b6))
  {
    Pow32();
    hide Bit;
    PlaceBit(b5, B(b6), 32, 4294967296, z);
    SingleBit(b6);
  }

  lemma SingleBit(b: bool)
    ensures Bit(B(b), 0) == b
  {
  }

  lemma TopThreeBits(b4: bool, b5: bool, b6: bool, z: nat)
    requires z < 49
    ensures Bit(B(b4) + 65536 * (B(b5) + 4294967296 * B(b6)), z) == ((z == 0 && b4) || (z == 16 && b5) || (z == 48 && b6))
  {
    Pow32();
    hide Bit;
    PlaceBit(b4, B(b5) + 4294967296 * B(b6), 16, 65536, z);
    if z >= 16 { TopTwoBits(b5, b6, z - 16); }
  }

  lemma SpreadHighBit(b3: bool, b4: bool, b5: bool, b6: bool, z: nat)
    requires z < 57
    ensures Bit(B(b3) + 256 * (B(b4) + 65536 * (B(b5) + 4294967296 * B(b6))), z) ==
            ((z == 0 && b3) || (z == 8 && b4) || (z == 24 && b5) || (z == 56 && b6))
  {
    Pow32();
    hide Bit;
    PlaceBit(b3, B(b4) + 65536 * (B(b5) + 4294967296 * B(b6)), 8, 256, z);
    if z >= 8 { TopThreeBits(b4, b5, b6, z - 8); }
  }

  lemma SpreadMiddleBit(b2: bool, b3: bool, b4: bool, b5: bool, b6: bool, z: nat)
    requires z < 61
    ensures Bit(B(b2) + 16 * (B(b3) + 256 * (B(b4) + 65536 * (B(b5) + 4294967296 * B(b6)))), z) ==
            ((z == 0 && b2) || (z == 4 && b3) || (z == 12 && b4) || (z == 28 && b5) || (z == 60 && b6))
  {
    hide Bit;
    PlaceBit(b2, B(b3) + 256 * (B(b4) + 65536 * (B(b5) + 4294967296 * B(b6))), 4, 16, z);
    if z >= 4 { SpreadHighBit(b3, b4, b5, b6, z - 4); }
  }

  lemma SpreadBit(b0: bool, b1: bool, b2: bool, b3: bool, b4: bool, b5: bool, b6: bool, z: nat)
    requires z < 64
    ensures Bit(Spread(b0, b1, b2, b3, b4, b5, b6), z) ==
            ((z == 0 && b0) || (z == 1 && b1) || (z == 3 && b2) || (z == 7 && b3)
             || (z == 15 && b4) || (z == 31 && b5) || (z == 63 && b6))
  {
    hide Bit;
    var v2 := B(b2) + 16 * (B(b3) + 256 * (B(b4) + 65536 * (B(b5) + 4294967296 * B(b6))));
    PlaceBit(b0, B(b1) + 4 * v2, 1, 2, z);
    if z >= 1 { PlaceBit(b1, v2, 2, 4, z - 1); }
    if z >= 3 { SpreadMiddleBit(b2, b3, b4, b5, b6, z - 3); }
  }

  lemma EarlyRc(t: nat)
    requires t < 255
    ensures Fips202.Rc(t) == Fips202.LfsrAt(t).r0
  {
    assert t % 255 == t;
  }

  lemma ConstantBit(i: nat, z: nat)
    requires i < 24 && z < 64
    ensures Bit(ConstantFrom(Fips202.LfsrAt(7 * i)), z) == Fips202.RoundBit(i, z)
  {
    hide Spread, Bit, Fips202.Rc, Fips202.LfsrAt, ConstantFrom;
    var t := 7 * i;
    ConstantOutputs(t);
    SpreadBit(Fips202.LfsrAt(t).r0, Fips202.LfsrAt(t + 1).r0, Fips202.LfsrAt(t + 2).r0, Fips202.LfsrAt(t + 3).r0,
              Fips202.LfsrAt(t + 4).r0, Fips202.LfsrAt(t + 5).r0, Fips202.LfsrAt(t + 6).r0, z);
    EarlyRc(t); EarlyRc(1 + t); EarlyRc(2 + t); EarlyRc(3 + t);
    EarlyRc(4 + t); EarlyRc(5 + t); EarlyRc(6 + t);
  }

  /** The table of the source is the output of Algorithm 5. */
  lemma TableBit(i: nat, z: nat)
    requires i < 24 && z < 64
    ensures Bit(KECCAK_RC[i], z) == Fips202.RoundBit(i, z)
  {
    SeventhIsLfsr(i);
    TableConstants(i);
    ConstantBit(i, z);
  }

  // ----- the rotation table against the walk of Algorithm 2

  /** The time at which the walk meets lane (x, y); 24 for (0, 0), which it never meets. */
  const WALK_TIME: seq<seq<nat>> := [
    [24, 7, 1, 13, 19],
    [0, 23, 3, 8, 10],
    [18, 2, 17, 4, 21],
    [6, 9, 16, 5, 14],
    [12, 22, 20, 15, 11]]

  /** The rotation `_KECCAK_R[x][y]`. */
  function Rot(x: int, y: int): nat
    requires 0 <= x < 5 && 0 <= y < 5
  {
    KECCAK_R[x][y]
  }

  function Tri(t: nat): nat {
    (t + 1) * (t + 2) / 2
  }

  function WalkTime(x: int, y: int): nat
    requires 0 <= x < 5 && 0 <= y < 5
  {
    WALK_TIME[x][y]
  }

  function WalkX(t: nat): int {
    match t
    case 0 => 1
    case 1 => 0
    case 2 => 2
    case 3 => 1
    case 4 => 2
    case 5 => 3
    case 6 => 3
    case 7 => 0
    case 8 => 1
    case 9 => 3
    case 10 => 1
    case 11 => 4
    case 12 => 4
    case 13 => 0
    case 14 => 3
    case 15 => 4
    case 16 => 3
    case 17 => 2
    case 18 => 2
    case 19 => 0
    case 20 => 4
    case 21 => 2
    case 22 => 4
    case _ => 1
  }

  function WalkY(t: nat): int {
    if t >= 23 then 1 else WalkX(t + 1)
  }

  lemma WalkStart()
    ensures WalkX(0) == 1 && WalkY(0) == 0 && Rot(0, 0) == 0
  {
  }

  lemma WalkSteps(t: nat)
    requires t < 23
    ensures WalkX(t + 1) == WalkY(t) && WalkY(t + 1) == Fips202.Mod5(2 * WalkX(t) + 3 * WalkY(t))
  {
    if t < 6 {
      assert t == 0 || t == 1 || t == 2 || t == 3 || t == 4 || t == 5;
    } else if t < 12 {
      assert t == 6 || t == 7 || t == 8 || t == 9 || t == 10 || t == 11;
    } else if t < 18 {
      assert t == 12 || t == 13 || t == 14 || t == 15 || t == 16 || t == 17;
    } else {
      assert t == 18 || t == 19 || t == 20 || t == 21 || t == 22;
    }
  }

  lemma WalkTimes(t: nat)
    requires t < 24
    ensures 0 <= WalkX(t) < 5 && 0 <= WalkY(t) < 5 && WalkTime(WalkX(t), WalkY(t)) == t
  {
    if t < 6 {
      assert t == 0 || t == 1 || t == 2 || t == 3 || t == 4 || t == 5;
    } else if t < 12 {
      assert t == 6 || t == 7 || t == 8 || t == 9 || t == 10 || t == 11;
    } else if t < 18 {
      assert t == 12 || t == 13 || t == 14 || t == 15 || t == 16 || t == 17;
    } else {
      assert t == 18 || t == 19 || t == 20 || t == 21 || t == 22 || t == 23;
    }
  }

  lemma WalkOffsets(t: nat)
    requires t < 24
    ensures 0 <= WalkX(t) < 5 && 0 <= WalkY(t) < 5
    ensures Rot(WalkX(t), WalkY(t)) == Tri(t) % 64
  {
    if t < 6 {
      assert t == 0 || t == 1 || t == 2 || t == 3 || t == 4 || t == 5;
    } else if t < 12 {
      assert t == 6 || t == 7 || t == 8 || t == 9 || t == 10 || t == 11;
    } else if t < 18 {
      assert t == 12 || t == 13 || t == 14 || t == 15 || t == 16 || t == 17;
    } else {
      assert t == 18 || t == 19 || t == 20 || t == 21 || t == 22 || t == 23;
    }
  }

  lemma TimesAreInverse(x: nat, y: nat)
    requires x < 5 && y < 5
    ensures WalkTime(x, y) <= 24
    ensures WalkTime(x, y) == 24 <==> x == 0 && y == 0
    ensures WalkTime(x, y) < 24 ==> WalkX(WalkTime(x, y)) == x && WalkY(WalkTime(x, y)) == y
  {
    assert y == 0 || y == 1 || y == 2 || y == 3 || y == 4;
    assert x == 0 || x == 1 || x == 2 || x == 3 || x == 4;
  }

  /** From time t on, the search of Fips202.WalkOffset stops at WalkTime(x, y). */
  lemma {:induction false} SearchFinds(x: nat, y: nat, t: nat)
    requires x < 5 && y < 5 && t <= WalkTime(x, y) <= 24
    ensures var T := WalkTime(x, y);
            Fips202.WalkOffset(x, y, WalkX(t), WalkY(t), t) == if T == 24 then 0 else Tri(T)
    decreases 24 - t
  {
    hide WalkX, WalkY, WalkTime, Fips202.Mod5;
    if t < 24 {
      WalkTimes(t);
      TimesAreInverse(x, y);
      if WalkX(t) != x || WalkY(t) != y {
        if t < 23 { WalkSteps(t); }
        if t < WalkTime(x, y) { SearchFinds(x, y, t + 1); }
      }
    }
  }

  /** The rotation table of the source is the rho offset of section 3.2.2, modulo the lane length. */
  lemma OffsetTable(x: nat, y: nat)
    requires x < 5 && y < 5
    ensures Rot(x, y) < 64 && Rot(x, y) == Fips202.Mod64(Fips202.RhoOffset(x, y))
  {
    hide WalkX, WalkY, WalkTime, Rot, Tri, Fips202.WalkOffset;
    WalkStart();
    TimesAreInverse(x, y);
    SearchFinds(x, y, 0);
    if WalkTime(x, y) < 24 { WalkOffsets(WalkTime(x, y)); }
  }
}
