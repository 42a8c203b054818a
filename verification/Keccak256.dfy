/** `keccak256` of arc-intel/indexer/token_risk.py: bytes in, 32 bytes out,
    equal to the sponge of FIPS 202 section 4 on the bits of the input. */
module Keccak256 {
  import opened PyInt
  import opened KeccakTables
  import opened Keccak
  import F = Fips202

  type Byte = b: int | 0 <= b < 256

  const RATE_BYTES := 136

  /** Bytes as bits, least significant bit first (FIPS 202, section B.1). */
  function Bits(d: seq<Byte>): (bits: seq<bool>)
    ensures |bits| == 8 * |d|
  {
    seq(8 * |d|, k requires 0 <= k < 8 * |d| => Bit(d[k / 8], k % 8))
  }

  // ----- padding

  function ZeroBytes(n: int): (j: nat)
    ensures j < RATE_BYTES
  {
    (-n - 1) % RATE_BYTES
  }

  /** The input, 0x01, zeros up to a whole block, and 0x80 xored into the last byte. */
  function PaddedBytes(data: seq<Byte>): (d: seq<Byte>)
    ensures |d| == |data| + 1 + ZeroBytes(|data|)
  {
    var j := ZeroBytes(|data|);
    if j == 0 then data + [0x81]
    else data + [0x01] + seq(j - 1, _ => 0) + [0x80]
  }

  lemma ZeroBytesFill(n: nat)
    ensures (n + 1 + ZeroBytes(n)) % RATE_BYTES == 0
  {
    var q := (0 - n - 1) / RATE_BYTES;
    QuotientUnique(n + 1 + ZeroBytes(n), RATE_BYTES, -q, 0);
  }

  lemma ZeroBytesCount(n: nat, j: nat)
    requires j < RATE_BYTES && (n + 1 + j) % RATE_BYTES == 0
    ensures j == ZeroBytes(n)
  {
    var q := (n + 1 + j) / RATE_BYTES;
    QuotientUnique(0 - n - 1, RATE_BYTES, -q, j);
  }

  lemma XorLastByte()
    ensures Xor(0x01, 0x80) == 0x81 && Xor(0x00, 0x80) == 0x80
  {
    XorZero(0x80);
    XorZero(0x40);
  }

  lemma {:induction false} XorZero(v: nat)
    ensures Xor(0, v) == v
  {
    if v > 0 { XorZero(v / 2); }
  }

  lemma LastByte(data: seq<Byte>, d: seq<Byte>)
    requires d == data + [0x01] + seq(ZeroBytes(|data|), _ => 0)
    ensures d[|d| - 1] == 0x01 || d[|d| - 1] == 0
    ensures 0 <= Xor(d[|d| - 1], 0x80) < 256
    ensures d[|d| - 1 := Xor(d[|d| - 1], 0x80)] == PaddedBytes(data)
  {
    hide Xor, ZeroBytes;
    XorLastByte();
  }

  method Pad(data: seq<Byte>) returns (d: seq<Byte>)
    ensures d == PaddedBytes(data)
    ensures |d| % RATE_BYTES == 0
  {
    hide ZeroBytes, Xor, PaddedBytes;
    ZeroBytesFill(|data|);
    d := data + [0x01];
    ghost var j := 0;
    while |d| % RATE_BYTES != 0
      invariant d == data + [0x01] + seq(j, _ => 0) && j <= ZeroBytes(|data|)
      decreases ZeroBytes(|data|) - j
    {
      d := d + [0x00];
      j := j + 1;
    }
    ZeroBytesCount(|data|, j);
    LastByte(data, d);
    d := d[|d| - 1 := Xor(d[|d| - 1], 0x80)];
  }

  // ----- padding, bit by bit

  lemma SmallByteBits(i: nat)
    requires i < 8
    ensures Bit(0x01, i) == (i == 0) && Bit(0x80, i) == (i == 7) && Bit(0x81, i) == (i == 0 || i == 7) && !Bit(0, i)
  {
    assert i == 0 || i == 1 || i == 2 || i == 3 || i == 4 || i == 5 || i == 6 || i == 7;
  }

  lemma PadLength(n: nat)
    ensures 8 * (1 + ZeroBytes(n)) == |F.Pad(8 * n)|
  {
    var j := ZeroBytes(n);
    var q := (0 - n - 1) / RATE_BYTES;
    assert 0 - n - 1 == q * RATE_BYTES + j;
    QuotientUnique(0 - 8 * n - 2, F.RATE, q, 8 * j + 6);
  }

  /** Keccak's byte padding is pad10*1 on the bits. */
  lemma PaddedBytesArePadded(data: seq<Byte>)
    ensures Bits(PaddedBytes(data)) == F.Padded(Bits(data))
  {
    var n := |data|;
    var j := ZeroBytes(n);
    var d, P := PaddedBytes(data), F.Padded(Bits(data));
    PadLength(n);
    forall k | 0 <= k < |P| ensures Bits(d)[k] == P[k] {
      if k >= 8 * n {
        SmallByteBits(k % 8);
        assert P[k] == F.Pad(8 * n)[k - 8 * n];
      }
    }
  }

  /** The message under a padding: drop the last bit, the zeros, and one more bit. */
  function Unpad(P: seq<bool>): seq<bool> {
    if |P| == 0 then [] else DropZeros(P[..|P| - 1])
  }

  function DropZeros(P: seq<bool>): seq<bool> {
    if |P| == 0 then []
    else if P[|P| - 1] then P[..|P| - 1]
    else DropZeros(P[..|P| - 1])
  }

  lemma {:induction false} DropZerosUndoes(message: seq<bool>, n: nat)
    ensures DropZeros(message + [true] + seq(n, _ => false)) == message
  {
    var P := message + [true] + seq(n, _ => false);
    if n == 0 {
      assert P[..|P| - 1] == message;
    } else {
      assert P[..|P| - 1] == message + [true] + seq(n - 1, _ => false);
      DropZerosUndoes(message, n - 1);
    }
  }

  /** Padding can be undone, so distinct inputs are absorbed as distinct blocks. */
  lemma PaddingIsInjective(data: seq<Byte>)
    ensures Unpad(Bits(PaddedBytes(data))) == Bits(data)
  {
    PaddedBytesArePadded(data);
    var m := Bits(data);
    var P := F.Padded(m);
    var z := (-|m| - 2) % F.RATE;
    assert P[..|P| - 1] == m + [true] + seq(z, _ => false);
    DropZerosUndoes(m, z);
  }

  // ----- little-endian lanes

  function FromLittle(b: seq<Byte>): nat {
    if |b| == 0 then 0 else b[0] + 256 * FromLittle(b[1..])
  }

  function ToLittle(v: nat, n: nat): (b: seq<Byte>)
    ensures |b| == n
    decreases n
  {
    if n == 0 then [] else [v % 256] + ToLittle(v / 256, n - 1)
  }

  lemma {:induction false} FromLittleSmall(b: seq<Byte>)
    ensures FromLittle(b) < Pow2(8 * |b|)
  {
    if |b| > 0 {
      FromLittleSmall(b[1..]);
      EightMore(8 * (|b| - 1));
    }
  }

  lemma FromLittleIsLane(b: seq<Byte>)
    requires |b| == 8
    ensures IsLane(FromLittle(b))
  {
    FromLittleSmall(b);
    Pow64();
  }

  lemma EightMore(n: nat)
    ensures Pow2(n + 8) == 256 * Pow2(n)
  {
    Pow2Add(8, n);
    assert Pow2(8) == 256;
  }

  lemma {:induction false} FromLittleBit(b: seq<Byte>, k: nat)
    requires k < 8 * |b|
    ensures Bit(FromLittle(b), k) == Bit(b[k / 8], k % 8)
  {
    assert Pow2(8) == 256;
    SplitBit(b[0], FromLittle(b[1..]), 8, k);
    if k >= 8 {
      FromLittleBit(b[1..], k - 8);
    }
  }

  lemma {:induction false} ToLittleBit(v: nat, n: nat, k: nat)
    requires k < 8 * n
    ensures Bit(ToLittle(v, n)[k / 8], k % 8) == Bit(v, k)
    decreases n
  {
    assert Pow2(8) == 256;
    assert v == v % 256 + Pow2(8) * (v / 256);
    SplitBit(v % 256, v / 256, 8, k);
    if k >= 8 {
      ToLittleBit(v / 256, n - 1, k - 8);
    }
  }

  // ----- absorbing

  method AbsorbBlock(state: array<nat>, block: seq<Byte>)
    requires state.Length == 25 && |block| == RATE_BYTES
    modifies state
    ensures forall i :: 0 <= i < 17 ==> state[i] == Xor(old(state[i]), FromLittle(block[8 * i..8 * i + 8]))
    ensures forall i :: 17 <= i < 25 ==> state[i] == old(state[i])
  {
    hide Xor, FromLittle;
    for i := 0 to RATE_BYTES / 8
      invariant forall j :: 0 <= j < i ==> state[j] == Xor(old(state[j]), FromLittle(block[8 * j..8 * j + 8]))
      invariant forall j :: i <= j < 25 ==> state[j] == old(state[j])
    {
      state[i] := Xor(state[i], FromLittle(block[i * 8..i * 8 + 8]));
    }
  }

  lemma BlockRepresents(s: seq<nat>, s': seq<nat>, A: F.State, d: seq<Byte>, n: nat)
    requires Represents(s, A) && |s'| == 25 && RATE_BYTES * (n + 1) <= |d|
    requires forall i :: 0 <= i < 17 ==>
      s'[i] == Xor(s[i], FromLittle(d[RATE_BYTES * n + 8 * i..RATE_BYTES * n + 8 * i + 8]))
    requires forall i :: 17 <= i < 25 ==> s'[i] == s[i]
    ensures Represents(s', F.XorBlock(A, Bits(d), n))
  {
    hide Bits, Bit, Xor, FromLittle, IsLane, At, F.State.Get;
    forall i | 0 <= i < 25 ensures IsLane(s'[i]) {
      if i < 17 { BlockLane(s[i], d, n, i, 0); }
    }
    forall x, y, z | 0 <= x < 5 && 0 <= y < 5 && 0 <= z < 64
      ensures Bit(s'[At(x, y)], z) == F.XorBlock(A, Bits(d), n).Get(x, y, z)
    {
      BlockBitAt(s, s', A, d, n, x, y, z);
    }
  }

  lemma BlockBitAt(s: seq<nat>, s': seq<nat>, A: F.State, d: seq<Byte>, n: nat, x: int, y: int, z: int)
    requires Represents(s, A) && |s'| == 25 && RATE_BYTES * (n + 1) <= |d|
    requires forall i :: 0 <= i < 17 ==>
      s'[i] == Xor(s[i], FromLittle(d[RATE_BYTES * n + 8 * i..RATE_BYTES * n + 8 * i + 8]))
    requires forall i :: 17 <= i < 25 ==> s'[i] == s[i]
    requires 0 <= x < 5 && 0 <= y < 5 && 0 <= z < 64
    ensures Bit(s'[At(x, y)], z) == F.XorBlock(A, Bits(d), n).Get(x, y, z)
  {
    XorBlockGet(A, Bits(d), n, x, y, z);
    hide Bits, Bit, Xor, FromLittle, IsLane, F.BlockBit, F.State.Get;
    var i := At(x, y);
    assert Bit(s[i], z) == A.Get(x, y, z);
    if i < 17 {
      BlockLane(s[i], d, n, i, z);
    } else {
      PastTheRate(Bits(d), n, 64 * i + z);
    }
  }

  lemma XorBlockGet(A: F.State, P: seq<bool>, n: nat, x: int, y: int, z: int)
    ensures F.XorBlock(A, P, n).Get(x, y, z) == (A.Get(x, y, z) != F.BlockBit(P, n, 64 * (x + 5 * y) + z))
  {
    hide F.BlockBit;
  }

  lemma PastTheRate(P: seq<bool>, n: nat, k: int)
    requires k >= F.RATE
    ensures !F.BlockBit(P, n, k)
  {
  }

  lemma BlockLane(lane: nat, d: seq<Byte>, n: nat, i: nat, z: nat)
    requires IsLane(lane) && RATE_BYTES * (n + 1) <= |d| && i < 17 && z < 64
    ensures var v := FromLittle(d[RATE_BYTES * n + 8 * i..RATE_BYTES * n + 8 * i + 8]);
            IsLane(Xor(lane, v)) && Bit(Xor(lane, v), z) == (Bit(lane, z) != F.BlockBit(Bits(d), n, 64 * i + z))
  {
    hide Xor, Bit, FromLittle, IsLane;
    var o := RATE_BYTES * n + 8 * i;
    var b := d[o..o + 8];
    FromLittleIsLane(b);
    XorLane(lane, FromLittle(b));
    XorBit(lane, FromLittle(b), z);
    FromLittleBit(b, z);
    assert b[z / 8] == d[o + z / 8];
    var k := F.RATE * n + (64 * i + z);
    assert k == 8 * (o + z / 8) + z % 8;
    assert k / 8 == o + z / 8 && k % 8 == z % 8;
  }

  lemma ZeroState(s: seq<nat>)
    requires |s| == 25 && forall i :: 0 <= i < 25 ==> s[i] == 0
    ensures Represents(s, F.Zero)
  {
    forall z: nat ensures !Bit(0, z) { ZeroBit(z); }
  }

  method Absorb(d: seq<Byte>) returns (state: array<nat>)
    requires |d| % RATE_BYTES == 0
    ensures fresh(state) && state.Length == 25
    ensures Represents(state[..], F.Absorb(Bits(d), |d| / RATE_BYTES))
  {
    hide Represents, Bits;
    state := new nat[25](_ => 0);
    ZeroState(state[..]);
    var off := 0;
    ghost var n := 0;
    while off < |d|
      invariant off == RATE_BYTES * n && off <= |d|
      invariant Represents(state[..], F.Absorb(Bits(d), n))
    {
      ghost var s := state[..];
      var block := d[off..off + RATE_BYTES];
      AbsorbBlock(state, block);
      BlockOfData(d, n, block);
      BlockRepresents(s, state[..], F.Absorb(Bits(d), n), d, n);
      KeccakF(state, F.XorBlock(F.Absorb(Bits(d), n), Bits(d), n));
      off := off + RATE_BYTES;
      n := n + 1;
    }
  }

  lemma BlockOfData(d: seq<Byte>, n: nat, block: seq<Byte>)
    requires RATE_BYTES * (n + 1) <= |d| && block == d[RATE_BYTES * n..RATE_BYTES * n + RATE_BYTES]
    ensures forall i :: 0 <= i < 17 ==>
      block[8 * i..8 * i + 8] == d[RATE_BYTES * n + 8 * i..RATE_BYTES * n + 8 * i + 8]
  {
    var o := RATE_BYTES * n;
    forall i | 0 <= i < 17 ensures block[8 * i..8 * i + 8] == d[o + 8 * i..o + 8 * i + 8] {
      SliceOfSlice(d, o, RATE_BYTES, 8 * i, 8 * i + 8);
    }
  }

  lemma SliceOfSlice<T>(d: seq<T>, o: nat, n: nat, a: nat, b: nat)
    requires o + n <= |d| && a <= b <= n
    ensures d[o..o + n][a..b] == d[o + a..o + b]
  {
    var whole := d[o..o + n];
    var s, t := whole[a..b], d[o + a..o + b];
    forall k | 0 <= k < |s| ensures s[k] == t[k] {
      assert s[k] == whole[a + k] == d[o + a + k];
    }
  }

  // ----- the hash

  method Hash(data: seq<Byte>) returns (digest: seq<Byte>)
    ensures |digest| == 32
    ensures Bits(digest) == F.Sponge(Bits(data))
  {
    hide Represents, PaddedBytes, ToLittle, Bits, F.Sponge;
    var d := Pad(data);
    var state := Absorb(d);
    var out: seq<Byte> := [];
    for i := 0 to 25
      invariant |out| == 8 * i
      invariant forall p :: 0 <= p < 8 * i ==> out[p] == ToLittle(state[p / 8], 8)[p % 8]
    {
      out := out + ToLittle(state[i], 8);
    }
    digest := out[..32];
    DigestBits(data, state[..], digest);
  }

  lemma DigestBits(data: seq<Byte>, s: seq<nat>, digest: seq<Byte>)
    requires Represents(s, F.Absorb(Bits(PaddedBytes(data)), |PaddedBytes(data)| / RATE_BYTES))
    requires |digest| == 32 && forall p :: 0 <= p < 32 ==> digest[p] == ToLittle(s[p / 8], 8)[p % 8]
    ensures Bits(digest) == F.Sponge(Bits(data))
  {
    hide Bit, Bits, Represents, ToLittle, PaddedBytes, F.StringBit, F.Absorb, F.Padded;
    PaddedBytesArePadded(data);
    var P := F.Padded(Bits(data));
    BlockCount(PaddedBytes(data), P);
    var S := F.Absorb(P, |P| / F.RATE);
    forall k | 0 <= k < 256 ensures Bits(digest)[k] == F.StringBit(S, k) {
      DigestBit(s, S, digest, k / 64, k % 64);
    }
  }

  lemma BlockCount(d: seq<Byte>, P: seq<bool>)
    requires P == Bits(d)
    ensures |P| / F.RATE == |d| / RATE_BYTES
  {
  }

  lemma DigestBit(s: seq<nat>, S: F.State, digest: seq<Byte>, j: nat, z: nat)
    requires Represents(s, S) && |digest| == 32 && j < 4 && z < 64
    requires forall p :: 0 <= p < 32 ==> digest[p] == ToLittle(s[p / 8], 8)[p % 8]
    ensures Bits(digest)[64 * j + z] == F.StringBit(S, 64 * j + z)
  {
    assert At(j, 0) == j;
    StringBitAt(S, j, z);
    BitsAt(digest, j, z);
    DigestByte(j, z);
    hide ToLittle, Bit, At, IsLane, F.State.Get, F.StringBit, Bits;
    ToLittleBit(s[j], 8, z);
    assert digest[8 * j + z / 8] == ToLittle(s[j], 8)[z / 8];
    assert Bit(s[At(j, 0)], z) == S.Get(j, 0, z);
  }

  lemma StringBitAt(S: F.State, j: nat, z: nat)
    requires j < 4 && z < 64
    ensures F.StringBit(S, 64 * j + z) == S.Get(j, 0, z)
  {
    hide F.State.Get;
    DigestByte(j, z);
  }

  lemma BitsAt(d: seq<Byte>, j: nat, z: nat)
    requires |d| == 32 && j < 4 && z < 64
    ensures Bits(d)[64 * j + z] == Bit(d[8 * j + z / 8], z % 8)
  {
    hide Bit;
    DigestByte(j, z);
  }

  lemma DigestByte(j: nat, z: nat)
    requires j < 4 && z < 64
    ensures (8 * j + z / 8) / 8 == j && (8 * j + z / 8) % 8 == z / 8
    ensures (64 * j + z) / 8 == 8 * j + z / 8 && (64 * j + z) % 8 == z % 8
    ensures (64 * j + z) / 64 == j && (64 * j + z) % 64 == z && j % 5 == j && j / 5 == 0
  {
  }
}
