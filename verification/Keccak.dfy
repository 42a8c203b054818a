/** Keccak-f[1600] of arc-intel/indexer/token_risk.py: 25 integer lanes updated in
    place, against the bit-level specification in F. A lane stands for 64 bits of the
    state, lane x + 5 * y holding bits (x, y, 0) to (x, y, 63); each loop of the source
    is a method proved to keep that reading of the lanes while it applies one step
    mapping. */
module Keccak {
  import opened PyInt
  import opened KeccakTables
  import F = Fips202

  function Rol(x: nat, n: nat): nat
    requires n <= 64
  {
    if n == 0 then x
    else And(Or(Shl(x, n), Shr(x, 64 - n)), MASK64)
  }

  predicate IsLane(v: int) {
    0 <= v <= MASK64
  }

  predicate AreLanes(s: seq<int>) {
    |s| == 25 && forall i :: 0 <= i < 25 ==> IsLane(s[i])
  }

  /** Position of lane (x, y) in the list: `x + 5 * y`. */
  function At(x: int, y: int): (i: nat)
    requires 0 <= x < 5 && 0 <= y < 5
    ensures i < 25
  {
    x + 5 * y
  }

  lemma AtInjective(x: int, y: int, x': int, y': int)
    requires 0 <= x < 5 && 0 <= y < 5 && 0 <= x' < 5 && 0 <= y' < 5 && At(x, y) == At(x', y')
    ensures x == x' && y == y'
  {
  }

  lemma LanesByPosition(s: seq<int>)
    requires |s| == 25 && forall x, y :: 0 <= x < 5 && 0 <= y < 5 ==> IsLane(s[At(x, y)])
    ensures AreLanes(s)
  {
    forall i | 0 <= i < 25 ensures IsLane(s[i]) {
      var y := if i < 5 then 0 else if i < 10 then 1 else if i < 15 then 2 else if i < 20 then 3 else 4;
      assert i == At(i - 5 * y, y);
    }
  }

  lemma XorLane(a: nat, b: nat)
    requires IsLane(a) && IsLane(b)
    ensures IsLane(Xor(a, b))
  {
    Pow64();
    XorSmall(a, b, 64);
  }

  lemma AndLane(a: int, b: nat)
    requires IsLane(b)
    ensures IsLane(And(a, b))
  {
    Pow64();
    AndSmall(a, b, 64);
  }

  lemma LaneHasNoHighBit(a: nat, i: nat)
    requires IsLane(a) && i >= 64
    ensures !Bit(a, i)
  {
    Pow64();
    SmallHasNoHighBit(a, 64, i);
  }

  /** The lanes s are the state array A, bit for bit. */
  ghost predicate Represents(s: seq<int>, A: F.State) {
    && AreLanes(s)
    && forall x, y, z {:trigger A.Get(x, y, z)} :: 0 <= x < 5 && 0 <= y < 5 && 0 <= z < 64 ==>
         Bit(s[At(x, y)], z) == A.Get(x, y, z)
  }

  /** Masking a double-width value keeps its low 64 bits. */
  lemma MaskedOrBit(l: nat, r: nat, z: nat)
    requires z < 64
    ensures IsLane(And(Or(l, r), MASK64))
    ensures Bit(And(Or(l, r), MASK64), z) == (Bit(l, z) || Bit(r, z))
  {
    Pow64();
    var v := Or(l, r);
    AndLane(v, MASK64);
    AndBit(v, MASK64, z);
    MaskBit(64, z);
    OrBit(l, r, z);
  }

  lemma RolBit(x: nat, n: nat, z: nat)
    requires IsLane(x) && n < 64 && z < 64
    ensures IsLane(Rol(x, n))
    ensures Bit(Rol(x, n), z) == Bit(x, if z >= n then z - n else z - n + 64)
  {
    if n > 0 {
      ShlBit(x, n, z);
      ShrBit(x, 64 - n, z);
      MaskedOrBit(Shl(x, n), Shr(x, 64 - n), z);
      if z >= n {
        LaneHasNoHighBit(x, z + 64 - n);
      }
    }
  }

  // ----- theta

  function Parity(s: seq<nat>, x: nat): nat
    requires |s| == 25 && x < 5
  {
    Xor(Xor(Xor(Xor(s[x], s[x + 5]), s[x + 10]), s[x + 15]), s[x + 20])
  }

  function Mix(s: seq<nat>, x: nat): nat
    requires |s| == 25 && x < 5
  {
    Xor(Parity(s, F.Mod5(x - 1)), Rol(Parity(s, F.Mod5(x + 1)), 1))
  }

  lemma ParityBit(s: seq<nat>, A: F.State, x: nat, z: nat)
    requires Represents(s, A) && x < 5 && z < 64
    ensures IsLane(Parity(s, x)) && Bit(Parity(s, x), z) == F.ThetaC(A, x, z)
  {
    hide Xor, Bit;
    var p1 := Xor(s[x], s[x + 5]);
    var p2 := Xor(p1, s[x + 10]);
    var p3 := Xor(p2, s[x + 15]);
    XorLane(s[x], s[x + 5]);
    XorLane(p1, s[x + 10]);
    XorLane(p2, s[x + 15]);
    XorLane(p3, s[x + 20]);
    XorBit(s[x], s[x + 5], z);
    XorBit(p1, s[x + 10], z);
    XorBit(p2, s[x + 15], z);
    XorBit(p3, s[x + 20], z);
    assert A.Get(x, 0, z) == Bit(s[At(x, 0)], z) && A.Get(x, 1, z) == Bit(s[At(x, 1)], z);
    assert A.Get(x, 2, z) == Bit(s[At(x, 2)], z) && A.Get(x, 3, z) == Bit(s[At(x, 3)], z);
    assert A.Get(x, 4, z) == Bit(s[At(x, 4)], z);
  }

  lemma RotatedIndex(z: int, n: int)
    requires 0 <= z < 64
    ensures F.Mod64(z - n) == if z >= F.Mod64(n) then z - F.Mod64(n) else z - F.Mod64(n) + 64
  {
  }

  lemma MixBit(s: seq<nat>, A: F.State, x: nat, z: nat)
    requires Represents(s, A) && x < 5 && z < 64
    ensures IsLane(Mix(s, x)) && Bit(Mix(s, x), z) == F.ThetaD(A, x, z)
  {
    assert F.Mod64(1) == 1;
    hide Represents, IsLane, Rol, Xor, Parity, Bit, F.ThetaC, F.Mod5, F.Mod64;
    var left, right := Parity(s, F.Mod5(x - 1)), Parity(s, F.Mod5(x + 1));
    RotatedIndex(z, 1);
    ParityBit(s, A, F.Mod5(x - 1), z);
    ParityBit(s, A, F.Mod5(x + 1), F.Mod64(z - 1));
    RolBit(right, 1, z);
    XorLane(left, Rol(right, 1));
    XorBit(left, Rol(right, 1), z);
  }

  method Theta(state: array<nat>, ghost A: F.State)
    requires state.Length == 25 && Represents(state[..], A)
    modifies state
    ensures Represents(state[..], F.Theta(A))
  {
    hide Xor, Rol, Parity, Bit, Represents, F.State.Get;
    ghost var s := state[..];
    var c := [Parity(state[..], 0), Parity(state[..], 1), Parity(state[..], 2),
              Parity(state[..], 3), Parity(state[..], 4)];
    var d := seq(5, x requires 0 <= x < 5 => Xor(c[(x - 1) % 5], Rol(c[(x + 1) % 5], 1)));
    assert forall x :: 0 <= x < 5 ==> d[x] == Mix(s, x);
    ThetaLoop(state, d);
    ThetaRepresents(s, state[..], A);
  }

  method ThetaLoop(state: array<nat>, d: seq<nat>)
    requires state.Length == 25 && |d| == 5
    modifies state
    ensures forall x, y :: 0 <= x < 5 && 0 <= y < 5 ==> state[At(x, y)] == Xor(old(state[At(x, y)]), d[x])
  {
    for x := 0 to 5
      invariant forall i, j :: 0 <= i < 5 && 0 <= j < 5 ==>
        state[At(i, j)] == if i < x then Xor(old(state[At(i, j)]), d[i]) else old(state[At(i, j)])
    {
      var y := 0;
      while y < 25
        invariant 0 <= y <= 25 && y % 5 == 0
        invariant forall i, j :: 0 <= i < 5 && 0 <= j < 5 ==>
          state[At(i, j)] == if i < x || (i == x && 5 * j < y) then Xor(old(state[At(i, j)]), d[i]) else old(state[At(i, j)])
      {
        assert x + y == At(x, y / 5);
        state[x + y] := Xor(state[x + y], d[x]);
        y := y + 5;
      }
    }
  }

  lemma ThetaRepresents(s: seq<nat>, s': seq<nat>, A: F.State)
    requires Represents(s, A) && |s'| == 25
    requires forall x, y :: 0 <= x < 5 && 0 <= y < 5 ==> s'[At(x, y)] == Xor(s[At(x, y)], Mix(s, x))
    ensures Represents(s', F.Theta(A))
  {
    hide Mix, Xor, Bit, F.ThetaD;
    forall x, y | 0 <= x < 5 && 0 <= y < 5 ensures IsLane(s'[At(x, y)]) {
      MixBit(s, A, x, 0);
      XorLane(s[At(x, y)], Mix(s, x));
    }
    LanesByPosition(s');
    forall x, y, z | 0 <= x < 5 && 0 <= y < 5 && 0 <= z < 64
      ensures Bit(s'[At(x, y)], z) == F.Theta(A).Get(x, y, z)
    {
      MixBit(s, A, x, z);
      XorBit(s[At(x, y)], Mix(s, x), z);
      assert Bit(s[At(x, y)], z) == A.Get(x, y, z);
    }
  }

  // ----- rho and pi: one scatter into a fresh list

  /** The slot `y + 5 * ((2 * x + 3 * y) % 5)` that lane (x, y) moves to. */
  function Slot(x: int, y: int): (i: nat)
    requires 0 <= x < 5 && 0 <= y < 5
    ensures i < 25
  {
    At(y, F.Mod5(2 * x + 3 * y))
  }

  lemma ModShift(r: int, k: int)
    requires 0 <= r < 5
    ensures F.Mod5(r + 5 * k) == r
  {
  }

  lemma MoveAndBack(x: int, y: int)
    requires 0 <= x < 5 && 0 <= y < 5
    ensures F.Mod5(y + 3 * (F.Mod5(2 * x + 3 * y))) == x
  {
    var q := (2 * x + 3 * y) / 5;
    ModShift(x, x + 2 * y - 3 * q);
  }

  lemma BackAndMove(X: int, Y: int)
    requires 0 <= X < 5 && 0 <= Y < 5
    ensures F.Mod5(2 * (F.Mod5(X + 3 * Y)) + 3 * X) == Y
  {
    var q := (X + 3 * Y) / 5;
    ModShift(Y, X + Y - 2 * q);
  }

  /** The scatter is a permutation: every slot is hit, and by one lane only. */
  lemma ScatterFillsEachSlotOnce(X: int, Y: int)
    requires 0 <= X < 5 && 0 <= Y < 5
    ensures Slot(F.Mod5(X + 3 * Y), X) == At(X, Y)
    ensures forall x, y :: 0 <= x < 5 && 0 <= y < 5 && Slot(x, y) == At(X, Y) ==> x == F.Mod5(X + 3 * Y) && y == X
  {
    BackAndMove(X, Y);
    forall x, y | 0 <= x < 5 && 0 <= y < 5 && Slot(x, y) == At(X, Y)
      ensures x == F.Mod5(X + 3 * Y) && y == X
    {
      MoveAndBack(x, y);
      AtInjective(y, F.Mod5(2 * x + 3 * y), X, Y);
    }
  }

  lemma SlotsDiffer(x: int, y: int)
    requires 0 <= x < 5 && 0 <= y < 5
    ensures forall i, j :: 0 <= i < 5 && 0 <= j < 5 && Slot(i, j) == Slot(x, y) ==> i == x && j == y
  {
    ScatterFillsEachSlotOnce(y, F.Mod5(2 * x + 3 * y));
    MoveAndBack(x, y);
  }

  method RhoPi(state: array<nat>, b: array<nat>, ghost A: F.State)
    requires state.Length == 25 && b.Length == 25 && b != state
    requires Represents(state[..], A)
    modifies b
    ensures Represents(b[..], F.Pi(F.Rho(A)))
  {
    hide Rol, Rot, At, Slot, Bit, Represents, F.State.Get;
    forall x, y | 0 <= x < 5 && 0 <= y < 5 ensures Rot(x, y) < 64 { OffsetTable(x, y); }
    Scatter(state, b);
    RhoPiRepresents(state[..], b[..], A);
  }

  method MoveTo(state: array<nat>, b: array<nat>, x: nat, y: nat)
    requires state.Length == 25 && b.Length == 25 && b != state && x < 5 && y < 5 && Rot(x, y) < 64
    modifies b
    ensures forall k :: 0 <= k < 25 ==>
      b[k] == if k == Slot(x, y) then Rol(state[At(x, y)], Rot(x, y)) else old(b[k])
  {
    hide Rol, Rot;
    b[y + 5 * ((2 * x + 3 * y) % 5)] := Rol(state[x + 5 * y], Rot(x, y));
  }

  method Scatter(state: array<nat>, b: array<nat>)
    requires state.Length == 25 && b.Length == 25 && b != state
    requires forall x, y :: 0 <= x < 5 && 0 <= y < 5 ==> Rot(x, y) < 64
    modifies b
    ensures forall x, y :: 0 <= x < 5 && 0 <= y < 5 ==> b[Slot(x, y)] == Rol(state[At(x, y)], Rot(x, y))
  {
    hide Rol, Rot, At, Slot;
    for x := 0 to 5
      invariant forall i, j :: 0 <= i < x && 0 <= j < 5 ==> b[Slot(i, j)] == Rol(state[At(i, j)], Rot(i, j))
    {
      for y := 0 to 5
        invariant forall i, j :: 0 <= i < 5 && 0 <= j < 5 && (i < x || (i == x && j < y)) ==>
          b[Slot(i, j)] == Rol(state[At(i, j)], Rot(i, j))
      {
        SlotsDiffer(x, y);
        MoveTo(state, b, x, y);
      }
    }
  }

  lemma RhoPiRepresents(s: seq<nat>, b: seq<nat>, A: F.State)
    requires Represents(s, A) && |b| == 25
    requires forall x, y :: 0 <= x < 5 && 0 <= y < 5 ==>
      Rot(x, y) < 64 && b[Slot(x, y)] == Rol(s[At(x, y)], Rot(x, y))
    ensures Represents(b, F.Pi(F.Rho(A)))
  {
    hide Rol, Bit, Slot, At, Rot, F.State.Get;
    forall X, Y | 0 <= X < 5 && 0 <= Y < 5 ensures IsLane(b[At(X, Y)]) {
      RhoPiLane(s, b, A, X, Y);
    }
    LanesByPosition(b);
    forall X, Y, z | 0 <= X < 5 && 0 <= Y < 5 && 0 <= z < 64
      ensures Bit(b[At(X, Y)], z) == F.Pi(F.Rho(A)).Get(X, Y, z)
    {
      RhoPiBit(s, b, A, X, Y, z);
    }
  }

  lemma RhoPiBit(s: seq<nat>, b: seq<nat>, A: F.State, X: int, Y: int, z: int)
    requires Represents(s, A) && |b| == 25 && 0 <= X < 5 && 0 <= Y < 5 && 0 <= z < 64
    requires forall x, y :: 0 <= x < 5 && 0 <= y < 5 ==>
      Rot(x, y) < 64 && b[Slot(x, y)] == Rol(s[At(x, y)], Rot(x, y))
    ensures Bit(b[At(X, Y)], z) == F.Pi(F.Rho(A)).Get(X, Y, z)
  {
    assert |s| == 25;
    hide Represents, Rol, Bit, Slot, At, Rot, F.State.Get, F.Mod5;
    var x := F.Mod5(X + 3 * Y);
    ScatterFillsEachSlotOnce(X, Y);
    assert b[At(X, Y)] == Rol(s[At(x, X)], Rot(x, X));
    RhoLaneBit(s, A, x, X, z);
    PiReads(F.Rho(A), X, Y, z);
  }

  lemma PiReads(A: F.State, X: int, Y: int, z: int)
    ensures F.Pi(A).Get(X, Y, z) == A.Get(F.Mod5(X + 3 * Y), X, z)
  {
  }

  lemma RhoPiLane(s: seq<nat>, b: seq<nat>, A: F.State, X: int, Y: int)
    requires Represents(s, A) && |b| == 25 && 0 <= X < 5 && 0 <= Y < 5
    requires forall x, y :: 0 <= x < 5 && 0 <= y < 5 ==>
      Rot(x, y) < 64 && b[Slot(x, y)] == Rol(s[At(x, y)], Rot(x, y))
    ensures IsLane(b[At(X, Y)])
  {
    hide Rol, Bit, Slot, At, Rot, IsLane, F.Mod5;
    ScatterFillsEachSlotOnce(X, Y);
    RolBit(s[At(F.Mod5(X + 3 * Y), X)], Rot(F.Mod5(X + 3 * Y), X), 0);
  }

  lemma RhoLaneBit(s: seq<nat>, A: F.State, x: nat, y: nat, z: nat)
    requires Represents(s, A) && x < 5 && y < 5 && z < 64 && Rot(x, y) < 64
    ensures Bit(Rol(s[At(x, y)], Rot(x, y)), z) == F.Rho(A).Get(x, y, z)
  {
    hide Rol, Bit, At, Rot, IsLane, F.RhoOffset;
    OffsetTable(x, y);
    RotatedIndex(z, F.RhoOffset(x, y));
    var n := Rot(x, y);
    RolBit(s[At(x, y)], n, z);
    var z' := if z >= n then z - n else z - n + 64;
    assert Bit(s[At(x, y)], z') == A.Get(x, y, z');
  }

  // ----- chi and iota

  method Chi(state: array<nat>, b: array<nat>, ghost A: F.State)
    requires state.Length == 25 && b.Length == 25 && b != state
    requires Represents(b[..], A)
    modifies state
    ensures Represents(state[..], F.Chi(A))
  {
    hide Xor, And, Not, Bit, Represents, F.State.Get;
    ChiLoop(state, b);
    ChiRepresents(b[..], state[..], A);
  }

  method ChiAt(state: array<nat>, b: array<nat>, x: nat, y: nat)
    requires state.Length == 25 && b.Length == 25 && b != state && x < 5 && y < 5
    modifies state
    ensures forall k :: 0 <= k < 25 ==> state[k] == if k == At(x, y) then ChiOf(b[..], x, y) else old(state[k])
  {
    state[x + 5 * y] := Xor(b[x + 5 * y], And(Not(b[(x + 1) % 5 + 5 * y]), b[(x + 2) % 5 + 5 * y]));
  }

  method ChiLoop(state: array<nat>, b: array<nat>)
    requires state.Length == 25 && b.Length == 25 && b != state
    modifies state
    ensures forall x, y :: 0 <= x < 5 && 0 <= y < 5 ==>
      state[At(x, y)] == ChiOf(b[..], x, y)
  {
    hide ChiOf;
    for x := 0 to 5
      invariant forall i, j :: 0 <= i < x && 0 <= j < 5 ==>
        state[At(i, j)] == ChiOf(b[..], i, j)
    {
      for y := 0 to 5
        invariant forall i, j :: 0 <= i < 5 && 0 <= j < 5 && (i < x || (i == x && j < y)) ==>
          state[At(i, j)] == ChiOf(b[..], i, j)
      {
        ChiAt(state, b, x, y);
      }
    }
  }

  lemma ChiRepresents(b: seq<nat>, s': seq<nat>, A: F.State)
    requires Represents(b, A) && |s'| == 25
    requires forall x, y :: 0 <= x < 5 && 0 <= y < 5 ==>
      s'[At(x, y)] == ChiOf(b, x, y)
    ensures Represents(s', F.Chi(A))
  {
    hide ChiOf, Bit, At, F.State.Get;
    forall x, y | 0 <= x < 5 && 0 <= y < 5 ensures IsLane(s'[At(x, y)]) {
      ChiLane(b, A, x, y);
    }
    LanesByPosition(s');
    forall x, y, z | 0 <= x < 5 && 0 <= y < 5 && 0 <= z < 64
      ensures Bit(s'[At(x, y)], z) == F.Chi(A).Get(x, y, z)
    {
      ChiBit(b, A, x, y, z);
    }
  }

  function ChiOf(b: seq<nat>, x: int, y: int): nat
    requires |b| == 25 && 0 <= x < 5 && 0 <= y < 5
  {
    Xor(b[At(x, y)], And(Not(b[At(F.Mod5(x + 1), y)]), b[At(F.Mod5(x + 2), y)]))
  }

  lemma ChiLane(b: seq<nat>, A: F.State, x: int, y: int)
    requires Represents(b, A) && 0 <= x < 5 && 0 <= y < 5
    ensures IsLane(ChiOf(b, x, y))
  {
    hide Xor, And, Not, Bit, At, IsLane, F.Mod5;
    var b1, b2 := b[At(F.Mod5(x + 1), y)], b[At(F.Mod5(x + 2), y)];
    AndLane(Not(b1), b2);
    XorLane(b[At(x, y)], And(Not(b1), b2));
  }

  lemma ChiBit(b: seq<nat>, A: F.State, x: int, y: int, z: int)
    requires Represents(b, A) && 0 <= x < 5 && 0 <= y < 5 && 0 <= z < 64
    ensures Bit(ChiOf(b, x, y), z) == F.Chi(A).Get(x, y, z)
  {
    hide Xor, And, Not, Bit, At, F.Mod5;
    var b1, b2 := b[At(F.Mod5(x + 1), y)], b[At(F.Mod5(x + 2), y)];
    NotBit(b1, z);
    AndBit(Not(b1), b2, z);
    XorBit(b[At(x, y)], And(Not(b1), b2), z);
    assert Bit(b1, z) == A.Get(F.Mod5(x + 1), y, z) && Bit(b2, z) == A.Get(F.Mod5(x + 2), y, z);
    assert Bit(b[At(x, y)], z) == A.Get(x, y, z);
  }

  lemma IotaRepresents(s: seq<nat>, s': seq<nat>, A: F.State, round: nat)
    requires Represents(s, A) && round < 24 && s' == s[0 := Xor(s[0], KECCAK_RC[round])]
    ensures Represents(s', F.Iota(A, round))
  {
    hide Xor, Bit, IsLane, F.RoundBit;
    TableIsLane(round);
    XorLane(s[0], KECCAK_RC[round]);
    forall x, y, z | 0 <= x < 5 && 0 <= y < 5 && 0 <= z < 64
      ensures Bit(s'[At(x, y)], z) == F.Iota(A, round).Get(x, y, z)
    {
      assert Bit(s[At(x, y)], z) == A.Get(x, y, z);
      if x == 0 && y == 0 {
        XorBit(s[0], KECCAK_RC[round], z);
        TableBit(round, z);
      }
    }
  }

  lemma TableIsLane(i: nat)
    requires i < 24
    ensures IsLane(KECCAK_RC[i])
  {
  }

  // ----- the permutation

  method KeccakF(state: array<nat>, ghost A: F.State)
    requires state.Length == 25 && Represents(state[..], A)
    modifies state
    ensures Represents(state[..], F.Rounds(A, F.ROUNDS))
  {
    hide Represents, F.State.Get;
    for round := 0 to 24
      invariant Represents(state[..], F.Rounds(A, round))
    {
      ghost var before := F.Rounds(A, round);
      Theta(state, before);
      var b := new nat[25](_ => 0);
      RhoPi(state, b, F.Theta(before));
      Chi(state, b, F.Pi(F.Rho(F.Theta(before))));
      ghost var s := state[..];
      state[0] := Xor(state[0], KECCAK_RC[round]);
      assert state[..] == s[0 := Xor(s[0], KECCAK_RC[round])];
      IotaRepresents(s, state[..], F.Chi(F.Pi(F.Rho(F.Theta(before)))), round);
    }
  }
}
