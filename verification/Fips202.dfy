/** The Keccak sponge as FIPS 202 writes it, on bits and independent of any
    lane representation: section 3.2 (step mappings), section 3.3 (KECCAK-p),
    section 4 (sponge) and section 5.1 (pad10*1), for width 1600 and rate 1088.
    No SHA-3 suffix bits are added. */
module Fips202 {

  const RATE := 1088
  const ROUNDS := 24

  /** Sheet and plane coordinates are taken modulo 5, lane positions modulo 64. */
  function Mod5(v: int): (m: int)
    ensures 0 <= m < 5
  {
    v % 5
  }

  function Mod64(v: int): (m: int)
    ensures 0 <= m < 64
  {
    v % 64
  }

  /** A state array of section 3.1, given by how the specification obtains it
      from the all-zero string; `Get(x, y, z)` is its bit A[x, y, z]. */
  datatype State =
    | Zero
    | Theta(A: State)
    | Rho(A: State)
    | Pi(A: State)
    | Chi(A: State)
    | Iota(A: State, round: nat)
    | XorBlock(A: State, P: seq<bool>, i: nat)
  {
    predicate Get(x: int, y: int, z: int)
      decreases this, 0
    {
      match this
      case Zero => false
      case Theta(A) => A.Get(x, y, z) != ThetaD(A, x, z)
      case Rho(A) => A.Get(x, y, Mod64(z - RhoOffset(x, y)))
      case Pi(A) => A.Get(Mod5(x + 3 * y), x, z)
      case Chi(A) => A.Get(x, y, z) != (!A.Get(Mod5(x + 1), y, z) && A.Get(Mod5(x + 2), y, z))
      case Iota(A, round) => A.Get(x, y, z) != (x == 0 && y == 0 && RoundBit(round, z))
      case XorBlock(A, P, i) => A.Get(x, y, z) != BlockBit(P, i, 64 * (x + 5 * y) + z)
    }
  }

  // ----- section 3.2.1, theta

  predicate ThetaC(A: State, x: int, z: int)
    decreases A, 1
  {
    (((A.Get(x, 0, z) != A.Get(x, 1, z)) != A.Get(x, 2, z)) != A.Get(x, 3, z)) != A.Get(x, 4, z)
  }

  predicate ThetaD(A: State, x: int, z: int)
    decreases A, 2
  {
    ThetaC(A, Mod5(x - 1), z) != ThetaC(A, Mod5(x + 1), Mod64(z - 1))
  }

  // ----- section 3.2.2, rho: lane (x, y) is met at time t of the walk

  function WalkOffset(x: int, y: int, cx: int, cy: int, t: nat): nat
    decreases 24 - t
  {
    if t >= 24 then 0
    else if cx == x && cy == y then (t + 1) * (t + 2) / 2
    else WalkOffset(x, y, cy, Mod5(2 * cx + 3 * cy), t + 1)
  }

  function RhoOffset(x: int, y: int): nat {
    WalkOffset(x, y, 1, 0, 0)
  }

  // ----- section 3.2.5, iota with the round constants of Algorithm 5

  datatype Lfsr = Lfsr(r0: bool, r1: bool, r2: bool, r3: bool,
                       r4: bool, r5: bool, r6: bool, r7: bool)
  {
    function Step(): Lfsr {
      Lfsr(r7, r0, r1, r2, r3 != r7, r4 != r7, r5 != r7, r6)
    }
  }

  function LfsrAt(t: nat): Lfsr {
    if t == 0 then Lfsr(true, false, false, false, false, false, false, false)
    else LfsrAt(t - 1).Step()
  }

  predicate Rc(t: nat) {
    LfsrAt(t % 255).r0
  }

  /** Bit z of the round constant: position 2^j - 1 holds rc(j + 7 round). */
  predicate RoundBit(round: nat, z: int) {
    || (z == 0 && Rc(7 * round))
    || (z == 1 && Rc(1 + 7 * round))
    || (z == 3 && Rc(2 + 7 * round))
    || (z == 7 && Rc(3 + 7 * round))
    || (z == 15 && Rc(4 + 7 * round))
    || (z == 31 && Rc(5 + 7 * round))
    || (z == 63 && Rc(6 + 7 * round))
  }

  // ----- section 3.3

  function Round(A: State, round: nat): State {
    Iota(Chi(Pi(Rho(Theta(A)))), round)
  }

  function Rounds(A: State, n: nat): State {
    if n == 0 then A else Round(Rounds(A, n - 1), n - 1)
  }

  // ----- section 5.1 and section 4

  function Pad(m: int): seq<bool> {
    [true] + seq((-m - 2) % RATE, _ => false) + [true]
  }

  function Padded(message: seq<bool>): seq<bool> {
    message + Pad(|message|)
  }

  /** Bit k of block i of P followed by zeros up to the width. */
  predicate BlockBit(P: seq<bool>, i: nat, k: int) {
    0 <= k < RATE && RATE * i + k < |P| && P[RATE * i + k]
  }

  /** The state after absorbing the first n blocks of P. */
  function Absorb(P: seq<bool>, n: nat): State
  {
    if n == 0 then Zero
    else Rounds(XorBlock(Absorb(P, n - 1), P, n - 1), ROUNDS)
  }

  /** Bit k of the state as a string (section 3.1.3). */
  predicate StringBit(S: State, k: nat) {
    S.Get(k / 64 % 5, k / 64 / 5, k % 64)
  }

  /** SPONGE[KECCAK-f[1600], pad10*1, 1088](message, 256). */
  function Sponge(message: seq<bool>): seq<bool> {
    var P := Padded(message);
    var S := Absorb(P, |P| / RATE);
    seq(256, k requires 0 <= k => StringBit(S, k))
  }
}
