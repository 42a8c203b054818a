/** Hex words of indexer/processor.py and execution/sessions.py, and the bytes they spell. */
module Abi {
  import opened Options
  import opened Numbers
  import PyInt
  import opened Text

  type byte = b: int | 0 <= b < 256

  // ----- hexadecimal

  function DigitChar(d: int): char
    requires 0 <= d < 16
  {
    "0123456789abcdef"[d]
  }

  function DigitOf(c: char): int {
    if '0' <= c <= '9' then c as int - '0' as int
    else if 'a' <= c <= 'f' then c as int - 'a' as int + 10
    else if 'A' <= c <= 'F' then c as int - 'A' as int + 10
    else -1
  }

  lemma DigitRoundTrip(d: int)
    requires 0 <= d < 16
    ensures DigitOf(DigitChar(d)) == d
  {
    assert forall i :: 0 <= i < 16 ==> DigitOf("0123456789abcdef"[i]) == i;
  }

  predicate IsHex(s: string) {
    forall i :: 0 <= i < |s| ==> DigitOf(s[i]) >= 0
  }

  function Value(s: string): (v: int)
    requires IsHex(s)
    ensures v >= 0
  {
    if |s| == 0 then 0 else 16 * Value(s[..|s| - 1]) + DigitOf(s[|s| - 1])
  }

  /** `int(s, 16)`; None where it raises. */
  function ParseHex(s: string): Option<int> {
    if |s| > 0 && IsHex(s) then Some(Value(s)) else None
  }

  const HEX_DIGITS := "0123456789abcdefABCDEF"

  lemma IsDigit(c: char)
    ensures DigitOf(c) >= 0 <==> c in HEX_DIGITS
    ensures DigitOf(LowerChar(c)) == DigitOf(c)
  {
    assert forall i :: 0 <= i < 22 ==> DigitOf(HEX_DIGITS[i]) >= 0;
    if '0' <= c <= '9' {
      assert HEX_DIGITS[c as int - '0' as int] == c;
    } else if 'a' <= c <= 'f' {
      assert HEX_DIGITS[c as int - 'a' as int + 10] == c;
    } else if 'A' <= c <= 'F' {
      assert HEX_DIGITS[c as int - 'A' as int + 16] == c;
    }
  }

  lemma LowerMore(s: string)
    requires |s| > 0
    ensures Lower(s) == Lower(s[..|s| - 1]) + [LowerChar(s[|s| - 1])]
  {
  }

  lemma {:induction false} ValueIgnoresCase(s: string)
    requires IsHex(s)
    ensures IsHex(Lower(s)) && Value(Lower(s)) == Value(s)
  {
    forall i | 0 <= i < |s| ensures DigitOf(Lower(s)[i]) >= 0 { IsDigit(s[i]); }
    if |s| > 0 {
      ValueIgnoresCase(s[..|s| - 1]);
      LowerMore(s);
      IsDigit(s[|s| - 1]);
      hide Lower, DigitOf;
    }
  }

  /** Exactly the non-empty strings of hexadecimal digits parse, in either letter case
      to the same number. */
  lemma ParsesIff(s: string)
    ensures ParseHex(s).Some? <==> s != "" && forall i :: 0 <= i < |s| ==> s[i] in HEX_DIGITS
    ensures ParseHex(Lower(s)) == ParseHex(s)
  {
    forall i | 0 <= i < |s| ensures DigitOf(s[i]) >= 0 <==> s[i] in HEX_DIGITS { IsDigit(s[i]); }
    if IsHex(s) {
      ValueIgnoresCase(s);
    } else {
      var i :| 0 <= i < |s| && DigitOf(s[i]) < 0;
      IsDigit(s[i]);
      assert DigitOf(Lower(s)[i]) < 0;
    }
  }

  /** The low n digits of v. */
  function Digits(v: int, n: nat): (s: string)
    ensures |s| == n
    decreases n
  {
    if n == 0 then "" else Digits(v / 16, n - 1) + [DigitChar(v % 16)]
  }

  function Pow16(n: nat): (p: int)
    ensures p >= 1
  {
    if n == 0 then 1 else 16 * Pow16(n - 1)
  }

  lemma DivideBySixteen(v: int, p: int)
    requires p >= 1
    ensures v % (16 * p) == 16 * (v / 16 % p) + v % 16
  {
    var q, r := v / 16 / p, v / 16 % p;
    assert v / 16 == q * p + r;
    var low := 16 * r + v % 16;
    assert v == q * (16 * p) + low by { assert 16 * (q * p) == q * (16 * p); }
    RemainderIs(v, 16 * p, q, low);
  }

  /** n digits carry v modulo 16^n. */
  lemma {:induction false} ValueOfDigits(v: int, n: nat)
    ensures IsHex(Digits(v, n)) && Value(Digits(v, n)) == v % Pow16(n)
    decreases n
  {
    if n > 0 {
      ValueOfDigits(v / 16, n - 1);
      DigitRoundTrip(v % 16);
      DivideBySixteen(v, Pow16(n - 1));
      var s := Digits(v / 16, n - 1);
      assert (s + [DigitChar(v % 16)])[..n - 1] == s;
      hide Digits, DigitChar, DigitOf, Pow16;
    }
  }

  // ----- words

  const WORD: nat := 64

  function Mod(): int {
    Pow16(WORD)
  }

  lemma {:induction false} Pow16IsPow2(n: nat)
    ensures Pow16(n) == PyInt.Pow2(4 * n)
  {
    if n > 0 {
      Pow16IsPow2(n - 1);
      var m := 4 * n;
      assert PyInt.Pow2(m) == 2 * PyInt.Pow2(m - 1) && PyInt.Pow2(m - 1) == 2 * PyInt.Pow2(m - 2);
      assert PyInt.Pow2(m - 2) == 2 * PyInt.Pow2(m - 3) && PyInt.Pow2(m - 3) == 2 * PyInt.Pow2(m - 4);
    }
  }

  /** `_word`: two's complement in 64 hex digits. */
  function Word(x: int): (s: string)
    ensures |s| == 64
  {
    Digits(x % Mod(), WORD)
  }

  /** `_to_signed`, with `mod` = 1 << bits. */
  function ToSigned(v: int, mod: int): int {
    if v >= mod / 2 then v - mod else v
  }

  /** A parsed word is the number modulo 2^256. */
  lemma WordParses(x: int)
    ensures ParseHex(Word(x)) == Some(x % Mod())
  {
    hide Digits, Pow16, Value, IsHex;
    ValueOfDigits(x % Mod(), WORD);
    ModTwice(x, Mod());
  }

  /** Every int256 survives `_word` and `_to_signed`. */
  lemma SignedRoundTrip(x: int)
    requires -(Mod() / 2) <= x < Mod() / 2
    ensures ParseHex(Word(x)).Some? && ToSigned(ParseHex(Word(x)).value, Mod()) == x
  {
    WordParses(x);
    ModIsEven();
    hide Word, ParseHex, Pow16;
    if x >= 0 {
      RemainderIs(x, Mod(), 0, x);
    } else {
      RemainderIs(x, Mod(), -1, x + Mod());
    }
  }

  lemma ModIsEven()
    ensures Mod() == 2 * (Mod() / 2)
  {
    hide Pow16;
    PowIsEven(WORD);
  }

  lemma PowIsEven(n: nat)
    requires n > 0
    ensures Pow16(n) == 2 * (Pow16(n) / 2)
  {
    var q := Pow16(n - 1);
    assert Pow16(n) == 16 * q;
    hide Pow16;
  }

  /** Below 2^256 a number is its own word. */
  lemma SmallWordParses(x: int)
    requires 0 <= x < Mod()
    ensures ParseHex(Word(x)) == Some(x)
  {
    WordParses(x);
    hide Word, ParseHex, Pow16;
    RemainderIs(x, Mod(), 0, x);
  }

  /** `_words`. */
  function Chunks(d: string): seq<string> {
    if |d| == 0 then [] else if |d| <= 64 then [d] else [d[..64]] + Chunks(d[64..])
  }

  function Words(data: string): seq<string> {
    Chunks(if |data| >= 2 && data[..2] == "0x" then data[2..] else data)
  }

  function Join(words: seq<string>): string {
    if |words| == 0 then "" else words[0] + Join(words[1..])
  }

  predicate FullWords(words: seq<string>) {
    forall i :: 0 <= i < |words| ==> |words[i]| == 64
  }

  lemma {:induction false} ChunksOfJoin(words: seq<string>)
    requires FullWords(words)
    ensures Chunks(Join(words)) == words && |Join(words)| == 64 * |words|
  {
    if |words| > 0 {
      ChunksOfJoin(words[1..]);
      var d, rest := Join(words), Join(words[1..]);
      assert d == words[0] + rest && d[..64] == words[0] && d[64..] == rest;
      if |words| == 1 { assert d == words[0]; }
    }
  }

  /** Splitting a payload of whole words gives the words back. */
  lemma WordsRoundTrip(words: seq<string>)
    requires FullWords(words)
    ensures Words("0x" + Join(words)) == words
  {
    ChunksOfJoin(words);
    hide Chunks, Join;
    assert ("0x" + Join(words))[2..] == Join(words);
  }

  /** A payload without the prefix is split alike. */
  lemma UnprefixedWords(words: seq<string>)
    requires FullWords(words) && (|Join(words)| < 2 || Join(words)[..2] != "0x")
    ensures Words(Join(words)) == words
  {
    ChunksOfJoin(words);
    hide Chunks, Join;
  }

  // ----- bytes

  function HexOf(bytes: seq<byte>): (s: string)
    ensures |s| == 2 * |bytes|
  {
    if |bytes| == 0 then ""
    else HexOf(bytes[..|bytes| - 1]) + ByteHex(bytes[|bytes| - 1])
  }

  function ByteHex(b: byte): (s: string)
    ensures |s| == 2
  {
    [DigitChar(b / 16), DigitChar(b % 16)]
  }

  lemma ByteRoundTrip(b: byte)
    ensures DigitOf(ByteHex(b)[0]) >= 0 && DigitOf(ByteHex(b)[1]) >= 0
    ensures 16 * DigitOf(ByteHex(b)[0]) + DigitOf(ByteHex(b)[1]) == b
  {
    DigitRoundTrip(b / 16);
    DigitRoundTrip(b % 16);
    hide DigitChar, DigitOf;
  }

  /** `bytes.fromhex`; None where it raises. */
  function FromHex(s: string): Option<seq<byte>> {
    if |s| == 0 then Some([])
    else if |s| == 1 then None
    else
      var before, hi, lo := FromHex(s[..|s| - 2]), DigitOf(s[|s| - 2]), DigitOf(s[|s| - 1]);
      if before.None? || hi < 0 || lo < 0 then None else Some(before.value + [16 * hi + lo])
  }

  lemma NoBytes()
    ensures FromHex(HexOf([])) == Some([])
  {
  }

  lemma {:induction false} FromHexRoundTrip(bytes: seq<byte>)
    ensures FromHex(HexOf(bytes)) == Some(bytes)
  {
    hide *;
    if bytes == [] {
      NoBytes();
    } else {
      var before, b := bytes[..|bytes| - 1], bytes[|bytes| - 1];
      FromHexRoundTrip(before);
      HexOfLast(bytes);
      ByteRoundTrip(b);
      FromHexMore(HexOf(before), ByteHex(b), before, b);
      assert before + [b] == bytes;
    }
  }

  lemma HexOfLast(bytes: seq<byte>)
    requires |bytes| > 0
    ensures HexOf(bytes) == HexOf(bytes[..|bytes| - 1]) + ByteHex(bytes[|bytes| - 1])
  {
  }

  lemma FromHexMore(s: string, two: string, bytes: seq<byte>, b: byte)
    requires FromHex(s) == Some(bytes) && |two| == 2
    requires DigitOf(two[0]) >= 0 && DigitOf(two[1]) >= 0 && 16 * DigitOf(two[0]) + DigitOf(two[1]) == b
    ensures FromHex(s + two) == Some(bytes + [b])
  {
    hide DigitOf;
    assert (s + two)[..|s + two| - 2] == s;
  }

  lemma {:induction false} HexOfConcat(a: seq<byte>, b: seq<byte>)
    ensures HexOf(a + b) == HexOf(a) + HexOf(b)
  {
    if |b| == 0 {
      assert a + b == a;
    } else {
      assert (a + b)[..|a + b| - 1] == a + b[..|b| - 1];
      HexOfConcat(a, b[..|b| - 1]);
    }
  }
}
