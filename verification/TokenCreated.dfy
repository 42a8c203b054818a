/** `_abi_string` and `decode_token_created` of arc-intel/indexer/processor.py against
    the Solidity ABI encoding ("Formal Specification of the Encoding") of
    (string, string, bytes32, string, string, string, string): every head before every
    tail, each string as its length and its zero-padded bytes, offsets counted from
    the start of the payload. */
module TokenCreated {
  import opened Options
  import opened Abi
  import opened Numbers
  import opened Text

  // ----- the decoder

  /** Python's `xs[a:b]`: out-of-range ends are clamped. */
  function Slice<T>(s: seq<T>, a: nat, b: nat): seq<T> {
    var hi := if b > |s| then |s| else b;
    if a >= hi then [] else s[a..hi]
  }

  /** The bytes `_abi_string` reads; None where it gives up or an exception is caught. */
  function AbiBytes(words: seq<string>, slot: nat): Option<seq<byte>> {
    if slot >= |words| || ParseHex(words[slot]).None? then None
    else
      var at := ParseHex(words[slot]).value / 32;
      if at >= |words| || ParseHex(words[at]).None? then None
      else
        var length := ParseHex(words[at]).value;
        FromHex(Slice(Join(Slice(words, at + 1, at + 1 + (length + 31) / 32)), 0, 2 * length))
  }

  function DropNul(s: string): string {
    if |s| == 0 then ""
    else DropNul(s[..|s| - 1]) + (if s[|s| - 1] == '\0' then "" else [s[|s| - 1]])
  }

  /** `_abi_string`, with the UTF-8 decoder as a parameter. */
  function AbiString(words: seq<string>, slot: nat, utf8: seq<byte> -> string): Option<string> {
    var bytes := AbiBytes(words, slot);
    if bytes.None? then None else Some(DropNul(utf8(bytes.value)))
  }

  /** `_topic_address`. */
  function TopicAddress(topic: string): string {
    "0x" + Lower(if |topic| > 40 then topic[|topic| - 40..] else topic)
  }

  datatype Created = Created(token: string, creator: string, name: Option<string>, symbol: Option<string>, poolId: string,
                             image: Option<string>, website: Option<string>, twitter: Option<string>, telegram: Option<string>)

  /** `decode_token_created`; None for the empty dict. */
  function Decode(topics: seq<string>, data: string, utf8: seq<byte> -> string): Option<Created> {
    var w := Words(data);
    if |topics| < 3 || |w| < 7 then None
    else Some(Created(TopicAddress(topics[1]), TopicAddress(topics[2]), AbiString(w, 0, utf8), AbiString(w, 1, utf8),
                      "0x" + w[2], AbiString(w, 3, utf8), AbiString(w, 4, utf8), AbiString(w, 5, utf8), AbiString(w, 6, utf8)))
  }

  // ----- the encoding of one string

  function WordsFor(n: nat): nat {
    (n + 31) / 32
  }

  /** Zero bytes up to a multiple of 32. */
  function Padded(bytes: seq<byte>): (r: seq<byte>)
    ensures |r| == 32 * WordsFor(|bytes|) && bytes <= r
  {
    bytes + seq(32 * WordsFor(|bytes|) - |bytes|, i => 0)
  }

  /** The tail of a dynamic string: its length, then its padded bytes. */
  function Tail(bytes: seq<byte>): seq<string> {
    [Word(|bytes|)] + Chunks(HexOf(Padded(bytes)))
  }

  lemma {:induction false} ChunksOfWhole(d: string, n: nat)
    requires |d| == 64 * n
    ensures FullWords(Chunks(d)) && Join(Chunks(d)) == d && |Chunks(d)| == n
    decreases n
  {
    if n > 1 {
      ChunksOfWhole(d[64..], n - 1);
      assert d[..64] + d[64..] == d;
    } else if n == 1 {
      assert Chunks(d) == [d] && [d][1..] == [] && Join([]) == "";
      assert d + "" == d;
    }
  }

  lemma TailShape(bytes: seq<byte>)
    ensures FullWords(Tail(bytes)) && |Tail(bytes)| == 1 + WordsFor(|bytes|)
    ensures Tail(bytes)[0] == Word(|bytes|) && Join(Tail(bytes)[1..]) == HexOf(Padded(bytes))
  {
    hide HexOf, Chunks, Word, WordsFor, Join;
    ChunksOfWhole(HexOf(Padded(bytes)), WordsFor(|bytes|));
    assert Tail(bytes)[1..] == Chunks(HexOf(Padded(bytes)));
  }

  /** The head slot points at word `at`, where the tail of the string stands. */
  predicate Placed(words: seq<string>, slot: nat, at: nat, bytes: seq<byte>) {
    && slot < |words| && words[slot] == Word(32 * at) && 32 * at < Mod() && |bytes| < Mod()
    && at + |Tail(bytes)| <= |words| && words[at..at + |Tail(bytes)|] == Tail(bytes)
  }

  /** The length word and the words of the string stand where they are looked for. */
  lemma PlacedWords(words: seq<string>, slot: nat, at: nat, bytes: seq<byte>)
    requires Placed(words, slot, at, bytes)
    ensures at < |words| && words[at] == Word(|bytes|)
    ensures Join(Slice(words, at + 1, at + 1 + WordsFor(|bytes|))) == HexOf(Padded(bytes))
  {
    hide Word, Tail, HexOf, Join, Padded, WordsFor;
    TailShape(bytes);
    var n := |Tail(bytes)|;
    assert words[at] == words[at..at + n][0];
    assert Slice(words, at + 1, at + n) == Tail(bytes)[1..];
  }

  lemma PlacedPointer(words: seq<string>, slot: nat, at: nat, bytes: seq<byte>)
    requires Placed(words, slot, at, bytes)
    ensures slot < |words| && ParseHex(words[slot]) == Some(32 * at) && 32 * at / 32 == at
    ensures ParseHex(Word(|bytes|)) == Some(|bytes|)
  {
    hide Word, Tail, ParseHex;
    SmallWordParses(32 * at);
    SmallWordParses(|bytes|);
    MultipleDivides(at, 32);
  }

  /** Wherever a string is placed, it is read back. */
  lemma PlacedIsRead(words: seq<string>, slot: nat, at: nat, bytes: seq<byte>)
    requires Placed(words, slot, at, bytes)
    ensures AbiBytes(words, slot) == Some(bytes)
  {
    hide Word, HexOf, Join, FromHex, ParseHex, Padded, WordsFor, Placed, Slice;
    PlacedWords(words, slot, at, bytes);
    PlacedPointer(words, slot, at, bytes);
    PaddedIsCut(bytes);
    FromHexRoundTrip(bytes);
    WordCount(|bytes|);
  }

  lemma WordCount(n: nat)
    ensures WordsFor(n) == (n + 31) / 32
  {
  }

  lemma PaddedIsCut(bytes: seq<byte>)
    ensures Slice(HexOf(Padded(bytes)), 0, 2 * |bytes|) == HexOf(bytes)
  {
    hide HexOf, WordsFor;
    var r := Padded(bytes);
    HexOfConcat(bytes, r[|bytes|..]);
    assert bytes + r[|bytes|..] == r;
  }

  // ----- the encoding of the payload

  function Flat(strings: seq<seq<byte>>): seq<string> {
    if |strings| == 0 then [] else Flat(strings[..|strings| - 1]) + Tail(strings[|strings| - 1])
  }

  /** Word at which the i-th tail starts, after a head of seven words. */
  function Offset(strings: seq<seq<byte>>, i: nat): nat
    requires i <= |strings|
  {
    7 + |Flat(strings[..i])|
  }

  datatype Payload = Payload(strings: seq<seq<byte>>, poolId: seq<byte>)
  {
    predicate Ok() { |strings| == 6 && |poolId| == 32 }
  }

  function HeadWord(strings: seq<seq<byte>>, i: nat): string
    requires i <= |strings|
  {
    Word(32 * Offset(strings, i))
  }

  function Head(p: Payload): (h: seq<string>)
    requires p.Ok()
    ensures |h| == 7
  {
    [HeadWord(p.strings, 0), HeadWord(p.strings, 1), HexOf(p.poolId), HeadWord(p.strings, 2), HeadWord(p.strings, 3),
     HeadWord(p.strings, 4), HeadWord(p.strings, 5)]
  }

  /** The formal encoding: every head before every tail, the tails in order. */
  function EncodedWords(p: Payload): seq<string>
    requires p.Ok()
  {
    Head(p) + Flat(p.strings)
  }

  function Encode(p: Payload): string
    requires p.Ok()
  {
    "0x" + Join(EncodedWords(p))
  }

  lemma {:induction false} FlatIsWhole(strings: seq<seq<byte>>)
    ensures FullWords(Flat(strings))
  {
    if |strings| > 0 {
      FlatIsWhole(strings[..|strings| - 1]);
      TailShape(strings[|strings| - 1]);
      hide Tail;
    }
  }

  lemma FlatStep(strings: seq<seq<byte>>)
    requires |strings| > 0
    ensures Flat(strings) == Flat(strings[..|strings| - 1]) + Tail(strings[|strings| - 1])
  {
    hide Tail;
  }

  /** The i-th tail stands after the tails before it. */
  lemma {:induction false} FlatAt(strings: seq<seq<byte>>, i: nat)
    requires i < |strings|
    ensures Flat(strings[..i]) + Tail(strings[i]) <= Flat(strings)
  {
    hide Tail, Flat;
    FlatStep(strings);
    var n := |strings| - 1;
    var before := strings[..n];
    if i < n {
      FlatAt(before, i);
      assert before[..i] == strings[..i];
    }
  }

  /** Head slot of the i-th string; slot 2 is the pool id. */
  function SlotOf(i: nat): nat {
    if i < 2 then i else i + 1
  }

  lemma StringIsPlaced(p: Payload, i: nat)
    requires p.Ok() && i < 6 && 32 * |EncodedWords(p)| < Mod()
    ensures Placed(EncodedWords(p), SlotOf(i), Offset(p.strings, i), p.strings[i])
  {
    hide Tail, Flat, Word, HexOf, Pow16;
    FlatAt(p.strings, i);
    TailLongEnough(p.strings[i]);
    var words, at, n := EncodedWords(p), Offset(p.strings, i), |Tail(p.strings[i])|;
    assert words[at..at + n] == Flat(p.strings)[at - 7..at - 7 + n] == Tail(p.strings[i]);
    assert words[SlotOf(i)] == Head(p)[SlotOf(i)];
  }

  lemma TailLongEnough(bytes: seq<byte>)
    ensures |bytes| <= 32 * |Tail(bytes)|
  {
    TailShape(bytes);
  }

  lemma EncodedIsWhole(p: Payload)
    requires p.Ok()
    ensures FullWords(EncodedWords(p)) && Words(Encode(p)) == EncodedWords(p)
  {
    hide Tail, Flat, Word, HexOf, Words, Join;
    FlatIsWhole(p.strings);
    WordsRoundTrip(EncodedWords(p));
  }

  lemma {:induction false} DropNulShortens(s: string)
    ensures |DropNul(s)| <= |s| && ('\0' in s ==> |DropNul(s)| < |s|)
  {
    if |s| > 0 {
      DropNulShortens(s[..|s| - 1]);
      assert s == s[..|s| - 1] + [s[|s| - 1]];
    }
  }

  /** A string is kept whole exactly when it holds no NUL character. */
  lemma {:induction false} KeptIffNoNul(s: string)
    ensures DropNul(s) == s <==> '\0' !in s
  {
    DropNulShortens(s);
    if '\0' !in s && |s| > 0 {
      assert '\0' !in s[..|s| - 1];
      KeptIffNoNul(s[..|s| - 1]);
    }
  }

  /** What the i-th string of the payload is read as. */
  lemma StringIsRead(p: Payload, i: nat, utf8: seq<byte> -> string)
    requires p.Ok() && i < 6 && 32 * |EncodedWords(p)| < Mod()
    ensures AbiString(EncodedWords(p), SlotOf(i), utf8) == Some(DropNul(utf8(p.strings[i])))
  {
    hide Placed, AbiBytes, EncodedWords, DropNul, Pow16;
    StringIsPlaced(p, i);
    PlacedIsRead(EncodedWords(p), SlotOf(i), Offset(p.strings, i), p.strings[i]);
  }

  /** An event with its six strings. */
  function EventOf(token: string, creator: string, poolId: string, read: seq<string>): Created
    requires |read| == 6
  {
    Created(token, creator, Some(read[0]), Some(read[1]), poolId, Some(read[2]), Some(read[3]), Some(read[4]), Some(read[5]))
  }

  function Texts(p: Payload, utf8: seq<byte> -> string): (texts: seq<string>)
    ensures |texts| == |p.strings|
  {
    seq(|p.strings|, i requires 0 <= i < |p.strings| => utf8(p.strings[i]))
  }

  function Dropped(texts: seq<string>): (r: seq<string>)
    ensures |r| == |texts|
  {
    seq(|texts|, i requires 0 <= i < |texts| => DropNul(texts[i]))
  }

  /** The payload of an event: its pool id and its strings without NULs are recovered. */
  lemma PayloadRoundTrip(topics: seq<string>, p: Payload, utf8: seq<byte> -> string)
    requires |topics| >= 3 && p.Ok() && 32 * |EncodedWords(p)| < Mod()
    ensures Decode(topics, Encode(p), utf8)
         == Some(EventOf(TopicAddress(topics[1]), TopicAddress(topics[2]), "0x" + HexOf(p.poolId), Dropped(Texts(p, utf8))))
  {
    hide AbiString, Words, Encode, EncodedWords, TopicAddress, HexOf, Pow16, DropNul;
    EncodedIsWhole(p);
    PoolIdInPlace(p);
    forall i | 0 <= i < 6 ensures AbiString(EncodedWords(p), SlotOf(i), utf8) == Some(Dropped(Texts(p, utf8))[i]) {
      StringIsRead(p, i, utf8);
    }
    assert SlotOf(0) == 0 && SlotOf(1) == 1 && SlotOf(2) == 3 && SlotOf(3) == 4 && SlotOf(4) == 5 && SlotOf(5) == 6;
  }

  lemma SameEventIff(token: string, creator: string, poolId: string, a: seq<string>, b: seq<string>)
    requires |a| == |b| == 6
    ensures EventOf(token, creator, poolId, a) == EventOf(token, creator, poolId, b) <==> a == b
  {
    if a != b { var i :| 0 <= i < 6 && a[i] != b[i]; }
  }

  lemma DroppedIff(texts: seq<string>)
    ensures Dropped(texts) == texts <==> forall i :: 0 <= i < |texts| ==> '\0' !in texts[i]
  {
    hide DropNul;
    forall i | 0 <= i < |texts| ensures DropNul(texts[i]) == texts[i] <==> '\0' !in texts[i] { KeptIffNoNul(texts[i]); }
    if Dropped(texts) == texts {
      forall i | 0 <= i < |texts| ensures '\0' !in texts[i] { assert Dropped(texts)[i] == texts[i]; }
    }
  }

  lemma PoolIdInPlace(p: Payload)
    requires p.Ok()
    ensures |EncodedWords(p)| >= 7 && EncodedWords(p)[2] == HexOf(p.poolId)
  {
    hide HexOf, Flat, Word;
  }

  // ----- the indexed addresses

  const ZEROS := "000000000000000000000000"

  /** An address as an indexed topic: twelve zero bytes, then its twenty. */
  function AddressTopic(address: seq<byte>): string {
    "0x" + ZEROS + HexOf(address)
  }

  lemma LowerDigit(d: int)
    requires 0 <= d < 16
    ensures LowerChar(DigitChar(d)) == DigitChar(d)
  {
  }

  lemma {:induction false} HexIsLower(bytes: seq<byte>)
    ensures Lower(HexOf(bytes)) == HexOf(bytes)
  {
    if |bytes| > 0 {
      var before, b := bytes[..|bytes| - 1], bytes[|bytes| - 1];
      HexIsLower(before);
      LowerDigit(b / 16);
      LowerDigit(b % 16);
      hide DigitChar, LowerChar;
      LowerConcat(HexOf(before), ByteHex(b));
    }
  }

  lemma LowerConcat(s: string, t: string)
    ensures Lower(s + t) == Lower(s) + Lower(t)
  {
    hide LowerChar;
  }

  lemma TopicIsAddress(address: seq<byte>)
    requires |address| == 20
    ensures TopicAddress(AddressTopic(address)) == "0x" + HexOf(address)
  {
    HexIsLower(address);
    hide HexOf, Lower;
    var topic := AddressTopic(address);
    assert topic[|topic| - 40..] == HexOf(address);
  }

  /** The round trip: an encoded TokenCreated event is recovered field by field, the two
      addresses from its topics and the rest from its data, whatever the lengths of the
      strings, if and only if no string holds a NUL. */
  lemma TokenCreatedRoundTrip(signature: string, token: seq<byte>, creator: seq<byte>, p: Payload, utf8: seq<byte> -> string)
    requires |token| == |creator| == 20 && p.Ok() && 32 * |EncodedWords(p)| < Mod()
    ensures Decode([signature, AddressTopic(token), AddressTopic(creator)], Encode(p), utf8)
            == Some(EventOf("0x" + HexOf(token), "0x" + HexOf(creator), "0x" + HexOf(p.poolId), Texts(p, utf8)))
       <==> forall i :: 0 <= i < 6 ==> '\0' !in Texts(p, utf8)[i]
  {
    hide Decode, Encode, EncodedWords, TopicAddress, AddressTopic, HexOf, Pow16, EventOf, Texts, Dropped;
    TopicIsAddress(token);
    TopicIsAddress(creator);
    PayloadRoundTrip([signature, AddressTopic(token), AddressTopic(creator)], p, utf8);
    var texts := Texts(p, utf8);
    DroppedIff(texts);
    SameEventIff("0x" + HexOf(token), "0x" + HexOf(creator), "0x" + HexOf(p.poolId), Dropped(texts), texts);
  }
}
