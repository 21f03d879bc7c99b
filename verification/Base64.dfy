/** The base64 payload codec (src/converter/data_converter.cpp): the accumulator loops compute the
    base 64 encoding of section 4 of RFC 4648, although their accumulator wraps around at 32 bits. */
module Base64 {
  import opened Basics

  newtype byte = x: int | 0 <= x < 256

  type Bytes = seq<byte>

  const ALPHABET := UPPER + LOWER + "0123456789+/"
  const UPPER := "ABCDEFGHIJKLMNOPQRSTUVWXYZ"
  const LOWER := "abcdefghijklmnopqrstuvwxyz"
  const WORD := 0x1_0000_0000

  type Sextet = x: nat | x < 64

  function Digit(v: Sextet): char {
    ALPHABET[v]
  }

  /** The value of a character, by position in the alphabet. */
  function Value(c: char): Option<Sextet> {
    Find(c, 0)
  }

  function Find(c: char, from: nat): Option<Sextet>
    requires from <= 64
    decreases 64 - from
  {
    if from == 64 then None else if ALPHABET[from] == c then Some(from) else Find(c, from + 1)
  }

  // ---- The standard ------------------------------------------------------------------------------

  /** Three bytes make four sextets; a last group of one or two bytes is filled with zero bits. */
  function Pack(data: Bytes): seq<Sextet> {
    if |data| == 0 then []
    else if |data| == 1 then [Lead(data[0]), Second(data[0], 0)]
    else if |data| == 2 then [Lead(data[0]), Second(data[0], data[1]), Third(data[1], 0)]
    else [Lead(data[0]), Second(data[0], data[1]), Third(data[1], data[2]), Last(data[2])] + Pack(data[3..])
  }

  function Lead(a: byte): Sextet {
    a as int / 4
  }

  function Second(a: byte, b: byte): Sextet {
    (a as int % 4) * 16 + b as int / 16
  }

  function Third(b: byte, c: byte): Sextet {
    (b as int % 16) * 4 + c as int / 64
  }

  function Last(c: byte): Sextet {
    c as int % 64
  }

  function Text(v: seq<Sextet>): (r: string)
    ensures |r| == |v|
  {
    seq(|v|, i requires 0 <= i < |v| => Digit(v[i]))
  }

  function Padding(n: nat): string {
    if n % 3 == 1 then "==" else if n % 3 == 2 then "=" else ""
  }

  function Encode(data: Bytes): string {
    Text(Pack(data)) + Padding(|data|)
  }

  /** The values of the leading digits, up to the first character that is none. */
  function Digits(text: string): seq<Sextet> {
    if text == "" || Value(text[0]).None? then [] else [Value(text[0]).value] + Digits(text[1..])
  }

  /** Byte number `i` out of the bits of the sextets `i * 8 / 6` and the next. */
  function Join(v: seq<Sextet>, i: nat): byte
    requires 4 * (i / 3) + i % 3 + 1 < |v|
  {
    var at := 4 * (i / 3) + i % 3;
    var a, b: nat := v[at], v[at + 1];
    if i % 3 == 0 then (a * 4 + b / 16) as byte
    else if i % 3 == 1 then ((a % 16) * 16 + b / 4) as byte
    else ((a % 4) * 64 + b) as byte
  }

  /** Four sextets make three bytes; what is left of an incomplete byte is dropped. */
  function UnpackedSize(n: nat): nat {
    n * 6 / 8
  }

  function Unpack(v: seq<Sextet>): Bytes {
    seq(UnpackedSize(|v|), i requires 0 <= i < UnpackedSize(|v|) => Join(v, i))
  }

  function Decode(text: string): Bytes {
    Unpack(Digits(text))
  }

  /** A group of three bytes and its four digits are the same 24-bit number, most significant bits first;
      a shorter last group is filled with zero bits. */
  lemma GroupIsNumber(a: byte, b: byte, c: byte)
    ensures ((Lead(a) * 64 + Second(a, b)) * 64 + Third(b, c)) * 64 + Last(c) == (a as int * 256 + b as int) * 256 + c as int
    ensures Second(a, 0) == Second(a, b) - b as int / 16 && Third(b, 0) == Third(b, c) - c as int / 64
  {
  }

  // ---- Round trip --------------------------------------------------------------------------------

  lemma {:induction false} FindsDigit(v: Sextet, from: nat)
    requires from <= v
    ensures Find(ALPHABET[v], from) == Some(v)
    decreases 64 - from
  {
    if from < v {
      BlockOf(from);
      BlockOf(v);
      FindsDigit(v, from + 1);
    }
  }

  lemma Letters(v: nat)
    requires v < 26
    ensures UPPER[v] as int == 65 + v && LOWER[v] as int == 97 + v
  {
    if v < 13 {
      assert v == 0 || v == 1 || v == 2 || v == 3 || v == 4 || v == 5 || v == 6 ||
             v == 7 || v == 8 || v == 9 || v == 10 || v == 11 || v == 12;
    } else {
      assert v == 13 || v == 14 || v == 15 || v == 16 || v == 17 || v == 18 || v == 19 ||
             v == 20 || v == 21 || v == 22 || v == 23 || v == 24 || v == 25;
    }
  }

  /** The alphabet, block by block: no digit occurs twice and '=' is none. */
  lemma BlockOf(v: Sextet)
    ensures ALPHABET[v] as int ==
              if v < 26 then 65 + v else if v < 52 then 71 + v else if v < 62 then v - 4 else if v == 62 then 43 else 47
  {
    if v < 26 {
      Letters(v);
      assert ALPHABET[v] == UPPER[v];
    } else if v < 52 {
      Letters(v - 26);
      assert ALPHABET[v] == LOWER[v - 26];
    } else {
      assert ALPHABET[v] == "0123456789+/"[v - 52];
      assert v == 52 || v == 53 || v == 54 || v == 55 || v == 56 || v == 57 ||
             v == 58 || v == 59 || v == 60 || v == 61 || v == 62 || v == 63;
    }
  }

  lemma {:induction false} PadHasNoValue(from: nat)
    requires from <= 64
    ensures Find('=', from) == None
    decreases 64 - from
  {
    if from < 64 {
      BlockOf(from);
      PadHasNoValue(from + 1);
    }
  }

  lemma {:induction false} TextDigits(v: seq<Sextet>, n: nat)
    ensures Digits(Text(v) + Padding(n)) == v
  {
    var text := Text(v) + Padding(n);
    if v == [] {
      PadHasNoValue(0);
    } else {
      FindsDigit(v[0], 0);
      TextDigits(v[1..], n);
      assert text[1..] == Text(v[1..]) + Padding(n);
      assert v == [v[0]] + v[1..];
    }
  }

  lemma {:induction false} PackSize(data: Bytes)
    ensures |Pack(data)| == (|data| * 8 + 5) / 6
    ensures UnpackedSize(|Pack(data)|) == |data|
  {
    if |data| >= 3 {
      PackSize(data[3..]);
    }
  }

  /** Where the byte lies in the sextets. */
  lemma {:induction false} PackAt(data: Bytes, i: nat)
    requires i < |data|
    ensures 4 * (i / 3) + i % 3 + 1 < |Pack(data)| && Join(Pack(data), i) == data[i]
  {
    PackSize(data);
    if i >= 3 {
      PackAt(data[3..], i - 3);
      var rest := Pack(data[3..]);
      assert Pack(data)[4..] == rest;
      assert i / 3 == (i - 3) / 3 + 1 && i % 3 == (i - 3) % 3;
      assert Join(Pack(data), i) == Join(rest, i - 3);
    } else {
      JoinsGroup(data, i);
    }
  }

  lemma PackGroup(data: Bytes)
    requires data != []
    ensures var b, c := if |data| > 1 then data[1] else 0, if |data| > 2 then data[2] else 0;
            |Pack(data)| >= 2 && Pack(data)[0] == Lead(data[0]) && Pack(data)[1] == Second(data[0], b) &&
            (|data| > 1 ==> |Pack(data)| >= 3 && Pack(data)[2] == Third(b, c)) &&
            (|data| > 2 ==> |Pack(data)| >= 4 && Pack(data)[3] == Last(c))
  {
  }

  lemma JoinParts(v: seq<Sextet>)
    ensures |v| >= 2 ==> Join(v, 0) as int == (v[0] as int) * 4 + (v[1] as int) / 16
    ensures |v| >= 3 ==> Join(v, 1) as int == ((v[1] as int) % 16) * 16 + (v[2] as int) / 4
    ensures |v| >= 4 ==> Join(v, 2) as int == ((v[2] as int) % 4) * 64 + (v[3] as int)
  {
  }

  lemma JoinsGroup(data: Bytes, i: nat)
    requires i < |data| && i < 3 && 4 * (i / 3) + i % 3 + 1 < |Pack(data)|
    ensures Join(Pack(data), i) == data[i]
  {
    hide Pack, Second, Third, Join;
    var b := if |data| > 1 then data[1] else 0;
    var c := if |data| > 2 then data[2] else 0;
    PackGroup(data);
    JoinParts(Pack(data));
    SecondParts(data[0], b);
    ThirdParts(b, c);
  }

  lemma SecondParts(a: byte, b: byte)
    ensures Second(a, b) / 16 == a as int % 4 && Second(a, b) % 16 == b as int / 16
  {
    DivMod(Second(a, b), 16, a as int % 4, b as int / 16);
  }

  lemma ThirdParts(b: byte, c: byte)
    ensures Third(b, c) / 4 == b as int % 16 && Third(b, c) % 4 == c as int / 64
  {
    DivMod(Third(b, c), 4, b as int % 16, c as int / 64);
  }

  /** Decoding undoes encoding, for every byte string. */
  lemma RoundTrip(data: Bytes)
    ensures Decode(Encode(data)) == data
  {
    TextDigits(Pack(data), |data|);
    PackSize(data);
    forall i | 0 <= i < |data|
      ensures Unpack(Pack(data))[i] == data[i]
    {
      PackAt(data, i);
    }
  }

  /** The encoding has four characters for every started group of three bytes. */
  lemma EncodedSize(data: Bytes)
    ensures |Encode(data)| == 4 * ((|data| + 2) / 3)
  {
    PackSize(data);
    PaddedGroups(|data|);
    hide Pack;
  }

  lemma PaddedGroups(n: nat)
    ensures (n * 8 + 5) / 6 + |Padding(n)| == 4 * ((n + 2) / 3)
  {
    var q, r := n / 3, n % 3;
    assert n == 3 * q + r;
    if r == 0 {
      DivMod(n * 8 + 5, 6, 4 * q, 5);
      DivMod(n + 2, 3, q, 2);
    } else if r == 1 {
      DivMod(n * 8 + 5, 6, 4 * q + 2, 1);
      DivMod(n + 2, 3, q + 1, 0);
    } else {
      DivMod(n * 8 + 5, 6, 4 * q + 3, 3);
      DivMod(n + 2, 3, q + 1, 1);
    }
  }

  // ---- The accumulator ---------------------------------------------------------------------------

  /** A 32-bit word multiplied by a power of two and added to; what leaves the word is lost. */
  function Pushed(val: nat, factor: nat, low: nat): (r: nat)
    ensures r < WORD
  {
    (val * factor + low) % WORD
  }

  /** The low half of the word after a byte: the previous byte, then this one. */
  lemma LowHalf(val: nat, c: byte)
    ensures Pushed(val, 256, c as int) % 65536 == (val % 256) * 256 + c as int
    ensures Pushed(val, 256, c as int) % 256 == c as int
  {
    var x, p, q := val * 256 + c as int, val % 256, val / 256;
    var k, y := x / WORD, x % WORD;
    assert x == k * WORD + y;
    assert y == (q - k * 65536) * 65536 + (p * 256 + c as int);
    DivMod(y, 65536, q - k * 65536, p * 256 + c as int);
    DivMod(y, 256, (q - k * 65536) * 256 + p, c as int);
  }

  /** The sextets the encoder reads out of the low half. */
  lemma ReadsSextets(y: nat, p: byte, c: byte)
    requires y % 65536 == p as int * 256 + c as int
    ensures (y / 4) % 64 == Lead(c)
    ensures (y / 16) % 64 == Second(p, c)
    ensures (y / 64) % 64 == Third(p, c)
    ensures y % 64 == Last(c)
  {
    var k, a, b := y / 65536, p as int, c as int;
    assert y == k * 65536 + a * 256 + b;
    DivMod(y, 4, k * 16384 + a * 64 + b / 4, b % 4);
    DivMod(y / 4, 64, k * 256 + a, b / 4);
    DivMod(y, 16, k * 4096 + a * 16 + b / 16, b % 16);
    DivMod(y / 16, 64, k * 64 + a / 4, (a % 4) * 16 + b / 16);
    DivMod(y, 64, k * 1024 + a * 4 + b / 64, b % 64);
    DivMod(y / 64, 64, k * 16 + a / 16, (a % 16) * 4 + b / 64);
  }

  /** How many sextets `i` bytes complete. */
  function Complete(i: nat): nat {
    i * 8 / 6
  }

  lemma CompleteStep(i: nat)
    ensures Complete(i + 1) == Complete(i) + if i % 3 == 2 then 2 else 1
    ensures i % 3 == 0 ==> Complete(i) == (i * 8 + 5) / 6
    ensures i % 3 != 0 ==> Complete(i) + 1 == (i * 8 + 5) / 6
    ensures i >= 3 ==> Complete(i) == Complete(i - 3) + 4 && i % 3 == (i - 3) % 3
    ensures Complete(0) == 0 && Complete(1) == 1 && Complete(2) == 2 && Complete(3) == 4
  {
  }

  ghost predicate SextetsHold(data: Bytes, i: nat)
    requires i < |data|
  {
    Complete(i + 1) <= |Pack(data)| && Complete(i) < |Pack(data)| &&
    (i % 3 == 0 ==> Pack(data)[Complete(i)] == Lead(data[i])) &&
    (i % 3 == 1 ==> Pack(data)[Complete(i)] == Second(data[i - 1], data[i])) &&
    (i % 3 == 2 ==> Complete(i) + 1 < |Pack(data)| &&
                    Pack(data)[Complete(i)] == Third(data[i - 1], data[i]) && Pack(data)[Complete(i) + 1] == Last(data[i]))
  }

  lemma FirstSextets(data: Bytes, i: nat)
    requires i < |data| && i < 3
    ensures SextetsHold(data, i)
  {
    CompleteStep(i);
    PackGroup(data);
    PackSize(data);
    hide Pack, Lead, Second, Third, Last;
  }

  /** Which sextets a byte completes. */
  lemma {:induction false} SextetsOf(data: Bytes, i: nat)
    requires i < |data|
    ensures SextetsHold(data, i)
  {
    if i < 3 {
      FirstSextets(data, i);
    } else {
      SextetsOf(data[3..], i - 3);
      CompleteStep(i);
      CompleteStep(i + 1);
      hide Lead, Second, Third, Last, Complete;
      var rest := Pack(data[3..]);
      assert Pack(data)[4..] == rest && |Pack(data)| == |rest| + 4;
      hide Pack;
      assert Pack(data)[Complete(i)] == rest[Complete(i - 3)];
    }
  }

  /** The sextet that the last byte leaves incomplete. */
  lemma {:induction false} LastSextet(data: Bytes)
    requires |data| % 3 != 0
    ensures Pack(data) != []
    ensures Pack(data)[|Pack(data)| - 1] ==
              if |data| % 3 == 1 then Second(data[|data| - 1], 0) else Third(data[|data| - 1], 0)
  {
    hide Lead, Second, Third, Last;
    if |data| >= 3 {
      LastSextet(data[3..]);
      assert Pack(data)[4..] == Pack(data[3..]);
    }
  }

  lemma TextNext(v: seq<Sextet>, n: nat)
    requires n < |v|
    ensures Text(v[..n + 1]) == Text(v[..n]) + [Digit(v[n])]
  {
  }

  predicate Aligned(bits: int) {
    bits == 0 || bits == 2 || bits == 4 || bits == 6
  }

  /** `(val >> bits) & 0x3F`. */
  function SextetAt(val: nat, bits: int): Sextet
    requires Aligned(bits)
  {
    if bits == 0 then val % 64 else if bits == 2 then (val / 4) % 64 else if bits == 4 then (val / 16) % 64 else (val / 64) % 64
  }

  /** What stands in the accumulator once byte `i` is in: the sextets that byte completes. */
  lemma Accumulated(data: Bytes, i: nat, val: nat)
    requires i < |data| && (i > 0 ==> val % 256 == data[i - 1] as int)
    ensures Complete(i + 1) <= |Pack(data)| && Complete(i + 1) == Complete(i) + if i % 3 == 2 then 2 else 1
    ensures var y := Pushed(val, 256, data[i] as int);
            y % 256 == data[i] as int &&
            SextetAt(y, 2 * (i % 3) + 2) == Pack(data)[Complete(i)] &&
            (i % 3 == 2 ==> SextetAt(y, 0) == Pack(data)[Complete(i) + 1])
  {
    LowHalf(val, data[i]);
    CompleteStep(i);
    SextetsOf(data, i);
    var y := Pushed(val, 256, data[i] as int);
    ReadsSextets(y, (val % 256) as byte, data[i]);
    hide Pushed, Pack, Lead, Second, Third, Last, Complete;
  }

  /** The bits of an incomplete last sextet, filled with zeros. */
  lemma FlushLast(data: Bytes, val: nat)
    requires |data| % 3 != 0 && val % 256 == data[|data| - 1] as int
    ensures |Pack(data)| == Complete(|data|) + 1
    ensures SextetAt(Pushed(val, 256, 0), 2 * (|data| % 3) + 2) == Pack(data)[Complete(|data|)]
  {
    LastSextet(data);
    PackSize(data);
    CompleteStep(|data|);
    LowHalf(val, 0);
    ReadsSextets(Pushed(val, 256, 0), (val % 256) as byte, 0);
    hide Pushed, Pack, Lead, Second, Third, Last, Complete;
  }

  /** Padding fills the last group: less than a group is missing. */
  lemma GroupSizes(n: nat)
    ensures (n * 8 + 5) / 6 <= 4 * ((n + 2) / 3) < (n * 8 + 5) / 6 + 4
  {
    var q, r := n / 3, n % 3;
    assert n == 3 * q + r;
    if r == 0 {
      assert (n * 8 + 5) / 6 == 4 * q && (n + 2) / 3 == q;
    } else {
      assert (n + 2) / 3 == q + 1;
      assert (n * 8 + 5) / 6 == 4 * q + r + 1;
    }
  }

  lemma NextMultiple(n: int, k: int)
    requires 4 * k - 4 < n <= 4 * k
    ensures n % 4 == 0 <==> n == 4 * k
  {
    if n < 4 * k {
      DivMod(n, 4, k - 1, n - 4 * (k - 1));
    }
  }

  lemma PaddedSize(data: Bytes, n: nat)
    requires |Pack(data)| <= n <= |Encode(data)|
    ensures n % 4 == 0 <==> n == |Encode(data)|
  {
    hide Encode, Pack;
    EncodedSize(data);
    PackSize(data);
    GroupSizes(|data|);
    NextMultiple(n, (|data| + 2) / 3);
  }

  lemma PaddingFacts(data: Bytes, n: nat)
    requires |Pack(data)| <= n <= |Encode(data)|
    ensures n % 4 != 0 ==> n < |Encode(data)| && Encode(data)[n] == '='
    ensures n % 4 == 0 ==> n == |Encode(data)|
    ensures Encode(data)[..|Pack(data)|] == Text(Pack(data))
  {
    PaddedSize(data, n);
    PaddingIsPad(|data|);
    hide Pack, Padding;
  }

  method Base64Encode(data: Bytes) returns (out: string)
    ensures out == Encode(data)
  {
    hide Pack, Text, Pushed, SextetAt, Complete, Encode;
    ghost var v := Pack(data);
    CompleteStep(0);
    out := "";
    assert out == Text(v[..0]);
    var val: nat, bits := 0, -6;
    for i := 0 to |data|
      invariant Complete(i) <= |v| && out == Text(v[..Complete(i)])
      invariant bits == 2 * (i % 3) - 6 && (i > 0 ==> val % 256 == data[i - 1] as int)
    {
      Accumulated(data, i, val);
      val := Pushed(val, 256, data[i] as int);
      bits := bits + 8;
      ghost var n := Complete(i);
      while bits >= 0
        invariant Complete(i) <= n <= Complete(i + 1) && bits == 2 * (i % 3) + 2 - 6 * (n - Complete(i))
        invariant n <= |v| && out == Text(v[..n])
        decreases bits
      {
        TextNext(v, n);
        out := out + [ALPHABET[SextetAt(val, bits)]];
        bits := bits - 6;
        n := n + 1;
      }
    }
    if bits > -6 {
      FlushLast(data, val);
      TextNext(v, Complete(|data|));
      out := out + [ALPHABET[SextetAt(Pushed(val, 256, 0), bits + 8)]];
    } else {
      PackSize(data);
      CompleteStep(|data|);
    }
    assert v[..|v|] == v;
    EncodeStarts(data);
    PaddingFacts(data, |v|);
    while |out| % 4 != 0
      invariant |v| <= |out| <= |Encode(data)| && out == Encode(data)[..|out|]
      decreases |Encode(data)| - |out|
    {
      PaddingFacts(data, |out|);
      out := out + "=";
    }
    PaddingFacts(data, |out|);
  }

  lemma EncodeStarts(data: Bytes)
    ensures |Pack(data)| <= |Encode(data)|
  {
  }

  // ---- The decoder -------------------------------------------------------------------------------

  /** The reverse table: every character of the alphabet, by value. */
  method ReverseTable() returns (rev: map<char, Sextet>)
    ensures forall c :: c in rev <==> Value(c).Some?
    ensures forall c :: c in rev ==> Value(c) == Some(rev[c])
  {
    hide Digit, Value;
    rev := map[];
    for i := 0 to 64
      invariant forall c :: c in rev <==> FoundBefore(c, i)
      invariant forall c :: c in rev ==> Value(c) == Some(rev[c])
    {
      DigitValue(i);
      FoundNext(i);
      rev := rev[Digit(i) := i];
    }
    forall c
      ensures FoundBefore(c, 64) <==> Value(c).Some?
    {
      FoundIsValue(c);
    }
  }

  lemma DigitValue(v: Sextet)
    ensures Value(Digit(v)) == Some(v)
  {
    FindsDigit(v, 0);
  }

  ghost predicate FoundBefore(c: char, n: nat)
    requires n <= 64
  {
    exists i: nat :: i < n && Digit(i) == c
  }

  lemma FoundNext(n: nat)
    requires n < 64
    ensures forall c :: FoundBefore(c, n + 1) <==> FoundBefore(c, n) || c == Digit(n)
  {
    hide Digit;
  }

  ghost predicate FoundFrom(c: char, from: nat) {
    exists i: nat :: from <= i < 64 && Digit(i) == c
  }

  lemma FoundFromStep(c: char, from: nat)
    requires from < 64
    ensures FoundFrom(c, from) <==> ALPHABET[from] == c || FoundFrom(c, from + 1)
  {
    assert Digit(from) == ALPHABET[from];
    hide Digit;
  }

  lemma {:induction false} FoundIsFind(c: char, from: nat)
    requires from <= 64
    ensures Find(c, from).Some? <==> FoundFrom(c, from)
    decreases 64 - from
  {
    hide FoundFrom;
    if from < 64 {
      FoundFromStep(c, from);
      FoundIsFind(c, from + 1);
    } else {
      assert !FoundFrom(c, 64) by { NoneFound(c); }
    }
  }

  lemma NoneFound(c: char)
    ensures !FoundFrom(c, 64)
  {
  }

  lemma FoundIsValue(c: char)
    ensures FoundBefore(c, 64) <==> Value(c).Some?
  {
    hide Find, Digit;
    FoundIsFind(c, 0);
  }

  /** Reading digits one by one. */
  lemma {:induction false} DigitsTake(text: string, n: nat)
    requires n <= |text| && forall k :: 0 <= k < n ==> Value(text[k]).Some?
    ensures n <= |Digits(text)| && forall k :: 0 <= k < n ==> Digits(text)[k] == Value(text[k]).value
    ensures n == |text| || Value(text[n]).None? ==> |Digits(text)| == n
  {
    if n > 0 {
      DigitsTake(text[1..], n - 1);
      assert forall k :: 1 <= k < n ==> text[k] == text[1..][k - 1];
    }
  }

  /** The bytes the decoder reads out of the accumulator. */
  lemma ReadsBytes(y: nat, p: Sextet, c: Sextet)
    requires y % 4096 == p * 64 + c
    ensures (y / 16) % 256 == p * 4 + c / 16
    ensures (y / 4) % 256 == (p % 16) * 16 + c / 4
    ensures y % 256 == (p % 4) * 64 + c
  {
    var k: nat, a: nat, b: nat := y / 4096, p, c;
    assert y == k * 4096 + a * 64 + b;
    DivMod(y, 16, k * 256 + a * 4 + b / 16, b % 16);
    DivMod(y / 16, 256, k, a * 4 + b / 16);
    DivMod(y, 4, k * 1024 + a * 16 + b / 4, b % 4);
    DivMod(y / 4, 256, k * 4 + a / 16, (a % 16) * 16 + b / 4);
    DivMod(y, 256, k * 16 + a / 4, (a % 4) * 64 + b);
  }

  lemma LowTwelve(val: nat, c: Sextet)
    ensures Pushed(val, 64, c) % 4096 == (val % 64) * 64 + c
    ensures Pushed(val, 64, c) % 64 == c
  {
    var x, p, q, b: nat := val * 64 + c, val % 64, val / 64, c;
    var k, y := x / WORD, x % WORD;
    assert x == k * WORD + y;
    assert y == (q - k * 1048576) * 4096 + (p * 64 + b);
    DivMod(y, 4096, q - k * 1048576, p * 64 + b);
    DivMod(y, 64, (q - k * 1048576) * 64 + p, b);
  }

  /** `(val >> bits) & 0xFF`. */
  function ByteAt(val: nat, bits: int): byte
    requires bits == 0 || bits == 2 || bits == 4
  {
    (if bits == 0 then val % 256 else if bits == 2 then (val / 4) % 256 else (val / 16) % 256) as byte
  }

  /** Digit `j` completes byte `j * 6 / 8`, unless it starts a group. */
  lemma ByteIndex(j: nat)
    ensures UnpackedSize(j + 1) == UnpackedSize(j) + if j % 4 == 0 then 0 else 1
    ensures j % 4 != 0 ==> var i := UnpackedSize(j); i % 3 == j % 4 - 1 && 4 * (i / 3) + i % 3 + 1 == j
  {
    var q, r := j / 4, j % 4;
    assert j == 4 * q + r;
    if r == 0 {
      DivMod(j * 6, 8, 3 * q, 0);
      DivMod((j + 1) * 6, 8, 3 * q, 6);
    } else {
      DivMod(j * 6, 8, 3 * q + r - 1, 8 - 2 * r);
      DivMod((j + 1) * 6, 8, 3 * q + r, 6 - 2 * r);
      DivMod(3 * q + r - 1, 3, q, r - 1);
    }
  }

  lemma UnpackNext(v: seq<Sextet>, j: nat)
    requires j < |v|
    ensures UnpackedSize(j + 1) == UnpackedSize(j) + if j % 4 == 0 then 0 else 1
    ensures j % 4 == 0 ==> Unpack(v[..j + 1]) == Unpack(v[..j])
    ensures j % 4 != 0 ==> Unpack(v[..j + 1]) == Unpack(v[..j]) + [Join(v, UnpackedSize(j))]
  {
    ByteIndex(j);
    forall i: nat | i < UnpackedSize(j)
      ensures Join(v[..j + 1], i) == Join(v, i) && Join(v[..j], i) == Join(v, i)
    {
    }
    if j % 4 != 0 {
      assert Join(v[..j + 1], UnpackedSize(j)) == Join(v, UnpackedSize(j));
    }
  }

  /** What stands in the accumulator once digit `j` is in: the byte that digit completes. */
  lemma Decoded(v: seq<Sextet>, j: nat, val: nat)
    requires 0 < j < |v| && j % 4 != 0 && val % 64 == v[j - 1]
    ensures ByteAt(Pushed(val, 64, v[j]), 6 - 2 * (j % 4)) == Join(v, UnpackedSize(j))
  {
    LowTwelve(val, v[j]);
    ReadsBytes(Pushed(val, 64, v[j]), v[j - 1], v[j]);
    ByteIndex(j);
    hide Pushed, UnpackedSize;
  }

  /** One digit more: the accumulator has a new byte exactly when its bit count says so. */
  lemma DecodeStep(v: seq<Sextet>, j: nat, val: nat, bits: int)
    requires j < |v| && bits == (6 * j) % 8 - 8 && (j > 0 ==> val % 64 == v[j - 1])
    ensures var y, b := Pushed(val, 64, v[j]), bits + 6;
            y % 64 == v[j] && (b >= 0 ==> b == 0 || b == 2 || b == 4) &&
            Unpack(v[..j + 1]) == Unpack(v[..j]) + (if b >= 0 then [ByteAt(y, b)] else []) &&
            (if b >= 0 then b - 8 else b) == (6 * (j + 1)) % 8 - 8
  {
    assert (6 * j) % 8 == (j % 4) * 6 % 8;
    UnpackNext(v, j);
    LowTwelve(val, v[j]);
    if j % 4 != 0 {
      Decoded(v, j, val);
    }
    hide Pushed, Unpack, UnpackedSize, Join, ByteAt;
  }

  method Base64Decode(text: string) returns (out: Bytes)
    ensures out == Decode(text)
  {
    hide Pushed, Unpack, UnpackedSize, Join, ByteAt, Value, Digits;
    var rev := ReverseTable();
    out := [];
    var val: nat, bits := 0, -8;
    ghost var v := Digits(text);
    var j := 0;
    DigitsTake(text, 0);
    NothingUnpacked();
    assert v[..0] == [];
    while j < |text|
      invariant 0 <= j <= |text| && (forall k :: 0 <= k < j ==> Value(text[k]).Some?)
      invariant j <= |v| && out == Unpack(v[..j])
      invariant bits == (6 * j) % 8 - 8 && (j > 0 ==> val % 64 == v[j - 1])
    {
      if text[j] !in rev {
        break;
      }
      DigitsTake(text, j + 1);
      assert v[j] == rev[text[j]];
      DecodeStep(v, j, val, bits);
      val := Pushed(val, 64, rev[text[j]]);
      bits := bits + 6;
      if bits >= 0 {
        out := out + [ByteAt(val, bits)];
        bits := bits - 8;
      }
      j := j + 1;
    }
    DigitsTake(text, j);
    assert v[..j] == v;
  }

  lemma NothingUnpacked()
    ensures Unpack([]) == []
  {
  }

  // ---- Payload codecs ----------------------------------------------------------------------------

  /** Payload data is a byte string; so is base 64 text. */
  datatype Payload = Payload(metadata: map<string, string>, data: Bytes)

  const CODEC_KEY := "codec"

  function AsText(data: Bytes): string {
    seq(|data|, i requires 0 <= i < |data| => data[i] as char)
  }

  function AsBytes(text: string): Bytes {
    seq(|text|, i requires 0 <= i < |text| => (text[i] as int % 256) as byte)
  }

  lemma DigitIsAscii(v: Sextet)
    ensures Digit(v) as int < 128
  {
    BlockOf(v);
  }

  predicate Ascii(text: string) {
    forall i :: 0 <= i < |text| ==> text[i] as int < 128
  }

  lemma TextIsAscii(v: seq<Sextet>)
    ensures Ascii(Text(v))
  {
    hide Digit;
    forall i | 0 <= i < |v|
      ensures Text(v)[i] as int < 128
    {
      DigitIsAscii(v[i]);
    }
  }

  lemma AsciiBytes(text: string)
    requires Ascii(text)
    ensures AsText(AsBytes(text)) == text
  {
  }

  lemma EncodeIsAscii(data: Bytes)
    ensures AsText(AsBytes(Encode(data))) == Encode(data)
  {
    hide Pack, Text;
    TextIsAscii(Pack(data));
    PaddingIsPad(|data|);
    assert Ascii(Encode(data));
    AsciiBytes(Encode(data));
  }

  lemma PaddingIsPad(n: nat)
    ensures forall k :: 0 <= k < |Padding(n)| ==> Padding(n)[k] == '='
  {
  }

  function Base64PayloadEncode(p: Payload): Payload {
    Payload(p.metadata[CODEC_KEY := "base64"], AsBytes(Encode(p.data)))
  }

  function Base64PayloadDecode(p: Payload): Payload {
    if CODEC_KEY !in p.metadata || p.metadata[CODEC_KEY] != "base64" then p
    else Payload(p.metadata - {CODEC_KEY}, Decode(AsText(p.data)))
  }

  /** What goes out: the data as base 64 text, the mark "base64" under the key "codec", and all other
      metadata, such as "encoding", as it was. What comes in without that mark is left alone. */
  lemma CodecMarks(p: Payload)
    ensures var coded := Base64PayloadEncode(p);
            AsText(coded.data) == Encode(p.data) && coded.metadata == p.metadata["codec" := "base64"]
    ensures "codec" !in p.metadata || p.metadata["codec"] != "base64" ==> Base64PayloadDecode(p) == p
    ensures "codec" in p.metadata && p.metadata["codec"] == "base64" ==>
              Base64PayloadDecode(p) == Payload(p.metadata - {"codec"}, Decode(AsText(p.data)))
  {
    EncodeIsAscii(p.data);
    hide Encode, Decode, AsText, AsBytes;
  }

  /** The codec restores exactly the payloads that had no "codec" key of their own. */
  lemma CodecRestores(p: Payload)
    ensures Base64PayloadDecode(Base64PayloadEncode(p)) == p <==> CODEC_KEY !in p.metadata
  {
    var coded := Base64PayloadEncode(p);
    EncodeIsAscii(p.data);
    RoundTrip(p.data);
    var restored := Base64PayloadDecode(coded);
    assert restored == Payload(coded.metadata - {CODEC_KEY}, p.data);
    assert CODEC_KEY !in restored.metadata;
    if CODEC_KEY !in p.metadata {
      assert coded.metadata - {CODEC_KEY} == p.metadata;
    }
  }

  /** The codec applied twice: both layers use the same key, so decoding undoes only one of them. */
  lemma StackedCodecFails(p: Payload)
    ensures Base64PayloadDecode(Base64PayloadDecode(Base64PayloadEncode(Base64PayloadEncode(p)))) == p <==>
              CODEC_KEY !in p.metadata && p.data == []
  {
    var once := Base64PayloadEncode(p);
    var twice := Base64PayloadEncode(once);
    EncodeIsAscii(once.data);
    RoundTrip(once.data);
    var restored := Payload(twice.metadata - {CODEC_KEY}, once.data);
    assert Base64PayloadDecode(twice) == restored && Base64PayloadDecode(restored) == restored;
    EncodedSize(p.data);
    if CODEC_KEY !in p.metadata {
      assert twice.metadata - {CODEC_KEY} == p.metadata;
    } else {
      assert CODEC_KEY !in restored.metadata;
    }
  }

  /** A codec of the chain: what `Encode` and `Decode` do. */
  datatype Codec = Codec(encode: Payload -> Payload, decode: Payload -> Payload)

  ghost predicate LeftInvertible(c: Codec) {
    forall p :: c.decode(c.encode(p)) == p
  }

  function EncodeAll(codecs: seq<Codec>, p: Payload): Payload {
    if codecs == [] then p else codecs[|codecs| - 1].encode(EncodeAll(codecs[..|codecs| - 1], p))
  }

  function DecodeAll(codecs: seq<Codec>, p: Payload): Payload {
    if codecs == [] then p else DecodeAll(codecs[..|codecs| - 1], codecs[|codecs| - 1].decode(p))
  }

  method ApplyCodecsEncode(codecs: seq<Codec>, p: Payload) returns (payload: Payload)
    ensures payload == EncodeAll(codecs, p)
  {
    payload := p;
    for i := 0 to |codecs|
      invariant payload == EncodeAll(codecs[..i], p)
    {
      assert codecs[..i + 1][..i] == codecs[..i];
      payload := codecs[i].encode(payload);
    }
    assert codecs[..|codecs|] == codecs;
  }

  /** Last applied, first undone. */
  method ApplyCodecsDecode(codecs: seq<Codec>, p: Payload) returns (payload: Payload)
    ensures payload == DecodeAll(codecs, p)
  {
    payload := p;
    assert codecs[..|codecs|] == codecs;
    for i := |codecs| downto 0
      invariant DecodeAll(codecs[..i], payload) == DecodeAll(codecs, p)
    {
      assert codecs[..i + 1][..i] == codecs[..i];
      payload := codecs[i].decode(payload);
    }
  }

  /** A chain of codecs that are each left-invertible is left-invertible. */
  lemma {:induction false} ChainRoundTrip(codecs: seq<Codec>, p: Payload)
    requires forall i :: 0 <= i < |codecs| ==> LeftInvertible(codecs[i])
    ensures DecodeAll(codecs, EncodeAll(codecs, p)) == p
  {
    if codecs != [] {
      var n := |codecs| - 1;
      assert LeftInvertible(codecs[n]);
      assert codecs[n].decode(codecs[n].encode(EncodeAll(codecs[..n], p))) == EncodeAll(codecs[..n], p);
      ChainRoundTrip(codecs[..n], p);
    }
  }
}
