/** Event identifiers as text: a 64-bit counter, written as its shortest
    big-endian bytes in padded base64url (section 5 of RFC 4648). */
module EventIds {
  import opened Ids

  const TWO_64 := 0x1_0000_0000_0000_0000

  type Byte = b: int | 0 <= b < 256
  type Sextet = x: int | 0 <= x < 64

  // ---------------------------------------------------------------------
  // Big-endian numbers

  /** Value of a big-endian byte string (big.Int.SetBytes). */
  function Value(bytes: seq<Byte>): nat {
    if bytes == [] then 0 else 256 * Value(bytes[..|bytes| - 1]) + bytes[|bytes| - 1]
  }

  /** Shortest big-endian bytes of `v`; nothing for 0 (big.Int.Bytes). */
  function Digits(v: nat): (bytes: seq<Byte>) {
    if v == 0 then [] else Digits(v / 256) + [v % 256]
  }

  lemma {:induction false} ValueOfDigits(v: nat)
    ensures Value(Digits(v)) == v
  {
    if v != 0 {
      ValueOfDigits(v / 256);
      var d := Digits(v);
      assert d[..|d| - 1] == Digits(v / 256);
    }
  }

  /** The number without its `n` lowest bytes. */
  function Shifted(v: nat, n: nat): nat {
    if n == 0 then v else Shifted(v / 256, n - 1)
  }

  /** The bytes are the digits of the number in base 256, the lowest one last,
      and the first one is not 0. */
  lemma {:induction false} DigitAt(v: nat, i: nat)
    requires Shifted(v, i) > 0
    ensures i < |Digits(v)| && Digits(v)[|Digits(v)| - 1 - i] as int == Shifted(v, i) % 256
    ensures Digits(v)[0] != 0
    decreases i
  {
    if i > 0 {
      DigitAt(v / 256, i - 1);
      NothingLeft(v / 256, i - 1);
      MoreDigits(v);
    } else {
      LeadingDigit(v);
    }
  }

  lemma MoreDigits(v: nat)
    requires v > 0
    ensures Digits(v) == Digits(v / 256) + [v % 256]
  {}

  lemma {:induction false} NothingLeft(v: nat, i: nat)
    ensures v == 0 ==> Shifted(v, i) == 0
  {
    if i > 0 {
      NothingLeft(v / 256, i - 1);
    }
  }

  lemma {:induction false} LeadingDigit(v: nat)
    requires v > 0
    ensures Digits(v) != [] && Digits(v)[0] != 0
  {
    if v >= 256 {
      LeadingDigit(v / 256);
    }
  }

  function ToBytes(v: nat): seq<Byte> {
    if v == 0 then [0] else Digits(v)
  }

  // ---------------------------------------------------------------------
  // The base64url alphabet

  function Letter(x: Sextet): char {
    if x < 26 then 'A' + x as char
    else if x < 52 then 'a' + (x - 26) as char
    else if x < 62 then '0' + (x - 52) as char
    else if x == 62 then '-' else '_'
  }

  function Code(c: char): Option<Sextet> {
    if 'A' <= c <= 'Z' then Some(c as int - 'A' as int)
    else if 'a' <= c <= 'z' then Some(c as int - 'a' as int + 26)
    else if '0' <= c <= '9' then Some(c as int - '0' as int + 52)
    else if c == '-' then Some(62)
    else if c == '_' then Some(63)
    else None
  }

  lemma CodeOfLetter(x: Sextet)
    ensures Code(Letter(x)) == Some(x)
    ensures Letter(x) != '=' && Letter(x) != '\n' && Letter(x) != '\r'
  {}

  const UPPER := "ABCDEFGHIJKLMNOPQRSTUVWXYZ"
  const LOWER := "abcdefghijklmnopqrstuvwxyz"
  const ALPHABET := UPPER + LOWER + "0123456789-_"

  /** The letters are those of the URL-safe alphabet, in its order. */
  lemma LettersAreTheAlphabet(x: Sextet)
    ensures |ALPHABET| == 64 && Letter(x) == ALPHABET[x]
  {
    assert Letter(x) as int == if x < 26 then 65 + x else if x < 52 then 71 + x else if x < 62 then x - 4 else if x == 62 then 45 else 95;
    UpperCase(x);
    LowerCase(x);
    assert 52 <= x ==> ALPHABET[x] == "0123456789-_"[x - 52];
  }

  lemma UpperCase(x: Sextet)
    ensures x < 26 ==> ALPHABET[x] as int == 65 + x
  {}

  lemma LowerCase(x: Sextet)
    ensures 26 <= x < 52 ==> ALPHABET[x] as int == 71 + x
  {}

  // ---------------------------------------------------------------------
  // Encoding: three bytes to four letters, the rest padded with '='

  function Encode(bytes: seq<Byte>): string {
    if bytes == [] then ""
    else if |bytes| == 1 then
      [Letter(bytes[0] / 4), Letter(bytes[0] % 4 * 16), '=', '=']
    else if |bytes| == 2 then
      [Letter(bytes[0] / 4), Letter(bytes[0] % 4 * 16 + bytes[1] / 16), Letter(bytes[1] % 16 * 4), '=']
    else
      [Letter(bytes[0] / 4), Letter(bytes[0] % 4 * 16 + bytes[1] / 16),
       Letter(bytes[1] % 16 * 4 + bytes[2] / 64), Letter(bytes[2] % 64)] + Encode(bytes[3..])
  }

  /** Go's decoder skips line breaks wherever they stand. */
  function SkipBreaks(s: string): string {
    if s == "" then ""
    else if s[0] == '\n' || s[0] == '\r' then SkipBreaks(s[1..])
    else [s[0]] + SkipBreaks(s[1..])
  }

  /** The three bytes four sextets spell. */
  function Octets(a: Sextet, b: Sextet, c: Sextet, d: Sextet): (bytes: seq<Byte>)
    ensures |bytes| == 3
  {
    var p: Byte := a * 4 + b / 16;
    var q: Byte := b % 16 * 16 + c / 4;
    var r: Byte := c % 4 * 64 + d;
    [p, q, r]
  }

  /** Decodes groups of four; padding only in the last group, no strict check
      of the unused low bits. Err is CorruptInputError. */
  function DecodeGroups(s: string): Result<seq<Byte>> {
    if s == "" then Ok([])
    else if |s| < 4 then Err
    else match (Code(s[0]), Code(s[1]), Code(s[2]), Code(s[3]))
      case (Some(a), Some(b), Some(c), Some(d)) =>
        (match DecodeGroups(s[4..])
         case Err => Err
         case Ok(rest) => Ok(Octets(a, b, c, d) + rest))
      case (Some(a), Some(b), Some(c), None) =>
        if s[3] == '=' && |s| == 4 then Ok(Octets(a, b, c, 0)[..2]) else Err
      case (Some(a), Some(b), None, _) =>
        if s[2] == '=' && s[3] == '=' && |s| == 4 then Ok(Octets(a, b, 0, 0)[..1]) else Err
      case _ => Err
  }

  function Decode(s: string): Result<seq<Byte>> {
    DecodeGroups(SkipBreaks(s))
  }

  lemma {:induction false} NoBreaksInEncoding(bytes: seq<Byte>)
    ensures forall c :: c in Encode(bytes) ==> c != '\n' && c != '\r'
  {
    if |bytes| >= 3 {
      NoBreaksInEncoding(bytes[3..]);
    }
  }

  lemma {:induction false} SkipNothing(s: string)
    requires forall c :: c in s ==> c != '\n' && c != '\r'
    ensures SkipBreaks(s) == s
  {
    if s != "" {
      assert s[0] in s;
      assert forall c :: c in s[1..] ==> c in s;
      SkipNothing(s[1..]);
      assert s == [s[0]] + s[1..];
    }
  }

  /** The 24 bits of a group survive being cut into sextets and put back. */
  lemma GroupArithmetic(p: Byte, q: Byte, r: Byte)
    ensures var a, b, c, d := p / 4, p % 4 * 16 + q / 16, q % 16 * 4 + r / 64, r % 64;
      && 0 <= a < 64 && 0 <= b < 64 && 0 <= c < 64 && 0 <= d < 64
      && Octets(a, b, c, d) == [p, q, r]
  {
    var b := p % 4 * 16 + q / 16;
    var c := q % 16 * 4 + r / 64;
    assert q / 16 < 16 && r / 64 < 4;
    assert b / 16 == p % 4 && b % 16 == q / 16;
    assert c / 4 == q % 16 && c % 4 == r / 64;
  }

  lemma DecodeFullGroup(a: Sextet, b: Sextet, c: Sextet, d: Sextet, rest: string)
    ensures DecodeGroups([Letter(a), Letter(b), Letter(c), Letter(d)] + rest) ==
      match DecodeGroups(rest) { case Err => Err case Ok(tail) => Ok(Octets(a, b, c, d) + tail) }
  {
    CodeOfLetter(a);
    CodeOfLetter(b);
    CodeOfLetter(c);
    CodeOfLetter(d);
    assert ([Letter(a), Letter(b), Letter(c), Letter(d)] + rest)[4..] == rest;
  }

  lemma DecodePaddedGroup(a: Sextet, b: Sextet, c: Sextet)
    ensures DecodeGroups([Letter(a), Letter(b), '=', '=']) == Ok(Octets(a, b, 0, 0)[..1])
    ensures DecodeGroups([Letter(a), Letter(b), Letter(c), '=']) == Ok(Octets(a, b, c, 0)[..2])
  {
    CodeOfLetter(a);
    CodeOfLetter(b);
    CodeOfLetter(c);
  }

  lemma {:induction false} DecodeOfEncode(bytes: seq<Byte>)
    ensures DecodeGroups(Encode(bytes)) == Ok(bytes)
  {
    if |bytes| == 1 {
      GroupArithmetic(bytes[0], 0, 0);
      DecodePaddedGroup(bytes[0] / 4, bytes[0] % 4 * 16, 0);
      assert [bytes[0], 0, 0][..1] == bytes;
    } else if |bytes| == 2 {
      GroupArithmetic(bytes[0], bytes[1], 0);
      DecodePaddedGroup(bytes[0] / 4, bytes[0] % 4 * 16 + bytes[1] / 16, bytes[1] % 16 * 4);
      assert [bytes[0], bytes[1], 0][..2] == bytes;
    } else if |bytes| >= 3 {
      GroupArithmetic(bytes[0], bytes[1], bytes[2]);
      DecodeOfEncode(bytes[3..]);
      DecodeFullGroup(bytes[0] / 4, bytes[0] % 4 * 16 + bytes[1] / 16,
                      bytes[1] % 16 * 4 + bytes[2] / 64, bytes[2] % 64, Encode(bytes[3..]));
      assert bytes == [bytes[0], bytes[1], bytes[2]] + bytes[3..];
    }
  }

  /** What a letter stands for; padding stands for zeros. */
  function Bits(c: char): Sextet { if Code(c).Some? then Code(c).value else 0 }

  function ByteAt(bytes: seq<Byte>, i: nat): Byte { if i < |bytes| then bytes[i] else 0 }

  /** The group of letters spells the 24 bits of three bytes, the missing ones
      of the last group taken as zeros and shown as padding. */
  ghost predicate Spells(t: string, bytes: seq<Byte>, at: nat) {
    && |t| == 4
    && ((Bits(t[0]) * 64 + Bits(t[1])) * 64 + Bits(t[2])) * 64 + Bits(t[3])
       == (ByteAt(bytes, at) * 256 + ByteAt(bytes, at + 1)) * 256 + ByteAt(bytes, at + 2)
    && t[0] != '=' && t[1] != '=' && (t[2] == '=' <==> at + 1 == |bytes|) && (t[3] == '=' <==> at + 2 >= |bytes|)
  }

  /** Group by group the letters spell the bytes. */
  lemma {:induction false} GroupSpells(bytes: seq<Byte>, g: nat)
    requires 3 * g < |bytes|
    ensures |Encode(bytes)| == 4 * ((|bytes| + 2) / 3) && 4 * g + 4 <= |Encode(bytes)|
    ensures Spells(Encode(bytes)[4 * g..4 * g + 4], bytes, 3 * g)
  {
    hide Encode, Spells, Letter;
    EncodedLength(bytes);
    if g > 0 {
      FirstLetters(bytes);
      GroupSpells(bytes[3..], g - 1);
      SliceOfRest(Encode(bytes), 4, 4 * (g - 1), 4 * g);
      SpellsInRest(Encode(bytes)[4 * g..4 * g + 4], bytes, 3 * (g - 1));
    } else {
      FirstGroupSpells(bytes);
    }
  }

  lemma SpellsInRest(t: string, bytes: seq<Byte>, at: nat)
    requires |bytes| >= 3 && Spells(t, bytes[3..], at)
    ensures Spells(t, bytes, at + 3)
  {
    assert forall i: nat :: ByteAt(bytes[3..], i) == ByteAt(bytes, i + 3);
  }

  /** The first four letters, and those of the other bytes behind them. */
  lemma FirstLetters(bytes: seq<Byte>)
    requires bytes != []
    ensures |Encode(bytes)| >= 4
    ensures var p, q, r := ByteAt(bytes, 0), ByteAt(bytes, 1), ByteAt(bytes, 2);
      Encode(bytes)[..4] == [Letter(p / 4), Letter(p % 4 * 16 + q / 16),
                             if |bytes| < 2 then '=' else Letter(q % 16 * 4 + r / 64), if |bytes| < 3 then '=' else Letter(r % 64)]
    ensures Encode(bytes)[4..] == if |bytes| < 3 then "" else Encode(bytes[3..])
  {
    hide Letter;
  }

  lemma {:induction false} EncodedLength(bytes: seq<Byte>)
    ensures |Encode(bytes)| == 4 * ((|bytes| + 2) / 3)
  {
    if bytes != [] {
      FirstLetters(bytes);
    }
    hide Letter;
    if |bytes| >= 3 {
      EncodedLength(bytes[3..]);
    }
  }

  lemma BitsOfLetter(x: Sextet)
    ensures Bits(Letter(x)) == x && Letter(x) != '='
  {
    CodeOfLetter(x);
  }

  lemma FirstGroupSpells(bytes: seq<Byte>)
    requires bytes != [] && |Encode(bytes)| >= 4
    ensures Spells(Encode(bytes)[..4], bytes, 0)
  {
    hide Letter, Encode, Spells;
    FirstLetters(bytes);
    var p, q, r := ByteAt(bytes, 0), ByteAt(bytes, 1), ByteAt(bytes, 2);
    SextetsSpell(p, q, r);
    LettersSpell(Encode(bytes)[..4], bytes, p / 4, p % 4 * 16 + q / 16, q % 16 * 4 + r / 64, r % 64);
  }

  lemma LettersSpell(t: string, bytes: seq<Byte>, a: Sextet, b: Sextet, c: Sextet, d: Sextet)
    requires bytes != [] && (|bytes| < 2 ==> c == 0) && (|bytes| < 3 ==> d == 0)
    requires t == [Letter(a), Letter(b), if |bytes| < 2 then '=' else Letter(c), if |bytes| < 3 then '=' else Letter(d)]
    requires ((a * 64 + b) * 64 + c) * 64 + d == (ByteAt(bytes, 0) * 256 + ByteAt(bytes, 1)) * 256 + ByteAt(bytes, 2)
    ensures Spells(t, bytes, 0)
  {
    hide Letter, Bits, ByteAt;
    BitsOfLetter(a);
    BitsOfLetter(b);
    BitsOfLetter(c);
    BitsOfLetter(d);
    PaddingIsZero();
  }

  lemma SextetsSpell(p: Byte, q: Byte, r: Byte)
    ensures ((p / 4 * 64 + (p % 4 * 16 + q / 16)) * 64 + (q % 16 * 4 + r / 64)) * 64 + r % 64 == (p * 256 + q) * 256 + r
  {}

  lemma PaddingIsZero()
    ensures Bits('=') == 0
  {}

  lemma CodecRoundTrip(bytes: seq<Byte>)
    ensures Decode(Encode(bytes)) == Ok(bytes)
  {
    NoBreaksInEncoding(bytes);
    SkipNothing(Encode(bytes));
    DecodeOfEncode(bytes);
  }

  // ---------------------------------------------------------------------
  // ID.String and ID.FromString

  function ToText(v: nat): string {
    Encode(ToBytes(v))
  }

  /** The decoded number is cut to its low 64 bits (big.Int.Uint64). */
  function FromText(s: string): Result<nat> {
    match Decode(s)
    case Err => Err
    case Ok(bytes) => Ok(Value(bytes) % TWO_64)
  }

  lemma FromEncoded(bytes: seq<Byte>)
    ensures FromText(Encode(bytes)) == Ok(Value(bytes) % TWO_64)
  {
    CodecRoundTrip(bytes);
  }

  lemma ValueOfToBytes(v: nat)
    ensures Value(ToBytes(v)) == v
  {
    if v == 0 {
      assert ToBytes(0)[..0] == [];
    } else {
      ValueOfDigits(v);
    }
  }

  /** Every 64-bit event identifier survives the trip through its text. */
  lemma RoundTrip(v: nat)
    requires v < TWO_64
    ensures FromText(ToText(v)) == Ok(v)
  {
    hide Encode, Decode, ToBytes, Value, FromText;
    FromEncoded(ToBytes(v));
    ValueOfToBytes(v);
  }

  /** So two different identifiers never share a text. */
  lemma TextIsInjective(v: nat, w: nat)
    requires v < TWO_64 && w < TWO_64 && ToText(v) == ToText(w)
    ensures v == w
  {
    hide FromText, ToText;
    RoundTrip(v);
    RoundTrip(w);
  }
}
