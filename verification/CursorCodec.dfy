/**
 The page cursor's text form (`keyset-cursor.ts`): base64url of section 5 of RFC 4648, without padding,
 and read back the way the server's `Buffer` reads it.
 */
module CursorCodec {
  import opened Wrappers

  type Byte = b: int | 0 <= b < 256
  type Sextet = v: int | 0 <= v < 64

  // ---- base64 ----

  /** The 64 digits of section 4 of RFC 4648. */
  function Digit(v: Sextet): char {
    if v < 26 then 'A' + v as char
    else if v < 52 then 'a' + (v - 26) as char
    else if v < 62 then '0' + (v - 52) as char
    else if v == 62 then '+' else '/'
  }

  function ValueOf(c: char): Option<Sextet> {
    if 'A' <= c <= 'Z' then Some(c as int - 'A' as int)
    else if 'a' <= c <= 'z' then Some(c as int - 'a' as int + 26)
    else if '0' <= c <= '9' then Some(c as int - '0' as int + 52)
    else if c == '+' then Some(62)
    else if c == '/' then Some(63)
    else None
  }

  function S0(x: Byte): Sextet {
    x / 4
  }

  function S1(x: int, y: int): Sextet
    requires 0 <= x < 256 && 0 <= y < 256
  {
    x % 4 * 16 + y / 16
  }

  function S2(y: int, z: int): Sextet
    requires 0 <= y < 256 && 0 <= z < 256
  {
    y % 16 * 4 + z / 64
  }

  function S3(z: int): Sextet {
    z % 64
  }

  function B0(a: int, b: int): Byte
    requires 0 <= a < 64 && 0 <= b < 64
  {
    a * 4 + b / 16
  }

  function B1(b: int, c: int): Byte
    requires 0 <= b < 64 && 0 <= c < 64
  {
    b % 16 * 16 + c / 4
  }

  function B2(c: int, d: int): Byte
    requires 0 <= c < 64 && 0 <= d < 64
  {
    c % 4 * 64 + d
  }

  /** The six-bit groups of the bytes, the last filled up with zero bits. */
  function Sextets(bytes: seq<Byte>): seq<Sextet> {
    if bytes == [] then []
    else if |bytes| == 1 then [S0(bytes[0]), S1(bytes[0], 0)]
    else if |bytes| == 2 then [S0(bytes[0]), S1(bytes[0], bytes[1]), S2(bytes[1], 0)]
    else [S0(bytes[0]), S1(bytes[0], bytes[1]), S2(bytes[1], bytes[2]), S3(bytes[2])] + Sextets(bytes[3..])
  }

  /** Read back: a group of four is three bytes, of three two, of two one; a digit left alone is nothing. */
  function Bytes(sextets: seq<Sextet>): seq<Byte> {
    if |sextets| < 2 then []
    else if |sextets| == 2 then [B0(sextets[0], sextets[1])]
    else if |sextets| == 3 then [B0(sextets[0], sextets[1]), B1(sextets[1], sextets[2])]
    else [B0(sextets[0], sextets[1]), B1(sextets[1], sextets[2]), B2(sextets[2], sextets[3])] + Bytes(sextets[4..])
  }

  lemma BytesBack(x: Byte, y: Byte, z: Byte)
    ensures B0(S0(x), S1(x, y)) == x && B1(S1(x, y), S2(y, z)) == y && B2(S2(y, z), S3(z)) == z
  {
  }

  lemma SextetsBack(a: Sextet, b: Sextet, c: Sextet, d: Sextet)
    ensures S0(B0(a, b)) == a && S1(B0(a, b), B1(b, c)) == b && S2(B1(b, c), B2(c, d)) == c && S3(B2(c, d)) == d
    ensures S1(B0(a, b), 0) == b <==> b % 16 == 0
    ensures S2(B1(b, c), 0) == c <==> c % 4 == 0
  {
  }

  lemma {:induction false} SextetsThen(x: Byte, y: Byte, z: Byte, rest: seq<Byte>)
    ensures Sextets([x, y, z] + rest) == [S0(x), S1(x, y), S2(y, z), S3(z)] + Sextets(rest)
  {
    assert ([x, y, z] + rest)[3..] == rest;
  }

  lemma {:induction false} BytesThen(a: Sextet, b: Sextet, c: Sextet, d: Sextet, rest: seq<Sextet>)
    ensures Bytes([a, b, c, d] + rest) == [B0(a, b), B1(b, c), B2(c, d)] + Bytes(rest)
  {
    assert ([a, b, c, d] + rest)[4..] == rest;
  }

  lemma {:induction false} GroupOfBytes(x: Byte, y: Byte, z: Byte, rest: seq<Byte>)
    requires Bytes(Sextets(rest)) == rest
    ensures Bytes(Sextets([x, y, z] + rest)) == [x, y, z] + rest
  {
    SextetsThen(x, y, z, rest);
    BytesThen(S0(x), S1(x, y), S2(y, z), S3(z), Sextets(rest));
    BytesBack(x, y, z);
  }

  lemma OneByte(x: Byte)
    ensures Bytes(Sextets([x])) == [x]
  {
  }

  lemma TwoBytes(x: Byte, y: Byte)
    ensures Bytes(Sextets([x, y])) == [x, y]
  {
    BytesBack(x, y, 0);
    assert Sextets([x, y]) == [S0(x), S1(x, y), S2(y, 0)];
  }

  lemma {:induction false} BytesOfSextets(bytes: seq<Byte>)
    ensures Bytes(Sextets(bytes)) == bytes
    decreases |bytes|
  {
    if |bytes| == 1 {
      OneByte(bytes[0]);
      assert bytes == [bytes[0]];
    } else if |bytes| == 2 {
      TwoBytes(bytes[0], bytes[1]);
      assert bytes == [bytes[0], bytes[1]];
    } else if |bytes| > 2 {
      BytesOfSextets(bytes[3..]);
      assert bytes == [bytes[0], bytes[1], bytes[2]] + bytes[3..];
      GroupOfBytes(bytes[0], bytes[1], bytes[2], bytes[3..]);
    }
  }

  /** The groups an encoder writes: no digit left alone, and zero bits where the last group is filled up. */
  predicate Canonical(sextets: seq<Sextet>) {
    if |sextets| < 4 then
      |sextets| != 1 && (|sextets| == 2 ==> sextets[1] % 16 == 0) && (|sextets| == 3 ==> sextets[2] % 4 == 0)
    else Canonical(sextets[4..])
  }

  lemma SameTail<T>(a: seq<T>, x: seq<T>, y: seq<T>)
    ensures a + x == a + y <==> x == y
  {
    assert (a + x)[|a|..] == x && (a + y)[|a|..] == y;
  }

  lemma {:induction false} GroupOfSextets(a: Sextet, b: Sextet, c: Sextet, d: Sextet, rest: seq<Sextet>)
    ensures Sextets(Bytes([a, b, c, d] + rest)) == [a, b, c, d] + Sextets(Bytes(rest))
  {
    BytesThen(a, b, c, d, rest);
    SextetsThen(B0(a, b), B1(b, c), B2(c, d), Bytes(rest));
    SextetsBack(a, b, c, d);
  }

  lemma TwoSextets(a: Sextet, b: Sextet)
    ensures Sextets(Bytes([a, b])) == [a, S1(B0(a, b), 0)]
  {
    SextetsBack(a, b, 0, 0);
    assert Bytes([a, b]) == [B0(a, b)];
  }

  lemma ThreeSextets(a: Sextet, b: Sextet, c: Sextet)
    ensures Sextets(Bytes([a, b, c])) == [a, b, S2(B1(b, c), 0)]
  {
    SextetsBack(a, b, c, 0);
    assert Bytes([a, b, c]) == [B0(a, b), B1(b, c)];
  }

  lemma {:induction false} ShortOfSextets(sextets: seq<Sextet>)
    requires |sextets| < 4
    ensures Sextets(Bytes(sextets)) == sextets <==> Canonical(sextets)
  {
    if |sextets| == 2 {
      var a, b := sextets[0], sextets[1];
      assert sextets == [a, b];
      TwoSextets(a, b);
      SextetsBack(a, b, 0, 0);
    } else if |sextets| == 3 {
      var a, b, c := sextets[0], sextets[1], sextets[2];
      assert sextets == [a, b, c];
      ThreeSextets(a, b, c);
      SextetsBack(a, b, c, 0);
    }
  }

  lemma {:induction false} SextetsOfBytes(sextets: seq<Sextet>)
    ensures Sextets(Bytes(sextets)) == sextets <==> Canonical(sextets)
    decreases |sextets|
  {
    if |sextets| < 4 {
      ShortOfSextets(sextets);
    } else {
      var front, rest := [sextets[0], sextets[1], sextets[2], sextets[3]], sextets[4..];
      SextetsOfBytes(rest);
      assert sextets == front + rest;
      GroupOfSextets(sextets[0], sextets[1], sextets[2], sextets[3], rest);
      SameTail(front, Sextets(Bytes(rest)), rest);
    }
  }

  // ---- the text ----

  function Digits(sextets: seq<Sextet>): string {
    seq(|sextets|, i requires 0 <= i < |sextets| => Digit(sextets[i]))
  }

  /** `toString('base64')`: padded to whole groups of four. */
  function Base64(bytes: seq<Byte>): string {
    Digits(Sextets(bytes)) + (if |bytes| % 3 == 1 then "==" else if |bytes| % 3 == 2 then "=" else "")
  }

  /** Vectors of section 10 of RFC 4648: "f", "fo" and "foo". */
  lemma VectorOfOne()
    ensures Base64([0x66]) == "Zg=="
  {
    assert Sextets([0x66]) == [25, 32];
    assert Digits([25, 32]) == "Zg";
  }

  lemma VectorOfTwo()
    ensures Base64([0x66, 0x6f]) == "Zm8="
  {
    assert Sextets([0x66, 0x6f]) == [25, 38, 60];
    assert Digits([25, 38, 60]) == "Zm8";
  }

  lemma VectorOfThree()
    ensures Base64([0x66, 0x6f, 0x6f]) == "Zm9v"
  {
    SextetsThen(0x66, 0x6f, 0x6f, []);
    assert [0x66, 0x6f, 0x6f] + [] == [0x66, 0x6f, 0x6f];
    assert Sextets([0x66, 0x6f, 0x6f]) == [25, 38, 61, 47];
    assert Digits([25, 38, 61, 47]) == "Zm9v";
  }

  function ReplaceAll(s: string, from: char, to: char): string {
    seq(|s|, i requires 0 <= i < |s| => if s[i] == from then to else s[i])
  }

  /** `replace(/=+$/, '')`. */
  function StripPadding(s: string): string {
    if s != [] && s[|s| - 1] == '=' then StripPadding(s[..|s| - 1]) else s
  }

  function Base64UrlEncode(bytes: seq<Byte>): string {
    StripPadding(ReplaceAll(ReplaceAll(Base64(bytes), '+', '-'), '/', '_'))
  }

  /** `/^[A-Za-z0-9_-]+$/`. */
  predicate IsUrlSafe(c: char) {
    'A' <= c <= 'Z' || 'a' <= c <= 'z' || '0' <= c <= '9' || c == '_' || c == '-'
  }

  function Base64UrlDecode(text: string): Option<seq<Byte>> {
    if text == [] || exists i :: 0 <= i < |text| && !IsUrlSafe(text[i]) then None
    else Some(Bytes(SextetsIn(text)))
  }

  function SextetOf(c: char): Sextet
    requires IsUrlSafe(c)
  {
    ValueOf(if c == '-' then '+' else if c == '_' then '/' else c).value
  }

  function SextetsIn(text: string): seq<Sextet>
    requires forall i :: 0 <= i < |text| ==> IsUrlSafe(text[i])
  {
    seq(|text|, i requires 0 <= i < |text| => SextetOf(text[i]))
  }

  function UrlDigit(v: Sextet): char {
    if v == 62 then '-' else if v == 63 then '_' else Digit(v)
  }

  function UrlDigits(sextets: seq<Sextet>): string {
    seq(|sextets|, i requires 0 <= i < |sextets| => UrlDigit(sextets[i]))
  }

  lemma {:induction false} StripsOnlyPadding(s: string, k: nat)
    requires s == [] || s[|s| - 1] != '='
    ensures StripPadding(s + seq(k, i => '=')) == s
  {
    if k > 0 {
      var padded := s + seq(k, i => '=');
      assert padded[..|padded| - 1] == s + seq(k - 1, i => '=');
      StripsOnlyPadding(s, k - 1);
    } else {
      assert s + seq(0, i => '=') == s;
    }
  }

  lemma DigitInUrl(v: Sextet)
    ensures UrlDigit(v) != '=' && IsUrlSafe(UrlDigit(v)) && SextetOf(UrlDigit(v)) == v
    ensures UrlDigit(v) == var c := Digit(v); var d := if c == '+' then '-' else c; if d == '/' then '_' else d
  {
  }

  /** What is left of the padded text is the digits in the URL's alphabet. */
  lemma {:induction false} EncodeIs(bytes: seq<Byte>)
    ensures Base64UrlEncode(bytes) == UrlDigits(Sextets(bytes))
  {
    var digits := UrlDigits(Sextets(bytes));
    var pad := if |bytes| % 3 == 1 then 2 else if |bytes| % 3 == 2 then 1 else 0;
    var text := ReplaceAll(ReplaceAll(Base64(bytes), '+', '-'), '/', '_');
    forall i | 0 <= i < |digits|
      ensures digits[i] != '=' && text[i] == digits[i]
    {
      DigitInUrl(Sextets(bytes)[i]);
    }
    assert text == digits + seq(pad, i => '=');
    StripsOnlyPadding(digits, pad);
  }

  /** Every byte sequence comes back from its text; empty, it is no text a decoder takes. */
  lemma BytesRoundTrip(bytes: seq<Byte>)
    ensures Base64UrlDecode(Base64UrlEncode(bytes)) == if bytes == [] then None else Some(bytes)
  {
    EncodeIs(bytes);
    var text := Base64UrlEncode(bytes);
    forall i | 0 <= i < |text|
      ensures IsUrlSafe(text[i]) && SextetOf(text[i]) == Sextets(bytes)[i]
    {
      DigitInUrl(Sextets(bytes)[i]);
    }
    if bytes != [] {
      assert SextetsIn(text) == Sextets(bytes);
      BytesOfSextets(bytes);
    }
  }

  lemma DigitOfSextet(c: char)
    requires IsUrlSafe(c)
    ensures UrlDigit(SextetOf(c)) == c
  {
  }

  /** A text that decodes is the one its bytes encode to, if and only if it is canonical: the decoder is lenient. */
  lemma TextRoundTripExactly(text: string)
    requires text != [] && forall i :: 0 <= i < |text| ==> IsUrlSafe(text[i])
    ensures Base64UrlDecode(text).Some?
    ensures Base64UrlEncode(Base64UrlDecode(text).value) == text <==> Canonical(SextetsIn(text))
  {
    var sextets := SextetsIn(text);
    EncodeIs(Bytes(sextets));
    SextetsOfBytes(sextets);
    var back := UrlDigits(Sextets(Bytes(sextets)));
    forall i | 0 <= i < |text|
      ensures UrlDigit(sextets[i]) == text[i]
    {
      DigitOfSextet(text[i]);
    }
    assert UrlDigits(sextets) == text;
    if back == text {
      SameDigits(Sextets(Bytes(sextets)), sextets);
    }
  }

  lemma SameDigits(a: seq<Sextet>, b: seq<Sextet>)
    requires UrlDigits(a) == UrlDigits(b)
    ensures a == b
  {
    assert |UrlDigits(a)| == |a| && |UrlDigits(b)| == |b|;
    forall i | 0 <= i < |a|
      ensures a[i] == b[i]
    {
      assert UrlDigits(a)[i] == UrlDigits(b)[i];
      DigitInUrl(a[i]);
      DigitInUrl(b[i]);
    }
  }

  // ---- the cursor ----

  datatype PageCursor = PageCursor(createdAt: string, id: string)

  /** What the platform decides: which timestamps `Date.parse` takes, and how bytes that are not ASCII read. */
  datatype Platform = Platform(parses: string -> bool, beyondAscii: seq<Byte> -> string)

  predicate IsAscii(s: string) {
    forall i :: 0 <= i < |s| ==> s[i] as int < 128
  }

  function BytesIn(s: string): seq<Byte>
    requires IsAscii(s)
  {
    seq(|s|, i requires 0 <= i < |s| => s[i] as int)
  }

  /** `toString('utf8')`. */
  function TextOf(bytes: seq<Byte>, platform: Platform): string {
    if forall i :: 0 <= i < |bytes| ==> bytes[i] < 128 then seq(|bytes|, i requires 0 <= i < |bytes| => bytes[i] as char)
    else platform.beyondAscii(bytes)
  }

  predicate IsHex(c: char) {
    '0' <= c <= '9' || 'a' <= c <= 'f' || 'A' <= c <= 'F'
  }

  predicate IsUuid(s: string) {
    |s| == 36 && forall i :: 0 <= i < 36 ==> if i == 8 || i == 13 || i == 18 || i == 23 then s[i] == '-' else IsHex(s[i])
  }

  /** The index of the first `|`, or the length. */
  function Separator(s: string): (k: nat)
    ensures k <= |s| && '|' !in s[..k] && (k < |s| ==> s[k] == '|')
  {
    if s == [] || s[0] == '|' then 0
    else
      var k := Separator(s[1..]);
      assert s[..k + 1] == [s[0]] + s[1..][..k];
      k + 1
  }

  function EncodeCursor(c: PageCursor): string
    requires IsAscii(c.createdAt) && IsAscii(c.id)
  {
    Base64UrlEncode(BytesIn(c.createdAt + "|" + c.id))
  }

  function ReadCursor(decoded: string, platform: Platform): (c: Option<PageCursor>)
    ensures c.Some? ==> platform.parses(c.value.createdAt) && IsUuid(c.value.id) && '|' !in c.value.createdAt
  {
    var separator := Separator(decoded);
    if separator == |decoded| then None
    else
      var createdAt, id := decoded[..separator], decoded[separator + 1..];
      if !platform.parses(createdAt) || !IsUuid(id) then None else Some(PageCursor(createdAt, id))
  }

  function DecodeCursor(raw: string, platform: Platform): (c: Option<PageCursor>)
    ensures c.Some? ==> platform.parses(c.value.createdAt) && IsUuid(c.value.id) && '|' !in c.value.createdAt
  {
    if |raw| == 0 || |raw| > 200 then None
    else
      match Base64UrlDecode(raw)
      case None => None
      case Some(bytes) => ReadCursor(TextOf(bytes, platform), platform)
  }

  const HEX_DIGITS: string := "0123456789abcdefABCDEF"

  lemma HexDigits(c: char)
    ensures IsHex(c) <==> c in HEX_DIGITS
  {
  }

  predicate AllHex(s: string) {
    forall i :: 0 <= i < |s| ==> s[i] in HEX_DIGITS
  }

  /** The UUID's pattern: groups of 8, 4, 4, 4 and 12 digits between dashes. */
  predicate FiveGroups(s: string) {
    && |s| == 36 && s[8] == s[13] == s[18] == s[23] == '-'
    && AllHex(s[..8]) && AllHex(s[9..13]) && AllHex(s[14..18]) && AllHex(s[19..23]) && AllHex(s[24..])
  }

  lemma HexPiece(s: string, from: nat, to: nat)
    requires from <= to <= |s|
    ensures AllHex(s[from..to]) <==> forall i :: from <= i < to ==> IsHex(s[i])
  {
    forall i | from <= i < to
      ensures IsHex(s[i]) <==> s[from..to][i - from] in HEX_DIGITS
    {
      HexDigits(s[i]);
    }
    if AllHex(s[from..to]) {
      assert forall i :: from <= i < to ==> IsHex(s[i]);
    }
  }

  lemma UuidIsFiveGroups(s: string)
    ensures IsUuid(s) <==> FiveGroups(s)
  {
    if |s| == 36 {
      assert s[..8] == s[0..8] && s[24..] == s[24..36];
      HexPiece(s, 0, 8);
      HexPiece(s, 9, 13);
      HexPiece(s, 14, 18);
      HexPiece(s, 19, 23);
      HexPiece(s, 24, 36);
    }
  }

  /** ASCII bytes are the characters of those codes; other bytes are read by the platform. */
  lemma TextIs(bytes: seq<Byte>, platform: Platform)
    ensures (forall i :: 0 <= i < |bytes| ==> bytes[i] < 128) ==>
              |TextOf(bytes, platform)| == |bytes| && forall i :: 0 <= i < |bytes| ==> TextOf(bytes, platform)[i] as int == bytes[i]
    ensures (exists i :: 0 <= i < |bytes| && bytes[i] >= 128) ==> TextOf(bytes, platform) == platform.beyondAscii(bytes)
  {
  }

  /** What is read: a timestamp that parses, a bar, and a UUID, in at most 200 digits of the URL's alphabet; and nothing else. */
  lemma {:induction false} AcceptedExactly(raw: string, c: PageCursor, platform: Platform)
    ensures DecodeCursor(raw, platform) == Some(c)
       <==> && 1 <= |raw| <= 200 && (forall i :: 0 <= i < |raw| ==> IsUrlSafe(raw[i]))
            && TextOf(Bytes(SextetsIn(raw)), platform) == c.createdAt + "|" + c.id
            && '|' !in c.createdAt && platform.parses(c.createdAt) && FiveGroups(c.id)
  {
    UuidIsFiveGroups(c.id);
    if forall i :: 0 <= i < |raw| ==> IsUrlSafe(raw[i]) {
      assert raw != [] ==> Base64UrlDecode(raw) == Some(Bytes(SextetsIn(raw)));
      ReadExactly(TextOf(Bytes(SextetsIn(raw)), platform), c, platform);
    } else {
      assert Base64UrlDecode(raw) == None;
    }
  }

  lemma {:induction false} ReadExactly(text: string, c: PageCursor, platform: Platform)
    ensures ReadCursor(text, platform) == Some(c)
       <==> text == c.createdAt + "|" + c.id && '|' !in c.createdAt && platform.parses(c.createdAt) && IsUuid(c.id)
  {
    var k := Separator(text);
    if ReadCursor(text, platform) == Some(c) {
      assert text == text[..k] + [text[k]] + text[k + 1..];
    }
    if text == c.createdAt + "|" + c.id && '|' !in c.createdAt {
      SeparatorIs(c.createdAt, c.id);
      assert text[..k] == c.createdAt && text[k + 1..] == c.id;
    }
  }

  lemma TextIsBack(s: string, platform: Platform)
    requires IsAscii(s)
    ensures TextOf(BytesIn(s), platform) == s
  {
  }

  /** How long a text of `n` bytes is, unpadded. */
  lemma {:induction false} EncodedLength(bytes: seq<Byte>)
    ensures |Sextets(bytes)| == (4 * |bytes| + 2) / 3
    decreases |bytes|
  {
    if |bytes| > 2 {
      EncodedLength(bytes[3..]);
    }
  }

  lemma {:induction false} SeparatorBound(s: string, i: nat)
    requires i < |s| && s[i] == '|'
    ensures Separator(s) <= i
  {
    if s[0] != '|' {
      SeparatorBound(s[1..], i - 1);
    }
  }

  lemma {:induction false} SeparatorIs(createdAt: string, id: string)
    ensures var k := Separator(createdAt + "|" + id); k <= |createdAt| && (k == |createdAt| <==> '|' !in createdAt)
  {
    var text := createdAt + "|" + id;
    SeparatorBound(text, |createdAt|);
    var k := Separator(text);
    if k < |createdAt| {
      assert createdAt[k] == '|';
    } else {
      assert text[..k] == createdAt;
    }
  }

  lemma TextLength(bytes: seq<Byte>)
    ensures |Base64UrlEncode(bytes)| == (4 * |bytes| + 2) / 3
  {
    EncodeIs(bytes);
    EncodedLength(bytes);
  }

  lemma DecodedText(c: PageCursor, platform: Platform)
    requires IsAscii(c.createdAt) && IsAscii(c.id)
    ensures var text := c.createdAt + "|" + c.id;
            DecodeCursor(EncodeCursor(c), platform) == if |text| <= 150 then ReadCursor(text, platform) else None
  {
    var text := c.createdAt + "|" + c.id;
    BytesRoundTrip(BytesIn(text));
    TextLength(BytesIn(text));
    TextIsBack(text, platform);
  }

  lemma ReadBack(c: PageCursor, platform: Platform)
    ensures ReadCursor(c.createdAt + "|" + c.id, platform) == Some(c)
       <==> platform.parses(c.createdAt) && '|' !in c.createdAt && IsUuid(c.id)
  {
    var text := c.createdAt + "|" + c.id;
    SeparatorIs(c.createdAt, c.id);
    assert text[..|c.createdAt|] == c.createdAt && text[|c.createdAt| + 1..] == c.id;
  }

  /**
   An ASCII cursor comes back from its text exactly when its timestamp parses and holds no `|`, its id is a
   UUID, and the two with the separator fit in the 150 bytes that 200 characters carry.
   */
  lemma CursorRoundTripExactly(c: PageCursor, platform: Platform)
    requires IsAscii(c.createdAt) && IsAscii(c.id)
    ensures DecodeCursor(EncodeCursor(c), platform) == Some(c) <==>
            platform.parses(c.createdAt) && '|' !in c.createdAt && IsUuid(c.id) && |c.createdAt| + 1 + |c.id| <= 150
  {
    DecodedText(c, platform);
    ReadBack(c, platform);
  }

  // ---- what else decodes ----

  predicate AsciiBytes(bytes: seq<Byte>) {
    forall i :: 0 <= i < |bytes| ==> bytes[i] < 128
  }

  /** Whether a text is that of some cursor; a timestamp and a UUID are ASCII. */
  ghost predicate Written(raw: string) {
    exists c: PageCursor :: IsAscii(c.createdAt) && IsAscii(c.id) && EncodeCursor(c) == raw
  }

  /** What is read back, written again, has the bytes that were read. */
  lemma ReadIsText(bytes: seq<Byte>, platform: Platform)
    requires AsciiBytes(bytes) && ReadCursor(TextOf(bytes, platform), platform).Some?
    ensures var c := ReadCursor(TextOf(bytes, platform), platform).value;
            IsAscii(c.createdAt) && IsAscii(c.id) && BytesIn(c.createdAt + "|" + c.id) == bytes
  {
    var text := TextOf(bytes, platform);
    var c := ReadCursor(text, platform).value;
    assert c.createdAt + "|" + c.id == text;
    assert forall i :: 0 <= i < |c.createdAt| ==> c.createdAt[i] == text[i];
    assert forall i :: 0 <= i < |c.id| ==> c.id[i] == text[|c.createdAt| + 1 + i];
  }

  /** For a text of ASCII bytes: writing what was read gives it back if and only if it is canonical. */
  lemma RereadExactly(raw: string, platform: Platform)
    requires DecodeCursor(raw, platform).Some? && AsciiBytes(Bytes(SextetsIn(raw)))
    ensures var c := DecodeCursor(raw, platform).value;
            IsAscii(c.createdAt) && IsAscii(c.id) && (EncodeCursor(c) == raw <==> Canonical(SextetsIn(raw)))
  {
    TextRoundTripExactly(raw);
    ReadIsText(Bytes(SextetsIn(raw)), platform);
  }

  lemma WrittenIsCanonical(c: PageCursor, raw: string)
    requires IsAscii(c.createdAt) && IsAscii(c.id) && EncodeCursor(c) == raw && Base64UrlDecode(raw).Some?
    ensures Canonical(SextetsIn(raw)) && AsciiBytes(Bytes(SextetsIn(raw)))
  {
    var bytes := BytesIn(c.createdAt + "|" + c.id);
    BytesRoundTrip(bytes);
    TextRoundTripExactly(raw);
    assert Bytes(SextetsIn(raw)) == bytes;
  }

  /**
   An accepted text is one a cursor encodes to, and then that of the cursor it is read as, if and only if
   it is canonical and its bytes are ASCII.
   */
  lemma WrittenExactly(raw: string, platform: Platform)
    requires DecodeCursor(raw, platform).Some?
    ensures Written(raw) <==> Canonical(SextetsIn(raw)) && AsciiBytes(Bytes(SextetsIn(raw)))
  {
    if Canonical(SextetsIn(raw)) && AsciiBytes(Bytes(SextetsIn(raw))) {
      RereadExactly(raw, platform);
    }
    if Written(raw) {
      var c: PageCursor :| IsAscii(c.createdAt) && IsAscii(c.id) && EncodeCursor(c) == raw;
      WrittenIsCanonical(c, raw);
    }
  }

  /** The next text to a written one: a digit more after whole groups, otherwise a stray bit in the last digit. */
  function OtherText(raw: string): string
    requires forall i :: 0 <= i < |raw| ==> IsUrlSafe(raw[i])
  {
    if |raw| % 4 == 0 then raw + "A"
    else
      var last := SextetOf(raw[|raw| - 1]);
      raw[..|raw| - 1] + [UrlDigit(if last == 63 then 62 else last + 1)]
  }

  lemma {:induction false} LoneDigitIsDropped(sextets: seq<Sextet>, lone: Sextet)
    requires |sextets| % 4 == 0
    ensures Bytes(sextets + [lone]) == Bytes(sextets) && !Canonical(sextets + [lone])
    decreases |sextets|
  {
    if |sextets| >= 4 {
      assert (sextets + [lone])[4..] == sextets[4..] + [lone];
      LoneDigitIsDropped(sextets[4..], lone);
    }
  }

  lemma LoneDigitDecodes(text: string, extra: char)
    requires Base64UrlDecode(text).Some? && IsUrlSafe(extra) && |text| % 4 == 0
    ensures Base64UrlDecode(text + [extra]) == Base64UrlDecode(text)
  {
    assert SextetsIn(text + [extra]) == SextetsIn(text) + [SextetOf(extra)];
    LoneDigitIsDropped(SextetsIn(text), SextetOf(extra));
  }

  /** Behind whole groups any one digit is dropped. */
  lemma LongerTextDecodesToo(raw: string, extra: char, platform: Platform)
    requires IsUrlSafe(extra) && |raw| % 4 == 0 && |raw| < 200 && DecodeCursor(raw, platform).Some?
    ensures DecodeCursor(raw + [extra], platform) == DecodeCursor(raw, platform)
  {
    LoneDigitDecodes(raw, extra);
  }

  /** With a stray bit in the last group. */
  function Stray(sextets: seq<Sextet>): seq<Sextet>
    requires sextets != []
  {
    var last := |sextets| - 1;
    sextets[..last] + [if sextets[last] == 63 then 62 else sextets[last] + 1]
  }

  lemma StrayTail(front: seq<Sextet>, rest: seq<Sextet>)
    requires rest != []
    ensures Stray(front + rest) == front + Stray(rest)
  {
    assert (front + rest)[..|front| + |rest| - 1] == front + rest[..|rest| - 1];
  }

  lemma {:induction false} CanonicalThen(a: Sextet, b: Sextet, c: Sextet, d: Sextet, rest: seq<Sextet>)
    ensures Canonical([a, b, c, d] + rest) == Canonical(rest)
  {
    assert ([a, b, c, d] + rest)[4..] == rest;
  }

  lemma {:induction false} StrayShort(sextets: seq<Sextet>)
    requires Canonical(sextets) && 0 < |sextets| < 4
    ensures Bytes(Stray(sextets)) == Bytes(sextets) && !Canonical(Stray(sextets))
  {
  }

  lemma {:induction false} StrayBitsAreDropped(sextets: seq<Sextet>)
    requires Canonical(sextets) && |sextets| % 4 != 0
    ensures Bytes(Stray(sextets)) == Bytes(sextets) && !Canonical(Stray(sextets))
    decreases |sextets|
  {
    if |sextets| < 4 {
      StrayShort(sextets);
    } else {
      var a, b, c, d, rest := sextets[0], sextets[1], sextets[2], sextets[3], sextets[4..];
      assert sextets == [a, b, c, d] + rest;
      StrayBitsAreDropped(rest);
      StrayTail([a, b, c, d], rest);
      BytesThen(a, b, c, d, rest);
      BytesThen(a, b, c, d, Stray(rest));
      CanonicalThen(a, b, c, d, Stray(rest));
    }
  }

  lemma OtherSextets(raw: string)
    requires raw != [] && forall i :: 0 <= i < |raw| ==> IsUrlSafe(raw[i])
    ensures var other := OtherText(raw);
            && (forall i :: 0 <= i < |other| ==> IsUrlSafe(other[i]))
            && SextetsIn(other) == if |raw| % 4 == 0 then SextetsIn(raw) + [0] else Stray(SextetsIn(raw))
  {
    if |raw| % 4 != 0 {
      DigitInUrl(Stray(SextetsIn(raw))[|raw| - 1]);
    }
  }

  lemma OtherIsAccepted(raw: string) returns (other: string)
    requires Base64UrlDecode(raw).Some? && Canonical(SextetsIn(raw))
    ensures Base64UrlDecode(other) == Base64UrlDecode(raw) && other != raw && !Canonical(SextetsIn(other))
    ensures |other| == |raw| + if |raw| % 4 == 0 then 1 else 0
  {
    OtherSextets(raw);
    other := OtherText(raw);
    if |raw| % 4 == 0 {
      LoneDigitIsDropped(SextetsIn(raw), 0);
    } else {
      StrayBitsAreDropped(SextetsIn(raw));
    }
  }

  /** A text whose decoder differs only in the bytes it is given differs in nothing. */
  lemma SameBytesSameCursor(raw: string, other: string, platform: Platform)
    requires 0 < |raw| <= 200 && 0 < |other| <= 200 && Base64UrlDecode(other) == Base64UrlDecode(raw)
    ensures DecodeCursor(other, platform) == DecodeCursor(raw, platform)
  {
  }

  lemma EncodedIsCanonical(bytes: seq<Byte>)
    requires bytes != []
    ensures var raw := Base64UrlEncode(bytes);
            (forall i :: 0 <= i < |raw| ==> IsUrlSafe(raw[i])) && raw != [] && Canonical(SextetsIn(raw))
  {
    BytesRoundTrip(bytes);
    TextRoundTripExactly(Base64UrlEncode(bytes));
  }

  lemma LenientIsNotWritten(raw: string)
    requires Base64UrlDecode(raw).Some? && !Canonical(SextetsIn(raw))
    ensures !Written(raw)
  {
    if Written(raw) {
      var c: PageCursor :| IsAscii(c.createdAt) && IsAscii(c.id) && EncodeCursor(c) == raw;
      WrittenIsCanonical(c, raw);
    }
  }

  /**
   No cursor short of the full 150 bytes has only one text: next to the one it encodes to, another that no
   cursor encodes to reads as the same cursor. It is a digit longer only where the bytes fill whole groups.
   */
  lemma EveryCursorHasAnotherText(c: PageCursor, platform: Platform) returns (other: string)
    requires IsAscii(c.createdAt) && IsAscii(c.id) && |c.createdAt| + 1 + |c.id| < 150
    requires DecodeCursor(EncodeCursor(c), platform) == Some(c)
    ensures other != EncodeCursor(c) && DecodeCursor(other, platform) == Some(c) && !Written(other)
    ensures |other| == |EncodeCursor(c)| + if |EncodeCursor(c)| % 4 == 0 then 1 else 0
  {
    var bytes := BytesIn(c.createdAt + "|" + c.id);
    TextLength(bytes);
    EncodedIsCanonical(bytes);
    other := OtherIsAccepted(EncodeCursor(c));
    SameBytesSameCursor(EncodeCursor(c), other, platform);
    LenientIsNotWritten(other);
  }

  /** A cursor as the server writes them: 24 characters of `toISOString`, a bar, and a UUID, in 82 digits. */
  const SOME_TIME: string := "2024-05-01T12:00:00.000Z"
  const SOME_ID: string := "3f2504e0-4f89-41d3-9a0c-0305e82c3301"

  lemma SomeIdIsUuid()
    ensures IsUuid(SOME_ID) && IsAscii(SOME_ID)
  {
  }

  lemma SomeTimeIsPlain()
    ensures IsAscii(SOME_TIME) && '|' !in SOME_TIME && |SOME_TIME| == 24
  {
  }

  lemma IsoTextLength(c: PageCursor)
    requires IsAscii(c.createdAt) && IsAscii(c.id) && |c.createdAt| == 24 && |c.id| == 36
    ensures |EncodeCursor(c)| == 82
  {
    TextLength(BytesIn(c.createdAt + "|" + c.id));
  }

  lemma IsoCursorHasAnotherText(c: PageCursor, platform: Platform) returns (other: string)
    requires IsAscii(c.createdAt) && IsAscii(c.id) && |c.createdAt| == 24 && |c.id| == 36
    requires DecodeCursor(EncodeCursor(c), platform) == Some(c)
    ensures |other| == 82 && DecodeCursor(other, platform) == Some(c) && !Written(other)
  {
    other := EveryCursorHasAnotherText(c, platform);
    assert |other| == 82 by { IsoTextLength(c); }
  }

  /** It is also read from a second text of 82 digits, which nothing writes. */
  lemma StrayBitsAreAccepted(platform: Platform) returns (other: string)
    requires platform.parses(SOME_TIME)
    ensures |other| == 82 && DecodeCursor(other, platform) == Some(PageCursor(SOME_TIME, SOME_ID)) && !Written(other)
  {
    SomeIdIsUuid();
    SomeTimeIsPlain();
    CursorRoundTripExactly(PageCursor(SOME_TIME, SOME_ID), platform);
    other := IsoCursorHasAnotherText(PageCursor(SOME_TIME, SOME_ID), platform);
  }
}
