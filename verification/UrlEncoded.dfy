/** application/x-www-form-urlencoded (sections 5.1, 5.2 and 6.2 of the WHATWG URL Standard). */
module UrlEncoded {
  import opened Sequences
  import opened Wrappers

  type Byte = b: int | 0 <= b < 256

  // ----- UTF-8 -----

  const REPLACEMENT: char := '\U{FFFD}'

  function EncodeChar(c: char): (bs: seq<Byte>)
    ensures bs != []
  {
    var n := c as int;
    if n < 0x80 then [n]
    else if n < 0x800 then [0xC0 + n / 64, 0x80 + n % 64]
    else if n < 0x1_0000 then [0xE0 + n / 4096, 0x80 + n / 64 % 64, 0x80 + n % 64]
    else [0xF0 + n / 262144, 0x80 + n / 4096 % 64, 0x80 + n / 64 % 64, 0x80 + n % 64]
  }

  predicate Within(bs: seq<Byte>, i: nat, lower: int, upper: int) {
    i < |bs| && lower <= bs[i] <= upper
  }

  /** A trail byte in its usual range. */
  predicate Trail(bs: seq<Byte>, i: nat) {
    Within(bs, i, 0x80, 0xBF)
  }

  /** The scalar value of a lead byte's bits followed by up to three trail bytes. */
  function Scalar(lead: int, t1: int, t2: int, t3: int): int {
    ((lead * 64 + t1) * 64 + t2) * 64 + t3
  }

  /** How many bytes the decoder takes at the start of bs, and the character they make (or U+FFFD). */
  function DecodeChar(bs: seq<Byte>): (r: (nat, char))
    requires bs != []
    ensures 1 <= r.0 <= |bs|
  {
    var b: int := bs[0];
    if b < 0x80 then (1, b as char)
    else if 0xC2 <= b <= 0xDF then
      if !Trail(bs, 1) then (1, REPLACEMENT)
      else (2, Scalar(0, 0, b - 0xC0, bs[1] as int - 0x80) as char)
    else if 0xE0 <= b <= 0xEF then
      if !Within(bs, 1, if b == 0xE0 then 0xA0 else 0x80, if b == 0xED then 0x9F else 0xBF) then (1, REPLACEMENT)
      else if !Trail(bs, 2) then (2, REPLACEMENT)
      else (3, Scalar(0, b - 0xE0, bs[1] as int - 0x80, bs[2] as int - 0x80) as char)
    else if 0xF0 <= b <= 0xF4 then
      if !Within(bs, 1, if b == 0xF0 then 0x90 else 0x80, if b == 0xF4 then 0x8F else 0xBF) then (1, REPLACEMENT)
      else if !Trail(bs, 2) then (2, REPLACEMENT)
      else if !Trail(bs, 3) then (3, REPLACEMENT)
      else (4, Scalar(b - 0xF0, bs[1] as int - 0x80, bs[2] as int - 0x80, bs[3] as int - 0x80) as char)
    else (1, REPLACEMENT)
  }

  function Utf8(s: string): seq<Byte> {
    if s == "" then [] else EncodeChar(s[0]) + Utf8(s[1..])
  }

  function FromUtf8(bs: seq<Byte>): string {
    if bs == [] then "" else var (n, c) := DecodeChar(bs); [c] + FromUtf8(bs[n..])
  }

  /** A code point is made of its base-64 digits. */
  lemma Digits(n: nat)
    ensures n == Scalar(n / 262144, n / 4096 % 64, n / 64 % 64, n % 64)
  {
  }

  /** The bits of the code point, as the lead byte and the trail bytes carry them (section 3 of RFC 3629). */
  ghost predicate Carries(bs: seq<Byte>, n: int) {
    && (forall i :: 1 <= i < |bs| ==> 0x80 <= bs[i] <= 0xBF)
    && match |bs|
       case 1 => n == bs[0] && n <= 0x7F
       case 2 =>
         0x80 <= n <= 0x7FF && 0xC0 <= bs[0] <= 0xDF
         && n == (bs[0] as int - 0xC0) * 64 + (bs[1] as int - 0x80)
       case 3 =>
         0x800 <= n <= 0xFFFF && 0xE0 <= bs[0] <= 0xEF
         && n == (bs[0] as int - 0xE0) * 4096 + (bs[1] as int - 0x80) * 64 + (bs[2] as int - 0x80)
       case 4 =>
         0x1_0000 <= n && 0xF0 <= bs[0] <= 0xF7
         && n == (bs[0] as int - 0xF0) * 262144 + (bs[1] as int - 0x80) * 4096 + (bs[2] as int - 0x80) * 64
                 + (bs[3] as int - 0x80)
       case _ => false
  }

  lemma ThreeCarry(n: int)
    requires 0x800 <= n <= 0xFFFF
    ensures Carries([0xE0 + n / 4096, 0x80 + n / 64 % 64, 0x80 + n % 64], n)
  {
  }

  lemma FourCarry(n: int)
    requires 0x1_0000 <= n < 0x11_0000
    ensures Carries([0xF0 + n / 262144, 0x80 + n / 4096 % 64, 0x80 + n / 64 % 64, 0x80 + n % 64], n)
  {
    Digits(n);
  }

  lemma TwoCarry(n: int)
    requires 0x80 <= n <= 0x7FF
    ensures Carries([0xC0 + n / 64, 0x80 + n % 64], n)
  {
  }

  lemma OneCarries(n: int)
    requires 0 <= n < 0x80
    ensures Carries([n], n)
  {
  }

  lemma Utf8Shape(c: char)
    ensures Carries(EncodeChar(c), c as int)
  {
    hide Carries;
    var n := c as int;
    if n < 0x80 {
      OneCarries(n);
    } else if n < 0x800 {
      TwoCarry(n);
    } else if n < 0x1_0000 {
      ThreeCarry(n);
    } else {
      FourCarry(n);
    }
  }

  lemma TwoBytes(n: int, bs: seq<Byte>)
    requires 0x80 <= n < 0x800 && |bs| >= 2 && bs[..2] == [0xC0 + n / 64, 0x80 + n % 64]
    ensures DecodeChar(bs) == (2, n as char)
  {
  }

  lemma ThreeBytes(n: int, bs: seq<Byte>)
    requires 0x800 <= n < 0xD800 || 0xE000 <= n < 0x1_0000
    requires |bs| >= 3 && bs[..3] == [0xE0 + n / 4096, 0x80 + n / 64 % 64, 0x80 + n % 64]
    ensures DecodeChar(bs) == (3, n as char)
  {
  }

  lemma FourBytes(n: int, bs: seq<Byte>)
    requires 0x1_0000 <= n < 0x11_0000
    requires |bs| >= 4
      && bs[..4] == [0xF0 + n / 262144, 0x80 + n / 4096 % 64, 0x80 + n / 64 % 64, 0x80 + n % 64]
    ensures DecodeChar(bs) == (4, n as char)
  {
    assert bs[0] == bs[..4][0] && bs[1] == bs[..4][1] && bs[2] == bs[..4][2] && bs[3] == bs[..4][3];
    Digits(n);
  }

  lemma OneByte(n: int, bs: seq<Byte>)
    requires 0 <= n < 0x80 && bs != [] && bs[0] == n
    ensures DecodeChar(bs) == (1, n as char)
  {
  }

  lemma CharRoundTrip(c: char, rest: seq<Byte>)
    ensures DecodeChar(EncodeChar(c) + rest) == (|EncodeChar(c)|, c)
  {
    var n, bs := c as int, EncodeChar(c) + rest;
    assert bs[..|EncodeChar(c)|] == EncodeChar(c);
    hide DecodeChar;
    if n < 0x80 {
      OneByte(n, bs);
    } else if n < 0x800 {
      TwoBytes(n, bs);
    } else if n < 0x1_0000 {
      ThreeBytes(n, bs);
    } else {
      FourBytes(n, bs);
    }
  }

  lemma {:induction false} Utf8RoundTrip(s: string)
    ensures FromUtf8(Utf8(s)) == s
  {
    if s != "" {
      var rest := Utf8(s[1..]);
      CharRoundTrip(s[0], rest);
      assert (EncodeChar(s[0]) + rest)[|EncodeChar(s[0])|..] == rest;
      Utf8RoundTrip(s[1..]);
    }
  }

  // ----- percent-encoding -----

  /** Bytes the serialiser leaves as they are: letters, digits, and four marks. */
  predicate Plain(b: int) {
    || 0x30 <= b <= 0x39 || 0x41 <= b <= 0x5A || 0x61 <= b <= 0x7A
    || b == 0x2A || b == 0x2D || b == 0x2E || b == 0x5F
  }

  function HexDigit(n: int): char
    requires 0 <= n < 16
  {
    if n < 10 then '0' + n as char else 'A' + (n - 10) as char
  }

  function HexValue(c: char): Option<int> {
    if '0' <= c <= '9' then Some(c as int - '0' as int)
    else if 'A' <= c <= 'F' then Some(c as int - 'A' as int + 10)
    else if 'a' <= c <= 'f' then Some(c as int - 'a' as int + 10)
    else None
  }

  function EncodeByte(b: Byte): string {
    if b == 0x20 then "+"
    else if Plain(b) then [b as char]
    else ['%', HexDigit(b / 16), HexDigit(b % 16)]
  }

  function EncodeBytes(bs: seq<Byte>): string {
    if bs == [] then "" else EncodeByte(bs[0]) + EncodeBytes(bs[1..])
  }

  /** Plus reads as a space, %XY as a byte, any other character as its UTF-8 bytes. */
  function DecodeBytes(s: string): seq<Byte> {
    if s == "" then []
    else if s[0] == '+' then [0x20] + DecodeBytes(s[1..])
    else if s[0] == '%' && |s| >= 3 && HexValue(s[1]).Some? && HexValue(s[2]).Some? then
      [HexValue(s[1]).value * 16 + HexValue(s[2]).value] + DecodeBytes(s[3..])
    else EncodeChar(s[0]) + DecodeBytes(s[1..])
  }

  /** A hexadecimal digit, in either case. */
  predicate HexChar(c: char, n: int) {
    0 <= n < 16 && (c == "0123456789ABCDEF"[n] || c == "0123456789abcdef"[n])
  }

  lemma HexIs(c: char, n: int)
    ensures HexChar(c, n) <==> HexValue(c) == Some(n)
  {
  }

  /** A plus decodes as a space, and any character but it and the percent sign as itself. */
  lemma DecodedPlain(c: char, rest: string)
    ensures DecodeBytes("") == [] && DecodeBytes("+" + rest) == [0x20] + DecodeBytes(rest)
    ensures c != '+' && c != '%' ==> DecodeBytes([c] + rest) == EncodeChar(c) + DecodeBytes(rest)
  {
    hide EncodeChar, HexValue;
    assert ("+" + rest)[1..] == rest && ([c] + rest)[1..] == rest;
  }

  /** A percent sign with two hexadecimal digits decodes as that byte. */
  lemma DecodedPercent(h: char, l: char, i: int, j: int, rest: string)
    requires HexChar(h, i) && HexChar(l, j)
    ensures DecodeBytes(['%', h, l] + rest) == [16 * i + j] + DecodeBytes(rest)
  {
    hide EncodeChar, HexValue, HexChar;
    HexIs(h, i);
    HexIs(l, j);
    assert (['%', h, l] + rest)[3..] == rest;
  }

  /** A percent sign without them decodes as itself. */
  lemma DecodedStray(rest: string)
    requires |rest| < 2 || (forall n :: !HexChar(rest[0], n)) || (forall n :: !HexChar(rest[1], n))
    ensures DecodeBytes("%" + rest) == [0x25] + DecodeBytes(rest)
  {
    hide HexValue, HexChar;
    var s := "%" + rest;
    assert s[1..] == rest && EncodeChar('%') == [0x25];
    if |rest| >= 2 {
      assert s[1] == rest[0] && s[2] == rest[1];
      if HexValue(rest[0]).Some? && HexValue(rest[1]).Some? {
        HexIs(rest[0], HexValue(rest[0]).value);
        HexIs(rest[1], HexValue(rest[1]).value);
      }
    }
  }

  lemma ByteRoundTrip(b: Byte, rest: string)
    ensures DecodeBytes(EncodeByte(b) + rest) == [b] + DecodeBytes(rest)
  {
    var s := EncodeByte(b) + rest;
    if b == 0x20 || Plain(b) {
      assert s[1..] == rest;
    } else {
      assert s[3..] == rest;
    }
  }

  lemma {:induction false} BytesRoundTrip(bs: seq<Byte>)
    ensures DecodeBytes(EncodeBytes(bs)) == bs
  {
    if bs != [] {
      ByteRoundTrip(bs[0], EncodeBytes(bs[1..]));
      BytesRoundTrip(bs[1..]);
    }
  }

  /** What separates pairs and names never appears in encoded text. */
  lemma {:induction false} EncodedIsClean(bs: seq<Byte>)
    ensures '&' !in EncodeBytes(bs) && '=' !in EncodeBytes(bs) && '?' !in EncodeBytes(bs)
  {
    if bs != [] {
      EncodedIsClean(bs[1..]);
    }
  }

  function Encode(s: string): string {
    EncodeBytes(Utf8(s))
  }

  function Decode(s: string): string {
    FromUtf8(DecodeBytes(s))
  }

  lemma TextRoundTrip(s: string)
    ensures Decode(Encode(s)) == s
  {
    BytesRoundTrip(Utf8(s));
    Utf8RoundTrip(s);
  }

  /** Letters, digits and four marks. */
  predicate Unreserved(c: char) {
    'a' <= c <= 'z' || 'A' <= c <= 'Z' || '0' <= c <= '9' || c == '*' || c == '-' || c == '.' || c == '_'
  }

  lemma PlainIs(c: char)
    ensures Plain(c as int) <==> Unreserved(c)
  {
  }

  /** The serialiser leaves these as they are, and writes a space as a plus. */
  lemma EncodedPlain(c: char)
    requires Unreserved(c) || c == ' '
    ensures Encode([c]) == if c == ' ' then "+" else [c]
  {
    hide Plain;
    PlainIs(c);
    assert Utf8([c]) == [c as int] by { assert [c][1..] == ""; }
    assert EncodeBytes([c as int]) == EncodeByte(c as int) + EncodeBytes([c as int][1..]);
  }

  /** A percent sign and two upper-case hexadecimal digits. */
  ghost predicate Percent(text: string, b: Byte) {
    && |text| == 3 && text[0] == '%'
    && (forall i :: 1 <= i < 3 ==> '0' <= text[i] <= '9' || 'A' <= text[i] <= 'F')
    && HexValue(text[1]).value * 16 + HexValue(text[2]).value == b as int
  }

  lemma PercentIs(b: Byte)
    requires b != 0x20 && !Plain(b)
    ensures Percent(EncodeByte(b), b)
  {
  }

  lemma PercentSize(text: string, b: Byte)
    requires Percent(text, b)
    ensures |text| == 3
  {
  }

  lemma {:induction false} Escaped(bs: seq<Byte>)
    requires forall i :: 0 <= i < |bs| ==> bs[i] != 0x20 && !Plain(bs[i])
    ensures |EncodeBytes(bs)| == 3 * |bs|
    ensures forall i :: 0 <= i < |bs| ==> Percent(EncodeBytes(bs)[3 * i..3 * i + 3], bs[i])
  {
    hide Plain, EncodeByte, Percent;
    if bs != [] {
      PercentIs(bs[0]);
      PercentSize(EncodeByte(bs[0]), bs[0]);
      Escaped(bs[1..]);
      var first, rest := EncodeByte(bs[0]), EncodeBytes(bs[1..]);
      forall i | 0 <= i < |bs| ensures Percent(EncodeBytes(bs)[3 * i..3 * i + 3], bs[i]) {
        if i > 0 {
          assert (first + rest)[3 * i..3 * i + 3] == rest[3 * (i - 1)..3 * (i - 1) + 3];
        } else {
          assert (first + rest)[0..3] == first;
        }
      }
    }
  }

  lemma OtherBytes(c: char)
    requires !Unreserved(c) && c != ' '
    ensures forall i :: 0 <= i < |EncodeChar(c)| ==> EncodeChar(c)[i] != 0x20 && !Plain(EncodeChar(c)[i])
  {
    Utf8Shape(c);
  }

  /** Any other character is written as its UTF-8 bytes, each in that way. */
  lemma EncodedOther(c: char)
    requires !Unreserved(c) && c != ' '
    ensures |Encode([c])| == 3 * |EncodeChar(c)|
    ensures forall i :: 0 <= i < |EncodeChar(c)| ==> Percent(Encode([c])[3 * i..3 * i + 3], EncodeChar(c)[i])
  {
    hide Percent, EncodeBytes, Plain, EncodeChar;
    var bs := EncodeChar(c);
    assert Utf8([c]) == bs by { assert [c][1..] == ""; }
    OtherBytes(c);
    Escaped(bs);
  }

  // ----- lists of pairs -----

  type Params = seq<(string, string)>

  /** Where c first appears in s, or the length of s. */
  function Find(s: string, c: char): (i: nat)
    ensures i <= |s| && (i < |s| ==> s[i] == c) && forall j :: 0 <= j < i ==> s[j] != c
  {
    if s == "" || s[0] == c then 0 else Find(s[1..], c) + 1
  }

  function Before(s: string, c: char): string {
    s[..Find(s, c)]
  }

  function After(s: string, c: char): (t: string)
    ensures |t| <= |s| && (s != "" ==> |t| < |s|)
  {
    var i := Find(s, c);
    if i == |s| then "" else s[i + 1..]
  }

  lemma CutAt(a: string, b: string, c: char)
    requires c !in a
    ensures Before(a + [c] + b, c) == a && After(a + [c] + b, c) == b
  {
    var s := a + [c] + b;
    var i := Find(s, c);
    assert s[|a|] == c && forall j :: 0 <= j < |a| ==> s[j] == a[j];
    assert i == |a|;
    assert s[|a| + 1..] == b;
  }

  lemma NoCut(a: string, c: char)
    requires c !in a
    ensures Before(a, c) == a && After(a, c) == ""
  {
  }

  function SerialisePair(p: (string, string)): string {
    Encode(p.0) + "=" + Encode(p.1)
  }

  /** URLSearchParams.toString (section 5.2). */
  function Serialise(ps: Params): string {
    if ps == [] then ""
    else if |ps| == 1 then SerialisePair(ps[0])
    else SerialisePair(ps[0]) + "&" + Serialise(ps[1..])
  }

  function ParsePair(s: string): (string, string) {
    (Decode(Before(s, '=')), Decode(After(s, '=')))
  }

  /** The form-urlencoded parser (section 5.1): empty pieces between ampersands are skipped. */
  function Parse(s: string): Params
    decreases |s|
  {
    if s == "" then []
    else
      var piece := Before(s, '&');
      (if piece == "" then [] else [ParsePair(piece)]) + Parse(After(s, '&'))
  }

  lemma PairRoundTrip(p: (string, string))
    ensures ParsePair(SerialisePair(p)) == p && '&' !in SerialisePair(p) && SerialisePair(p) != ""
  {
    EncodedIsClean(Utf8(p.0));
    EncodedIsClean(Utf8(p.1));
    CutAt(Encode(p.0), Encode(p.1), '=');
    TextRoundTrip(p.0);
    TextRoundTrip(p.1);
  }

  /** Parsing undoes serialising, for every list of pairs of strings. */
  lemma {:induction false} ParseUndoesSerialise(ps: Params)
    ensures Parse(Serialise(ps)) == ps
  {
    if ps != [] {
      var first := SerialisePair(ps[0]);
      PairRoundTrip(ps[0]);
      if |ps| == 1 {
        NoCut(first, '&');
        assert Parse("") == [];
      } else {
        CutAt(first, Serialise(ps[1..]), '&');
        ParseUndoesSerialise(ps[1..]);
      }
    }
  }

  lemma DecodeNone()
    ensures Decode("") == ""
  {
  }

  lemma ParseStep(s: string)
    requires s != ""
    ensures Parse(s) == (if Before(s, '&') == "" then [] else [ParsePair(Before(s, '&'))]) + Parse(After(s, '&'))
    ensures Parse("") == []
  {
  }

  /** How any text parses: pieces between ampersands one by one. */
  lemma ParsePieces(first: string, rest: string)
    requires '&' !in first
    ensures Parse("") == [] && Parse(first + "&" + rest) == Parse(first) + Parse(rest)
  {
    hide ParsePair, Parse, Before, After;
    CutAt(first, rest, '&');
    NoCut(first, '&');
    ParseStep(first + "&" + rest);
    if first != "" {
      ParseStep(first);
    }
  }

  /** One piece is cut at its first equals sign; without one it is a name with an empty value. */
  lemma ParsePiece(name: string, value: string)
    requires '&' !in name + value && '=' !in name
    ensures Parse(name + "=" + value) == [(Decode(name), Decode(value))]
    ensures name != "" ==> Parse(name) == [(Decode(name), "")]
  {
    hide Decode, Parse;
    var piece := name + "=" + value;
    CutAt(name, value, '=');
    NoCut(name, '=');
    NoCut(piece, '&');
    NoCut(name, '&');
    ParseStep(piece);
    if name != "" {
      ParseStep(name);
    }
    DecodeNone();
  }

  // ----- URLSearchParams.get and set (section 6.2) -----

  function Get(ps: Params, name: string): Option<string> {
    if ps == [] then None else if ps[0].0 == name then Some(ps[0].1) else Get(ps[1..], name)
  }

  function Without(ps: Params, name: string): Params {
    if ps == [] then []
    else (if ps[0].0 == name then [] else [ps[0]]) + Without(ps[1..], name)
  }

  /** The first pair of that name takes the value and later ones go; a new name goes to the end. */
  function Set(ps: Params, name: string, value: string): Params {
    if ps == [] then [(name, value)]
    else if ps[0].0 == name then [(name, value)] + Without(ps[1..], name)
    else [ps[0]] + Set(ps[1..], name, value)
  }

  lemma {:induction false} WithoutTwice(ps: Params, name: string, other: string)
    ensures Without(Without(ps, name), name) == Without(ps, name)
    ensures Get(Without(ps, name), name).None?
    ensures other != name ==> Get(Without(ps, name), other) == Get(ps, other)
    ensures Without(Without(ps, name), other) == Without(Without(ps, other), name)
  {
    if ps != [] {
      WithoutTwice(ps[1..], name, other);
      var a, b := Without(ps[1..], name), Without(ps[1..], other);
      assert ([ps[0]] + a)[1..] == a && ([ps[0]] + b)[1..] == b;
      assert [] + a == a && [] + b == b;
    }
  }

  /** `set` replaces only its own key: it is read back, and all other pairs stay as they were. */
  lemma {:induction false} SetReplaces(ps: Params, name: string, value: string, other: string)
    ensures Get(Set(ps, name, value), name) == Some(value)
    ensures other != name ==> Get(Set(ps, name, value), other) == Get(ps, other)
    ensures Without(Set(ps, name, value), name) == Without(ps, name)
  {
    if ps != [] {
      WithoutTwice(ps[1..], name, other);
      SetReplaces(ps[1..], name, value, other);
      var rest := if ps[0].0 == name then Without(ps[1..], name) else Set(ps[1..], name, value);
      assert ([ps[0]] + rest)[1..] == rest && ([(name, value)] + rest)[1..] == rest;
      assert [] + Without(ps[1..], name) == Without(ps[1..], name);
    }
  }

  lemma {:induction false} WithoutIs(ps: Params, name: string)
    ensures Without(ps, name) == Filter((p: (string, string)) => p.0 != name, ps)
  {
    if ps != [] {
      WithoutIs(ps[1..], name);
    }
  }

  /** `get` reads the first pair of the name. */
  lemma {:induction false} FirstOfName(before: Params, was: string, after: Params, name: string)
    requires forall p :: p in before ==> p.0 != name
    ensures Get(before, name) == None && Get(before + [(name, was)] + after, name) == Some(was)
  {
    var all := before + [(name, was)] + after;
    if before != [] {
      FirstOfName(before[1..], was, after, name);
      assert before[0] in before && all[0] == before[0] && all[1..] == before[1..] + [(name, was)] + after;
    }
  }

  /** `set` puts the value in its place and drops the later ones. */
  lemma {:induction false} SetInPlace(before: Params, was: string, after: Params, name: string, value: string)
    requires forall p :: p in before ==> p.0 != name
    ensures Set(before + [(name, was)] + after, name, value) ==
      before + ([(name, value)] + Filter((p: (string, string)) => p.0 != name, after))
  {
    var all := before + [(name, was)] + after;
    WithoutIs(after, name);
    if before == [] {
      assert all[0] == (name, was) && all[1..] == after;
    } else {
      SetInPlace(before[1..], was, after, name, value);
      assert before[0] in before && all[0] == before[0] && all[1..] == before[1..] + [(name, was)] + after;
    }
  }

  /** A new name goes to the end. */
  lemma {:induction false} SetAtEnd(before: Params, name: string, value: string)
    requires forall p :: p in before ==> p.0 != name
    ensures Set(before, name, value) == before + [(name, value)]
  {
    if before != [] {
      SetAtEnd(before[1..], name, value);
      assert before[0] in before;
    }
  }
}
