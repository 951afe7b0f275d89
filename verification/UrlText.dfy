// application/x-www-form-urlencoded texts, as URLSearchParams reads and writes them. A text is a
// sequence of Unicode scalar values.
module UrlText {
  import opened Tables
  import opened Texts

  type Byte = b: int | 0 <= b < 256

  const REPLACEMENT: char := '\U{FFFD}'

  // ---- UTF-8 ----

  predicate IsScalar(n: int) { 0 <= n < 0xD800 || 0xE000 <= n < 0x110000 }

  function EncodeChar(c: char): (bytes: seq<Byte>)
    ensures 1 <= |bytes| <= 4
  {
    var n := c as int;
    if n < 0x80 then [n]
    else if n < 0x800 then [0xC0 + n / 64, 0x80 + n % 64]
    else if n < 0x10000 then [0xE0 + n / 4096, 0x80 + n / 64 % 64, 0x80 + n % 64]
    else [0xF0 + n / 262144, 0x80 + n / 4096 % 64, 0x80 + n / 64 % 64, 0x80 + n % 64]
  }

  function EncodeUtf8(s: string): seq<Byte> {
    if s == "" then [] else EncodeChar(s[0]) + EncodeUtf8(s[1..])
  }

  predicate Continues(bytes: seq<Byte>, k: nat) { k < |bytes| && 0x80 <= bytes[k] <= 0xBF }

  // The second byte of a sequence led by this one lies between these bounds.
  function Lower(lead: Byte): Byte { if lead == 0xE0 then 0xA0 else if lead == 0xF0 then 0x90 else 0x80 }
  function Upper(lead: Byte): Byte { if lead == 0xED then 0x9F else if lead == 0xF4 then 0x8F else 0xBF }

  function LengthFrom(lead: Byte): nat {
    if lead < 0x80 then 1 else if 0xC2 <= lead <= 0xDF then 2
    else if 0xE0 <= lead <= 0xEF then 3 else if 0xF0 <= lead <= 0xF4 then 4 else 0
  }

  // How many bytes of a sequence are as they should be; at least its lead byte.
  function GoodBytes(bytes: seq<Byte>): (n: nat)
    requires bytes != []
    ensures 1 <= n <= |bytes|
    ensures n <= 4
  {
    var lead := bytes[0];
    if LengthFrom(lead) < 2 || |bytes| == 1 || !(Lower(lead) <= bytes[1] <= Upper(lead)) then 1
    else if LengthFrom(lead) == 2 || !Continues(bytes, 2) then 2
    else if LengthFrom(lead) == 3 || !Continues(bytes, 3) then 3
    else 4
  }

  // The six bits of a continuation byte.
  function Tail(b: Byte): int { b - 0x80 }

  function CharFrom(bytes: seq<Byte>): char
    requires bytes != []
  {
    var lead, good := bytes[0], GoodBytes(bytes);
    if LengthFrom(lead) != good then REPLACEMENT
    else
      var l, k: int := lead, good;
      var n := if k == 1 then l
        else if k == 2 then (l - 0xC0) * 64 + Tail(bytes[1])
        else if k == 3 then (l - 0xE0) * 4096 + Tail(bytes[1]) * 64 + Tail(bytes[2])
        else (l - 0xF0) * 262144 + Tail(bytes[1]) * 4096 + Tail(bytes[2]) * 64 + Tail(bytes[3]);
      if IsScalar(n) then n as char else REPLACEMENT
  }

  // Each longest run of bytes that starts a sequence but does not complete it becomes one U+FFFD.
  function DecodeUtf8(bytes: seq<Byte>): string {
    if bytes == [] then "" else [CharFrom(bytes)] + DecodeUtf8(bytes[GoodBytes(bytes)..])
  }

  lemma CharRoundTrip(c: char, rest: seq<Byte>)
    ensures var bytes := EncodeChar(c) + rest;
      GoodBytes(bytes) == |EncodeChar(c)| && CharFrom(bytes) == c
  {
    var n := c as int;
    var e, bytes := EncodeChar(c), EncodeChar(c) + rest;
    assert forall k :: 0 <= k < |e| ==> bytes[k] == e[k];
    if n < 0x80 {
    } else if n < 0x800 {
      assert 0xC2 <= bytes[0] <= 0xDF;
    } else if n < 0x10000 {
      assert 0xE0 <= bytes[0] <= 0xEF;
      assert n / 4096 * 4096 + n / 64 % 64 * 64 + n % 64 == n by { assert n / 4096 == n / 64 / 64; }
    } else {
      assert 0xF0 <= bytes[0] <= 0xF4;
      assert n / 262144 * 262144 + n / 4096 % 64 * 4096 + n / 64 % 64 * 64 + n % 64 == n by {
        assert n / 4096 == n / 64 / 64 && n / 262144 == n / 4096 / 64;
      }
    }
  }

  lemma {:induction false} Utf8RoundTrip(s: string)
    ensures DecodeUtf8(EncodeUtf8(s)) == s
  {
    if s != "" {
      var rest := EncodeUtf8(s[1..]);
      CharRoundTrip(s[0], rest);
      assert (EncodeChar(s[0]) + rest)[|EncodeChar(s[0])|..] == rest;
      Utf8RoundTrip(s[1..]);
    }
  }

  // ---- Percent escapes ----

  predicate IsPlainByte(b: Byte) {
    48 <= b <= 57 || 65 <= b <= 90 || 97 <= b <= 122 || b == 42 || b == 45 || b == 46 || b == 95
  }

  function HexChar(d: int): char
    requires 0 <= d < 16
  {
    if d < 10 then '0' + d as char else 'A' + (d - 10) as char
  }

  function HexValue(c: char): (d: int)
    ensures -1 <= d < 16
  {
    if '0' <= c <= '9' then (c - '0') as int
    else if 'a' <= c <= 'f' then (c - 'a') as int + 10
    else if 'A' <= c <= 'F' then (c - 'A') as int + 10
    else -1
  }

  function EscapeByte(b: Byte): (text: string)
    ensures 1 <= |text| <= 3
  {
    if IsPlainByte(b) then [b as char] else if b == 32 then "+" else ['%', HexChar(b / 16), HexChar(b % 16)]
  }

  function EscapeBytes(bytes: seq<Byte>): string {
    if bytes == [] then "" else EscapeByte(bytes[0]) + EscapeBytes(bytes[1..])
  }

  function Escape(s: string): string { EscapeBytes(EncodeUtf8(s)) }

  function UnescapeBytes(text: string): seq<Byte> {
    if text == "" then []
    else if text[0] == '%' && |text| > 2 && HexValue(text[1]) >= 0 && HexValue(text[2]) >= 0 then
      [HexValue(text[1]) * 16 + HexValue(text[2])] + UnescapeBytes(text[3..])
    else if text[0] == '+' then [32] + UnescapeBytes(text[1..])
    else EncodeChar(text[0]) + UnescapeBytes(text[1..])
  }

  function Unescape(text: string): string { DecodeUtf8(UnescapeBytes(text)) }

  lemma ByteRoundTrip(b: Byte, rest: string)
    ensures UnescapeBytes(EscapeByte(b) + rest) == [b] + UnescapeBytes(rest)
  {
    var e, text := EscapeByte(b), EscapeByte(b) + rest;
    assert forall k :: 0 <= k < |e| ==> text[k] == e[k];
    assert text[|e|..] == rest;
    if !IsPlainByte(b) && b != 32 { assert HexValue(HexChar(b / 16)) == b / 16 && HexValue(HexChar(b % 16)) == b % 16; }
  }

  lemma {:induction false} BytesRoundTrip(bytes: seq<Byte>)
    ensures UnescapeBytes(EscapeBytes(bytes)) == bytes
  {
    if bytes != [] {
      ByteRoundTrip(bytes[0], EscapeBytes(bytes[1..]));
      BytesRoundTrip(bytes[1..]);
    }
  }

  lemma EscapeRoundTrip(s: string)
    ensures Unescape(Escape(s)) == s
  {
    BytesRoundTrip(EncodeUtf8(s));
    Utf8RoundTrip(s);
  }

  // Escaped text consists of letters, digits and * - . _ + %.
  predicate IsEscapedChar(c: char) {
    '0' <= c <= '9' || 'A' <= c <= 'Z' || 'a' <= c <= 'z' || c == '*' || c == '-' || c == '.' || c == '_' || c == '+' ||
      c == '%'
  }

  lemma {:induction false} EscapedChars(bytes: seq<Byte>)
    ensures forall i :: 0 <= i < |EscapeBytes(bytes)| ==> IsEscapedChar(EscapeBytes(bytes)[i])
  {
    if bytes != [] { EscapedChars(bytes[1..]); }
  }

  // ---- Lengths ----

  // String.length counts UTF-16 code units.
  function Units(s: string): nat { if s == "" then 0 else (if s[0] as int >= 0x10000 then 2 else 1) + Units(s[1..]) }

  lemma {:induction false} EscapeLength(s: string)
    ensures |Escape(s)| <= 9 * Units(s)
  {
    if s != "" {
      EscapeLength(s[1..]);
      EscapeBytesAdd(EncodeChar(s[0]), EncodeUtf8(s[1..]));
      EscapeBytesLength(EncodeChar(s[0]));
    }
  }

  lemma {:induction false} EscapeBytesLength(bytes: seq<Byte>)
    ensures |EscapeBytes(bytes)| <= 3 * |bytes|
  {
    if bytes != [] { EscapeBytesLength(bytes[1..]); }
  }

  lemma {:induction false} EscapeBytesAdd(a: seq<Byte>, b: seq<Byte>)
    ensures EscapeBytes(a + b) == EscapeBytes(a) + EscapeBytes(b)
  {
    if a == [] {
      assert a + b == b;
    } else {
      assert (a + b)[1..] == a[1..] + b;
      EscapeBytesAdd(a[1..], b);
    }
  }

  // An escaped text has as many units as characters.
  lemma {:induction false} PlainUnits(s: string)
    requires forall i :: 0 <= i < |s| ==> s[i] as int < 0x10000
    ensures Units(s) == |s|
  {
    if s != "" { PlainUnits(s[1..]); }
  }

  // ---- Queries ----

  datatype Param = Param(name: string, value: string)

  function Serialize(params: seq<Param>): string { Join(Pairs(params), '&') }

  function Pairs(params: seq<Param>): (pairs: seq<string>)
    ensures |pairs| == |params|
    ensures forall i :: 0 <= i < |params| ==> pairs[i] == PairText(params[i])
  {
    seq(|params|, i requires 0 <= i < |params| => PairText(params[i]))
  }

  function PairText(p: Param): string { Escape(p.name) + "=" + Escape(p.value) }

  // Everything before the first =, and everything after it.
  function ParsePair(pair: string): Param {
    var at := IndexOf(pair, '=');
    Param(Unescape(pair[..at]), if at < |pair| then Unescape(pair[at + 1..]) else "")
  }

  // The first position of c, or the length.
  function IndexOf(s: string, c: char): (at: nat)
    ensures at <= |s|
    ensures forall i :: 0 <= i < at ==> s[i] != c
    ensures at < |s| ==> s[at] == c
  {
    if s == "" || s[0] == c then 0 else 1 + IndexOf(s[1..], c)
  }

  function ParsePairs(pairs: seq<string>): seq<Param> {
    if pairs == [] then []
    else (if pairs[0] == "" then [] else [ParsePair(pairs[0])]) + ParsePairs(pairs[1..])
  }

  // new URLSearchParams(query), which drops one leading question mark.
  function ParseQuery(query: string): seq<Param> { ParsePairs(Split(WithoutMark(query), '&')) }

  function WithoutMark(query: string): string { if query != "" && query[0] == '?' then query[1..] else query }

  // params.get(name)
  function Get(params: seq<Param>, name: string): Option<string> {
    if params == [] then None
    else if params[0].name == name then Some(params[0].value)
    else Get(params[1..], name)
  }

  lemma EscapeFree(s: string, c: char)
    requires !IsEscapedChar(c)
    ensures Free(Escape(s), c)
  {
    EscapedChars(EncodeUtf8(s));
  }

  lemma PairRoundTrip(p: Param)
    ensures ParsePair(PairText(p)) == p && Free(PairText(p), '&') && PairText(p) != ""
  {
    EscapeFree(p.name, '=');
    EscapeFree(p.name, '&');
    EscapeFree(p.value, '&');
    var text, at := PairText(p), |Escape(p.name)|;
    assert text[at] == '=';
    assert IndexOf(text, '=') == at;
    assert text[..at] == Escape(p.name) && text[at + 1..] == Escape(p.value);
    EscapeRoundTrip(p.name);
    EscapeRoundTrip(p.value);
  }

  lemma {:induction false} ParseTexts(params: seq<Param>)
    ensures ParsePairs(Pairs(params)) == params
  {
    if params != [] {
      PairRoundTrip(params[0]);
      assert Pairs(params)[1..] == Pairs(params[1..]);
      ParseTexts(params[1..]);
    }
  }

  predicate IsQueryChar(c: char) { IsEscapedChar(c) || c == '=' || c == '&' }

  lemma PairChars(p: Param)
    ensures forall i :: 0 <= i < |PairText(p)| ==> IsQueryChar(PairText(p)[i])
  {
    EscapedChars(EncodeUtf8(p.name));
    EscapedChars(EncodeUtf8(p.value));
  }

  lemma {:induction false} SerializedChars(params: seq<Param>)
    ensures forall i :: 0 <= i < |Serialize(params)| ==> IsQueryChar(Serialize(params)[i])
  {
    if params != [] {
      var n := |params| - 1;
      PairChars(params[n]);
      SerializedChars(params[..n]);
      assert Pairs(params)[..n] == Pairs(params[..n]);
      assert n > 0 ==> Serialize(params) == Serialize(params[..n]) + "&" + PairText(params[n]);
      assert n == 0 ==> Serialize(params) == PairText(params[0]);
    }
  }

  lemma SerializedSplits(params: seq<Param>)
    requires params != []
    ensures Split(Serialize(params), '&') == Pairs(params)
  {
    forall i | 0 <= i < |params| ensures Free(Pairs(params)[i], '&') { PairRoundTrip(params[i]); }
    SplitJoin(Pairs(params), '&');
  }

  lemma NoMark(params: seq<Param>)
    ensures WithoutMark(Serialize(params)) == Serialize(params)
  {
    SerializedChars(params);
  }

  // Parsing undoes serializing.
  lemma QueryRoundTrip(params: seq<Param>)
    ensures ParseQuery(Serialize(params)) == params
  {
    NoMark(params);
    if params == [] {
      assert Split("", '&') == [""];
      assert ParsePairs([""]) == ParsePairs([]) == [];
    } else {
      SerializedSplits(params);
      ParseTexts(params);
    }
  }

  // ---- The escapes ----

  // Letters, digits and * - . _ stand for themselves, a space is a plus sign, and any other ASCII
  // character a percent sign and its two hexadecimal digits.
  lemma {:induction false} AsciiEscapes(c: char)
    requires c as int < 128
    ensures var plain := '0' <= c <= '9' || 'A' <= c <= 'Z' || 'a' <= c <= 'z' || c in {'*', '-', '.', '_'};
      Escape([c]) ==
        if plain then [c] else if c == ' ' then "+"
        else ['%', "0123456789ABCDEF"[c as int / 16], "0123456789ABCDEF"[c as int % 16]]
  {
    var b: Byte := c as int;
    assert [c][1..] == "" && [b][1..] == [];
    assert EncodeUtf8([c]) == EncodeChar(c) + EncodeUtf8("") == [b];
    assert EscapeBytes([b]) == EscapeByte(b) + EscapeBytes([]) == EscapeByte(b);
    ByteEscapes(b);
  }

  lemma ByteEscapes(b: Byte)
    requires b < 128
    ensures var c := b as char;
      var plain := '0' <= c <= '9' || 'A' <= c <= 'Z' || 'a' <= c <= 'z' || c in {'*', '-', '.', '_'};
      EscapeByte(b) ==
        if plain then [c] else if c == ' ' then "+"
        else ['%', "0123456789ABCDEF"[b / 16], "0123456789ABCDEF"[b % 16]]
  {
  }

  // Hexadecimal digits are read in either case.
  lemma {:induction false} HexReads(c: char)
    ensures '0' <= c <= '9' ==> HexValue(c) == c as int - 48
    ensures 'a' <= c <= 'f' ==> HexValue(c) == c as int - 87
    ensures 'A' <= c <= 'F' ==> HexValue(c) == c as int - 55
    ensures HexValue(c) >= 0 ==> '0' <= c <= '9' || 'a' <= c <= 'f' || 'A' <= c <= 'F'
  {
  }

  // A byte that can start no sequence is read as the replacement character, on its own.
  lemma {:induction false} StrayByte(bytes: seq<Byte>)
    requires bytes != [] && (0x80 <= bytes[0] <= 0xC1 || bytes[0] >= 0xF5)
    ensures DecodeUtf8(bytes) == ['\U{FFFD}'] + DecodeUtf8(bytes[1..])
  {
  }

  // How many bytes can follow a lead byte, and where the second one must lie: Table 3-7 of the Unicode
  // Standard.
  predicate SecondFits(lead: Byte, second: Byte) {
    (0xC2 <= lead <= 0xDF && 0x80 <= second <= 0xBF) || (lead == 0xE0 && 0xA0 <= second <= 0xBF) ||
    (0xE1 <= lead <= 0xEC && 0x80 <= second <= 0xBF) || (lead == 0xED && 0x80 <= second <= 0x9F) ||
    (0xEE <= lead <= 0xEF && 0x80 <= second <= 0xBF) || (lead == 0xF0 && 0x90 <= second <= 0xBF) ||
    (0xF1 <= lead <= 0xF3 && 0x80 <= second <= 0xBF) || (lead == 0xF4 && 0x80 <= second <= 0x8F)
  }

  // A sequence that breaks off is one replacement character for the bytes that were right.
  lemma {:induction false} BrokenSequence(bytes: seq<Byte>)
    requires bytes != [] && bytes[0] >= 0xC2
    ensures |bytes| == 1 || !SecondFits(bytes[0], bytes[1]) ==>
      DecodeUtf8(bytes) == ['\U{FFFD}'] + DecodeUtf8(bytes[1..])
    ensures |bytes| >= 2 && SecondFits(bytes[0], bytes[1]) && bytes[0] >= 0xE0 ==>
      |bytes| == 2 || !(0x80 <= bytes[2] <= 0xBF) ==>
        DecodeUtf8(bytes) == ['\U{FFFD}'] + DecodeUtf8(bytes[2..])
    ensures |bytes| >= 3 && SecondFits(bytes[0], bytes[1]) && bytes[0] >= 0xF0 && 0x80 <= bytes[2] <= 0xBF ==>
      |bytes| == 3 || !(0x80 <= bytes[3] <= 0xBF) ==>
        DecodeUtf8(bytes) == ['\U{FFFD}'] + DecodeUtf8(bytes[3..])
  {
  }
}
