// encodeBase32 and decodeBase32OrHex. The accumulator `value` is JavaScript's 32-bit integer, kept
// here as the remainder modulo 2^32.
module Base32 {
  import opened Texts

  type Byte = b: nat | b < 256
  type Group = g: nat | g < 32

  const WORD: nat := 0x1_0000_0000
  const ALPHABET: string := "ABCDEFGHIJKLMNOPQRSTUVWXYZ234567"

  // ---- Bits ----

  // v << k without the wrap-around, and v >>> k.
  function Up(v: nat, k: nat): nat { if k == 0 then v else 2 * Up(v, k - 1) }
  function Down(v: nat, k: nat): nat { if k == 0 then v else Down(v / 2, k - 1) }

  // The last k bits of v, most significant first.
  function Low(v: nat, k: nat): (bits: seq<bool>)
    ensures |bits| == k
  {
    if k == 0 then [] else Low(v / 2, k - 1) + [v % 2 == 1]
  }

  function ByteBits(bytes: seq<Byte>): (bits: seq<bool>)
    ensures |bits| == 8 * |bytes|
  {
    if bytes == [] then [] else ByteBits(bytes[..|bytes| - 1]) + Low(bytes[|bytes| - 1], 8)
  }

  function GroupBits(groups: seq<Group>): (bits: seq<bool>)
    ensures |bits| == 5 * |groups|
  {
    if groups == [] then [] else GroupBits(groups[..|groups| - 1]) + Low(groups[|groups| - 1], 5)
  }

  // ---- Characters ----

  // BASE32_CHARS[g]
  function CharOf(g: Group): (c: char)
    ensures 'A' <= c <= 'Z' || '2' <= c <= '7'
  {
    if g < 26 then 'A' + g as char else '2' + (g - 26) as char
  }

  function Chars(groups: seq<Group>): string {
    seq(|groups|, i requires 0 <= i < |groups| => CharOf(groups[i]))
  }

  predicate InAlphabet(c: char) { 'A' <= c <= 'Z' || '2' <= c <= '7' }

  // BASE32_CHARS.indexOf(c), or 32 for a character that is not there.
  function IndexOf(c: char): (g: nat)
    ensures g <= 32
    ensures g < 32 <==> InAlphabet(c)
    ensures g < 32 ==> CharOf(g) == c
  {
    if 'A' <= c <= 'Z' then (c - 'A') as nat else if '2' <= c <= '7' then (c - '2') as nat + 26 else 32
  }

  // The other characters whose upper case holds ASCII letters, and those letters.
  const SPECIAL_UPPER: seq<(char, string)> := [
    ('\U{00DF}', "SS"), ('\U{0131}', "I"), ('\U{0149}', "N"), ('\U{017F}', "S"), ('\U{01F0}', "J"), ('\U{1E96}', "H"),
    ('\U{1E97}', "T"), ('\U{1E98}', "W"), ('\U{1E99}', "Y"), ('\U{1E9A}', "A"), ('\U{FB00}', "FF"), ('\U{FB01}', "FI"),
    ('\U{FB02}', "FL"), ('\U{FB03}', "FFI"), ('\U{FB04}', "FFL"), ('\U{FB05}', "ST"), ('\U{FB06}', "ST")]

  function SpecialUpper(c: char, n: nat): string
    requires n <= |SPECIAL_UPPER|
    decreases n, c
  {
    if n == 0 then ""
    else if SPECIAL_UPPER[n - 1].0 == c then SPECIAL_UPPER[n - 1].1
    else SpecialUpper(c, n - 1)
  }

  // toUpperCase of one character, as far as it lies in the alphabet.
  function Upper(c: char): string {
    if 'a' <= c <= 'z' then [c - 'a' + 'A']
    else if InAlphabet(c) then [c]
    else SpecialUpper(c, |SPECIAL_UPPER|)
  }

  lemma SpecialUpperInAlphabet(c: char, n: nat)
    requires n <= |SPECIAL_UPPER|
    ensures forall i :: 0 <= i < |SpecialUpper(c, n)| ==> InAlphabet(SpecialUpper(c, n)[i])
    decreases n, c
  {
    if n > 0 && SPECIAL_UPPER[n - 1].0 != c { SpecialUpperInAlphabet(c, n - 1); }
  }

  lemma UpperInAlphabet(c: char)
    ensures forall i :: 0 <= i < |Upper(c)| ==> InAlphabet(Upper(c)[i])
  {
    SpecialUpperInAlphabet(c, |SPECIAL_UPPER|);
  }

  // toUpperCase, then only the characters of the alphabet.
  function Normalized(s: string): (normalized: string)
    ensures forall i :: 0 <= i < |normalized| ==> InAlphabet(normalized[i])
  {
    LettersInAlphabet(s);
    Letters(s)
  }

  function Letters(s: string): string {
    if s == "" then "" else Letters(s[..|s| - 1]) + Upper(s[|s| - 1])
  }

  lemma {:induction false} LettersInAlphabet(s: string)
    ensures forall i :: 0 <= i < |Letters(s)| ==> InAlphabet(Letters(s)[i])
  {
    if s != "" {
      LettersInAlphabet(s[..|s| - 1]);
      UpperInAlphabet(s[|s| - 1]);
    }
  }

  predicate IsHexDigit(c: char) { '0' <= c <= '9' || 'a' <= c <= 'f' || 'A' <= c <= 'F' }

  predicate LooksHex(s: string) { |s| == 40 && forall i :: 0 <= i < |s| ==> IsHexDigit(s[i]) }

  function HexValue(c: char): (v: nat)
    requires IsHexDigit(c)
    ensures v < 16
  {
    if '0' <= c <= '9' then (c - '0') as nat
    else if 'a' <= c <= 'f' then (c - 'a') as nat + 10
    else (c - 'A') as nat + 10
  }

  // Buffer.from(s, 'hex')
  function FromHex(s: string): (bytes: seq<Byte>)
    requires |s| % 2 == 0 && forall i :: 0 <= i < |s| ==> IsHexDigit(s[i])
    ensures |bytes| == |s| / 2
  {
    if s == "" then [] else [HexValue(s[0]) * 16 + HexValue(s[1])] + FromHex(s[2..])
  }

  // ---- Specification ----

  // Unpadded base32 of section 6 of RFC 4648: one character for every five bits of the input, the
  // last group filled up with zero bits.
  ghost predicate Encodes(groups: seq<Group>, bytes: seq<Byte>) {
    exists pad :: 0 <= pad < 5 && GroupBits(groups) == ByteBits(bytes) + Low(0, pad)
  }

  ghost predicate IsBase32Of(text: string, bytes: seq<Byte>) {
    exists groups: seq<Group> :: text == Chars(groups) && Encodes(groups, bytes)
  }

  // The whole bytes in the bits of the characters, up to seven bits left over.
  ghost predicate AreBytesOf(bytes: seq<Byte>, groups: seq<Group>) {
    8 * |bytes| <= 5 * |groups| < 8 * |bytes| + 8 && ByteBits(bytes) == GroupBits(groups)[..8 * |bytes|]
  }

  function GroupsOf(normalized: string): (groups: seq<Group>)
    requires forall i :: 0 <= i < |normalized| ==> InAlphabet(normalized[i])
    ensures |groups| == |normalized|
  {
    seq(|normalized|, i requires 0 <= i < |normalized| => IndexOf(normalized[i]))
  }

  // Forty hexadecimal digits are read as hexadecimal, everything else as base32.
  ghost predicate IsSecretOf(secret: string, bytes: seq<Byte>) {
    var clean := Trim(secret);
    if LooksHex(clean) then bytes == FromHex(clean) else AreBytesOf(bytes, GroupsOf(Normalized(clean)))
  }

  // ---- Laws of shifting ----

  lemma {:induction false} LowSplit(v: nat, k: nat, j: nat)
    ensures Low(v, k + j) == Low(Down(v, j), k) + Low(v, j)
  {
    if j != 0 { LowSplit(v / 2, k, j - 1); }
  }

  lemma {:induction false} LowUp(v: nat, d: nat, k: nat, j: nat)
    requires Down(d, j) == 0
    ensures Low(Up(v, j) + d, k + j) == Low(v, k) + Low(d, j)
    ensures Low(Up(v, j) + d, j) == Low(d, j)
  {
    if j != 0 {
      assert (Up(v, j) + d) / 2 == Up(v, j - 1) + d / 2 && (Up(v, j) + d) % 2 == d % 2;
      LowUp(v, d / 2, k, j - 1);
    }
  }

  lemma {:induction false} DownZero(j: nat)
    ensures Down(0, j) == 0
  {
    if j != 0 { DownZero(j - 1); }
  }

  lemma {:induction false} UpTwice(v: nat, j: nat, k: nat)
    ensures Up(Up(v, j), k) == Up(v, j + k)
  {
    if k != 0 { UpTwice(v, j, k - 1); }
  }

  lemma {:induction false} DownTwice(v: nat, j: nat, k: nat)
    ensures Down(Down(v, j), k) == Down(v, j + k)
  {
    if j != 0 { DownTwice(v / 2, j - 1, k); }
  }

  lemma Four(v: nat)
    ensures Up(v, 4) == 16 * v && Down(v, 4) == v / 16
  {
    assert Up(v, 1) == 2 * v;
    assert Up(v, 2) == 4 * v;
    assert Up(v, 3) == 8 * v;
    assert Down(v / 8, 1) == v / 16;
    assert Down(v / 4, 2) == v / 16;
    assert Down(v / 2, 3) == v / 16;
  }

  lemma Five(v: nat)
    ensures Up(v, 5) == 32 * v && Down(v, 5) == v / 32
  {
    Four(v);
    Four(v / 2);
  }

  lemma Eight(v: nat)
    ensures Up(v, 8) == 256 * v && Down(v, 8) == v / 256
  {
    Four(v);
    Four(16 * v);
    UpTwice(v, 4, 4);
    Four(v / 16);
    DownTwice(v, 4, 4);
  }

  lemma WordEnds(r: nat)
    requires r < WORD
    ensures Down(r, 32) == 0
  {
    Eight(r);
    Eight(r / 256);
    Eight(r / 256 / 256);
    Eight(r / 256 / 256 / 256);
    DownTwice(r, 8, 8);
    DownTwice(r, 16, 8);
    DownTwice(r, 24, 8);
  }

  // The bits below 2^32 survive the wrap-around.
  lemma LowWrapped(v: nat, k: nat)
    requires k <= 32
    ensures Low(v % WORD, k) == Low(v, k)
  {
    var q, r := v / WORD, v % WORD;
    Eight(q);
    Eight(256 * q);
    Eight(65536 * q);
    Eight(16777216 * q);
    UpTwice(q, 8, 8);
    UpTwice(q, 16, 8);
    UpTwice(q, 24, 8);
    assert v == Up(q, 32) + r;
    WordEnds(r);
    LowUp(q, r, 0, 32);
    assert Low(v, 32) == Low(r, 32);
    LowSplit(v, 32 - k, k);
    LowSplit(r, 32 - k, k);
    assert Low(v, k) == Low(v, 32)[32 - k..] && Low(r, k) == Low(r, 32)[32 - k..];
  }

  lemma LowMasked(v: nat)
    ensures Low(v % 32, 5) == Low(v, 5) && Low(v % 256, 8) == Low(v, 8)
  {
    Eight(v / 256);
    Eight(v % 256);
    LowUp(v / 256, v % 256, 0, 8);
    assert v == Up(v / 256, 8) + v % 256;
    Five(v / 32);
    Five(v % 32);
    LowUp(v / 32, v % 32, 0, 5);
    assert v == Up(v / 32, 5) + v % 32;
  }

  // (value << width) | d, for a d of at most that width.
  lemma Shifted(value: nat, d: nat, k: nat, width: nat)
    requires k + width <= 32 && Down(d, width) == 0
    ensures Low((Up(value, width) + d) % WORD, k + width) == Low(value, k) + Low(d, width)
  {
    LowWrapped(Up(value, width) + d, k + width);
    LowUp(value, d, k, width);
  }

  // ---- Equal bits, equal digits ----

  lemma {:induction false} LowInjective(v: nat, w: nat, k: nat)
    requires Low(v, k) == Low(w, k) && Down(v, k) == 0 && Down(w, k) == 0
    ensures v == w
  {
    if k != 0 {
      assert Low(v, k)[k - 1] == (v % 2 == 1) && Low(w, k)[k - 1] == (w % 2 == 1);
      assert Low(v / 2, k - 1) == Low(v, k)[..k - 1] && Low(w / 2, k - 1) == Low(w, k)[..k - 1];
      LowInjective(v / 2, w / 2, k - 1);
    }
  }

  lemma {:induction false} ByteBitsInjective(b: seq<Byte>, c: seq<Byte>)
    requires ByteBits(b) == ByteBits(c)
    ensures b == c
  {
    if b != [] {
      var n := |b| - 1;
      assert ByteBits(b[..n]) == ByteBits(b)[..8 * n] && ByteBits(c[..n]) == ByteBits(c)[..8 * n];
      assert Low(b[n], 8) == ByteBits(b)[8 * n..] && Low(c[n], 8) == ByteBits(c)[8 * n..];
      ByteBitsInjective(b[..n], c[..n]);
      Eight(b[n]);
      Eight(c[n]);
      LowInjective(b[n], c[n], 8);
      assert b == b[..n] + [b[n]] && c == c[..n] + [c[n]];
    }
  }

  // ---- The two loops ----

  // The bits of the bytes are those of the groups and the last `bits` ones of value.
  ghost predicate Pending(bytes: seq<Byte>, groups: seq<Group>, value: nat, bits: nat) {
    ByteBits(bytes) == GroupBits(groups) + Low(value, bits)
  }

  method EncodeBase32(buffer: seq<Byte>) returns (output: string)
    ensures IsBase32Of(output, buffer)
  {
    var bits, value := 0, 0;
    output := "";
    ghost var groups: seq<Group> := [];
    for i := 0 to |buffer|
      invariant 0 <= bits < 5 && 0 <= value < WORD && output == Chars(groups)
      invariant Pending(buffer[..i], groups, value, bits)
    {
      ByteAdded(buffer, i, groups, value, bits);
      value := (Up(value, 8) + buffer[i]) % WORD;
      bits := bits + 8;
      while bits >= 5
        invariant 0 <= bits <= 12 && output == Chars(groups)
        invariant Pending(buffer[..i + 1], groups, value, bits)
      {
        var g := Down(value, bits - 5) % 32;
        GroupTaken(buffer[..i + 1], groups, value, bits);
        output, groups := output + [CharOf(g)], groups + [g];
        bits := bits - 5;
      }
    }
    assert buffer[..|buffer|] == buffer;
    if bits > 0 {
      var g := Up(value, 5 - bits) % WORD % 32;
      LastGroup(buffer, groups, value, bits);
      output, groups := output + [CharOf(g)], groups + [g];
    } else {
      NoneLeft(buffer, groups, value);
    }
  }

  lemma ByteAdded(buffer: seq<Byte>, i: nat, groups: seq<Group>, value: nat, bits: nat)
    requires i < |buffer| && bits <= 24 && Pending(buffer[..i], groups, value, bits)
    ensures Pending(buffer[..i + 1], groups, (Up(value, 8) + buffer[i]) % WORD, bits + 8)
  {
    Eight(buffer[i]);
    Shifted(value, buffer[i], bits, 8);
    assert buffer[..i + 1][..i] == buffer[..i];
    Regroup(GroupBits(groups), Low(value, bits), Low(buffer[i], 8));
  }

  lemma GroupTaken(bytes: seq<Byte>, groups: seq<Group>, value: nat, bits: nat)
    requires bits >= 5 && Pending(bytes, groups, value, bits)
    ensures var g := Down(value, bits - 5) % 32;
      Pending(bytes, groups + [g], value, bits - 5) && Chars(groups + [g]) == Chars(groups) + [CharOf(g)]
  {
    LowSplit(value, 5, bits - 5);
    LowMasked(Down(value, bits - 5));
    Extended(groups, Down(value, bits - 5) % 32);
    Regroup(GroupBits(groups), Low(Down(value, bits - 5), 5), Low(value, bits - 5));
  }

  lemma LastGroup(bytes: seq<Byte>, groups: seq<Group>, value: nat, bits: nat)
    requires 0 < bits < 5 && Pending(bytes, groups, value, bits)
    ensures var g := Up(value, 5 - bits) % WORD % 32;
      Encodes(groups + [g], bytes) && Chars(groups + [g]) == Chars(groups) + [CharOf(g)]
  {
    var g := Up(value, 5 - bits) % WORD % 32;
    FilledUp(value, bits);
    Extended(groups, g);
    assert GroupBits(groups + [g]) == ByteBits(bytes) + Low(0, 5 - bits);
  }

  lemma FilledUp(value: nat, bits: nat)
    requires 0 < bits < 5
    ensures Low(Up(value, 5 - bits) % WORD % 32, 5) == Low(value, bits) + Low(0, 5 - bits)
  {
    var shifted := Up(value, 5 - bits);
    DownZero(5 - bits);
    Shifted(value, 0, bits, 5 - bits);
    LowMasked(shifted % WORD);
    assert shifted + 0 == shifted;
  }

  lemma NoneLeft(bytes: seq<Byte>, groups: seq<Group>, value: nat)
    requires Pending(bytes, groups, value, 0)
    ensures Encodes(groups, bytes)
  {
    assert GroupBits(groups) == ByteBits(bytes) + Low(0, 0);
  }

  lemma Extended(groups: seq<Group>, g: Group)
    ensures GroupBits(groups + [g]) == GroupBits(groups) + Low(g, 5)
    ensures Chars(groups + [g]) == Chars(groups) + [CharOf(g)]
  {
    assert (groups + [g])[..|groups|] == groups;
  }

  method DecodeBase32OrHex(secret: string) returns (bytes: seq<Byte>)
    ensures IsSecretOf(secret, bytes)
  {
    var clean := Trim(secret);
    if LooksHex(clean) { return FromHex(clean); }
    bytes := DecodeGroups(Normalized(clean));
  }

  method DecodeGroups(normalized: string) returns (bytes: seq<Byte>)
    requires forall i :: 0 <= i < |normalized| ==> InAlphabet(normalized[i])
    ensures AreBytesOf(bytes, GroupsOf(normalized))
  {
    ghost var groups := GroupsOf(normalized);
    var bits, value := 0, 0;
    bytes := [];
    for i := 0 to |normalized|
      invariant 0 <= bits < 8 && 0 <= value < WORD && 5 * i == 8 * |bytes| + bits
      invariant Unread(groups[..i], bytes, value, bits)
    {
      bytes, value, bits := ReadGroup(groups, i, IndexOf(normalized[i]), bytes, value, bits);
    }
    assert groups[..|groups|] == groups;
  }

  // The body of the loop: shift a group in, and push a byte once eight bits are there.
  method ReadGroup(ghost groups: seq<Group>, ghost i: nat, idx: Group, bytes: seq<Byte>, value: nat, bits: nat)
    returns (bytes': seq<Byte>, value': nat, bits': nat)
    requires i < |groups| && groups[i] == idx && bits < 8 && Unread(groups[..i], bytes, value, bits)
    ensures bits' < 8 && value' < WORD && 8 * |bytes'| + bits' == 8 * |bytes| + bits + 5
    ensures Unread(groups[..i + 1], bytes', value', bits')
  {
    GroupAdded(groups, i, bytes, value, bits);
    bytes', value', bits' := bytes, (Up(value, 5) + idx) % WORD, bits + 5;
    if bits' >= 8 {
      ByteTaken(groups[..i + 1], bytes, value', bits');
      bytes' := bytes + [Down(value', bits' - 8) % 256];
      bits' := bits' - 8;
    }
  }

  // The bits of the groups are those of the bytes and the last `bits` ones of value.
  ghost predicate Unread(groups: seq<Group>, bytes: seq<Byte>, value: nat, bits: nat) {
    GroupBits(groups) == ByteBits(bytes) + Low(value, bits)
  }

  lemma GroupAdded(groups: seq<Group>, i: nat, bytes: seq<Byte>, value: nat, bits: nat)
    requires i < |groups| && bits <= 24 && Unread(groups[..i], bytes, value, bits)
    ensures Unread(groups[..i + 1], bytes, (Up(value, 5) + groups[i]) % WORD, bits + 5)
  {
    Five(groups[i]);
    Shifted(value, groups[i], bits, 5);
    assert groups[..i + 1][..i] == groups[..i];
    Regroup(ByteBits(bytes), Low(value, bits), Low(groups[i], 5));
  }

  lemma Regroup(a: seq<bool>, b: seq<bool>, c: seq<bool>)
    ensures (a + b) + c == a + (b + c)
  {
  }

  lemma ByteTaken(groups: seq<Group>, bytes: seq<Byte>, value: nat, bits: nat)
    requires bits >= 8 && Unread(groups, bytes, value, bits)
    ensures Unread(groups, bytes + [Down(value, bits - 8) % 256], value, bits - 8)
  {
    var byte := Down(value, bits - 8) % 256;
    LowSplit(value, 8, bits - 8);
    LowMasked(Down(value, bits - 8));
    assert (bytes + [byte])[..|bytes|] == bytes;
    Regroup(ByteBits(bytes), Low(Down(value, bits - 8), 8), Low(value, bits - 8));
  }

  // ---- Main results ----

  lemma OutsideAlphabet(c: char)
    requires IndexOf(c) == 32
    ensures c !in ALPHABET
  {
    forall g: Group ensures ALPHABET[g] != c { AlphabetChar(g); }
  }

  lemma AlphabetChar(g: Group)
    ensures ALPHABET[g] == CharOf(g) && IndexOf(CharOf(g)) == g
    ensures Upper(CharOf(g)) == [CharOf(g)] && !IsSpace(CharOf(g))
  {
  }

  lemma UpperUnchanged(c: char)
    requires InAlphabet(c)
    ensures Upper(c) == [c]
  {
  }

  lemma {:induction false} AlphabetNormal(t: string)
    requires forall i :: 0 <= i < |t| ==> InAlphabet(t[i])
    ensures Letters(t) == t
  {
    if t != "" {
      var n := |t| - 1;
      AlphabetNormal(t[..n]);
      UpperUnchanged(t[n]);
      assert t == t[..n] + [t[n]];
    }
  }

  lemma TextUnchanged(groups: seq<Group>)
    ensures Normalized(Chars(groups)) == Chars(groups) && Trim(Chars(groups)) == Chars(groups)
    ensures GroupsOf(Normalized(Chars(groups))) == groups
  {
    forall i | 0 <= i < |groups| ensures IndexOf(Chars(groups)[i]) == groups[i] { AlphabetChar(groups[i]); }
    AlphabetNormal(Chars(groups));
    if groups != [] {
      AlphabetChar(groups[0]);
      AlphabetChar(groups[|groups| - 1]);
    }
  }

  // Decoding gives back the encoded bytes exactly when their text is not forty hexadecimal digits.
  lemma DecodeInvertsEncode(bytes: seq<Byte>, text: string, decoded: seq<Byte>)
    requires IsBase32Of(text, bytes) && IsSecretOf(text, decoded)
    ensures decoded == bytes <==> !LooksHex(text)
  {
    var groups: seq<Group> :| text == Chars(groups) && Encodes(groups, bytes);
    TextUnchanged(groups);
    if LooksHex(text) {
      assert 5 * 40 < 8 * |bytes| + 5;
    } else {
      assert 8 * |decoded| <= 5 * |groups| < 8 * |decoded| + 8;
      assert |decoded| == |bytes|;
      assert ByteBits(decoded) == ByteBits(bytes);
      ByteBitsInjective(decoded, bytes);
    }
  }

  // So it does for every secret this program generates, which has twenty bytes.
  lemma TotpSecretsRoundTrip(secret: seq<Byte>, text: string, decoded: seq<Byte>)
    requires |secret| == 20 && IsBase32Of(text, secret) && IsSecretOf(text, decoded)
    ensures decoded == secret && |text| == 32
  {
    DecodeInvertsEncode(secret, text, decoded);
  }

  // A buffer has one base32 text.
  lemma EncodingIsUnique(bytes: seq<Byte>, text: string, other: string)
    requires IsBase32Of(text, bytes) && IsBase32Of(other, bytes)
    ensures text == other
  {
    var p: seq<Group> :| text == Chars(p) && Encodes(p, bytes);
    var q: seq<Group> :| other == Chars(q) && Encodes(q, bytes);
    assert |p| == |q|;
    assert GroupBits(p) == GroupBits(q);
    GroupBitsInjective(p, q);
  }

  lemma {:induction false} GroupBitsInjective(b: seq<Group>, c: seq<Group>)
    requires GroupBits(b) == GroupBits(c)
    ensures b == c
  {
    if b != [] {
      var n := |b| - 1;
      assert GroupBits(b[..n]) == GroupBits(b)[..5 * n] && GroupBits(c[..n]) == GroupBits(c)[..5 * n];
      assert Low(b[n], 5) == GroupBits(b)[5 * n..] && Low(c[n], 5) == GroupBits(c)[5 * n..];
      GroupBitsInjective(b[..n], c[..n]);
      Five(b[n]);
      Five(c[n]);
      LowInjective(b[n], c[n], 5);
      assert b == b[..n] + [b[n]] && c == c[..n] + [c[n]];
    }
  }

  // Twenty-five zero bytes are encoded as forty letters A, which decode as twenty bytes.
  lemma ZeroBytesDoNotRoundTrip()
    ensures var bytes: seq<Byte> := seq(25, _ => 0);
      var text := seq(40, _ => 'A');
      IsBase32Of(text, bytes) && LooksHex(text)
  {
    var bytes: seq<Byte> := seq(25, _ => 0);
    var groups: seq<Group> := seq(40, _ => 0);
    ZeroBits(bytes, groups);
    assert GroupBits(groups) == ByteBits(bytes) + Low(0, 0);
    assert Encodes(groups, bytes);
    assert Chars(groups) == seq(40, _ => 'A');
  }

  lemma {:induction false} ZeroBits(bytes: seq<Byte>, groups: seq<Group>)
    requires forall i :: 0 <= i < |bytes| ==> bytes[i] == 0
    requires forall i :: 0 <= i < |groups| ==> groups[i] == 0
    ensures forall i :: 0 <= i < 8 * |bytes| ==> !ByteBits(bytes)[i]
    ensures forall i :: 0 <= i < 5 * |groups| ==> !GroupBits(groups)[i]
    decreases |bytes| + |groups|
  {
    assert Low(0, 8) == [false, false, false, false, false, false, false, false];
    if bytes != [] { ZeroBits(bytes[..|bytes| - 1], groups); }
    if groups != [] { ZeroBits(bytes, groups[..|groups| - 1]); }
  }

  // ---- The alphabet ----

  // Table 3 of RFC 4648.
  lemma {:induction false} CharactersAre(g: Group)
    ensures CharOf(g) == "ABCDEFGHIJKLMNOPQRSTUVWXYZ234567"[g]
  {
  }

  // Hexadecimal digits of either case, two for each byte.
  lemma {:induction false} HexByteAt(s: string, k: nat)
    requires |s| % 2 == 0 && (forall i :: 0 <= i < |s| ==> IsHexDigit(s[i])) && 2 * k < |s|
    ensures FromHex(s)[k] == 16 * DigitOf(s[2 * k]) + DigitOf(s[2 * k + 1])
  {
    if k > 0 { HexByteAt(s[2..], k - 1); }
  }

  function DigitOf(c: char): nat
    requires IsHexDigit(c)
  {
    if c <= '9' then c as nat - 48 else if c <= 'F' then c as nat - 55 else c as nat - 87
  }

  // Letters count in either case.
  lemma {:induction false} LettersFold(k: nat)
    requires k < 26
    ensures Upper("abcdefghijklmnopqrstuvwxyz"[k]) == Upper("ABCDEFGHIJKLMNOPQRSTUVWXYZ"[k]) ==
      ["ABCDEFGHIJKLMNOPQRSTUVWXYZ"[k]]
  {
    var lower, upper := "abcdefghijklmnopqrstuvwxyz", "ABCDEFGHIJKLMNOPQRSTUVWXYZ";
    assert lower[k] as int == 97 + k && upper[k] as int == 65 + k;
  }

  lemma {:induction false} HexDigitsAre(c: char)
    ensures IsHexDigit(c) <==>
      c as int in {48, 49, 50, 51, 52, 53, 54, 55, 56, 57} || c as int in {65, 66, 67, 68, 69, 70} ||
      c as int in {97, 98, 99, 100, 101, 102}
  {
  }

  lemma {:induction false} SpecialFound(c: char, n: nat, k: nat)
    requires k < n <= |SPECIAL_UPPER| && SPECIAL_UPPER[k].0 == c
    requires forall j :: k < j < n ==> SPECIAL_UPPER[j].0 != c
    ensures SpecialUpper(c, n) == SPECIAL_UPPER[k].1
  {
    if k < n - 1 { SpecialFound(c, n - 1, k); }
  }

  // Some other letters have an upper case in the alphabet, of one letter or more.
  lemma {:induction false} SpecialLetters()
    ensures Upper('\U{00DF}') == "SS" && Upper('\U{0131}') == "I" && Upper('\U{017F}') == "S"
    ensures Upper('\U{FB01}') == "FI" && Upper('\U{FB04}') == "FFL"
  {
    var n := |SPECIAL_UPPER|;
    SpecialFound('\U{00DF}', n, 0);
    SpecialFound('\U{0131}', n, 1);
    SpecialFound('\U{017F}', n, 3);
    SpecialFound('\U{FB01}', n, 11);
    SpecialFound('\U{FB04}', n, 14);
  }
}
