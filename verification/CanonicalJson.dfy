// FinancialCommandService.canonicalJson and redactPayload on JSON values. Texts are sequences of
// UTF-16 code units, as in JavaScript.
module CanonicalJson {
  type CodeUnit = c: int | 0 <= c < 0x10000
  type Text = seq<CodeUnit>

  const QUOTE: CodeUnit := 34
  const COMMA: CodeUnit := 44
  const COLON: CodeUnit := 58
  const OPEN_BRACKET: CodeUnit := 91
  const BACKSLASH: CodeUnit := 92
  const CLOSE_BRACKET: CodeUnit := 93
  const OPEN_BRACE: CodeUnit := 123
  const CLOSE_BRACE: CodeUnit := 125
  const TRUE_TEXT: Text := [116, 114, 117, 101]
  const FALSE_TEXT: Text := [102, 97, 108, 115, 101]
  const NULL_TEXT: Text := [110, 117, 108, 108]

  // JavaScript prints a number from the characters 0-9 - + . e, beginning with a digit or a minus sign.
  predicate IsNumeralUnit(c: CodeUnit) {
    48 <= c <= 57 || c == 45 || c == 43 || c == 46 || c == 101
  }

  predicate IsNumeral(t: Text) {
    t != [] && (48 <= t[0] <= 57 || t[0] == 45) && forall i :: 0 <= i < |t| ==> IsNumeralUnit(t[i])
  }

  // A finite number is represented by the text JavaScript prints for it.
  type Numeral = t: Text | IsNumeral(t) witness [48]

  datatype Json =
    | JUndefined | JNull | JNonFinite
    | JBool(value: bool)
    | JNumber(numeral: Numeral)
    | JString(text: Text)
    | JArray(items: seq<Json>)
    | JObject(fields: seq<Property>)

  datatype Property = Property(key: Text, value: Json)

  // Property names are distinct, at every depth.
  ghost predicate WellFormed(v: Json) {
    match v
    case JArray(items) => forall i :: 0 <= i < |items| ==> WellFormed(items[i])
    case JObject(fields) =>
      DistinctKeys(fields) && forall i :: 0 <= i < |fields| ==> WellFormed(fields[i].value)
    case _ => true
  }

  ghost predicate DistinctKeys(fields: seq<Property>) {
    forall i, k :: 0 <= i < k < |fields| ==> fields[i].key != fields[k].key
  }

  // ---- Sorting property names ----

  predicate TextLess(s: Text, t: Text) {
    if t == [] then false
    else if s == [] then true
    else if s[0] != t[0] then s[0] < t[0]
    else TextLess(s[1..], t[1..])
  }

  function Insert<T>(e: (Text, T), sorted: seq<(Text, T)>): seq<(Text, T)> {
    if sorted == [] || TextLess(e.0, sorted[0].0) then [e] + sorted else [sorted[0]] + Insert(e, sorted[1..])
  }

  function Sort<T>(entries: seq<(Text, T)>): seq<(Text, T)> {
    if entries == [] then [] else Insert(entries[0], Sort(entries[1..]))
  }

  // ---- Printing ----

  predicate IsHigh(c: CodeUnit) { 0xD800 <= c <= 0xDBFF }
  predicate IsLow(c: CodeUnit) { 0xDC00 <= c <= 0xDFFF }

  function HexDigit(d: int): CodeUnit
    requires 0 <= d < 16
  {
    if d < 10 then 48 + d else 87 + d
  }

  function Hex4(c: CodeUnit): Text {
    [HexDigit(c / 4096), HexDigit(c / 256 % 16), HexDigit(c / 16 % 16), HexDigit(c % 16)]
  }

  function Escape(c: CodeUnit): Text {
    if c == QUOTE || c == BACKSLASH then [BACKSLASH, c]
    else if c == 8 then [BACKSLASH, 98]
    else if c == 9 then [BACKSLASH, 116]
    else if c == 10 then [BACKSLASH, 110]
    else if c == 12 then [BACKSLASH, 102]
    else if c == 13 then [BACKSLASH, 114]
    else if c < 32 || IsHigh(c) || IsLow(c) then [BACKSLASH, 117] + Hex4(c)
    else [c]
  }

  // JSON.stringify keeps a surrogate pair as it is and escapes a lone surrogate.
  function Body(s: Text): Text {
    if s == [] then []
    else if |s| > 1 && IsHigh(s[0]) && IsLow(s[1]) then [s[0], s[1]] + Body(s[2..])
    else Escape(s[0]) + Body(s[1..])
  }

  function Quote(s: Text): Text { [QUOTE] + Body(s) + [QUOTE] }

  function Join(parts: seq<Text>): Text {
    if parts == [] then []
    else if |parts| == 1 then parts[0]
    else parts[0] + [COMMA] + Join(parts[1..])
  }

  function Member(field: (Text, Text)): Text { Quote(field.0) + [COLON] + field.1 }

  function Members(fields: seq<(Text, Text)>): seq<Text> {
    seq(|fields|, i requires 0 <= i < |fields| => Member(fields[i]))
  }

  function CanonicalText(v: Json): Text
    decreases v, 1
  {
    match v
    case JUndefined => NULL_TEXT
    case JNull => NULL_TEXT
    case JNonFinite => NULL_TEXT
    case JBool(b) => if b then TRUE_TEXT else FALSE_TEXT
    case JNumber(numeral) => numeral
    case JString(text) => Quote(text)
    case JArray(items) => [OPEN_BRACKET] + Join(CanonicalItems(items)) + [CLOSE_BRACKET]
    case JObject(fields) => [OPEN_BRACE] + Join(Members(Sort(CanonicalFields(fields)))) + [CLOSE_BRACE]
  }

  function CanonicalItems(items: seq<Json>): seq<Text>
    decreases items, 0
  {
    if items == [] then [] else [CanonicalText(items[0])] + CanonicalItems(items[1..])
  }

  function CanonicalFields(fields: seq<Property>): seq<(Text, Text)>
    decreases fields, 0
  {
    if fields == [] then [] else [(fields[0].key, CanonicalText(fields[0].value))] + CanonicalFields(fields[1..])
  }

  // ---- Redaction ----

  const REDACTED: Text := [91, 82, 69, 68, 65, 67, 84, 69, 68, 93]

  // password secret token authorization cookie image content binary base64
  const SENSITIVE_WORDS: seq<Text> := [
    [112, 97, 115, 115, 119, 111, 114, 100], [115, 101, 99, 114, 101, 116], [116, 111, 107, 101, 110],
    [97, 117, 116, 104, 111, 114, 105, 122, 97, 116, 105, 111, 110], [99, 111, 111, 107, 105, 101],
    [105, 109, 97, 103, 101], [99, 111, 110, 116, 101, 110, 116], [98, 105, 110, 97, 114, 121],
    [98, 97, 115, 101, 54, 52]]

  // toLowerCase, as far as it can matter here: besides A to Z only the Kelvin sign becomes an ASCII
  // letter, and U+0130 an i followed by a combining dot, which no sensitive word contains.
  function Lower(c: CodeUnit): CodeUnit { if 65 <= c <= 90 then c + 32 else if c == 0x212A then 107 else c }

  predicate WordAt(key: Text, word: Text, at: nat) {
    at + |word| <= |key| && forall i :: 0 <= i < |word| ==> Lower(key[at + i]) == word[i]
  }

  predicate Sensitive(key: Text) {
    exists w, at :: 0 <= w < |SENSITIVE_WORDS| && 0 <= at <= |key| && WordAt(key, SENSITIVE_WORDS[w], at)
  }

  function Redact(v: Json, key: Text): Json
    decreases v, 1
  {
    if Sensitive(key) then JString(REDACTED)
    else
      match v
      case JArray(items) => JArray(RedactItems(items))
      case JObject(fields) => JObject(RedactFields(fields))
      case _ => v
  }

  function RedactItems(items: seq<Json>): seq<Json>
    decreases items, 0
  {
    if items == [] then [] else [Redact(items[0], [])] + RedactItems(items[1..])
  }

  function RedactFields(fields: seq<Property>): seq<Property>
    decreases fields, 0
  {
    if fields == [] then []
    else [Property(fields[0].key, Redact(fields[0].value, fields[0].key))] + RedactFields(fields[1..])
  }

  // ---- Reference: equality of values up to the order of properties ----

  predicate IsNull(v: Json) { v.JUndefined? || v.JNull? || v.JNonFinite? }

  // The same value, reading undefined and non-finite numbers as null, and objects as maps.
  ghost predicate Same(a: Json, b: Json)
    decreases a
  {
    match a
    case JArray(items) =>
      b.JArray? && |items| == |b.items| && forall i :: 0 <= i < |items| ==> Same(items[i], b.items[i])
    case JObject(fields) =>
      b.JObject? && |fields| == |b.fields| &&
      forall i :: 0 <= i < |fields| ==>
        exists k :: 0 <= k < |b.fields| && b.fields[k].key == fields[i].key && Same(fields[i].value, b.fields[k].value)
    case JUndefined => IsNull(b)
    case JNull => IsNull(b)
    case JNonFinite => IsNull(b)
    case _ => a == b
  }
}
