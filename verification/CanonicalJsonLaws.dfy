// Two JSON values print the same canonical text exactly when they are the same value up to the order
// of their properties.
module CanonicalJsonLaws {
  import opened CanonicalJson

  // ---- Insertion sort ----

  lemma TextLessTotal(s: Text, t: Text)
    ensures TextLess(s, t) || TextLess(t, s) || s == t
  {
    if s != [] && t != [] && s[0] == t[0] {
      TextLessTotal(s[1..], t[1..]);
      assert s == [s[0]] + s[1..] && t == [t[0]] + t[1..];
    }
  }

  lemma TextLessTransitive(s: Text, t: Text, u: Text)
    requires TextLess(s, t) && TextLess(t, u)
    ensures TextLess(s, u)
  {
  }

  lemma TextLessIrreflexive(s: Text)
    ensures !TextLess(s, s)
  {
  }

  lemma InsertElements<T>(e: (Text, T), sorted: seq<(Text, T)>)
    ensures var r := Insert(e, sorted);
      |r| == |sorted| + 1 && e in r && forall k :: 0 <= k < |r| ==> r[k] == e || r[k] in sorted
    ensures forall i :: 0 <= i < |sorted| ==> sorted[i] in Insert(e, sorted)
  {
  }

  lemma SortElements<T>(entries: seq<(Text, T)>)
    ensures var r := Sort(entries);
      |r| == |entries| && forall k :: 0 <= k < |r| ==> r[k] in entries
    ensures forall i :: 0 <= i < |entries| ==> entries[i] in Sort(entries)
  {
    if entries != [] {
      var rest := Sort(entries[1..]);
      SortElements(entries[1..]);
      InsertElements(entries[0], rest);
      forall i | 0 < i < |entries| ensures entries[i] in Sort(entries) { assert entries[1..][i - 1] in rest; }
    }
  }

  ghost predicate Increasing<T>(entries: seq<(Text, T)>) {
    forall i, k :: 0 <= i < k < |entries| ==> TextLess(entries[i].0, entries[k].0)
  }

  ghost predicate KeysDiffer<T>(entries: seq<(Text, T)>) {
    forall i, k :: 0 <= i < k < |entries| ==> entries[i].0 != entries[k].0
  }

  lemma {:induction false} InsertIncreasing<T>(e: (Text, T), sorted: seq<(Text, T)>)
    requires Increasing(sorted)
    requires forall i :: 0 <= i < |sorted| ==> sorted[i].0 != e.0
    ensures Increasing(Insert(e, sorted))
  {
    if sorted == [] {
    } else if TextLess(e.0, sorted[0].0) {
      forall k | 0 < k < |sorted| ensures TextLess(e.0, sorted[k].0) {
        TextLessTransitive(e.0, sorted[0].0, sorted[k].0);
      }
    } else {
      TextLessTotal(e.0, sorted[0].0);
      var rest := Insert(e, sorted[1..]);
      InsertIncreasing(e, sorted[1..]);
      InsertElements(e, sorted[1..]);
      forall k | 0 <= k < |rest| ensures TextLess(sorted[0].0, rest[k].0) {
        if rest[k] != e {
          assert rest[k] in sorted[1..];
          var i :| 0 <= i < |sorted[1..]| && sorted[1..][i] == rest[k];
          assert sorted[i + 1] == rest[k];
        }
      }
      assert Increasing([sorted[0]] + rest);
    }
  }

  lemma {:induction false} SortIncreasing<T>(entries: seq<(Text, T)>)
    requires KeysDiffer(entries)
    ensures Increasing(Sort(entries))
  {
    if entries != [] {
      var rest := Sort(entries[1..]);
      SortIncreasing(entries[1..]);
      SortElements(entries[1..]);
      forall i | 0 <= i < |rest| ensures rest[i].0 != entries[0].0 {
        var k :| 0 <= k < |entries[1..]| && entries[1..][k] == rest[i];
        assert entries[k + 1] == rest[i];
      }
      InsertIncreasing(entries[0], rest);
    }
  }

  // A strictly increasing sequence is determined by its elements.
  lemma {:induction false} IncreasingUnique<T>(p: seq<(Text, T)>, q: seq<(Text, T)>)
    requires Increasing(p) && Increasing(q)
    requires |p| == |q| && forall x :: x in p <==> x in q
    ensures p == q
  {
    if p != [] {
      assert p[0] in p && q[0] in q;
      if p[0] != q[0] {
        TextLessTransitive(p[0].0, q[0].0, p[0].0);
        TextLessIrreflexive(p[0].0);
      }
      forall x ensures x in p[1..] <==> x in q[1..] {
        TextLessIrreflexive(p[0].0);
        assert x in p[1..] ==> x in p && x != p[0];
        assert x in q[1..] ==> x in q && x != q[0];
      }
      IncreasingUnique(p[1..], q[1..]);
    }
  }

  // ---- Fields as sorted pairs ----

  function Pairs(fields: seq<Property>): (pairs: seq<(Text, Json)>)
    ensures |pairs| == |fields|
    ensures forall i :: 0 <= i < |fields| ==> pairs[i] == (fields[i].key, fields[i].value)
  {
    seq(|fields|, i requires 0 <= i < |fields| => (fields[i].key, fields[i].value))
  }

  function Printed(pairs: seq<(Text, Json)>): (printed: seq<(Text, Text)>)
    ensures |printed| == |pairs|
    ensures forall i :: 0 <= i < |pairs| ==> printed[i] == (pairs[i].0, CanonicalText(pairs[i].1))
  {
    seq(|pairs|, i requires 0 <= i < |pairs| => (pairs[i].0, CanonicalText(pairs[i].1)))
  }

  lemma {:induction false} CanonicalFieldsIsPrinted(fields: seq<Property>)
    ensures CanonicalFields(fields) == Printed(Pairs(fields))
  {
    if fields != [] {
      CanonicalFieldsIsPrinted(fields[1..]);
      assert Pairs(fields) == [(fields[0].key, fields[0].value)] + Pairs(fields[1..]);
    }
  }

  lemma {:induction false} InsertPrinted(e: (Text, Json), sorted: seq<(Text, Json)>)
    ensures Insert((e.0, CanonicalText(e.1)), Printed(sorted)) == Printed(Insert(e, sorted))
  {
    if sorted == [] || TextLess(e.0, sorted[0].0) {
    } else {
      InsertPrinted(e, sorted[1..]);
      assert Printed(sorted)[1..] == Printed(sorted[1..]);
    }
  }

  lemma {:induction false} SortPrinted(pairs: seq<(Text, Json)>)
    ensures Sort(Printed(pairs)) == Printed(Sort(pairs))
  {
    if pairs != [] {
      SortPrinted(pairs[1..]);
      assert Printed(pairs)[1..] == Printed(pairs[1..]);
      InsertPrinted(pairs[0], Sort(pairs[1..]));
    }
  }

  function SortedPairs(fields: seq<Property>): seq<(Text, Json)> { Sort(Pairs(fields)) }

  lemma ObjectText(fields: seq<Property>)
    ensures CanonicalText(JObject(fields)) == [OPEN_BRACE] + Join(Members(Printed(SortedPairs(fields)))) + [CLOSE_BRACE]
  {
    CanonicalFieldsIsPrinted(fields);
    SortPrinted(Pairs(fields));
  }

  // ---- Strings ----

  lemma HexDigitInjective(d: int, e: int)
    requires 0 <= d < 16 && 0 <= e < 16 && HexDigit(d) == HexDigit(e)
    ensures d == e
  {
  }

  lemma HexDigits(c: CodeUnit)
    ensures c == c / 4096 * 4096 + c / 256 % 16 * 256 + c / 16 % 16 * 16 + c % 16
  {
    var c1 := c / 16;
    var c2 := c1 / 16;
    assert c / 256 == c2 && c / 4096 == c2 / 16;
  }

  lemma HexInjective(c: CodeUnit, d: CodeUnit)
    requires Hex4(c) == Hex4(d)
    ensures c == d
  {
    var p, q := Hex4(c), Hex4(d);
    assert p[0] == q[0] && p[1] == q[1] && p[2] == q[2] && p[3] == q[3];
    HexDigitInjective(c / 4096, d / 4096);
    HexDigitInjective(c / 256 % 16, d / 256 % 16);
    HexDigitInjective(c / 16 % 16, d / 16 % 16);
    HexDigitInjective(c % 16, d % 16);
    HexDigits(c);
    HexDigits(d);
  }

  lemma PrefixSplit(p: Text, q: Text, x: Text, y: Text)
    requires p + x == q + y && |p| == |q|
    ensures p == q && x == y
  {
    assert p == (p + x)[..|p|] && q == (q + y)[..|q|];
    assert x == (p + x)[|p|..] && y == (q + y)[|q|..];
  }

  lemma EscapeDelimited(c: CodeUnit, d: CodeUnit, x: Text, y: Text)
    requires Escape(c) + x == Escape(d) + y
    ensures c == d && x == y
  {
    var e, f := Escape(c) + x, Escape(d) + y;
    assert e[0] == Escape(c)[0] && f[0] == Escape(d)[0];
    if e[0] != BACKSLASH {
      PrefixSplit(Escape(c), Escape(d), x, y);
    } else {
      assert e[1] == Escape(c)[1] && f[1] == Escape(d)[1];
      PrefixSplit(Escape(c), Escape(d), x, y);
      if e[1] == 117 {
        assert Hex4(c) == Escape(c)[2..] && Hex4(d) == Escape(d)[2..];
        HexInjective(c, d);
      }
    }
  }

  function PairHead(s: Text): bool { |s| > 1 && IsHigh(s[0]) && IsLow(s[1]) }

  // The text one step of Body prints.
  function Head(s: Text): (head: Text)
    requires s != []
    ensures head != []
  {
    if PairHead(s) then s[..2] else Escape(s[0])
  }

  function Tail(s: Text): Text
    requires s != []
  {
    if PairHead(s) then s[2..] else s[1..]
  }

  lemma BodySplits(s: Text)
    requires s != []
    ensures Body(s) == Head(s) + Body(Tail(s))
  {
    if PairHead(s) { assert s[..2] == [s[0], s[1]]; }
  }

  lemma HeadIsNoQuote(s: Text)
    requires s != []
    ensures Head(s) != [] && Head(s)[0] != QUOTE
  {
  }

  lemma BodyStep(s: Text, x: Text)
    requires s != []
    ensures Body(s) + x == Head(s) + (Body(Tail(s)) + x)
    ensures (Body(s) + x)[0] != QUOTE
  {
    BodySplits(s);
    HeadIsNoQuote(s);
  }

  lemma HeadDelimited(s: Text, t: Text, x: Text, y: Text)
    requires s != [] && t != [] && Head(s) + x == Head(t) + y
    ensures Head(s) == Head(t) && x == y && (Tail(s) == Tail(t) ==> s == t)
  {
    assert (Head(s) + x)[0] == Head(s)[0] && (Head(t) + y)[0] == Head(t)[0];
    if PairHead(s) {
      assert PairHead(t);
      PrefixSplit(Head(s), Head(t), x, y);
      assert s == s[..2] + s[2..] && t == t[..2] + t[2..];
    } else {
      EscapeDelimited(s[0], t[0], x, y);
      assert s == [s[0]] + s[1..] && t == [t[0]] + t[1..];
    }
  }

  lemma {:induction false} BodyDelimited(s: Text, t: Text, x: Text, y: Text)
    requires Body(s) + ([QUOTE] + x) == Body(t) + ([QUOTE] + y)
    ensures s == t && x == y
  {
    var x', y' := [QUOTE] + x, [QUOTE] + y;
    if s != [] { BodyStep(s, x'); }
    if t != [] { BodyStep(t, y'); }
    if s == [] || t == [] {
      assert Body([]) + x' == x' && Body([]) + y' == y';
      assert s == [] && t == [];
      PrefixSplit([QUOTE], [QUOTE], x, y);
    } else {
      HeadDelimited(s, t, Body(Tail(s)) + x', Body(Tail(t)) + y');
      BodyDelimited(Tail(s), Tail(t), x, y);
    }
  }

  lemma QuoteDelimited(s: Text, t: Text, x: Text, y: Text)
    requires Quote(s) + x == Quote(t) + y
    ensures s == t && x == y
  {
    Regroup([QUOTE], Body(s), [QUOTE], x);
    Regroup([QUOTE], Body(t), [QUOTE], y);
    PrefixSplit([QUOTE], [QUOTE], Body(s) + ([QUOTE] + x), Body(t) + ([QUOTE] + y));
    BodyDelimited(s, t, x, y);
  }

  // ---- Values ----

  // What may follow a value inside a canonical text.
  predicate Boundary(x: Text) { x == [] || x[0] == COMMA || x[0] == CLOSE_BRACKET || x[0] == CLOSE_BRACE }

  lemma CanonicalStart(v: Json)
    ensures var c := CanonicalText(v);
      c != [] &&
      (IsNull(v) ==> c[0] == 110) && (v.JBool? ==> c[0] == (if v.value then 116 else 102)) &&
      (v.JNumber? ==> 48 <= c[0] <= 57 || c[0] == 45) && (v.JString? ==> c[0] == QUOTE) &&
      (v.JArray? ==> c[0] == OPEN_BRACKET) && (v.JObject? ==> c[0] == OPEN_BRACE)
  {
  }

  lemma NumeralEnds(m: Numeral, n: Numeral, x: Text, y: Text)
    requires m + x == n + y && Boundary(x)
    ensures |n| <= |m|
  {
    forall i | 0 <= i < |n| ensures IsNumeralUnit((m + x)[i]) { assert (n + y)[i] == n[i]; }
    assert |x| > 0 ==> (m + x)[|m|] == x[0];
  }

  lemma NumeralDelimited(m: Numeral, n: Numeral, x: Text, y: Text)
    requires m + x == n + y && Boundary(x) && Boundary(y)
    ensures m == n && x == y
  {
    NumeralEnds(m, n, x, y);
    NumeralEnds(n, m, y, x);
    PrefixSplit(m, n, x, y);
  }

  lemma JoinStep(parts: seq<Text>, x: Text)
    requires parts != []
    ensures |parts| == 1 ==> Join(parts) + x == parts[0] + x
    ensures |parts| > 1 ==> Join(parts) + x == parts[0] + ([COMMA] + (Join(parts[1..]) + x))
  {
    if |parts| > 1 { Regroup(parts[0], [COMMA], Join(parts[1..]), x); }
  }

  lemma Regroup(a: Text, b: Text, c: Text, x: Text)
    ensures (a + b + c) + x == a + (b + (c + x))
  {
  }

  // What follows the first part of a joined list.
  function Follow(parts: seq<Text>, x: Text): Text
    requires parts != []
  {
    if |parts| == 1 then x else [COMMA] + (Join(parts[1..]) + x)
  }

  function Printings(items: seq<Json>): (texts: seq<Text>)
    ensures |texts| == |items| && forall i :: 0 <= i < |items| ==> texts[i] == CanonicalText(items[i])
  {
    CanonicalItemsAt(items);
    CanonicalItems(items)
  }

  lemma CanonicalItemsAt(items: seq<Json>)
    ensures |CanonicalItems(items)| == |items|
    ensures forall i :: 0 <= i < |items| ==> CanonicalItems(items)[i] == CanonicalText(items[i])
  {
    if items != [] { CanonicalItemsAt(items[1..]); }
  }

  // A canonical text determines its value and where it ends.
  lemma {:induction false} Delimited(a: Json, b: Json, x: Text, y: Text)
    requires CanonicalText(a) + x == CanonicalText(b) + y && Boundary(x) && Boundary(y)
    ensures Same(a, b) && x == y
    decreases a, 1, 0
  {
    CanonicalStart(a);
    CanonicalStart(b);
    assert (CanonicalText(a) + x)[0] == CanonicalText(a)[0] && (CanonicalText(b) + y)[0] == CanonicalText(b)[0];
    match a
    case JNumber(m) => NumeralDelimited(m, b.numeral, x, y);
    case JString(s) => QuoteDelimited(s, b.text, x, y);
    case JArray(items) => ArraysDelimited(a, b, x, y);
    case JObject(fields) => ObjectsDelimited(a, b, x, y);
    case _ => PrefixSplit(CanonicalText(a), CanonicalText(b), x, y);
  }

  lemma {:induction false} ArraysDelimited(a: Json, b: Json, x: Text, y: Text)
    requires a.JArray? && b.JArray? && CanonicalText(a) + x == CanonicalText(b) + y
    ensures Same(a, b) && x == y
    decreases a, 0, |a.items| + 1
  {
    var tx := Join(Printings(a.items)) + ([CLOSE_BRACKET] + x);
    var ty := Join(Printings(b.items)) + ([CLOSE_BRACKET] + y);
    assert CanonicalText(a) + x == [OPEN_BRACKET] + tx && CanonicalText(b) + y == [OPEN_BRACKET] + ty;
    PrefixSplit([OPEN_BRACKET], [OPEN_BRACKET], tx, ty);
    ItemsDelimited(a, a.items, b.items, x, y);
  }

  lemma {:induction false} ObjectsDelimited(a: Json, b: Json, x: Text, y: Text)
    requires a.JObject? && b.JObject? && CanonicalText(a) + x == CanonicalText(b) + y
    ensures Same(a, b) && x == y
    decreases a, 0, |a.fields| + 1
  {
    var p, q := SortedPairs(a.fields), SortedPairs(b.fields);
    var tx := Join(Members(Printed(p))) + ([CLOSE_BRACE] + x);
    var ty := Join(Members(Printed(q))) + ([CLOSE_BRACE] + y);
    ObjectText(a.fields);
    ObjectText(b.fields);
    Regroup([OPEN_BRACE], Join(Members(Printed(p))), [CLOSE_BRACE], x);
    Regroup([OPEN_BRACE], Join(Members(Printed(q))), [CLOSE_BRACE], y);
    PrefixSplit([OPEN_BRACE], [OPEN_BRACE], tx, ty);
    ValuesBelow(a);
    PairsDelimited(a, p, q, x, y);
    SameFields(a, b, p, q);
  }

  // The values of an object are smaller than the object.
  lemma ValuesBelow(a: Json)
    requires a.JObject?
    ensures |SortedPairs(a.fields)| == |a.fields|
    ensures forall i :: 0 <= i < |SortedPairs(a.fields)| ==> SortedPairs(a.fields)[i].1 < a
  {
    var p := SortedPairs(a.fields);
    SortElements(Pairs(a.fields));
    forall i | 0 <= i < |p| ensures p[i].1 < a {
      assert p[i] in Pairs(a.fields);
      var k :| 0 <= k < |a.fields| && p[i] == Pairs(a.fields)[k];
      assert a.fields[k].value < a;
    }
  }

  lemma {:induction false} ItemsDelimited(a: Json, p: seq<Json>, q: seq<Json>, x: Text, y: Text)
    requires forall i :: 0 <= i < |p| ==> p[i] < a
    requires Join(Printings(p)) + ([CLOSE_BRACKET] + x) == Join(Printings(q)) + ([CLOSE_BRACKET] + y)
    ensures |p| == |q| && x == y && forall i :: 0 <= i < |p| ==> Same(p[i], q[i])
    decreases a, 0, |p|
  {
    var x', y' := [CLOSE_BRACKET] + x, [CLOSE_BRACKET] + y;
    if p != [] { JoinStep(Printings(p), x'); CanonicalStart(p[0]); }
    if q != [] { JoinStep(Printings(q), y'); CanonicalStart(q[0]); }
    if p == [] || q == [] {
      assert (Join(Printings(p)) + x')[0] == (Join(Printings(q)) + y')[0];
      assert p == [] ==> Join(Printings(p)) + x' == x';
      assert q == [] ==> Join(Printings(q)) + y' == y';
      assert p == [] && q == [];
      PrefixSplit([CLOSE_BRACKET], [CLOSE_BRACKET], x, y);
    } else {
      var fx, fy := Follow(Printings(p), x'), Follow(Printings(q), y');
      Delimited(p[0], q[0], fx, fy);
      if |p| == 1 || |q| == 1 {
        assert fx[0] == fy[0];
        assert fx == x' && fy == y';
        PrefixSplit([CLOSE_BRACKET], [CLOSE_BRACKET], x, y);
      } else {
        assert Printings(p)[1..] == Printings(p[1..]) && Printings(q)[1..] == Printings(q[1..]);
        PrefixSplit([COMMA], [COMMA], Join(Printings(p[1..])) + x', Join(Printings(q[1..])) + y');
        ItemsDelimited(a, p[1..], q[1..], x, y);
      }
    }
  }

  lemma {:induction false} PairsDelimited(a: Json, p: seq<(Text, Json)>, q: seq<(Text, Json)>, x: Text, y: Text)
    requires forall i :: 0 <= i < |p| ==> p[i].1 < a
    requires Join(Members(Printed(p))) + ([CLOSE_BRACE] + x) == Join(Members(Printed(q))) + ([CLOSE_BRACE] + y)
    ensures |p| == |q| && x == y && forall i :: 0 <= i < |p| ==> p[i].0 == q[i].0 && Same(p[i].1, q[i].1)
    decreases a, 0, |p|
  {
    var x', y' := [CLOSE_BRACE] + x, [CLOSE_BRACE] + y;
    if p != [] { JoinStep(Members(Printed(p)), x'); }
    if q != [] { JoinStep(Members(Printed(q)), y'); }
    if p == [] || q == [] {
      assert (Join(Members(Printed(p))) + x')[0] == (Join(Members(Printed(q))) + y')[0];
      assert p == [] ==> Join(Members(Printed(p))) + x' == x';
      assert q == [] ==> Join(Members(Printed(q))) + y' == y';
      assert p == [] && q == [];
      PrefixSplit([CLOSE_BRACE], [CLOSE_BRACE], x, y);
    } else {
      var fx, fy := Follow(Members(Printed(p)), x'), Follow(Members(Printed(q)), y');
      MemberDelimited(p[0], q[0], fx, fy);
      Delimited(p[0].1, q[0].1, fx, fy);
      if |p| == 1 || |q| == 1 {
        assert fx[0] == fy[0];
        assert fx == x' && fy == y';
        PrefixSplit([CLOSE_BRACE], [CLOSE_BRACE], x, y);
      } else {
        assert Members(Printed(p))[1..] == Members(Printed(p[1..]));
        assert Members(Printed(q))[1..] == Members(Printed(q[1..]));
        PrefixSplit([COMMA], [COMMA], Join(Members(Printed(p[1..]))) + x', Join(Members(Printed(q[1..]))) + y');
        PairsDelimited(a, p[1..], q[1..], x, y);
      }
    }
  }

  lemma MemberDelimited(p: (Text, Json), q: (Text, Json), x: Text, y: Text)
    requires Member((p.0, CanonicalText(p.1))) + x == Member((q.0, CanonicalText(q.1))) + y
    ensures p.0 == q.0 && CanonicalText(p.1) + x == CanonicalText(q.1) + y
  {
    var tx, ty := CanonicalText(p.1) + x, CanonicalText(q.1) + y;
    Regroup(Quote(p.0), [COLON], CanonicalText(p.1), x);
    Regroup(Quote(q.0), [COLON], CanonicalText(q.1), y);
    QuoteDelimited(p.0, q.0, [COLON] + tx, [COLON] + ty);
    PrefixSplit([COLON], [COLON], tx, ty);
  }

  lemma SameFields(a: Json, b: Json, p: seq<(Text, Json)>, q: seq<(Text, Json)>)
    requires a.JObject? && b.JObject? && p == SortedPairs(a.fields) && q == SortedPairs(b.fields)
    requires |p| == |q| && forall i :: 0 <= i < |p| ==> p[i].0 == q[i].0 && Same(p[i].1, q[i].1)
    ensures Same(a, b)
  {
    SortElements(Pairs(a.fields));
    SortElements(Pairs(b.fields));
    forall i | 0 <= i < |a.fields|
      ensures exists k ::
        0 <= k < |b.fields| && b.fields[k].key == a.fields[i].key && Same(a.fields[i].value, b.fields[k].value)
    {
      assert Pairs(a.fields)[i] in p;
      var at :| 0 <= at < |p| && p[at] == Pairs(a.fields)[i];
      assert q[at] in q;
      var k :| 0 <= k < |b.fields| && Pairs(b.fields)[k] == q[at];
      assert b.fields[k].key == a.fields[i].key;
    }
  }

  // ---- The same value prints the same text ----

  lemma {:induction false} SamePrintsSame(a: Json, b: Json)
    requires WellFormed(a) && WellFormed(b) && Same(a, b)
    ensures CanonicalText(a) == CanonicalText(b)
  {
    match a
    case JArray(items) =>
      forall i | 0 <= i < |items| ensures Printings(items)[i] == Printings(b.items)[i] {
        SamePrintsSame(items[i], b.items[i]);
      }
      assert Printings(items) == Printings(b.items);
    case JObject(fields) =>
      var p, q := Printed(Pairs(fields)), Printed(Pairs(b.fields));
      forall i | 0 <= i < |fields| ensures p[i] in q {
        var k :| 0 <= k < |b.fields| && b.fields[k].key == fields[i].key && Same(fields[i].value, b.fields[k].value);
        SamePrintsSame(fields[i].value, b.fields[k].value);
        assert p[i] == q[k];
      }
      SameElements(p, q);
      SortIncreasing(p);
      SortIncreasing(q);
      SortElements(p);
      SortElements(q);
      IncreasingUnique(Sort(p), Sort(q));
      CanonicalFieldsIsPrinted(fields);
      CanonicalFieldsIsPrinted(b.fields);
    case _ =>
  }

  lemma {:induction false} SameElements(p: seq<(Text, Text)>, q: seq<(Text, Text)>)
    requires |p| == |q| && KeysDiffer(p) && KeysDiffer(q)
    requires forall i :: 0 <= i < |p| ==> p[i] in q
    ensures forall x :: x in p <==> x in q
  {
    if p != [] {
      var k :| 0 <= k < |q| && q[k] == p[0];
      var q' := q[..k] + q[k + 1..];
      forall i | 0 < i < |p| ensures p[i] in q' {
        assert p[i] in q;
        var m :| 0 <= m < |q| && q[m] == p[i];
        assert q'[if m < k then m else m - 1] == p[i];
      }
      SameElements(p[1..], q');
      assert p == [p[0]] + p[1..];
      assert q == q[..k] + [q[k]] + q[k + 1..];
    }
  }

  // canonicalJson is injective up to the order of properties.
  lemma CanonicalDecidesSameness(a: Json, b: Json)
    requires WellFormed(a) && WellFormed(b)
    ensures CanonicalText(a) == CanonicalText(b) <==> Same(a, b)
  {
    if CanonicalText(a) == CanonicalText(b) { Delimited(a, b, [], []); }
    if Same(a, b) { SamePrintsSame(a, b); }
  }

  // ---- Redaction ----

  lemma {:induction false} RedactKeepsWellFormed(v: Json, key: Text)
    requires WellFormed(v)
    ensures WellFormed(Redact(v, key))
  {
    if !Sensitive(key) {
      match v
      case JArray(items) =>
        RedactItemsAt(items);
        forall i | 0 <= i < |items| ensures WellFormed(RedactItems(items)[i]) { RedactKeepsWellFormed(items[i], []); }
      case JObject(fields) =>
        RedactFieldsAt(fields);
        forall i | 0 <= i < |fields| ensures WellFormed(RedactFields(fields)[i].value) {
          RedactKeepsWellFormed(fields[i].value, fields[i].key);
        }
      case _ =>
    }
  }

  lemma RedactItemsAt(items: seq<Json>)
    ensures |RedactItems(items)| == |items|
    ensures forall i :: 0 <= i < |items| ==> RedactItems(items)[i] == Redact(items[i], [])
  {
    if items != [] { RedactItemsAt(items[1..]); }
  }

  lemma RedactFieldsAt(fields: seq<Property>)
    ensures |RedactFields(fields)| == |fields|
    ensures forall i :: 0 <= i < |fields| ==>
      RedactFields(fields)[i] == Property(fields[i].key, Redact(fields[i].value, fields[i].key))
  {
    if fields != [] { RedactFieldsAt(fields[1..]); }
  }

  // Nothing below a sensitive property name reaches the stored payload.
  ghost predicate Clean(v: Json)
  {
    match v
    case JArray(items) => forall i :: 0 <= i < |items| ==> Clean(items[i])
    case JObject(fields) =>
      forall i :: 0 <= i < |fields| ==>
        (if Sensitive(fields[i].key) then fields[i].value == JString(REDACTED) else Clean(fields[i].value))
    case _ => true
  }

  lemma {:induction false} RedactedIsClean(v: Json, key: Text)
    ensures Clean(Redact(v, key))
  {
    if !Sensitive(key) {
      match v
      case JArray(items) =>
        RedactItemsAt(items);
        forall i | 0 <= i < |items| ensures Clean(RedactItems(items)[i]) { RedactedIsClean(items[i], []); }
      case JObject(fields) =>
        RedactFieldsAt(fields);
        forall i | 0 <= i < |fields| ensures Clean(RedactFields(fields)[i].value) {
          RedactedIsClean(fields[i].value, fields[i].key);
        }
      case _ =>
    }
  }

  // Redacting again changes nothing.
  lemma {:induction false} CleanIsFixed(v: Json, key: Text)
    requires Clean(v) && !Sensitive(key)
    ensures Redact(v, key) == v
  {
    match v
    case JArray(items) =>
      NotSensitiveEmpty();
      RedactItemsAt(items);
      forall i | 0 <= i < |items| ensures RedactItems(items)[i] == items[i] { CleanIsFixed(items[i], []); }
      assert RedactItems(items) == items;
    case JObject(fields) =>
      RedactFieldsAt(fields);
      forall i | 0 <= i < |fields| ensures RedactFields(fields)[i] == fields[i] {
        if !Sensitive(fields[i].key) { CleanIsFixed(fields[i].value, fields[i].key); }
      }
      assert RedactFields(fields) == fields;
    case _ =>
  }

  lemma NotSensitiveEmpty()
    ensures !Sensitive([])
  {
  }

  // ---- Which names are sensitive ----

  const SECRETS: set<string> :=
    {"password", "secret", "token", "authorization", "cookie", "image", "content", "binary", "base64"}

  // The word stands in the name at this place, in either case of its letters; the Kelvin sign counts as
  // a k.
  predicate Stands(key: Text, word: string, at: nat) {
    at + |word| <= |key| && forall i :: 0 <= i < |word| ==> ReadsAs(key[at + i], word[i])
  }

  predicate ReadsAs(c: CodeUnit, letter: char) {
    c == letter as int || ('a' <= letter <= 'z' && c == letter as int - 32) || (letter == 'k' && c == 8490)
  }

  // A name is sensitive exactly when one of the nine words stands in it.
  lemma {:induction false} SensitiveIff(key: Text)
    ensures Sensitive(key) <==> exists word, at :: word in SECRETS && 0 <= at <= |key| && Stands(key, word, at)
  {
    forall w, at | 0 <= w < |SENSITIVE_WORDS| && 0 <= at <= |key| && WordAt(key, SENSITIVE_WORDS[w], at)
      ensures exists word :: word in SECRETS && Stands(key, word, at)
    {
      WordIsSecret(w);
      var word :| word in SECRETS && Letters(word) == SENSITIVE_WORDS[w];
      StandsIff(key, word, at);
    }
    forall word, at | word in SECRETS && 0 <= at <= |key| && Stands(key, word, at) ensures Sensitive(key) {
      SecretIsWord(word);
      var w :| 0 <= w < |SENSITIVE_WORDS| && SENSITIVE_WORDS[w] == Letters(word);
      StandsIff(key, word, at);
    }
  }

  predicate Lowercase(word: string) { forall i :: 0 <= i < |word| ==> 'a' <= word[i] <= 'z' || '0' <= word[i] <= '9' }

  function Letters(word: string): Text
    requires Lowercase(word)
  {
    seq(|word|, i requires 0 <= i < |word| => word[i] as int)
  }

  lemma StandsIff(key: Text, word: string, at: nat)
    requires Lowercase(word)
    ensures Stands(key, word, at) <==> WordAt(key, Letters(word), at)
  {
    if at + |word| <= |key| {
      forall i | 0 <= i < |word| ensures ReadsAs(key[at + i], word[i]) <==> Lower(key[at + i]) == Letters(word)[i] {
      }
    }
  }

  lemma SecretsAreLowercase()
    ensures forall word :: word in SECRETS ==> Lowercase(word)
  {
  }

  lemma WordIsSecret(w: nat)
    requires w < |SENSITIVE_WORDS|
    ensures exists word :: word in SECRETS && Lowercase(word) && Letters(word) == SENSITIVE_WORDS[w]
  {
    SecretsAreLowercase();
    var words := ["password", "secret", "token", "authorization", "cookie", "image", "content", "binary", "base64"];
    assert words[w] in SECRETS;
    assert Letters(words[w]) == SENSITIVE_WORDS[w];
  }

  lemma SecretIsWord(word: string)
    requires word in SECRETS
    ensures Lowercase(word) && exists w :: 0 <= w < |SENSITIVE_WORDS| && SENSITIVE_WORDS[w] == Letters(word)
  {
    SecretsAreLowercase();
    var words := ["password", "secret", "token", "authorization", "cookie", "image", "content", "binary", "base64"];
    assert words[0] == "password" && words[1] == "secret" && words[2] == "token" && words[3] == "authorization";
    assert words[4] == "cookie" && words[5] == "image" && words[6] == "content" && words[7] == "binary";
    assert words[8] == "base64";
    var w :| 0 <= w < |words| && words[w] == word;
    assert SENSITIVE_WORDS[w] == Letters(word);
  }

  // ---- Escapes and one text written out ----

  // Quote, backslash and control characters are escaped, the five short ones by their letter; every other
  // character but a lone surrogate stands for itself.
  lemma {:induction false} EscapesAre(c: CodeUnit)
    ensures c == 34 ==> Escape(c) == [92, 34]
    ensures c == 92 ==> Escape(c) == [92, 92]
    ensures c == 8 ==> Escape(c) == [92, 98]
    ensures c == 9 ==> Escape(c) == [92, 116]
    ensures c == 10 ==> Escape(c) == [92, 110]
    ensures c == 12 ==> Escape(c) == [92, 102]
    ensures c == 13 ==> Escape(c) == [92, 114]
    ensures c >= 32 && c != 34 && c != 92 && !(0xD800 <= c <= 0xDFFF) ==> Escape(c) == [c]
    ensures (c < 32 && c !in {8, 9, 10, 12, 13}) || 0xD800 <= c <= 0xDFFF ==>
      |Escape(c)| == 6 && Escape(c)[0] == 92 && Escape(c)[1] == 117 && Hexadecimal(Escape(c)[2..]) == c
  {
    if (c < 32 && c !in {8, 9, 10, 12, 13}) || 0xD800 <= c <= 0xDFFF {
      assert Escape(c)[2..] == Hex4(c);
      HexIs(c);
    }
  }

  function Digit(c: CodeUnit): int { if c <= 57 then c - 48 else c - 87 }

  function Hexadecimal(t: Text): int
    requires |t| == 4
  {
    ((Digit(t[0]) * 16 + Digit(t[1])) * 16 + Digit(t[2])) * 16 + Digit(t[3])
  }

  lemma {:induction false} HexIs(c: CodeUnit)
    ensures Hexadecimal(Hex4(c)) == c
  {
    assert c == c / 16 * 16 + c % 16 && c / 16 == c / 256 * 16 + c / 16 % 16 && c / 256 == c / 4096 * 16 + c / 256 % 16;
    assert forall d :: 0 <= d < 16 ==> Digit(HexDigit(d)) == d;
  }

  // The words of JSON, and what has no JSON text.
  lemma {:induction false} PlainTexts()
    ensures CanonicalText(JBool(true)) == Letters("true") && CanonicalText(JBool(false)) == Letters("false")
    ensures CanonicalText(JNull) == CanonicalText(JUndefined) == CanonicalText(JNonFinite) == Letters("null")
  {
    assert Letters("true") == TRUE_TEXT && Letters("false") == FALSE_TEXT && Letters("null") == NULL_TEXT;
  }

  // An array of two, and an object whose names come out in order: [x,y] and {"a":x,"b":y}.
  lemma {:induction false} ShortTexts(x: Json, y: Json)
    ensures CanonicalText(JArray([x, y])) == [91] + (CanonicalText(x) + [44] + CanonicalText(y)) + [93]
    ensures CanonicalText(JObject([Property([98], y), Property([97], x)])) ==
      [123] + (([34, 97, 34, 58] + CanonicalText(x)) + [44] + ([34, 98, 34, 58] + CanonicalText(y))) + [125]
  {
    TwoItems(x, y);
    TwoFields(x, y);
  }

  lemma {:induction false} TwoItems(x: Json, y: Json)
    ensures Join(CanonicalItems([x, y])) == CanonicalText(x) + [44] + CanonicalText(y)
  {
    assert [x, y][1..] == [y] && [y][1..] == [];
    assert CanonicalItems([y]) == [CanonicalText(y)];
    assert CanonicalItems([x, y]) == [CanonicalText(x), CanonicalText(y)];
    assert [CanonicalText(x), CanonicalText(y)][1..] == [CanonicalText(y)];
  }

  lemma {:induction false} TwoFields(x: Json, y: Json)
    ensures Join(Members(Sort(CanonicalFields([Property([98], y), Property([97], x)])))) ==
      ([34, 97, 34, 58] + CanonicalText(x)) + [44] + ([34, 98, 34, 58] + CanonicalText(y))
  {
    var a: (Text, Text), b: (Text, Text) := ([97], CanonicalText(x)), ([98], CanonicalText(y));
    SortedFields(x, y, a, b);
    OneLetter(a);
    OneLetter(b);
    assert Members([a, b]) == [Member(a), Member(b)];
    assert [Member(a), Member(b)][1..] == [Member(b)];
  }

  lemma {:induction false} OneLetter(m: (Text, Text))
    requires |m.0| == 1 && 97 <= m.0[0] <= 98
    ensures Member(m) == [34, m.0[0], 34, 58] + m.1
  {
    var c := m.0[0];
    assert m.0 == [c] && m.0[1..] == [];
    assert Escape(c) == [c];
    assert Body(m.0) == [c] + Body(m.0[1..]);
    assert Quote(m.0) == [34, c, 34];
  }

  lemma {:induction false} SortedFields(x: Json, y: Json, a: (Text, Text), b: (Text, Text))
    requires a == ([97], CanonicalText(x)) && b == ([98], CanonicalText(y))
    ensures Sort(CanonicalFields([Property([98], y), Property([97], x)])) == [a, b]
  {
    var fields := [Property([98], y), Property([97], x)];
    assert fields[1..] == [Property([97], x)] && fields[1..][1..] == [];
    assert CanonicalFields(fields[1..]) == [a];
    assert CanonicalFields(fields) == [b, a];
    assert [b, a][1..] == [a] && [a][1..] == [];
    assert Sort([a]) == Insert(a, []) == [a];
    assert !TextLess(b.0, a.0);
    assert Insert(b, [a]) == [a] + Insert(b, []);
  }

  // Signs, points and exponents belong to numerals: -1.5e+21 is one.
  lemma {:induction false} NumeralsHaveExponents()
    ensures IsNumeral([45, 49, 46, 53, 101, 43, 50, 49]) && !IsNumeral([]) && !IsNumeral([46, 53])
  {
  }
}
