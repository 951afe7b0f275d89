// convertIndianNumber and convertWesternNumber, and an evaluator that reads number words back.
module NumberWords {
  import opened Tables
  import opened Texts

  const ONES: seq<string> := ["", "One", "Two", "Three", "Four", "Five", "Six", "Seven", "Eight", "Nine", "Ten",
    "Eleven", "Twelve", "Thirteen", "Fourteen", "Fifteen", "Sixteen", "Seventeen", "Eighteen", "Nineteen"]
  const TENS: seq<string> := ["", "", "Twenty", "Thirty", "Forty", "Fifty", "Sixty", "Seventy", "Eighty", "Ninety"]

  const CRORE: nat := 10000000
  const LAKH: nat := 100000
  const THOUSAND: nat := 1000
  const MILLION: nat := 1000000
  const BILLION: nat := 1000000000

  // Undefined is what indexing past the end of ONES yields.
  type OnesIndex = n: nat | 1 <= n < 20 witness 1
  type TensIndex = n: nat | 2 <= n < 10 witness 2
  datatype Word =
    | Zero | Small(n: OnesIndex) | Ten(t: TensIndex) | Hundred
    | Thousand | Lakh | Crore | Million | Billion | Undefined

  function Spelling(w: Word): string {
    match w
    case Zero => "Zero"
    case Small(n) => ONES[n]
    case Ten(t) => TENS[t]
    case Hundred => "Hundred"
    case Thousand => "Thousand"
    case Lakh => "Lakh"
    case Crore => "Crore"
    case Million => "Million"
    case Billion => "Billion"
    case Undefined => "undefined"
  }

  // ---- The evaluator ----

  // What has been read: whole multiples of a scale word, and the number being built up.
  datatype Tally = Tally(total: nat, current: nat)

  // A crore or a billion multiplies everything before it, a smaller scale only the number before it.
  function Read(t: Tally, w: Word): Option<Tally> {
    match w
    case Zero => Some(t)
    case Small(n) => Some(Tally(t.total, t.current + n))
    case Ten(k) => Some(Tally(t.total, t.current + 10 * k))
    case Hundred => Some(Tally(t.total, t.current * 100))
    case Thousand => Some(Tally(t.total + t.current * THOUSAND, 0))
    case Lakh => Some(Tally(t.total + t.current * LAKH, 0))
    case Million => Some(Tally(t.total + t.current * MILLION, 0))
    case Crore => Some(Tally((t.total + t.current) * CRORE, 0))
    case Billion => Some(Tally((t.total + t.current) * BILLION, 0))
    case Undefined => None
  }

  function ReadAll(t: Tally, words: seq<Word>): Option<Tally> {
    if words == [] then Some(t)
    else
      match ReadAll(t, words[..|words| - 1])
      case None => None
      case Some(u) => Read(u, words[|words| - 1])
  }

  function ValueOf(words: seq<Word>): Option<nat> {
    match ReadAll(Tally(0, 0), words)
    case None => None
    case Some(t) => Some(t.total + t.current)
  }

  // A text means n when its parts are number words that evaluate to n.
  ghost predicate Means(text: string, n: nat) {
    exists words :: Split(text, ' ') == Spelled(words) && ValueOf(words) == Some(n)
  }

  // ---- The words ----

  function Spelled(words: seq<Word>): (texts: seq<string>)
    ensures |texts| == |words| && forall i :: 0 <= i < |words| ==> texts[i] == Spelling(words[i])
  {
    seq(|words|, i requires 0 <= i < |words| => Spelling(words[i]))
  }

  function Text(words: seq<Word>): string { Join(Spelled(words), ' ') }

  function OnesWord(n: nat): Word
    requires n > 0
  {
    if n < 20 then Small(n) else Undefined
  }

  function TwoWords(n: nat): (words: seq<Word>)
    requires n < 100
    ensures words == [] <==> n == 0
  {
    if n == 0 then [] else if n < 20 then [Small(n)]
    else if n % 10 > 0 then [Ten(n / 10), Small(n % 10)] else [Ten(n / 10)]
  }

  function Hundreds(n: nat): seq<Word> { if n > 0 then [OnesWord(n), Hundred] else [] }

  function ThreeWords(n: nat): (words: seq<Word>)
    ensures words == [] <==> n == 0
  {
    Hundreds(n / 100) + TwoWords(n % 100)
  }

  function Scaled(words: seq<Word>, n: nat, scale: Word): (scaled: seq<Word>)
    ensures scaled == [] <==> n == 0
  {
    if n > 0 then words + [scale] else []
  }

  function IndianWords(n: nat): (words: seq<Word>)
    ensures words != []
  {
    if n == 0 then [Zero]
    else
      Scaled(IndianWords(n / CRORE), n / CRORE, Crore) +
      Scaled(TwoWords(n % CRORE / LAKH), n % CRORE / LAKH, Lakh) +
      Scaled(TwoWords(n % CRORE % LAKH / THOUSAND), n % CRORE % LAKH / THOUSAND, Thousand) +
      ThreeWords(n % CRORE % LAKH % THOUSAND)
  }

  function WesternWords(n: nat): (words: seq<Word>)
    ensures words != []
  {
    if n == 0 then [Zero]
    else
      Scaled(ThreeWords(n / BILLION), n / BILLION, Billion) +
      Scaled(ThreeWords(n % BILLION / MILLION), n % BILLION / MILLION, Million) +
      Scaled(ThreeWords(n % BILLION % MILLION / THOUSAND), n % BILLION % MILLION / THOUSAND, Thousand) +
      ThreeWords(n % BILLION % MILLION % THOUSAND)
  }

  // ---- The program ----

  method ConvertTwoDigits(n: nat) returns (text: string)
    requires n < 100
    ensures text == Text(TwoWords(n))
  {
    TwoText(n);
    if n < 20 { return ONES[n]; }
    var ten, one := n / 10, n % 10;
    return TENS[ten] + if one > 0 then " " + ONES[one] else "";
  }

  method ConvertThreeDigits(n: nat) returns (res: string)
    ensures res == Text(ThreeWords(n))
  {
    var hundred, rest := n / 100, n % 100;
    res := "";
    if hundred > 0 { res := OnesText(hundred) + " Hundred"; }
    HundredText(hundred);
    assert res == Text(Hundreds(hundred));
    if rest > 0 {
      var two := ConvertTwoDigits(rest);
      res := res + (if res != "" then " " else "") + two;
    }
    ThreeText(hundred, rest);
  }

  // ONES[n], as + turns it into text.
  function OnesText(n: nat): string { if n < 20 then ONES[n] else "undefined" }

  // The parts pushed so far read as these words.
  ghost predicate Shows(parts: seq<string>, words: seq<Word>) {
    Join(parts, ' ') == Text(words) && (parts == [] <==> words == [])
  }

  method ConvertIndianNumber(n: nat) returns (text: string)
    ensures text == Text(IndianWords(n))
    decreases n
  {
    TextOne(Zero);
    if n == 0 { return "Zero"; }
    var num := n;
    var crore := num / CRORE;
    num := num % CRORE;
    var lakh := num / LAKH;
    num := num % LAKH;
    var thousand := num / THOUSAND;
    num := num % THOUSAND;
    var crores := "";
    if crore > 0 { crores := ConvertIndianNumber(crore); }
    var lakhs := ConvertTwoDigits(lakh);
    var thousands := ConvertTwoDigits(thousand);
    text := Assemble(crores, IndianWords(crore), crore, Crore, lakhs, TwoWords(lakh), lakh, Lakh,
                     thousands, TwoWords(thousand), thousand, num);
  }

  method ConvertWesternNumber(n: nat) returns (text: string)
    ensures text == Text(WesternWords(n))
  {
    TextOne(Zero);
    if n == 0 { return "Zero"; }
    var num := n;
    var billion := num / BILLION;
    num := num % BILLION;
    var million := num / MILLION;
    num := num % MILLION;
    var thousand := num / THOUSAND;
    num := num % THOUSAND;
    var billions := ConvertThreeDigits(billion);
    var millions := ConvertThreeDigits(million);
    var thousands := ConvertThreeDigits(thousand);
    text := Assemble(billions, ThreeWords(billion), billion, Billion, millions, ThreeWords(million), million, Million,
                     thousands, ThreeWords(thousand), thousand, num);
  }

  // The parts of a number, largest first: each positive one is pushed with its scale word, then the
  // last three digits; and the parts are joined.
  method Assemble(top: string, ghost topWords: seq<Word>, tops: nat, topScale: Word,
                  middle: string, ghost middleWords: seq<Word>, middles: nat, middleScale: Word,
                  low: string, ghost lowWords: seq<Word>, lows: nat, remainder: nat) returns (text: string)
    requires tops > 0 ==> top == Text(topWords) && topWords != []
    requires middles > 0 ==> middle == Text(middleWords) && middleWords != []
    requires lows > 0 ==> low == Text(lowWords) && lowWords != []
    requires tops + middles + lows + remainder > 0
    ensures text == Text(Scaled(topWords, tops, topScale) + Scaled(middleWords, middles, middleScale) +
                         Scaled(lowWords, lows, Thousand) + ThreeWords(remainder))
  {
    ghost var a, b := Scaled(topWords, tops, topScale), Scaled(middleWords, middles, middleScale);
    ghost var c := Scaled(lowWords, lows, Thousand);
    var parts := PushScaled([], [], top, topWords, tops, topScale);
    assert [] + a == a;
    parts := PushScaled(parts, a, middle, middleWords, middles, middleScale);
    parts := PushScaled(parts, a + b, low, lowWords, lows, Thousand);
    text := Finish(parts, a + b + c, remainder);
  }

  // if (n > 0) parts.push(part + ' ' + scale)
  method PushScaled(parts: seq<string>, ghost words: seq<Word>, part: string, ghost more: seq<Word>, n: nat,
      scale: Word)
    returns (parts': seq<string>)
    requires Shows(parts, words) && (n > 0 ==> part == Text(more) && more != [])
    ensures Shows(parts', words + Scaled(more, n, scale))
  {
    if n == 0 {
      assert words + Scaled(more, n, scale) == words;
      return parts;
    }
    TextOne(scale);
    TextAdds(more, [scale]);
    PartAdded(parts, words, part + " " + Spelling(scale), more + [scale]);
    return parts + [part + " " + Spelling(scale)];
  }

  // The last part, and the joined and trimmed text.
  method Finish(parts: seq<string>, ghost words: seq<Word>, remainder: nat) returns (text: string)
    requires Shows(parts, words) && (words != [] || remainder > 0)
    ensures text == Text(words + ThreeWords(remainder))
  {
    var all := parts;
    if remainder > 0 {
      var part := ConvertThreeDigits(remainder);
      PartAdded(parts, words, part, ThreeWords(remainder));
      all := all + [part];
    } else {
      assert words + ThreeWords(remainder) == words;
    }
    TrimText(words + ThreeWords(remainder));
    return Trim(Join(all, ' '));
  }

  // ---- Joining, splitting and trimming ----

  lemma TextAdds(a: seq<Word>, b: seq<Word>)
    requires b != []
    ensures Text(a + b) == if a == [] then Text(b) else Text(a) + " " + Text(b)
  {
    if a == [] {
      assert a + b == b;
    } else {
      assert Spelled(a + b) == Spelled(a) + Spelled(b);
      JoinAdds(Spelled(a), Spelled(b), ' ');
    }
  }

  lemma TextOne(w: Word)
    ensures Text([w]) == Spelling(w)
  {
    assert Spelled([w]) == [Spelling(w)];
  }

  lemma TextPair(v: Word, w: Word)
    ensures Text([v, w]) == Spelling(v) + " " + Spelling(w)
  {
    TextOne(v);
    TextOne(w);
    TextAdds([v], [w]);
    assert [v] + [w] == [v, w];
  }

  lemma TwoText(n: nat)
    requires n < 100
    ensures Text(TwoWords(n)) ==
      if n < 20 then ONES[n] else TENS[n / 10] + if n % 10 > 0 then " " + ONES[n % 10] else ""
  {
    if n == 0 {
    } else if n < 20 {
      TextOne(Small(n));
    } else {
      TextOne(Ten(n / 10));
      if n % 10 > 0 { TextPair(Ten(n / 10), Small(n % 10)); }
    }
  }

  lemma HundredText(hundred: nat)
    ensures Text(Hundreds(hundred)) ==
      if hundred > 0 then OnesText(hundred) + " Hundred" else ""
  {
    if hundred > 0 {
      TextPair(OnesWord(hundred), Hundred);
      assert " " + "Hundred" == " Hundred";
    }
  }

  lemma ThreeText(hundred: nat, rest: nat)
    requires rest < 100
    ensures Text(Hundreds(hundred)) == "" <==> hundred == 0
    ensures Text(Hundreds(hundred) + TwoWords(rest)) ==
      if rest == 0 then Text(Hundreds(hundred))
      else if hundred == 0 then Text(TwoWords(rest)) else Text(Hundreds(hundred)) + " " + Text(TwoWords(rest))
  {
    HundredText(hundred);
    if rest > 0 {
      TextAdds(Hundreds(hundred), TwoWords(rest));
    } else {
      assert Hundreds(hundred) + TwoWords(rest) == Hundreds(hundred);
    }
  }

  lemma PartAdded(parts: seq<string>, words: seq<Word>, part: string, more: seq<Word>)
    requires Shows(parts, words) && part == Text(more) && more != []
    ensures Shows(parts + [part], words + more)
  {
    TextAdds(words, more);
    if parts == [] { assert parts + [part] == [part]; } else { JoinAdds(parts, [part], ' '); }
  }

  ghost predicate Plain(word: string) { word != "" && forall i :: 0 <= i < |word| ==> !IsSpace(word[i]) }

  lemma OnesPlain(n: OnesIndex)
    ensures Plain(ONES[n])
  {
  }

  lemma TensPlain(n: TensIndex)
    ensures Plain(TENS[n])
  {
  }

  lemma WordsArePlain(w: Word)
    ensures Plain(Spelling(w))
  {
    match w
    case Small(n) => OnesPlain(n);
    case Ten(t) => TensPlain(t);
    case _ =>
  }

  lemma SplitText(words: seq<Word>)
    requires words != []
    ensures Split(Text(words), ' ') == Spelled(words)
  {
    forall i | 0 <= i < |words| ensures Free(Spelled(words)[i], ' ') { WordsArePlain(words[i]); }
    SplitJoin(Spelled(words), ' ');
  }

  lemma TrimText(words: seq<Word>)
    requires words != []
    ensures Trim(Text(words)) == Text(words)
  {
    var n := |words| - 1;
    WordsArePlain(words[0]);
    WordsArePlain(words[n]);
    TextOne(words[0]);
    TextOne(words[n]);
    if n == 0 {
      assert words == [words[0]];
      TrimPlain(Spelling(words[0]), "", "");
    } else {
      var middle := Between(words);
      TrimPlain(Spelling(words[0]), middle, Spelling(words[n]));
    }
  }

  lemma Between(words: seq<Word>) returns (middle: string)
    requires |words| > 1
    ensures Text(words) == Spelling(words[0]) + middle + Spelling(words[|words| - 1])
  {
    var first, inner, last := words[0], words[1..|words| - 1], words[|words| - 1];
    assert words == [first] + inner + [last];
    TextOne(first);
    TextOne(last);
    if inner == [] {
      assert words == [first, last];
      TextPair(first, last);
      middle := " ";
    } else {
      TextThree([first], inner, [last]);
      middle := " " + Text(inner) + " ";
    }
  }

  lemma TextThree(a: seq<Word>, b: seq<Word>, c: seq<Word>)
    requires a != [] && b != [] && c != []
    ensures Text(a + b + c) == Text(a) + (" " + Text(b) + " ") + Text(c)
  {
    TextAdds(a, b);
    TextAdds(a + b, c);
    Regroup(Text(a), Text(b), Text(c));
  }

  lemma Regroup(a: string, b: string, c: string)
    ensures (a + " " + b) + " " + c == a + (" " + b + " ") + c
  {
  }

  lemma TrimPlain(first: string, middle: string, last: string)
    requires Plain(first) && (Plain(last) || (middle == "" && last == ""))
    ensures Trim(first + middle + last) == first + middle + last
  {
    var text := first + middle + last;
    assert text[0] == first[0];
    if last == "" {
      assert text[|text| - 1] == first[|first| - 1];
    } else {
      assert text[|text| - 1] == last[|last| - 1];
    }
  }

  // ---- Reading the words ----

  lemma {:induction false} ReadAllAdds(t: Tally, a: seq<Word>, b: seq<Word>)
    ensures ReadAll(t, a + b) == match ReadAll(t, a) case None => None case Some(u) => ReadAll(u, b)
  {
    if b == [] {
      assert a + b == a;
    } else {
      var n := |b| - 1;
      assert (a + b)[..|a| + n] == a + b[..n];
      ReadAllAdds(t, a, b[..n]);
    }
  }

  lemma ReadOne(t: Tally, w: Word)
    ensures ReadAll(t, [w]) == Read(t, w)
  {
    assert [w][..0] == [];
  }

  lemma ReadTwo(t: Tally, n: nat)
    requires n < 100
    ensures ReadAll(t, TwoWords(n)) == Some(Tally(t.total, t.current + n))
  {
    if 0 < n < 20 {
      ReadOne(t, Small(n));
    } else if n >= 20 {
      ReadOne(t, Ten(n / 10));
      if n % 10 > 0 { assert TwoWords(n)[..1] == [Ten(n / 10)]; }
    }
  }

  lemma ReadThree(total: nat, n: nat)
    ensures ReadAll(Tally(total, 0), ThreeWords(n)) == if n < 2000 then Some(Tally(total, n)) else None
  {
    var t := Tally(total, 0);
    ReadAllAdds(t, Hundreds(n / 100), TwoWords(n % 100));
    if n / 100 > 0 {
      assert Hundreds(n / 100)[..1] == [OnesWord(n / 100)];
      ReadOne(t, OnesWord(n / 100));
    }
    ReadTwo(Tally(total, n / 100 * 100), n % 100);
  }

  // A number below a scale word adds that many of its units; no number adds nothing.
  lemma ReadScaled(total: nat, words: seq<Word>, n: nat, scale: Word, unit: nat)
    requires (scale == Lakh && unit == LAKH) || (scale == Thousand && unit == THOUSAND) ||
      (scale == Million && unit == MILLION)
    requires ReadAll(Tally(total, 0), words) == Some(Tally(total, n))
    ensures ReadAll(Tally(total, 0), Scaled(words, n, scale)) == Some(Tally(total + n * unit, 0))
  {
    assert (words + [scale])[..|words|] == words;
  }

  lemma ReadScaledTwo(total: nat, n: nat, scale: Word, unit: nat)
    requires n < 100 && ((scale == Lakh && unit == LAKH) || (scale == Thousand && unit == THOUSAND))
    ensures ReadAll(Tally(total, 0), Scaled(TwoWords(n), n, scale)) == Some(Tally(total + n * unit, 0))
  {
    ReadTwo(Tally(total, 0), n);
    ReadScaled(total, TwoWords(n), n, scale, unit);
  }

  lemma ReadScaledThree(total: nat, n: nat, scale: Word, unit: nat)
    requires n < 2000 && ((scale == Million && unit == MILLION) || (scale == Thousand && unit == THOUSAND))
    ensures ReadAll(Tally(total, 0), Scaled(ThreeWords(n), n, scale)) == Some(Tally(total + n * unit, 0))
  {
    ReadThree(total, n);
    ReadScaled(total, ThreeWords(n), n, scale, unit);
  }

  lemma ReadBillions(n: nat)
    requires n < 2000
    ensures ReadAll(Tally(0, 0), Scaled(ThreeWords(n), n, Billion)) == Some(Tally(n * BILLION, 0))
  {
    ReadThree(0, n);
    ReadTop(ThreeWords(n), n, Billion, BILLION);
  }

  // A crore or billion multiplies all that was read.
  lemma ReadTop(words: seq<Word>, n: nat, scale: Word, unit: nat)
    requires (scale == Crore && unit == CRORE) || (scale == Billion && unit == BILLION)
    requires n > 0 ==> ValueOf(words) == Some(n)
    ensures ReadAll(Tally(0, 0), Scaled(words, n, scale)) == Some(Tally(n * unit, 0))
  {
    assert (words + [scale])[..|words|] == words;
  }

  lemma ReadUpTo(t: Tally, a: seq<Word>, u: Tally, b: seq<Word>, v: Option<Tally>)
    requires ReadAll(t, a) == Some(u) && ReadAll(u, b) == v
    ensures ReadAll(t, a + b) == v
  {
    ReadAllAdds(t, a, b);
  }

  lemma ReadNothing(t: Tally, a: seq<Word>, b: seq<Word>)
    requires ReadAll(t, a) == None
    ensures ReadAll(t, a + b) == None
  {
    ReadAllAdds(t, a, b);
  }

  ghost predicate ReadsAs(words: seq<Word>, total: nat) { ReadAll(Tally(0, 0), words) == Some(Tally(total, 0)) }

  lemma ThenTwo(words: seq<Word>, total: nat, n: nat, scale: Word, unit: nat)
    requires ReadsAs(words, total)
    requires n < 100 && ((scale == Lakh && unit == LAKH) || (scale == Thousand && unit == THOUSAND))
    ensures ReadsAs(words + Scaled(TwoWords(n), n, scale), total + n * unit)
  {
    ReadScaledTwo(total, n, scale, unit);
    ReadUpTo(Tally(0, 0), words, Tally(total, 0), Scaled(TwoWords(n), n, scale), Some(Tally(total + n * unit, 0)));
  }

  lemma ThenThree(words: seq<Word>, total: nat, n: nat, scale: Word, unit: nat)
    requires ReadsAs(words, total)
    requires n < 2000 && ((scale == Million && unit == MILLION) || (scale == Thousand && unit == THOUSAND))
    ensures ReadsAs(words + Scaled(ThreeWords(n), n, scale), total + n * unit)
  {
    ReadScaledThree(total, n, scale, unit);
    ReadUpTo(Tally(0, 0), words, Tally(total, 0), Scaled(ThreeWords(n), n, scale), Some(Tally(total + n * unit, 0)));
  }

  lemma ThenRest(words: seq<Word>, total: nat, rest: nat)
    requires ReadsAs(words, total) && rest < 1000
    ensures ValueOf(words + ThreeWords(rest)) == Some(total + rest)
  {
    ReadThree(total, rest);
    ReadUpTo(Tally(0, 0), words, Tally(total, 0), ThreeWords(rest), Some(Tally(total, rest)));
  }

  lemma {:induction false} IndianReads(n: nat)
    ensures ValueOf(IndianWords(n)) == Some(n)
  {
    if n == 0 {
      ReadOne(Tally(0, 0), Zero);
    } else {
      CroreParts(n);
      if n / CRORE > 0 { IndianReads(n / CRORE); }
      ReadTop(IndianWords(n / CRORE), n / CRORE, Crore, CRORE);
      IndianReadsFrom(Scaled(IndianWords(n / CRORE), n / CRORE, Crore), n / CRORE * CRORE, n % CRORE);
    }
  }

  lemma CroreParts(n: nat)
    ensures n == n / CRORE * CRORE + n % CRORE && n % CRORE < CRORE
    ensures n > 0 ==> n / CRORE < n
  {
  }

  lemma IndianReadsFrom(crores: seq<Word>, top: nat, n: nat)
    requires ReadsAs(crores, top) && n < CRORE
    ensures ValueOf(crores + Scaled(TwoWords(n / LAKH), n / LAKH, Lakh) +
                    Scaled(TwoWords(n % LAKH / THOUSAND), n % LAKH / THOUSAND, Thousand) +
                      ThreeWords(n % LAKH % THOUSAND)) == Some(top + n)
  {
    var lakh, thousand, rest := n / LAKH, n % LAKH / THOUSAND, n % LAKH % THOUSAND;
    var a := crores + Scaled(TwoWords(lakh), lakh, Lakh);
    ThenTwo(crores, top, lakh, Lakh, LAKH);
    ThenTwo(a, top + lakh * LAKH, thousand, Thousand, THOUSAND);
    ThenRest(a + Scaled(TwoWords(thousand), thousand, Thousand), top + lakh * LAKH + thousand * THOUSAND, rest);
  }

  lemma WesternParts(n: nat)
    ensures n == n / MILLION * MILLION + n % MILLION / THOUSAND * THOUSAND + n % MILLION % THOUSAND
    ensures n % MILLION / THOUSAND < 1000 && n % MILLION % THOUSAND < 1000
    ensures n < BILLION ==> n / MILLION < 1000
  {
  }

  lemma WesternReadsFrom(billions: seq<Word>, top: nat, n: nat)
    requires ReadsAs(billions, top) && n < BILLION
    ensures ValueOf(billions + Scaled(ThreeWords(n / MILLION), n / MILLION, Million) +
                    Scaled(ThreeWords(n % MILLION / THOUSAND), n % MILLION / THOUSAND, Thousand) +
                      ThreeWords(n % MILLION % THOUSAND)) == Some(top + n)
  {
    var million, thousand, rest := n / MILLION, n % MILLION / THOUSAND, n % MILLION % THOUSAND;
    var a := billions + Scaled(ThreeWords(million), million, Million);
    WesternParts(n);
    ThenThree(billions, top, million, Million, MILLION);
    ThenThree(a, top + million * MILLION, thousand, Thousand, THOUSAND);
    ThenRest(a + Scaled(ThreeWords(thousand), thousand, Thousand), top + million * MILLION + thousand * THOUSAND, rest);
  }

  lemma WesternUnread(billion: nat, b: seq<Word>, c: seq<Word>, d: seq<Word>)
    requires billion >= 2000
    ensures ValueOf(Scaled(ThreeWords(billion), billion, Billion) + b + c + d) == None
  {
    var a := Scaled(ThreeWords(billion), billion, Billion);
    ReadThree(0, billion);
    ReadNothing(Tally(0, 0), ThreeWords(billion), [Billion]);
    ReadNothing(Tally(0, 0), a, b);
    ReadNothing(Tally(0, 0), a + b, c);
    ReadNothing(Tally(0, 0), a + b + c, d);
  }

  lemma WesternReadsBelow(n: nat)
    requires 0 < n < 2000 * BILLION
    ensures ValueOf(WesternWords(n)) == Some(n)
  {
    ReadBillions(n / BILLION);
    WesternReadsFrom(Scaled(ThreeWords(n / BILLION), n / BILLION, Billion), n / BILLION * BILLION, n % BILLION);
  }

  lemma WesternUnreadAbove(n: nat)
    requires n >= 2000 * BILLION
    ensures ValueOf(WesternWords(n)) == None
  {
    var million, thousand := n % BILLION / MILLION, n % BILLION % MILLION / THOUSAND;
    WesternUnread(n / BILLION, Scaled(ThreeWords(million), million, Million),
                  Scaled(ThreeWords(thousand), thousand, Thousand), ThreeWords(n % BILLION % MILLION % THOUSAND));
  }

  lemma WesternReads(n: nat)
    ensures ValueOf(WesternWords(n)) == if n < 2000 * BILLION then Some(n) else None
  {
    if n == 0 { ReadOne(Tally(0, 0), Zero); }
    else if n < 2000 * BILLION { WesternReadsBelow(n); }
    else { WesternUnreadAbove(n); }
  }

  // ---- Main results, on texts ----

  lemma OnesDiffer(i: OnesIndex, k: OnesIndex)
    requires ONES[i] == ONES[k]
    ensures i == k
  {
    assert forall i, k :: 0 <= i < k < |ONES| ==> ONES[i] != ONES[k];
  }

  lemma TensDiffer(i: TensIndex, k: TensIndex)
    requires TENS[i] == TENS[k]
    ensures i == k
  {
    assert forall i, k :: 2 <= i < k < |TENS| ==> TENS[i] != TENS[k];
  }

  lemma OnesAreNotTens(i: OnesIndex, k: TensIndex)
    ensures ONES[i] != TENS[k]
  {
  }

  predicate IsDigitWord(w: Word) { w.Small? || w.Ten? }

  lemma DigitsAreNotScales(w: Word, v: Word)
    requires IsDigitWord(w) && !IsDigitWord(v)
    ensures Spelling(w) != Spelling(v)
  {
  }

  lemma ScalesDiffer(v: Word, w: Word)
    requires !IsDigitWord(v) && !IsDigitWord(w) && Spelling(v) == Spelling(w)
    ensures v == w
  {
    assert |Spelling(v)| == |Spelling(w)| && Spelling(v)[0] == Spelling(w)[0];
  }

  lemma SpellingDiffers(v: Word, w: Word)
    requires Spelling(v) == Spelling(w)
    ensures v == w
  {
    if IsDigitWord(v) != IsDigitWord(w) {
      if IsDigitWord(v) { DigitsAreNotScales(v, w); } else { DigitsAreNotScales(w, v); }
    } else if !IsDigitWord(v) {
      ScalesDiffer(v, w);
    } else if v.Small? && w.Small? {
      OnesDiffer(v.n, w.n);
    } else if v.Ten? && w.Ten? {
      TensDiffer(v.t, w.t);
    } else if v.Small? {
      OnesAreNotTens(v.n, w.t);
    } else {
      OnesAreNotTens(w.n, v.t);
    }
  }

  lemma SpelledDiffers(v: seq<Word>, w: seq<Word>)
    requires Spelled(v) == Spelled(w)
    ensures v == w
  {
    assert |v| == |Spelled(v)| == |w|;
    forall i | 0 <= i < |v| ensures v[i] == w[i] {
      assert Spelled(v)[i] == Spelled(w)[i];
      SpellingDiffers(v[i], w[i]);
    }
  }

  // A text of number words has one meaning.
  lemma MeaningIsUnique(text: string, n: nat, m: nat)
    ensures Means(text, n) && Means(text, m) ==> n == m
  {
    if Means(text, n) && Means(text, m) {
      var v :| Split(text, ' ') == Spelled(v) && ValueOf(v) == Some(n);
      var w :| Split(text, ' ') == Spelled(w) && ValueOf(w) == Some(m);
      SpelledDiffers(v, w);
    }
  }

  // Every natural number can be read back from its Indian words, however many crores it has.
  lemma IndianTextMeans(n: nat)
    ensures Means(Text(IndianWords(n)), n)
  {
    IndianReads(n);
    SplitText(IndianWords(n));
  }

  lemma IndianTextsDiffer(n: nat, m: nat)
    requires Text(IndianWords(n)) == Text(IndianWords(m))
    ensures n == m
  {
    IndianTextMeans(n);
    IndianTextMeans(m);
    MeaningIsUnique(Text(IndianWords(n)), n, m);
  }

  // A number can be read back from its Western words exactly when it is below two trillion.
  lemma WesternTextMeans(n: nat)
    ensures Means(Text(WesternWords(n)), n) <==> n < 2000 * BILLION
  {
    WesternReads(n);
    SplitText(WesternWords(n));
    if Means(Text(WesternWords(n)), n) {
      var w :| Spelled(WesternWords(n)) == Spelled(w) && ValueOf(w) == Some(n);
      SpelledDiffers(w, WesternWords(n));
    }
  }

  // ---- The words of the numbers ----

  lemma {:induction false} SmallNumbers()
    ensures Spelling(Small(1)) == "One" && Spelling(Small(2)) == "Two" && Spelling(Small(3)) == "Three"
    ensures Spelling(Small(4)) == "Four" && Spelling(Small(5)) == "Five" && Spelling(Small(6)) == "Six"
    ensures Spelling(Small(7)) == "Seven" && Spelling(Small(8)) == "Eight" && Spelling(Small(9)) == "Nine"
    ensures Spelling(Small(10)) == "Ten" && Spelling(Small(11)) == "Eleven" && Spelling(Small(12)) == "Twelve"
    ensures Spelling(Small(13)) == "Thirteen" && Spelling(Small(14)) == "Fourteen" && Spelling(Small(15)) == "Fifteen"
    ensures Spelling(Small(16)) == "Sixteen" && Spelling(Small(17)) == "Seventeen" && Spelling(Small(18)) == "Eighteen"
    ensures Spelling(Small(19)) == "Nineteen"
  {
  }

  lemma {:induction false} TensAndScales()
    ensures Spelling(Ten(2)) == "Twenty" && Spelling(Ten(3)) == "Thirty" && Spelling(Ten(4)) == "Forty"
    ensures Spelling(Ten(5)) == "Fifty" && Spelling(Ten(6)) == "Sixty" && Spelling(Ten(7)) == "Seventy"
    ensures Spelling(Ten(8)) == "Eighty" && Spelling(Ten(9)) == "Ninety"
    ensures Spelling(Zero) == "Zero" && Spelling(Hundred) == "Hundred" && Spelling(Thousand) == "Thousand"
    ensures Spelling(Lakh) == "Lakh" && Spelling(Crore) == "Crore" && Spelling(Million) == "Million"
    ensures Spelling(Billion) == "Billion" && Spelling(Undefined) == "undefined"
  {
  }
}
