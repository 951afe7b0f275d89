// Concrete books in which the operations without every check go wrong: one bank, one statement line
// of 100 and one posted manual journal of 100.
module BankExamples {
  import Texts
  import opened Tables
  import opened Sums
  import opened PostingEngine
  import opened JournalReversal
  import opened LedgerLaws
  import opened BankAllocations
  import opened BankLaws
  import opened LedgerSteps
  import opened LegacyMatches
  import opened LegacyLaws
  import opened ManualReversal

  function Receipt(): Journal {
    Journal("JV/1", 20240101, Posted, [Line(0, 100, 0, None, None, None), Line(1, 0, 100, None, None, None)], None,
      None)
  }

  function OneLine(rows: seq<Match>, status: StatementStatus): Books {
    Books(false, "INR",
          [Account("Asset", Some(Debit), true, false, true, true, None),
           Account("Income", Some(Credit), true, false, true, true, None)],
          [100, 100], [Bank(Some(0), None, None, "INR", true, false)], [100], [], [], {}, {}, {}, [Receipt()],
          [Statement(0, 20240102, 100, Inflow, "INR", true, false, false, status)], rows, map[])
  }

  // A legacy match, and what verification makes of it.
  function ByDocument(source: Source, amount: Cents): Match { LegacyRow(0, source, amount, false) }

  function Promoted(amount: Cents): Match {
    Match(0, JournalSource(0), amount, MatchedStatus, Some(0), Some(LineRef(0, 0)), Verified, LegacyVerified, Active,
      Some(0), false)
  }

  lemma SumOfTwo<T>(x: T, y: T, f: T -> int)
    ensures Sum([x, y], f) == f(x) + f(y)
  {
    SumSnoc([x], y, f);
    SumSnoc([], x, f);
    assert [] + [x] == [x] && [x] + [y] == [x, y];
  }

  lemma SumOfOne<T>(x: T, f: T -> int)
    ensures Sum([x], f) == f(x)
  {
    SumSnoc([], x, f);
    assert [] + [x] == [x];
  }

  lemma ReceiptSums(b: Books)
    requires b.journals == [Receipt()]
    ensures Balances(Receipt().lines)
    ensures forall a :: AccountNet(b, a) == Sum(Receipt().lines, OnAccount(b.accounts, a))
    ensures forall k :: BankNet(b, k) == Sum(Receipt().lines, OnBank(b.accounts, k))
  {
    var debit, credit := Receipt().lines[0], Receipt().lines[1];
    SumOfTwo(debit, credit, DebitOf);
    SumOfTwo(debit, credit, CreditOf);
    forall a ensures AccountNet(b, a) == Sum(Receipt().lines, OnAccount(b.accounts, a)) {
      SumOfOne(Receipt(), JournalOnAccount(b.accounts, a));
    }
    forall k ensures BankNet(b, k) == Sum(Receipt().lines, OnBank(b.accounts, k)) {
      SumOfOne(Receipt(), JournalOnBank(b.accounts, k));
    }
  }

  lemma OneLineLedger(rows: seq<Match>, status: StatementStatus)
    ensures LedgerOk(OneLine(rows, status))
  {
    var b := OneLine(rows, status);
    var debit, credit := Receipt().lines[0], Receipt().lines[1];
    ReceiptSums(b);
    SumOfTwo(debit, credit, OnAccount(b.accounts, 0));
    SumOfTwo(debit, credit, OnAccount(b.accounts, 1));
    SumOfTwo(debit, credit, OnBank(b.accounts, b.banks[0]));
    assert SideTotal(b.accounts, b.balances, Debit, 1) == 100 && SideTotal(b.accounts, b.balances, Credit, 1) == 0;
  }

  // ---- A legacy match on a line marked MATCHED ----

  // Another document matched in part or in whole.
  lemma Enters(rows: seq<Match>, status: StatementStatus, source: Source, amount: Cents)
    requires status in {Unmatched, PartiallyMatched} && !source.Canonical? && amount > 0
    requires forall k :: 0 <= k < |rows| ==> rows[k].state == Legacy && rows[k].source != source
    requires MatchedSum(rows, 0) + amount <= 100
    ensures MatchLine(OneLine(rows, status), 0, source, amount, true) ==
      Entered(OneLine(rows + [ByDocument(source, amount)],
                      if MatchedSum(rows, 0) + amount == 100 then Matched else PartiallyMatched), |rows|)
  {
    var b := OneLine(rows, status);
    assert MatchProblem(b, 0, source, amount, true).None?;
  }

  // The first row can be verified as long as the others name other documents.
  lemma FirstIsVerifiable(rows: seq<Match>, status: StatementStatus, amount: Cents, reason: string, actor: string)
    requires rows != [] && rows[0] == ByDocument(JournalSource(0), amount) && 0 < amount <= 100
    requires status in {PartiallyMatched, Matched}
    requires forall k :: 0 <= k < |rows| ==> rows[k].state == Legacy
    requires forall k :: 0 < k < |rows| ==> rows[k].source != JournalSource(0)
    requires Sum(rows, OnStatementOrLegacy(0)) <= 100
    requires 10 <= |Texts.Trim(reason)| <= 1000 && actor != ""
    ensures VerifyRefusal(OneLine(rows, status), 0, 0, LineRef(0, 0), reason, actor).None?
  {
    var b := OneLine(rows, status);
    SumZero(rows, OnLineAnyIdentity(LineRef(0, 0)));
    assert !ManyProfiles(b, 0);
    assert LegacyStatementRefusal(b, 0, 0).None?;
    assert SoleLegacyMatch(b, 0);
    assert LegacyJournalRefusal(b, 0, 0).None?;
    assert Candidates(b, 0, 0, Inflow, amount) == {0};
  }

  lemma PromotedIsUsed(rows: seq<Match>, amount: Cents)
    requires rows != [] && rows[0].statement == 0
    requires forall k :: 0 <= k < |rows| ==> rows[k].state == Legacy
    ensures StatementUsed(rows[0 := Promoted(amount)], 0) == amount
  {
    SumZero(rows, OnStatement(0));
    ReplaceMovesUse(rows, 0, Promoted(amount));
  }

  lemma FirstVerified(rows: seq<Match>, status: StatementStatus, amount: Cents, reason: string, actor: string)
    requires rows != [] && rows[0] == ByDocument(JournalSource(0), amount) && 0 < amount <= 100
    requires status in {PartiallyMatched, Matched}
    requires forall k :: 0 <= k < |rows| ==> rows[k].state == Legacy
    requires forall k :: 0 < k < |rows| ==> rows[k].source != JournalSource(0)
    requires Sum(rows, OnStatementOrLegacy(0)) <= 100
    requires 10 <= |Texts.Trim(reason)| <= 1000 && actor != ""
    ensures Verify(OneLine(rows, status), 0, 0, LineRef(0, 0), reason, actor) ==
      Changed(OneLine(rows[0 := Promoted(amount)], Classify(amount, 100)), 0, Classify(amount, 100))
  {
    FirstIsVerifiable(rows, status, amount, reason, actor);
    PromotedIsUsed(rows, amount);
  }

  // Rows that are legacy matches, or the one verified allocation of journal line and statement line.
  ghost predicate PlainRows(rows: seq<Match>) {
    (forall k :: 0 <= k < |rows| ==> rows[k].state == Legacy || (k == 0 && rows[0] == Promoted(rows[0].amount))) &&
    (rows != [] && rows[0].state == Active ==> 0 < rows[0].amount <= 100)
  }

  lemma PlainRowsFit(b: Books)
    requires PlainRows(b.matches) && b.journals == [Receipt()] && |b.statements| == 1 && b.statements[0].amount == 100
    ensures AllocationsOk(b) && StatementsWithinCapacity(b) && LinesWithinCapacity(b)
  {
    forall s
      ensures 0 <= StatementUsed(b.matches, s) <= if s == 0 then 100 else 0
    {
      FirstOnly(b.matches, OnStatement(s));
    }
    forall l
      ensures 0 <= LineUsed(b.matches, l) <= if l == LineRef(0, 0) then 100 else 0
    {
      FirstOnly(b.matches, OnLine(l));
    }
  }

  lemma ConsistentRows(rows: seq<Match>, status: StatementStatus)
    requires PlainRows(rows)
    requires LegacyOn(rows, 0) || status == Classify(StatementUsed(rows, 0), 100)
    ensures BooksOk(OneLine(rows, status))
  {
    OneLineLedger(rows, status);
    PlainRowsFit(OneLine(rows, status));
  }

  // Only the first row counts.
  lemma FirstOnly(rows: seq<Match>, f: Match -> int)
    requires forall k :: 0 < k < |rows| ==> f(rows[k]) == 0
    ensures Sum(rows, f) == if rows == [] then 0 else f(rows[0])
  {
    if |rows| > 1 { FirstOnly(rows[..|rows| - 1], f); }
  }

  lemma {:induction false} WholeLineEntered()
    ensures MatchLine(OneLine([], Unmatched), 0, JournalSource(0), 100, true) ==
      Entered(OneLine([ByDocument(JournalSource(0), 100)], Matched), 0)
  {
    assert [] + [ByDocument(JournalSource(0), 100)] == [ByDocument(JournalSource(0), 100)];
    Enters([], Unmatched, JournalSource(0), 100);
  }

  // Matching the whole line by document marks it MATCHED while no allocation uses it; such books are
  // consistent.
  lemma {:induction false} MatchedByLegacyOnly()
    ensures var rows := [ByDocument(JournalSource(0), 100)];
      MatchLine(OneLine([], Unmatched), 0, JournalSource(0), 100, true) == Entered(OneLine(rows, Matched), 0) &&
      BooksOk(OneLine(rows, Matched)) && Classify(StatementUsed(rows, 0), 100) == Unmatched
  {
    var rows := [ByDocument(JournalSource(0), 100)];
    WholeLineEntered();
    assert LiveLegacy(rows[0]);
    ConsistentRows(rows, Matched);
    SumOfOne(rows[0], OnStatement(0));
  }

  // Its verification goes through.
  lemma {:induction false} LegacyOnlyVerified(reason: string, actor: string)
    requires 10 <= |Texts.Trim(reason)| <= 1000 && actor != ""
    ensures Verify(OneLine([ByDocument(JournalSource(0), 100)], Matched), 0, 0, LineRef(0, 0), reason, actor) ==
      Changed(OneLine([Promoted(100)], Matched), 0, Matched)
  {
    var row := ByDocument(JournalSource(0), 100);
    SumOfOne(row, OnStatementOrLegacy(0));
    FirstVerified([row], Matched, 100, reason, actor);
    assert [row][0 := Promoted(100)] == [Promoted(100)];
  }

  // ---- A dropped match that leaves the line MATCHED ----

  function TwoMatches(): seq<Match> { [ByDocument(JournalSource(0), 60), ByDocument(OtherSource(1), 40)] }
  function OneVerified(): seq<Match> { [Promoted(60), ByDocument(OtherSource(1), 40)] }
  function OneDropped(): seq<Match> { [Promoted(60), Deleted(0)] }

  lemma {:induction false} TwoEntered()
    ensures var rows := [ByDocument(JournalSource(0), 60)];
      MatchLine(OneLine([], Unmatched), 0, JournalSource(0), 60, true) == Entered(OneLine(rows, PartiallyMatched), 0) &&
      MatchLine(OneLine(rows, PartiallyMatched), 0, OtherSource(1), 40, true) ==
        Entered(OneLine(TwoMatches(), Matched), 1)
  {
    var first, second := ByDocument(JournalSource(0), 60), ByDocument(OtherSource(1), 40);
    assert [] + [first] == [first] && [first] + [second] == TwoMatches();
    Enters([], Unmatched, JournalSource(0), 60);
    SumOfOne(first, MatchedOn(0));
    Enters([first], PartiallyMatched, OtherSource(1), 40);
  }

  // Two documents of 60 and 40 matched to the line of 100, and the first one verified.
  lemma {:induction false} OneOfTwoVerified(reason: string, actor: string)
    requires 10 <= |Texts.Trim(reason)| <= 1000 && actor != ""
    ensures var rows := [ByDocument(JournalSource(0), 60)];
      MatchLine(OneLine([], Unmatched), 0, JournalSource(0), 60, true) == Entered(OneLine(rows, PartiallyMatched), 0) &&
      MatchLine(OneLine(rows, PartiallyMatched), 0, OtherSource(1), 40, true) ==
        Entered(OneLine(TwoMatches(), Matched), 1) &&
      Verify(OneLine(TwoMatches(), Matched), 0, 0, LineRef(0, 0), reason, actor) ==
        Changed(OneLine(OneVerified(), PartiallyMatched), 0, PartiallyMatched)
  {
    TwoEntered();
    SumOfTwo(TwoMatches()[0], TwoMatches()[1], OnStatementOrLegacy(0));
    FirstVerified(TwoMatches(), Matched, 60, reason, actor);
    assert TwoMatches()[0 := Promoted(60)] == OneVerified();
  }

  lemma {:induction false} SecondDropped()
    ensures Drop(OneLine(OneVerified(), PartiallyMatched), 1) == Entered(OneLine(OneDropped(), Matched), 1)
  {
    assert OneVerified()[1 := Deleted(0)] == OneDropped();
    assert OneDropped()[0].status == MatchedStatus;
  }

  lemma {:induction false} OneVerifiedIsOk()
    ensures BooksOk(OneLine(OneVerified(), PartiallyMatched))
  {
    assert LiveLegacy(OneVerified()[1]);
    ConsistentRows(OneVerified(), PartiallyMatched);
  }

  // Dropping the second then leaves the line MATCHED, with 60 of its 100 allocated and no legacy match
  // resting on it.
  lemma {:induction false} DropLeavesMatched()
    ensures BooksOk(OneLine(OneVerified(), PartiallyMatched)) && !BooksOk(OneLine(OneDropped(), Matched))
    ensures Drop(OneLine(OneVerified(), PartiallyMatched), 1) == Entered(OneLine(OneDropped(), Matched), 1)
    ensures StatementUsed(OneDropped(), 0) == 60 && !LegacyOn(OneDropped(), 0)
  {
    OneVerifiedIsOk();
    SecondDropped();
    SumOfTwo(OneDropped()[0], OneDropped()[1], OnStatement(0));
    assert !StatusClassified(OneLine(OneDropped(), Matched), 0);
  }

  // ---- Reversals by hand ----

  lemma MirrorNumbers()
    ensures "RV-" + "JV/1" == "RV-JV/1" && Texts.Trim("RV-JV/1") == "RV-JV/1"
    ensures "RV-" + "JV/2" == "RV-JV/2" && Texts.Trim("RV-JV/2") == "RV-JV/2" && Texts.Trim("JV/2") == "JV/2"
    ensures IsManual("JV/1") && IsManual("JV/2")
  {
  }

  // Two lines of 100 on the two accounts, under an unused number, are posted.
  lemma TwoLinesPost(b: Books, p: Payload)
    requires !b.recoveryLocked && b.locks == [] && b.sessions == []
    requires b.accounts == OneLine([], Unmatched).accounts && b.banks == OneLine([], Unmatched).banks
    requires p.date.Some? && p.date.value > FIRST_DATE && |p.lines| == 2
    requires forall i :: 0 <= i < 2 ==> p.lines[i].account < 2 && ReferencesOk(b, p.lines[i]) && LineOk(p.lines[i])
    requires p.lines[0].debit == p.lines[1].credit && p.lines[0].credit == p.lines[1].debit
    requires p.number != "" && Texts.Trim(p.number) == p.number && !NumberInUse(b, p.number)
    ensures Post(b, p).Done?
  {
    assert p.lines == [p.lines[0], p.lines[1]];
    SumOfTwo(p.lines[0], p.lines[1], DebitOf);
    SumOfTwo(p.lines[0], p.lines[1], CreditOf);
    assert !CutoffHit(b, p.date.value, p.lines);
    assert FirstProblem(p.lines, ShapeCheck()).None? && FirstProblem(p.lines, PostCheck(b)).None?;
  }

  lemma MirrorPosts(b: Books, j: Id, date: Date)
    requires !b.recoveryLocked && b.locks == [] && b.sessions == [] && date > FIRST_DATE
    requires b.accounts == OneLine([], Unmatched).accounts && b.banks == OneLine([], Unmatched).banks
    requires j < |b.journals| && b.journals[j].lines in {Receipt().lines, Reversal().lines}
    requires b.journals[j].number in {"JV/1", "JV/2"} && !NumberInUse(b, "RV-" + b.journals[j].number)
    ensures Post(b, MirrorPayload(b, j, date)).Done? && IsManual(b.journals[j].number)
  {
    MirrorNumbers();
    var lines := MirrorLines(b.journals[j].lines);
    assert lines == if b.journals[j].lines == Receipt().lines then Reversal().lines else Receipt().lines;
    TwoLinesPost(b, MirrorPayload(b, j, date));
  }

  // By hand, a journal goes through that posts, whether it is fit or not.
  lemma MadeButUnfit(b: Books, j: Id, date: Date, reason: string, stored: Option<string>)
    requires BooksOk(b) && j < |b.journals| && !FitToReverse(b, j)
    requires 3 <= |Texts.Trim(reason)| <= 1000 && stored in {None, Some(Texts.Trim(reason))}
    requires MirrorProblem(b, j).None? && IsManual(b.journals[j].number) && Post(b, MirrorPayload(b, j, date)).Done?
    ensures ReverseManual(b, j, date, reason, stored).Made? && !BooksOk(ReverseManual(b, j, date, reason, stored).books)
    ensures var after := ReverseManual(b, j, date, reason, stored).books;
      after.matches == b.matches && |after.journals| > j && after.journals[j].reversedBy.Some?
  {
    UnfitBreaksBooks(b, j, date, Texts.Trim(reason), stored);
  }

  // The journal under an active allocation: refused by reversePostedJournal, reversed by hand, and
  // then the allocation rests on a reversed journal.
  lemma {:induction false} AllocatedJournalReversed(reason: string)
    requires 3 <= |Texts.Trim(reason)| <= 1000
    ensures var b := OneLine([Promoted(100)], Matched);
      BooksOk(b) && Reverse(b, 0, "JV/2", 20240105, None) == Refused(AllocationActive) &&
      var outcome := ReverseManual(b, 0, 20240105, reason, None);
      outcome.Made? && !BooksOk(outcome.books) && outcome.books.matches == [Promoted(100)] &&
      |outcome.books.journals| > 0 && outcome.books.journals[0].reversedBy.Some?
  {
    var b := OneLine([Promoted(100)], Matched);
    SumOfOne(Promoted(100), OnStatement(0));
    ConsistentRows([Promoted(100)], Matched);
    assert b.matches[0].journal == Some(0) && HeldByBank(b, 0, None);
    MirrorNumbers();
    MirrorPosts(b, 0, 20240105);
    MadeButUnfit(b, 0, 20240105, reason, None);
  }

  // The receipt reversed under the number series of manual journals, as reversePostedJournal does it.
  function Reversal(): Journal {
    Journal("JV/2", 20240105, Posted, [Line(0, 0, 100, None, None, None), Line(1, 100, 0, None, None, None)], Some(0),
      None)
  }

  function Reversed(): Books {
    OneLine([], Unmatched).(journals := [Receipt().(reversedBy := Some(1)), Reversal()], balances := [0, 0],
      bankBalances := [0])
  }

  lemma {:induction false} ReceiptPosted()
    ensures Post(OneLine([], Unmatched), ReversalPayload(OneLine([], Unmatched), 0, "JV/2", 20240105)) ==
      Done(Reversed().(journals := [Receipt(), Reversal()]), 1)
  {
    var b := OneLine([], Unmatched);
    var p := ReversalPayload(b, 0, "JV/2", 20240105);
    MirrorNumbers();
    assert p.lines == Reversal().lines;
    TwoLinesPost(b, p);
    SumOfTwo(p.lines[0], p.lines[1], OnAccount(b.accounts, 0));
    SumOfTwo(p.lines[0], p.lines[1], OnAccount(b.accounts, 1));
    SumOfTwo(p.lines[0], p.lines[1], OnBank(b.accounts, b.banks[0]));
  }

  lemma {:induction false} ReceiptReversed()
    ensures Reverse(OneLine([], Unmatched), 0, "JV/2", 20240105, None) == Done(Reversed(), 1)
  {
    ReceiptPosted();
  }

  lemma {:induction false} ReversedIsOk()
    ensures BooksOk(Reversed())
  {
    ConsistentRows([], Unmatched);
    ReceiptReversed();
    ReverseStepKeepsBooks(OneLine([], Unmatched), 0, "JV/2", 20240105);
  }

  // The reversal is itself reversed by hand, when the reason is the same text; reversePostedJournal
  // refuses that.
  lemma {:induction false} ReversalReversed(reason: string)
    requires 3 <= |Texts.Trim(reason)| <= 1000
    ensures BooksOk(Reversed()) && Reverse(Reversed(), 1, "JV/3", 20240106, None) == Refused(IsReversal)
    ensures var outcome := ReverseManual(Reversed(), 1, 20240106, reason, Some(Texts.Trim(reason)));
      outcome.Made? && !BooksOk(outcome.books)
  {
    ReversedIsOk();
    MirrorNumbers();
    MirrorPosts(Reversed(), 1, 20240106);
    MadeButUnfit(Reversed(), 1, 20240106, reason, Some(Texts.Trim(reason)));
  }
}
