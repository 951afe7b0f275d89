// What booking the remainder of a statement line keeps, and that its removal takes it all back.
module EntryLaws {
  import Texts
  import opened Tables
  import opened Sums
  import PostingEngine
  import opened JournalReversal
  import opened LedgerLaws
  import opened BankAllocations
  import opened BankLaws
  import opened StatementReversal
  import opened LedgerSteps
  import opened LegacyMatches
  import opened LegacyLaws
  import opened StatementEntries

  // What a booked entry is made of.
  lemma {:induction false} BookedParts(b: Books, o: EntryOrder)
    requires CreateEntry(b, o).Booked?
    ensures EntryProblem(b, o).None? && PostingEngine.Post(b, EntryPayload(b, o)).Done?
    ensures |CreateEntry(b, o).books.statements| == |b.statements|
    ensures var after, posted := CreateEntry(b, o).books, PostingEngine.Post(b, EntryPayload(b, o)).books;
      after.matches == b.matches + [EntryRow(b, o, |b.journals|)] &&
      after.statements == WithStatus(b, o.statement, after.statements[o.statement].status) &&
      after == posted.(matches := after.matches, statements := after.statements) && CreateEntry(b, o).id == |b.matches|
  {
  }

  // From any state, the entry uses up its line, which is then matched.
  lemma {:induction false} EntryFillsLine(b: Books, o: EntryOrder)
    requires CreateEntry(b, o).Booked?
    ensures var after := CreateEntry(b, o).books;
      o.statement < |b.statements| && |after.statements| == |b.statements| &&
      StatementUsed(after.matches, o.statement) == b.statements[o.statement].amount &&
      after.statements[o.statement].status == Matched
  {
    BookedParts(b, o);
    SumSnoc(b.matches, EntryRow(b, o, |b.journals|), OnStatement(o.statement));
  }

  // The row just added uses the new journal's bank line, whole.
  lemma {:induction false} EntryLineFits(b: Books, o: EntryOrder)
    requires AllocationsOk(b) && CreateEntry(b, o).Booked?
    ensures var after, row := CreateEntry(b, o).books, EntryRow(b, o, |b.journals|);
      AllocationOk(after, row) &&
        LineUsed(after.matches, row.line.value) == LineAmount(after.journals, row.line.value) == row.amount
  {
    BookedParts(b, o);
    var row := EntryRow(b, o, |b.journals|);
    OneBankLine(b, o, BankIndex(b.statements[o.statement].direction));
    UnusedLine(b, row.line.value);
    SumSnoc(b.matches, row, OnLine(row.line.value));
  }

  lemma {:induction false} EntryKeepsAllocations(b: Books, o: EntryOrder)
    requires BooksOk(b) && CreateEntry(b, o).Booked?
    ensures AllocationsOk(CreateEntry(b, o).books)
  {
    var after, posted := CreateEntry(b, o).books, PostingEngine.Post(b, EntryPayload(b, o)).books;
    BookedParts(b, o);
    PostStepKeepsBooks(b, EntryPayload(b, o));
    EntryLineFits(b, o);
    forall m | 0 <= m < |after.matches| ensures AllocationOk(after, after.matches[m]) {
      if m < |b.matches| { assert AllocationOk(posted, b.matches[m]); }
    }
  }

  lemma {:induction false} EntryKeepsPlaced(b: Books, o: EntryOrder)
    requires AllocationsPlaced(b) && CreateEntry(b, o).Booked?
    ensures AllocationsPlaced(CreateEntry(b, o).books)
  {
    BookedParts(b, o);
    OneBankLine(b, o, BankIndex(b.statements[o.statement].direction));
    OthersStayPlaced(b, CreateEntry(b, o).books, |b.matches|);
  }

  lemma {:induction false} EntryKeepsStatements(b: Books, o: EntryOrder)
    requires StatementsWithinCapacity(b) && AllClassified(b) && CreateEntry(b, o).Booked?
    ensures StatementsWithinCapacity(CreateEntry(b, o).books) && AllClassified(CreateEntry(b, o).books)
  {
    var after, row := CreateEntry(b, o).books, EntryRow(b, o, |b.journals|);
    BookedParts(b, o);
    AllocateMovesUse(b, row);
    LegacyElsewhereAdded(b.matches, row);
    EntryFillsLine(b, o);
    forall t | 0 <= t < |after.statements| ensures StatusClassified(after, t) { assert StatusClassified(b, t); }
  }

  lemma {:induction false} EntryKeepsLines(b: Books, o: EntryOrder)
    requires BooksOk(b) && CreateEntry(b, o).Booked?
    ensures LinesWithinCapacity(CreateEntry(b, o).books)
  {
    var posted := PostingEngine.Post(b, EntryPayload(b, o)).books;
    BookedParts(b, o);
    PostStepKeepsBooks(b, EntryPayload(b, o));
    AllocateMovesUse(b, EntryRow(b, o, |b.journals|));
    EntryLineFits(b, o);
    assert LinesWithinCapacity(posted);
  }

  lemma {:induction false} EntryKeepsBooks(b: Books, o: EntryOrder)
    requires BooksOk(b) && CreateEntry(b, o).Booked?
    ensures BooksOk(CreateEntry(b, o).books)
  {
    BookedParts(b, o);
    PostStepKeepsBooks(b, EntryPayload(b, o));
    EntryKeepsAllocations(b, o);
    EntryKeepsPlaced(b, o);
    EntryKeepsStatements(b, o);
    EntryKeepsLines(b, o);
    LedgerKeptByBank(PostingEngine.Post(b, EntryPayload(b, o)).books, CreateEntry(b, o).books);
  }

  lemma {:induction false} EntryKeepsBalances(b: Books, o: EntryOrder)
    requires BalancesOk(b) && CreateEntry(b, o).Booked?
    ensures BalancesOk(CreateEntry(b, o).books)
  {
    BookedParts(b, o);
    PostKeepsBalances(b, EntryPayload(b, o));
    BalancesKeptByBank(PostingEngine.Post(b, EntryPayload(b, o)).books, CreateEntry(b, o).books);
  }

  lemma {:induction false} EntryKeepsMatched(b: Books, o: EntryOrder)
    requires MatchedWithin(b) && CreateEntry(b, o).Booked?
    ensures MatchedWithin(CreateEntry(b, o).books)
  {
    var s := o.statement;
    BookedParts(b, o);
    forall k | 0 <= k < |b.matches| ensures MatchedOn(s)(b.matches[k]) == OnStatement(s)(b.matches[k]) {
      assert RowSound(b.matches[k]);
      assert !LegacyOnBank(b, b.statements[s].bank);
    }
    SumSame(b.matches, MatchedOn(s), OnStatement(s));
    AddedMatched(b, CreateEntry(b, o).books, EntryRow(b, o, |b.journals|));
  }

  // ---- Booking and removing ----

  // The removal of an entry just booked.
  function RemoveEntry(b: Books, o: EntryOrder, reason: string, number: string, today: Date): Removal
    requires CreateEntry(b, o).Booked?
  {
    RemoveCreated(CreateEntry(b, o).books, o.statement, Some(|b.matches|), reason, number, today)
  }

  lemma {:induction false} RemovedEntryParts(b: Books, o: EntryOrder, reason: string, number: string, today: Date)
    requires CreateEntry(b, o).Booked? && RemoveEntry(b, o, reason, number, today).Removed?
    ensures var mid, m, row := CreateEntry(b, o).books, |b.matches|, EntryRow(b, o, |b.journals|);
      var reversed := Reverse(mid, |b.journals|, number, today, Some(m));
      var end := RemoveEntry(b, o, reason, number, today).books;
      reversed.Done? && mid.matches == b.matches + [row] && end.matches == mid.matches[m := Released(row)] &&
      end.balances == reversed.books.balances && end.bankBalances == reversed.books.bankBalances &&
      Recompute(reversed.books.(matches := end.matches), o.statement, m) ==
        Changed(end, m, end.statements[o.statement].status)
  {
    BookedParts(b, o);
    RemovalParts(CreateEntry(b, o).books, o.statement, Some(|b.matches|), reason, number, today);
  }

  // From any state: removing the entry just booked gives back every use of a statement or journal line,
  // and the status that the other allocations of its line stand for.
  lemma {:induction false} RemovalFreesLines(b: Books, o: EntryOrder, reason: string, number: string, today: Date)
    requires CreateEntry(b, o).Booked? && RemoveEntry(b, o, reason, number, today).Removed?
    ensures var end := RemoveEntry(b, o, reason, number, today).books;
      (forall t :: StatementUsed(end.matches, t) == StatementUsed(b.matches, t)) &&
      (forall l :: LineUsed(end.matches, l) == LineUsed(b.matches, l)) &&
      |end.statements| == |b.statements| && o.statement < |b.statements| &&
      end.statements[o.statement].status ==
        Classify(StatementUsed(b.matches, o.statement), b.statements[o.statement].amount)
  {
    BookedParts(b, o);
    RemovedEntryParts(b, o, reason, number, today);
    AddedAndReleased(b, EntryRow(b, o, |b.journals|));
  }

  // A row that is added and then released uses nothing.
  lemma AddedAndReleased(b: Books, row: Match)
    requires row.state == Active
    ensures var matches := (b.matches + [row])[|b.matches| := Released(row)];
      (forall t :: StatementUsed(matches, t) == StatementUsed(b.matches, t)) &&
      (forall l :: LineUsed(matches, l) == LineUsed(b.matches, l))
  {
    AllocateMovesUse(b, row);
    ReplaceMovesUse(b.matches + [row], |b.matches|, Released(row));
  }

  // The new journal in the books of a booked entry.
  lemma {:induction false} BookedJournal(b: Books, o: EntryOrder)
    requires CreateEntry(b, o).Booked?
    ensures var mid, lines := CreateEntry(b, o).books, EntryPayload(b, o).lines;
      |mid.journals| == |b.journals| + 1 && mid.accounts == b.accounts && mid.banks == b.banks &&
      mid.journals[|b.journals|].lines == lines && mid.journals[|b.journals|].status == Posted &&
      mid.journals[|b.journals|].reversalOf.None? && mid.journals[|b.journals|].reversedBy.None? && |lines| == 2 &&
      mid.balances == PostingEngine.AccountsMoved(b, lines) && mid.bankBalances == PostingEngine.BanksMoved(b, lines)
  {
    BookedParts(b, o);
  }

  lemma MovedAndBack(b: Books, mid: Books, end: Books, lines: seq<Line>)
    requires SameLengths(b) && |end.balances| == |b.balances| && |end.bankBalances| == |b.bankBalances|
    requires mid.balances == PostingEngine.AccountsMoved(b, lines) &&
      mid.bankBalances == PostingEngine.BanksMoved(b, lines)
    requires forall a :: 0 <= a < |b.accounts| ==>
      end.balances[a] == mid.balances[a] - Sum(lines, PostingEngine.OnAccount(b.accounts, a))
    requires forall k :: 0 <= k < |b.banks| ==>
      end.bankBalances[k] == mid.bankBalances[k] - Sum(lines, PostingEngine.OnBank(b.accounts, b.banks[k]))
    ensures end.balances == b.balances && end.bankBalances == b.bankBalances
  {
  }

  // And every account and bank balance.
  lemma {:induction false} RemovalRestoresBalances(b: Books, o: EntryOrder, reason: string, number: string, today: Date)
    requires SameLengths(b) && CreateEntry(b, o).Booked? && RemoveEntry(b, o, reason, number, today).Removed?
    ensures var end := RemoveEntry(b, o, reason, number, today).books;
      end.balances == b.balances && end.bankBalances == b.bankBalances
  {
    var mid, end := CreateEntry(b, o).books, RemoveEntry(b, o, reason, number, today).books;
    var reversed := Reverse(mid, |b.journals|, number, today, Some(|b.matches|)).books;
    BookedJournal(b, o);
    RemovedEntryParts(b, o, reason, number, today);
    ReversalHasZeroNetEffect(mid, |b.journals|, number, today, Some(|b.matches|));
    MovedAndBack(b, mid, reversed, EntryPayload(b, o).lines);
  }

  // No other allocation holds the new journal.
  lemma {:induction false} HeldByItsOwn(b: Books, o: EntryOrder)
    requires AllocationsOk(b) && CreateEntry(b, o).Booked?
    ensures !HeldByBank(CreateEntry(b, o).books, |b.journals|, Some(|b.matches|))
  {
    var matches, m := CreateEntry(b, o).books.matches, |b.matches|;
    BookedParts(b, o);
    assert forall k :: 0 <= k < m ==> AllocationOk(b, b.matches[k]) && matches[k] == b.matches[k];
  }

  lemma {:induction false} OnlyItsOwn(b: Books, o: EntryOrder)
    requires AllocationsOk(b) && CreateEntry(b, o).Booked?
    ensures var mid, m, j := CreateEntry(b, o).books, |b.matches|, |b.journals|;
      !HeldByBank(mid, j, Some(m)) && Exempt(mid, j, m) && CreatedHere(mid, o.statement, m) &&
      JournalOf(mid.matches[m]) == Some(j) && Exempted(mid.matches[m], m) == Some(m)
  {
    HeldByItsOwn(b, o);
    BookedParts(b, o);
  }

  lemma {:induction false} EntryReversible(b: Books, o: EntryOrder, number: string, today: Date)
    requires BooksOk(b) && CreateEntry(b, o).Booked?
    ensures var mid, m, j := CreateEntry(b, o).books, |b.matches|, |b.journals|;
      j < |mid.journals| &&
      (Reverse(mid, j, number, today, Some(m)).Done? <==>
        PostingEngine.Post(mid, ReversalPayload(mid, j, number, today)).Done?)
  {
    OnlyItsOwn(b, o);
    BookedJournal(b, o);
  }

  lemma {:induction false} NamedRemovalProblem(mid: Books, s: Id, m: Id, reason: string)
    requires s < |mid.statements| && mid.statements[s].bank < |mid.banks| && m < |mid.matches| && CreatedHere(mid, s, m)
    ensures var st := mid.statements[s];
      var through := mid.banks[st.bank].reconciledThrough;
      RemovalProblem(mid, s, Some(m), reason).None? <==>
        3 <= |Texts.Trim(reason)| <= 1000 && st.status != Reconciled && (through.Some? ==> through.value < st.date) &&
        !SessionClosed(mid, st.bank, st.date)
  {
  }

  lemma {:induction false} LineStaysOpen(b: Books, o: EntryOrder)
    requires CreateEntry(b, o).Booked?
    ensures o.statement < |b.statements| && b.statements[o.statement].bank < |b.banks|
    ensures var mid, st := CreateEntry(b, o).books, b.statements[o.statement];
      mid.banks == b.banks && !SessionClosed(mid, st.bank, st.date) && |mid.statements| == |b.statements| &&
      mid.statements[o.statement] == st.(status := mid.statements[o.statement].status)
  {
    BookedParts(b, o);
    assert !SessionClosed(b, b.statements[o.statement].bank, b.statements[o.statement].date);
  }

  // A booked entry's line is not reconciled by a session, so only the bank's own cutoff can stop it.
  lemma {:induction false} EntryRemovalProblem(b: Books, o: EntryOrder, reason: string)
    requires BooksOk(b) && CreateEntry(b, o).Booked?
    ensures o.statement < |b.statements| && b.statements[o.statement].bank < |b.banks|
    ensures var mid, through := CreateEntry(b, o).books, b.banks[b.statements[o.statement].bank].reconciledThrough;
      RemovalProblem(mid, o.statement, Some(|b.matches|), reason).None? <==>
        3 <= |Texts.Trim(reason)| <= 1000 && (through.Some? ==> through.value < b.statements[o.statement].date)
  {
    LineStaysOpen(b, o);
    EntryFillsLine(b, o);
    OnlyItsOwn(b, o);
    NamedRemovalProblem(CreateEntry(b, o).books, o.statement, |b.matches|, reason);
  }

  // In consistent books the removal is refused for its reason, a bank reconciled over the line, or the
  // posting of the mirror journal, and for nothing else.
  lemma {:induction false} EntryRemovable(b: Books, o: EntryOrder, reason: string, number: string, today: Date)
    requires BooksOk(b) && CreateEntry(b, o).Booked?
    ensures var mid, through := CreateEntry(b, o).books, b.banks[b.statements[o.statement].bank].reconciledThrough;
      |b.journals| < |mid.journals| &&
      (RemoveEntry(b, o, reason, number, today).Removed? <==>
        3 <= |Texts.Trim(reason)| <= 1000 && (through.Some? ==> through.value < b.statements[o.statement].date) &&
        PostingEngine.Post(mid, ReversalPayload(mid, |b.journals|, number, today)).Done?)
  {
    EntryRemovalProblem(b, o, reason);
    EntryReversible(b, o, number, today);
    OnlyItsOwn(b, o);
    RemovalIff(CreateEntry(b, o).books, o.statement, |b.matches|, reason, number, today);
    if Reverse(CreateEntry(b, o).books, |b.journals|, number, today, Some(|b.matches|)).Done? {
      ReleaseRecomputes(b, o, number, today);
    }
  }

  lemma {:induction false} RemovalIff(mid: Books, s: Id, m: Id, reason: string, number: string, today: Date)
    requires m < |mid.matches| && CreatedHere(mid, s, m) && JournalOf(mid.matches[m]).Some?
    ensures var reversed := Reverse(mid, JournalOf(mid.matches[m]).value, number, today, Exempted(mid.matches[m], m));
      RemoveCreated(mid, s, Some(m), reason, number, today).Removed? <==>
        RemovalProblem(mid, s, Some(m), reason).None? && reversed.Done? && s < |reversed.books.statements| &&
        Recompute(reversed.books.(matches := mid.matches[m := Released(mid.matches[m])]), s, m).Changed?
  {
  }

  lemma {:induction false} ReleaseRecomputes(b: Books, o: EntryOrder, number: string, today: Date)
    requires BooksOk(b) && CreateEntry(b, o).Booked?
    requires Reverse(CreateEntry(b, o).books, |b.journals|, number, today, Some(|b.matches|)).Done?
    ensures var mid, m := CreateEntry(b, o).books, |b.matches|;
      var reversed := Reverse(mid, |b.journals|, number, today, Some(m)).books;
      m < |mid.matches| && o.statement < |reversed.statements| &&
      Recompute(reversed.(matches := mid.matches[m := Released(mid.matches[m])]), o.statement, m).Changed?
  {
    BookedParts(b, o);
    ReleasedFits(b, o);
    ReversalTouchesOne(CreateEntry(b, o).books, |b.journals|, number, today, Some(|b.matches|));
  }

  // What is left on the line after the release is what was there before.
  lemma {:induction false} ReleasedFits(b: Books, o: EntryOrder)
    requires BooksOk(b) && CreateEntry(b, o).Booked?
    ensures var row := EntryRow(b, o, |b.journals|);
      StatementUsed((b.matches + [row])[|b.matches| := Released(row)], o.statement) ==
        StatementUsed(b.matches, o.statement)
    ensures ValidCents(StatementUsed(b.matches, o.statement)) &&
      StatementUsed(b.matches, o.statement) <= b.statements[o.statement].amount
  {
    var row := EntryRow(b, o, |b.journals|);
    BookedParts(b, o);
    AddedAndReleased(b, row);
  }
}
