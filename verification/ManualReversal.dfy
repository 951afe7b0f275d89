// ManualJournalService.reverseJournal and the source reversal of FixedAssetService: mirror journals
// posted without the checks of reversePostedJournal.
module ManualReversal {
  import Texts
  import opened Tables
  import opened Sums
  import opened PostingEngine
  import opened JournalReversal
  import opened LedgerLaws
  import opened BankAllocations
  import opened BankLaws
  import opened LedgerSteps
  import opened StatementReversal

  datatype MirrorRefusal = BadReason | NotManual | ReasonFixed | ByLedger(refusal: PostingEngine.Refusal)
  datatype Mirrored = Made(books: Books, id: Id) | NotMade(reason: MirrorRefusal)
  datatype MirrorReply = Mirroring(id: Id) | NoMirror(refusal: MirrorRefusal)

  ghost predicate Commits(before: Books, after: Books, reply: MirrorReply, outcome: Mirrored) {
    match outcome
    case Made(books, id) => reply == Mirroring(id) && after == books
    case NotMade(reason) => reply == NoMirror(reason) && after == before
  }

  // The mirror lines name no project, customer or vendor.
  function Mirror(l: Line): Line { Line(l.account, l.credit, l.debit, None, None, None) }

  function MirrorLines(lines: seq<Line>): seq<Line> {
    seq(|lines|, i requires 0 <= i < |lines| => Mirror(lines[i]))
  }

  function MirrorPayload(b: Books, j: Id, date: Date): Payload
    requires j < |b.journals|
  {
    Payload("RV-" + b.journals[j].number, Some(date), MirrorLines(b.journals[j].lines), Some(j))
  }

  function MirrorProblem(b: Books, j: Id): Option<PostingEngine.Refusal> {
    if j >= |b.journals| then Some(JournalNotFound)
    else if b.journals[j].reversedBy.Some? then Some(AlreadyReversed)
    else if |b.journals[j].lines| < 2 then Some(TooFewLines)
    else None
  }

  // A posted journal keeps the reversal reason it was stored with; the database refuses another.
  predicate ReasonClashes(b: Books, j: Id, reason: string, stored: Option<string>)
    requires j < |b.journals|
  {
    b.journals[j].status == Posted && stored.Some? && stored.value != reason
  }

  // reverseSourceJournal. `stored` is the reversal reason in the journal's own row.
  function ReverseSource(b: Books, j: Id, date: Date, reason: string, stored: Option<string>): Mirrored {
    var problem := MirrorProblem(b, j);
    if problem.Some? then NotMade(ByLedger(problem.value))
    else
      match Post(b, MirrorPayload(b, j, date))
      case Refused(why) => NotMade(ByLedger(why))
      case Done(posted, id) =>
        if ReasonClashes(b, j, reason, stored) then NotMade(ReasonFixed)
        else Made(posted.(journals := posted.journals[j := posted.journals[j].(reversedBy := Some(id))]), id)
  }

  predicate IsManual(number: string) { "JV/" <= number }

  // ManualJournalService.reverseJournal.
  function ReverseManual(b: Books, j: Id, today: Date, reason: string, stored: Option<string>): Mirrored {
    var clean := Texts.Trim(reason);
    if |clean| < 3 || |clean| > 1000 then NotMade(BadReason)
    else if j >= |b.journals| then NotMade(ByLedger(JournalNotFound))
    else if !IsManual(b.journals[j].number) then NotMade(NotManual)
    else ReverseSource(b, j, today, clean, stored)
  }

  method ReverseSourceJournal(db: Database, j: Id, date: Date, reason: string, stored: Option<string>)
    returns (reply: MirrorReply)
    requires |db.accounts| == |db.balances| && |db.banks| == |db.bankBalances|
    modifies db
    ensures Commits(old(db.Snapshot()), db.Snapshot(), reply,
      ReverseSource(old(db.Snapshot()), j, date, reason, stored))
  {
    var before := db.Snapshot();
    if j >= |db.journals| { return NoMirror(ByLedger(JournalNotFound)); }
    var original := db.journals[j];
    if original.reversedBy.Some? { return NoMirror(ByLedger(AlreadyReversed)); }
    if |original.lines| < 2 { return NoMirror(ByLedger(TooFewLines)); }
    var posting := PostEntry(db, MirrorPayload(before, j, date));
    if posting.Rejected? { return NoMirror(ByLedger(posting.refusal)); }
    if original.status == Posted && stored.Some? && stored.value != reason {
      RollBack(db, before);
      return NoMirror(ReasonFixed);
    }
    db.journals := db.journals[j := db.journals[j].(reversedBy := Some(posting.id))];
    return Mirroring(posting.id);
  }

  method ReverseJournal(db: Database, j: Id, today: Date, reason: string, stored: Option<string>)
    returns (reply: MirrorReply)
    requires |db.accounts| == |db.balances| && |db.banks| == |db.bankBalances|
    modifies db
    ensures Commits(old(db.Snapshot()), db.Snapshot(), reply,
      ReverseManual(old(db.Snapshot()), j, today, reason, stored))
  {
    var clean := Texts.Trim(reason);
    if |clean| < 3 || |clean| > 1000 { return NoMirror(BadReason); }
    if j >= |db.journals| { return NoMirror(ByLedger(JournalNotFound)); }
    if !IsManual(db.journals[j].number) { return NoMirror(NotManual); }
    reply := ReverseSourceJournal(db, j, today, clean, stored);
  }

  // ---- What holds without the missing checks ----

  lemma {:induction false} SourceKeepsBalances(b: Books, j: Id, date: Date, reason: string, stored: Option<string>)
    requires BalancesOk(b) && ReverseSource(b, j, date, reason, stored).Made?
    ensures BalancesOk(ReverseSource(b, j, date, reason, stored).books)
  {
    PostKeepsBalances(b, MirrorPayload(b, j, date));
    LinkKeepsBalances(Post(b, MirrorPayload(b, j, date)).books, j, |b.journals|);
  }

  // Whatever the journal's status, every balance moves by the opposite of what its lines stand for.
  lemma {:induction false} SourceTakesBack(b: Books, j: Id, date: Date, reason: string, stored: Option<string>)
    requires SameLengths(b) && ReverseSource(b, j, date, reason, stored).Made?
    ensures var after, lines := ReverseSource(b, j, date, reason, stored).books, b.journals[j].lines;
      (forall a :: 0 <= a < |b.accounts| ==>
        after.balances[a] == b.balances[a] - Sum(lines, OnAccount(b.accounts, a))) &&
      (forall k :: 0 <= k < |b.banks| ==>
        after.bankBalances[k] == b.bankBalances[k] - Sum(lines, OnBank(b.accounts, b.banks[k])))
  {
    var lines := b.journals[j].lines;
    forall a | 0 <= a < |b.accounts|
      ensures Sum(MirrorLines(lines), OnAccount(b.accounts, a)) == -Sum(lines, OnAccount(b.accounts, a))
    {
      SumNegated(MirrorLines(lines), lines, OnAccount(b.accounts, a));
    }
    forall k | 0 <= k < |b.banks|
      ensures Sum(MirrorLines(lines), OnBank(b.accounts, b.banks[k])) == -Sum(lines, OnBank(b.accounts, b.banks[k]))
    {
      SumNegated(MirrorLines(lines), lines, OnBank(b.accounts, b.banks[k]));
    }
  }

  // Closed periods refuse these reversals like any posting.
  lemma {:induction false} SourceKeepsFrozen(b: Books, j: Id, date: Date, reason: string, stored: Option<string>, a: Id,
      d: Date)
    requires ReverseSource(b, j, date, reason, stored).Made? && Frozen(b, a, d)
    ensures AsOf(ReverseSource(b, j, date, reason, stored).books, a, d) == AsOf(b, a, d)
  {
    PostKeepsFrozen(b, MirrorPayload(b, j, date), a, d);
    LinkMovesNothing(Post(b, MirrorPayload(b, j, date)).books, j, |b.journals|);
  }

  // ---- What needs them ----

  // The checks of reversePostedJournal that are missing here.
  predicate FitToReverse(b: Books, j: Id)
    requires j < |b.journals|
  {
    b.journals[j].status == Posted && b.journals[j].reversalOf.None? && !HeldByBank(b, j, None)
  }

  lemma {:induction false} FitKeepsBooks(b: Books, j: Id, date: Date, reason: string, stored: Option<string>)
    requires BooksOk(b) && ReverseSource(b, j, date, reason, stored).Made? && FitToReverse(b, j)
    ensures BooksOk(ReverseSource(b, j, date, reason, stored).books)
  {
    var after := ReverseSource(b, j, date, reason, stored).books;
    SourceKeepsBalances(b, j, date, reason, stored);
    LinkKeepsMatching(b.journals, j, after.journals[|b.journals|]);
    LedgerGivesBankFacts(after);
    JournalsGrowKeepsBank(b, after);
  }

  lemma {:induction false} UnfitBreaksBooks(b: Books, j: Id, date: Date, reason: string, stored: Option<string>)
    requires BooksOk(b) && ReverseSource(b, j, date, reason, stored).Made? && !FitToReverse(b, j)
    ensures !BooksOk(ReverseSource(b, j, date, reason, stored).books)
  {
    var after := ReverseSource(b, j, date, reason, stored).books;
    assert after.journals[j] == b.journals[j].(reversedBy := Some(|b.journals|));
    if HeldByBank(b, j, None) {
      var m :| 0 <= m < |b.matches| && b.matches[m].journal == Some(j) && b.matches[m].state == Active;
      assert !AllocationOk(after, after.matches[m]);
    }
  }

  // An accepted reversal of this kind keeps the books consistent exactly when the missing checks pass.
  lemma {:induction false} SourceKeepsBooksIff(b: Books, j: Id, date: Date, reason: string, stored: Option<string>)
    requires BooksOk(b) && ReverseSource(b, j, date, reason, stored).Made?
    ensures BooksOk(ReverseSource(b, j, date, reason, stored).books) <==> FitToReverse(b, j)
  {
    if FitToReverse(b, j) {
      FitKeepsBooks(b, j, date, reason, stored);
    } else {
      UnfitBreaksBooks(b, j, date, reason, stored);
    }
  }
}
