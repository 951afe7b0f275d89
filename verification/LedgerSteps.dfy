// Every accepted transaction on the ledger and the bank tables keeps both consistent.
module LedgerSteps {
  import opened Tables
  import opened Sums
  import opened PostingEngine
  import opened JournalReversal
  import opened LedgerLaws
  import opened BankAllocations
  import opened BankLaws
  import opened StatementReversal

  ghost predicate BooksOk(b: Books) { LedgerOk(b) && BankOk(b) }

  lemma LedgerGivesBankFacts(b: Books)
    requires LedgerOk(b)
    ensures LinesOneSided(b.journals) && ReversedHaveReversal(b.journals)
  {
    forall j, i | 0 <= j < |b.journals| && b.journals[j].status == Posted && 0 <= i < |b.journals[j].lines|
      ensures b.journals[j].lines[i].debit >= 0 && b.journals[j].lines[i].credit >= 0
    {
      assert PostedOk(b, b.journals[j]);
    }
  }

  lemma BalancesKeptByBank(b: Books, after: Books)
    requires BalancesOk(b)
    requires after == b.(matches := after.matches, statements := after.statements)
    ensures BalancesOk(after)
  {
    forall j | 0 <= j < |after.journals| ensures PostedOk(after, after.journals[j]) {
      assert PostedOk(b, b.journals[j]);
    }
    assert forall a :: AccountNet(after, a) == AccountNet(b, a);
    assert forall k :: BankNet(after, k) == BankNet(b, k);
  }

  lemma LedgerKeptByBank(b: Books, after: Books)
    requires LedgerOk(b)
    requires after == b.(matches := after.matches, statements := after.statements)
    ensures LedgerOk(after)
  {
    BalancesKeptByBank(b, after);
  }

  lemma {:induction false} PostStepKeepsBooks(b: Books, p: Payload)
    requires BooksOk(b) && p.reversalOf.None? && Post(b, p).Done?
    ensures BooksOk(Post(b, p).books)
  {
    PostKeepsLedger(b, p);
    LedgerGivesBankFacts(Post(b, p).books);
    JournalsGrowKeepsBank(b, Post(b, p).books);
  }

  lemma {:induction false} DraftStepKeepsBooks(b: Books, j: Id)
    requires BooksOk(b) && PostDraft(b, j).Done?
    ensures BooksOk(PostDraft(b, j).books)
  {
    DraftKeepsLedger(b, j);
    LedgerGivesBankFacts(PostDraft(b, j).books);
    JournalsGrowKeepsBank(b, PostDraft(b, j).books);
  }

  lemma {:induction false} ReverseStepKeepsBooks(b: Books, j: Id, number: string, today: Date)
    requires BooksOk(b) && Reverse(b, j, number, today, None).Done?
    ensures BooksOk(Reverse(b, j, number, today, None).books)
  {
    ReverseKeepsLedger(b, j, number, today, None);
    LedgerGivesBankFacts(Reverse(b, j, number, today, None).books);
    JournalsGrowKeepsBank(b, Reverse(b, j, number, today, None).books);
  }

  // What an accepted removal did: a reversal with or without exemption, the row released, the status
  // recomputed.
  lemma {:induction false} RemovalParts(b: Books, s: Id, named: Option<Id>, reason: string, number: string, today: Date)
    requires RemoveCreated(b, s, named, reason, number, today).Removed?
    ensures s < |b.statements| && Choose(b, s, named).Chosen?
    ensures var m := Choose(b, s, named).id;
      m < |b.matches| && b.matches[m].statement == s && JournalOf(b.matches[m]).Some? &&
      var j := JournalOf(b.matches[m]).value;
      var reversed := Reverse(b, j, number, today, Exempted(b.matches[m], m));
      reversed.Done? && reversed.books.matches == b.matches && reversed.books.statements == b.statements &&
      var released := reversed.books.(matches := b.matches[m := Released(b.matches[m])]);
      Recompute(released, s, m).Changed? &&
        RemoveCreated(b, s, named, reason, number, today).books == Recompute(released, s, m).books
  {
  }

  // A reversal adds a journal and links its original; nothing else in the books but balances moves.
  lemma {:induction false} ReversalTouchesOne(b: Books, j: Id, number: string, today: Date, allowed: Option<Id>)
    requires Reverse(b, j, number, today, allowed).Done?
    ensures var after := Reverse(b, j, number, today, allowed).books;
      after.matches == b.matches && after.statements == b.statements && after.banks == b.banks &&
        |after.journals| == |b.journals| + 1 &&
      (forall i :: 0 <= i < |b.journals| && i != j ==> after.journals[i] == b.journals[i]) &&
      j < |b.journals| && after.journals[j] == b.journals[j].(reversedBy := after.journals[j].reversedBy)
    ensures forall m :: 0 <= m < |b.matches| && b.matches[m].state == Active && b.matches[m].journal == Some(j) ==>
      allowed == Some(m)
  {
  }

  lemma {:induction false} RemovalKeepsPlaced(b: Books, s: Id, named: Option<Id>, reason: string, number: string,
      today: Date)
    requires AllocationsPlaced(b) && RemoveCreated(b, s, named, reason, number, today).Removed?
    ensures AllocationsPlaced(RemoveCreated(b, s, named, reason, number, today).books)
  {
    RemovalParts(b, s, named, reason, number, today);
    var m := Choose(b, s, named).id;
    var j := JournalOf(b.matches[m]).value;
    ReversalTouchesOne(b, j, number, today, Exempted(b.matches[m], m));
    OthersStayPlaced(b, RemoveCreated(b, s, named, reason, number, today).books, m);
  }

  // Releasing the row and reversing the journal in one transaction keeps the allocations on live
  // journals, although the journal was reversed while the row was still active.
  lemma {:induction false} RemovalKeepsBank(b: Books, reversed: Books, s: Id, m: Id, j: Id)
    requires BankOk(b) && LinesOneSided(reversed.journals)
    requires s < |b.statements| && m < |b.matches| && b.matches[m].statement == s
    requires reversed.matches == b.matches && reversed.statements == b.statements && reversed.banks == b.banks
    requires |reversed.journals| >= |b.journals|
    requires forall i :: 0 <= i < |b.journals| && i != j ==> reversed.journals[i] == b.journals[i]
    requires j < |b.journals| && reversed.journals[j] == b.journals[j].(reversedBy := reversed.journals[j].reversedBy)
    requires forall k :: 0 <= k < |b.matches| && b.matches[k].state == Active && b.matches[k].journal == Some(j) ==>
      k == m
    requires Recompute(reversed.(matches := b.matches[m := Released(b.matches[m])]), s, m).Changed?
    ensures BankOk(Recompute(reversed.(matches := b.matches[m := Released(b.matches[m])]), s, m).books)
  {
    var released := Recompute(b.(matches := b.matches[m := Released(b.matches[m])]), s, m).books;
    ReleaseKeepsBank(b, m, Released(b.matches[m]), m);
    JournalsGrowKeepsBank(released, reversed.(matches := released.matches, statements := released.statements));
  }

  lemma {:induction false} RemoveStepKeepsBooks(b: Books, s: Id, named: Option<Id>, reason: string, number: string,
      today: Date)
    requires BooksOk(b)
    ensures var removal := RemoveCreated(b, s, named, reason, number, today);
      removal.Removed? ==> BooksOk(removal.books)
  {
    if RemoveCreated(b, s, named, reason, number, today).Removed? {
      RemovalParts(b, s, named, reason, number, today);
      var m := Choose(b, s, named).id;
      var j := JournalOf(b.matches[m]).value;
      var reversed := Reverse(b, j, number, today, Exempted(b.matches[m], m)).books;
      ReverseKeepsLedger(b, j, number, today, Exempted(b.matches[m], m));
      LedgerGivesBankFacts(reversed);
      ReversalTouchesOne(b, j, number, today, Exempted(b.matches[m], m));
      RemovalKeepsBank(b, reversed, s, m, j);
      LedgerKeptByBank(reversed, RemoveCreated(b, s, named, reason, number, today).books);
    }
  }
}
