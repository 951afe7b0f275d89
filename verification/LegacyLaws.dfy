// What legacy matches keep true of the bank tables, and exactly when dropping one does not.
module LegacyLaws {
  import opened Tables
  import opened Sums
  import PostingEngine
  import opened LedgerLaws
  import opened BankAllocations
  import opened BankLaws
  import opened StatementReversal
  import opened LedgerSteps
  import opened LegacyMatches

  // ---- What the first two keep ----

  // A new legacy match counts nowhere yet, and excuses the status of its line.
  lemma NewLegacyKeepsBank(b: Books, after: Books, row: Match, status: StatementStatus)
    requires BankOk(b) && row.statement < |b.statements| && LiveLegacy(row)
    requires after.journals == b.journals && after.banks == b.banks && after.matches == b.matches + [row]
    requires after.statements == WithStatus(b, row.statement, status)
    ensures BankOk(after)
  {
    AllocateMovesUse(b, row);
    LegacyElsewhereAdded(b.matches, row);
    OthersStayPlaced(b, after, |b.matches|);
    forall m | 0 <= m < |after.matches| ensures AllocationOk(after, after.matches[m]) {
      if m < |b.matches| { assert AllocationOk(b, b.matches[m]); }
    }
    forall t | 0 <= t < |after.statements| ensures StatusClassified(after, t) {
      assert StatusClassified(b, t);
    }
  }

  lemma {:induction false} MatchKeepsBooks(b: Books, s: Id, source: Source, amount: Cents, documentThere: bool)
    requires BooksOk(b) && MatchLine(b, s, source, amount, documentThere).Entered?
    ensures BooksOk(MatchLine(b, s, source, amount, documentThere).books)
  {
    var after := MatchLine(b, s, source, amount, documentThere).books;
    NewLegacyKeepsBank(b, after, LegacyRow(s, source, amount, false), after.statements[s].status);
    LedgerKeptByBank(b, after);
  }

  lemma {:induction false} CreationKeepsBooks(b: Books, s: Id, bankAccount: Option<Id>, target: Id, number: string)
    requires BooksOk(b) && CreateFromLine(b, s, bankAccount, target, number).Entered?
    ensures BooksOk(CreateFromLine(b, s, bankAccount, target, number).books)
  {
    var p := CreationPayload(b.statements[s], bankAccount.value, target, number);
    var posted := PostingEngine.Post(b, p).books;
    var after := CreateFromLine(b, s, bankAccount, target, number).books;
    PostStepKeepsBooks(b, p);
    NewLegacyKeepsBank(posted, after, LegacyRow(s, JournalSource(|b.journals|), b.statements[s].amount, true), Matched);
    LedgerKeptByBank(posted, after);
  }

  // ---- What dropping a match keeps, and when it does not ----

  // The status it leaves is the right one, or excused by another live legacy match.
  ghost predicate DropSound(b: Books, m: Id)
    requires m < |b.matches|
  {
    var s := b.matches[m].statement;
    var matches := b.matches[m := Deleted(s)];
    s < |b.statements| && !LegacyOn(matches, s) ==>
      StatusLeft(matches, s) == Classify(StatementUsed(b.matches, s), b.statements[s].amount)
  }

  // Dropping a match keeps the books consistent exactly then.
  lemma {:induction false} DropKeepsBooksIff(b: Books, m: Id)
    requires BooksOk(b) && Drop(b, m).Entered?
    ensures BooksOk(Drop(b, m).books) <==> DropSound(b, m)
  {
    var after, row := Drop(b, m).books, Deleted(b.matches[m].statement);
    ReplaceMovesUse(b.matches, m, row);
    LegacyElsewhere(b.matches, m, row);
    LedgerKeptByBank(b, after);
    DropKeepsPlaced(b, m);
    forall k | 0 <= k < |after.matches| ensures AllocationOk(after, after.matches[k]) {
      if k != m { assert after.matches[k] == b.matches[k] && AllocationOk(b, b.matches[k]); }
    }
    forall t | 0 <= t < |after.statements| && t != row.statement ensures StatusClassified(after, t) {
      assert StatusClassified(b, t);
    }
    if DropSound(b, m) {
      assert AllClassified(after);
    } else {
      assert !StatusClassified(after, row.statement);
    }
  }

  // The whole failing family: an allocation of part of the line is left, and no live legacy match.
  lemma {:induction false} DropUnsoundIff(b: Books, m: Id)
    requires BooksOk(b) && Drop(b, m).Entered? && b.matches[m].statement < |b.statements|
    requires RowsSound(b)
    ensures var s := b.matches[m].statement;
      DropSound(b, m) <==>
        LegacyOn(b.matches[m := Deleted(s)], s) || StatementUsed(b.matches, s) in {0, b.statements[s].amount}
  {
    var s := b.matches[m].statement;
    var matches := b.matches[m := Deleted(s)];
    if !LegacyOn(matches, s) {
      forall k | 0 <= k < |matches| && matches[k].statement == s && matches[k].status == MatchedStatus
        ensures matches[k].state == Active
      {
        assert k != m && matches[k] == b.matches[k];
      }
      if MatchedRowOn(matches, s) {
        var k :| 0 <= k < |matches| && matches[k].statement == s && matches[k].status == MatchedStatus;
        assert matches[k] == b.matches[k] && AllocationOk(b, b.matches[k]);
        forall i | 0 <= i < |b.matches| ensures OnStatement(s)(b.matches[i]) >= 0 {
          assert AllocationOk(b, b.matches[i]);
        }
        SumBoundsRow(b.matches, k, OnStatement(s));
      } else {
        forall i | 0 <= i < |b.matches| ensures OnStatement(s)(b.matches[i]) == 0 {
          if i != m { assert matches[i] == b.matches[i]; }
        }
        SumZero(b.matches, OnStatement(s));
      }
    }
  }

  // ---- Every match row, dropped ones among them ----

  // A matched row is an allocation or a legacy match, and the other way round.
  predicate RowSound(m: Match) {
    (m.status == MatchedStatus ==> m.state in {Active, Legacy}) &&
    (m.state == Active ==> Counts(m) && m.status == MatchedStatus) &&
    (LiveLegacy(m) ==> m.status == MatchedStatus) &&
    m.amount >= 0
  }

  predicate RowsSound(b: Books) { forall m :: 0 <= m < |b.matches| ==> RowSound(b.matches[m]) }

  // Allocations and legacy matches together never exceed their line.
  ghost predicate MatchedWithin(b: Books) {
    RowsSound(b) && forall s :: 0 <= s < |b.statements| ==> MatchedSum(b.matches, s) <= b.statements[s].amount
  }

  lemma AddedMatched(b: Books, after: Books, row: Match)
    requires MatchedWithin(b) && RowSound(row) && after.matches == b.matches + [row]
    requires SameAmounts(b, after)
    requires row.statement < |b.statements| ==>
      MatchedSum(b.matches, row.statement) + row.amount <= b.statements[row.statement].amount
    ensures MatchedWithin(after)
  {
    forall s | 0 <= s < |after.statements| ensures MatchedSum(after.matches, s) <= after.statements[s].amount {
      SumSnoc(b.matches, row, MatchedOn(s));
    }
  }

  // A row rewritten on its own line without a gain.
  lemma RewrittenMatched(b: Books, after: Books, m: Id, row: Match)
    requires MatchedWithin(b) && m < |b.matches| && RowSound(row) && after.matches == b.matches[m := row]
    requires SameAmounts(b, after) && row.statement == b.matches[m].statement
    requires MatchedOn(row.statement)(row) <= MatchedOn(row.statement)(b.matches[m])
    ensures MatchedWithin(after)
  {
    forall s | 0 <= s < |after.statements| ensures MatchedSum(after.matches, s) <= after.statements[s].amount {
      SumUpdate(b.matches, m, row, MatchedOn(s));
    }
  }

  ghost predicate SameAmounts(b: Books, after: Books) {
    |after.statements| == |b.statements| &&
    forall s :: 0 <= s < |b.statements| ==> after.statements[s].amount == b.statements[s].amount
  }

  // Allocation looks at active rows only, which are all there are once no legacy match is pending.
  lemma AllocateKeepsMatched(b: Books, s: Id, line: LineRef, amount: Cents, actor: string)
    requires MatchedWithin(b) && Allocate(b, s, line, amount, actor).Changed?
    ensures MatchedWithin(Allocate(b, s, line, amount, actor).books)
  {
    var after := Allocate(b, s, line, amount, actor).books;
    forall k | 0 <= k < |b.matches| ensures MatchedOn(s)(b.matches[k]) == OnStatement(s)(b.matches[k]) {
      assert RowSound(b.matches[k]);
      assert !LegacyUnsettled(b, b.statements[s].bank);
    }
    SumSame(b.matches, MatchedOn(s), OnStatement(s));
    AddedMatched(b, after, after.matches[|b.matches|]);
  }

  // What an undone, removed or dropped row was worth is free again; a promoted one keeps its worth.
  lemma UnmatchKeepsMatched(b: Books, m: Id, actor: string, reason: string)
    requires MatchedWithin(b) && Unmatch(b, m, actor, reason).Changed?
    ensures MatchedWithin(Unmatch(b, m, actor, reason).books)
  {
    assert RowSound(b.matches[m]);
    RewrittenMatched(b, Unmatch(b, m, actor, reason).books, m,
      b.matches[m].(state := Unallocated, status := UnmatchedStatus));
  }

  lemma VerifyKeepsMatched(b: Books, s: Id, m: Id, expected: LineRef, reason: string, actor: string)
    requires MatchedWithin(b) && Verify(b, s, m, expected, reason, actor).Changed?
    ensures MatchedWithin(Verify(b, s, m, expected, reason, actor).books)
  {
    assert RowSound(b.matches[m]);
    var after := Verify(b, s, m, expected, reason, actor).books;
    RewrittenMatched(b, after, m, after.matches[m]);
  }

  lemma RemoveKeepsMatched(b: Books, s: Id, named: Option<Id>, reason: string, number: string, today: Date)
    requires MatchedWithin(b) && RemoveCreated(b, s, named, reason, number, today).Removed?
    ensures MatchedWithin(RemoveCreated(b, s, named, reason, number, today).books)
  {
    RemovalParts(b, s, named, reason, number, today);
    var m := Choose(b, s, named).id;
    assert RowSound(b.matches[m]);
    RewrittenMatched(b, RemoveCreated(b, s, named, reason, number, today).books, m, Released(b.matches[m]));
  }

  lemma MatchKeepsMatched(b: Books, s: Id, source: Source, amount: Cents, documentThere: bool)
    requires MatchedWithin(b) && MatchLine(b, s, source, amount, documentThere).Entered?
    ensures MatchedWithin(MatchLine(b, s, source, amount, documentThere).books)
  {
    AddedMatched(b, MatchLine(b, s, source, amount, documentThere).books, LegacyRow(s, source, amount, false));
  }

  lemma CreationKeepsMatched(b: Books, s: Id, bankAccount: Option<Id>, target: Id, number: string)
    requires MatchedWithin(b) && CreateFromLine(b, s, bankAccount, target, number).Entered?
    ensures MatchedWithin(CreateFromLine(b, s, bankAccount, target, number).books)
  {
    var after, amount := CreateFromLine(b, s, bankAccount, target, number).books, b.statements[s].amount;
    PostChecked(b, CreationPayload(b.statements[s], bankAccount.value, target, number));
    SumZero(b.matches, MatchedOn(s));
    AddedMatched(b, after, LegacyRow(s, JournalSource(|b.journals|), amount, true));
  }

  lemma DropKeepsMatched(b: Books, m: Id)
    requires MatchedWithin(b) && Drop(b, m).Entered?
    ensures MatchedWithin(Drop(b, m).books)
  {
    assert RowSound(b.matches[m]);
    RewrittenMatched(b, Drop(b, m).books, m, Deleted(b.matches[m].statement));
  }

  // ---- No operation on legacy matches moves an allocation ----

  lemma MatchKeepsPlaced(b: Books, s: Id, source: Source, amount: Cents, documentThere: bool)
    requires AllocationsPlaced(b) && MatchLine(b, s, source, amount, documentThere).Entered?
    ensures AllocationsPlaced(MatchLine(b, s, source, amount, documentThere).books)
  {
    OthersStayPlaced(b, MatchLine(b, s, source, amount, documentThere).books, |b.matches|);
  }

  lemma CreationKeepsPlaced(b: Books, s: Id, bankAccount: Option<Id>, target: Id, number: string)
    requires AllocationsPlaced(b) && CreateFromLine(b, s, bankAccount, target, number).Entered?
    ensures AllocationsPlaced(CreateFromLine(b, s, bankAccount, target, number).books)
  {
    OthersStayPlaced(b, CreateFromLine(b, s, bankAccount, target, number).books, |b.matches|);
  }

  lemma DropKeepsPlaced(b: Books, m: Id)
    requires AllocationsPlaced(b) && Drop(b, m).Entered?
    ensures AllocationsPlaced(Drop(b, m).books)
  {
    OthersStayPlaced(b, Drop(b, m).books, m);
  }
}
