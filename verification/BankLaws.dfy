// Capacity, classification and reversal safety of bank allocations.
module BankLaws {
  import opened Tables
  import opened Sums
  import opened BankAllocations

  // An active allocation is verified, names a posted line that exists, and that line's journal is
  // neither a reversal nor reversed.
  ghost predicate AllocationOk(b: Books, m: Match) {
    m.state == Active ==>
      m.identity == Verified && m.amount > 0 && m.statement < |b.statements| && m.line.Some? &&
      m.journal == Some(m.line.value.journal) && LineExists(b.journals, m.line.value) &&
      var row := b.journals[m.line.value.journal];
      row.status == Posted && row.reversalOf.None? && row.reversedBy.None?
  }

  ghost predicate AllocationsOk(b: Books) {
    forall m :: 0 <= m < |b.matches| ==> AllocationOk(b, b.matches[m])
  }

  // An active allocation lies on a line of the statement bank's ledger account: money in on its debit
  // side, money out on its credit side.
  ghost predicate Placed(b: Books, m: Match) {
    m.state == Active ==>
      m.statement < |b.statements| && m.line.Some? && LineExists(b.journals, m.line.value) &&
      var st, l := b.statements[m.statement], b.journals[m.line.value.journal].lines[m.line.value.index];
      st.bank < |b.banks| && b.banks[st.bank].ledger == Some(l.account) &&
      ((st.direction == Inflow && l.debit > 0 && l.credit == 0) ||
       (st.direction == Outflow && l.credit > 0 && l.debit == 0))
  }

  ghost predicate AllocationsPlaced(b: Books) {
    forall m :: 0 <= m < |b.matches| ==> Placed(b, b.matches[m])
  }

  // The columns an allocation's place depends on.
  ghost predicate PlacesKept(b: Books, after: Books) {
    after.banks == b.banks && |after.statements| == |b.statements| && |after.journals| >= |b.journals| &&
    (forall s :: 0 <= s < |b.statements| ==>
      after.statements[s].bank == b.statements[s].bank && after.statements[s].direction == b.statements[s].direction) &&
    (forall j :: 0 <= j < |b.journals| ==> after.journals[j].lines == b.journals[j].lines)
  }

  lemma PlacedStays(b: Books, after: Books, m: Match)
    requires Placed(b, m) && PlacesKept(b, after)
    ensures Placed(after, m)
  {
  }

  // Nothing but a new or promoted row needs looking at.
  lemma OthersStayPlaced(b: Books, after: Books, m: Id)
    requires AllocationsPlaced(b) && PlacesKept(b, after) && m < |after.matches|
    requires forall k :: 0 <= k < |after.matches| && k != m ==> k < |b.matches| && after.matches[k] == b.matches[k]
    requires Placed(after, after.matches[m])
    ensures AllocationsPlaced(after)
  {
    forall k | 0 <= k < |after.matches| ensures Placed(after, after.matches[k]) {
      if k != m {
        var row := after.matches[k];
        assert k < |b.matches| && row == b.matches[k];
        assert Placed(b, b.matches[k]);
        PlacedStays(b, after, b.matches[k]);
      }
    }
  }

  lemma RowsStayPlaced(b: Books, after: Books)
    requires AllocationsPlaced(b) && PlacesKept(b, after) && after.matches == b.matches
    ensures AllocationsPlaced(after)
  {
    forall k | 0 <= k < |after.matches| ensures Placed(after, after.matches[k]) {
      PlacedStays(b, after, b.matches[k]);
    }
  }

  ghost predicate StatementsWithinCapacity(b: Books) {
    forall s :: 0 <= s < |b.statements| ==> 0 <= StatementUsed(b.matches, s) <= b.statements[s].amount
  }

  ghost predicate LinesWithinCapacity(b: Books) {
    forall line :: LineExists(b.journals, line) && b.journals[line.journal].status == Posted ==>
      0 <= LineUsed(b.matches, line) <= LineAmount(b.journals, line)
  }

  // A live legacy match rests on statement line s.
  ghost predicate LegacyOn(matches: seq<Match>, s: Id) {
    exists m :: 0 <= m < |matches| && matches[m].statement == s && LiveLegacy(matches[m])
  }

  // Legacy matching sets a line's status by its own sums, so only lines without a live legacy match
  // are sure to have the status of their active allocations.
  ghost predicate StatusClassified(b: Books, s: Id)
    requires s < |b.statements|
  {
    b.statements[s].status in {Unmatched, PartiallyMatched, Matched} && !LegacyOn(b.matches, s) ==>
      b.statements[s].status == Classify(StatementUsed(b.matches, s), b.statements[s].amount)
  }

  ghost predicate AllClassified(b: Books) {
    forall s :: 0 <= s < |b.statements| ==> StatusClassified(b, s)
  }

  ghost predicate BankOk(b: Books) {
    AllocationsOk(b) && AllocationsPlaced(b) && StatementsWithinCapacity(b) && LinesWithinCapacity(b) &&
      AllClassified(b)
  }

  // Posted lines have money on exactly one side; this is all the bank needs of the ledger.
  ghost predicate LinesOneSided(js: seq<Journal>) {
    forall j, i :: 0 <= j < |js| && js[j].status == Posted && 0 <= i < |js[j].lines| ==>
      js[j].lines[i].debit >= 0 && js[j].lines[i].credit >= 0
  }

  // Every reversed journal says so itself, so a search for a reversal is never the only evidence.
  ghost predicate ReversalsLinked(js: seq<Journal>) {
    forall r :: 0 <= r < |js| && js[r].reversalOf.Some? ==>
      js[r].reversalOf.value < |js| && js[js[r].reversalOf.value].reversedBy == Some(r)
  }

  ghost predicate ReversedHaveReversal(js: seq<Journal>) {
    forall j :: 0 <= j < |js| && js[j].reversedBy.Some? ==> HasReversal(js, j)
  }

  // Rewriting a row of one statement line leaves the legacy matches of every other line alone.
  lemma LegacyElsewhere(matches: seq<Match>, m: Id, row: Match)
    requires m < |matches| && row.statement == matches[m].statement
    ensures forall t :: t != row.statement ==> (LegacyOn(matches[m := row], t) <==> LegacyOn(matches, t))
  {
    var after := matches[m := row];
    forall t | t != row.statement ensures LegacyOn(after, t) <==> LegacyOn(matches, t) {
      assert forall k :: 0 <= k < |matches| && k != m ==> after[k] == matches[k];
    }
  }

  // A new row of one statement line, likewise.
  lemma LegacyElsewhereAdded(matches: seq<Match>, row: Match)
    ensures forall t :: t != row.statement || !LiveLegacy(row) ==>
      (LegacyOn(matches + [row], t) <==> LegacyOn(matches, t))
    ensures LiveLegacy(row) ==> LegacyOn(matches + [row], row.statement)
  {
    var after := matches + [row];
    assert after[|matches|] == row && forall k :: 0 <= k < |matches| ==> after[k] == matches[k];
    forall t | t != row.statement || !LiveLegacy(row) ensures LegacyOn(after, t) <==> LegacyOn(matches, t) {
      if LegacyOn(matches, t) {
        var k :| 0 <= k < |matches| && matches[k].statement == t && LiveLegacy(matches[k]);
        assert after[k] == matches[k];
      }
    }
  }

  // ---- allocate ----

  lemma AllocateMovesUse(b: Books, row: Match)
    ensures forall s :: StatementUsed(b.matches + [row], s) == StatementUsed(b.matches, s) + OnStatement(s)(row)
    ensures forall line :: LineUsed(b.matches + [row], line) == LineUsed(b.matches, line) + OnLine(line)(row)
  {
    forall s ensures StatementUsed(b.matches + [row], s) == StatementUsed(b.matches, s) + OnStatement(s)(row) {
      SumSnoc(b.matches, row, OnStatement(s));
    }
    forall line ensures LineUsed(b.matches + [row], line) == LineUsed(b.matches, line) + OnLine(line)(row) {
      SumSnoc(b.matches, row, OnLine(line));
    }
  }

  lemma ReplaceMovesUse(matches: seq<Match>, m: Id, row: Match)
    requires m < |matches|
    ensures forall s ::
      StatementUsed(matches[m := row], s) ==
        StatementUsed(matches, s) - OnStatement(s)(matches[m]) + OnStatement(s)(row)
    ensures forall line ::
      LineUsed(matches[m := row], line) == LineUsed(matches, line) - OnLine(line)(matches[m]) + OnLine(line)(row)
  {
    forall s
      ensures StatementUsed(matches[m := row], s) ==
        StatementUsed(matches, s) - OnStatement(s)(matches[m]) + OnStatement(s)(row)
    {
      SumUpdate(matches, m, row, OnStatement(s));
    }
    forall line
      ensures LineUsed(matches[m := row], line) ==
        LineUsed(matches, line) - OnLine(line)(matches[m]) + OnLine(line)(row)
    {
      SumUpdate(matches, m, row, OnLine(line));
    }
  }

  lemma AllocateKeepsPlaced(b: Books, s: Id, line: LineRef, amount: Cents, actor: string)
    requires AllocationsPlaced(b) && Allocate(b, s, line, amount, actor).Changed?
    ensures AllocationsPlaced(Allocate(b, s, line, amount, actor).books)
  {
    OthersStayPlaced(b, Allocate(b, s, line, amount, actor).books, |b.matches|);
  }

  lemma AllocateKeepsBank(b: Books, s: Id, line: LineRef, amount: Cents, actor: string)
    requires BankOk(b) && LinesOneSided(b.journals) && ReversedHaveReversal(b.journals)
    requires Allocate(b, s, line, amount, actor).Changed?
    ensures BankOk(Allocate(b, s, line, amount, actor).books)
  {
    var after := Allocate(b, s, line, amount, actor).books;
    var row := after.matches[|b.matches|];
    assert after.matches == b.matches + [row];
    AllocateMovesUse(b, row);
    AllocateKeepsPlaced(b, s, line, amount, actor);
    LegacyElsewhereAdded(b.matches, row);
    forall m | 0 <= m < |after.matches| ensures AllocationOk(after, after.matches[m]) {
      if m < |b.matches| { assert AllocationOk(b, b.matches[m]); }
    }
    forall t | 0 <= t < |after.statements| ensures StatusClassified(after, t) {
      assert StatusClassified(b, t);
    }
  }

  // ---- unmatch ----

  lemma ReleaseKeepsPlaced(b: Books, m: Id, row: Match, id: Id)
    requires AllocationsPlaced(b) && m < |b.matches| && row.state != Active && row.statement < |b.statements|
    requires Recompute(b.(matches := b.matches[m := row]), row.statement, id).Changed?
    ensures AllocationsPlaced(Recompute(b.(matches := b.matches[m := row]), row.statement, id).books)
  {
    OthersStayPlaced(b, Recompute(b.(matches := b.matches[m := row]), row.statement, id).books, m);
  }

  // A row that is no longer active, with the status of its statement line recomputed.
  lemma ReleaseKeepsBank(b: Books, m: Id, row: Match, id: Id)
    requires BankOk(b) && m < |b.matches| && row.state != Active
    requires row.statement == b.matches[m].statement < |b.statements|
    requires Recompute(b.(matches := b.matches[m := row]), row.statement, id).Changed?
    ensures BankOk(Recompute(b.(matches := b.matches[m := row]), row.statement, id).books)
  {
    var after := Recompute(b.(matches := b.matches[m := row]), row.statement, id).books;
    ReplaceMovesUse(b.matches, m, row);
    LegacyElsewhere(b.matches, m, row);
    ReleaseKeepsPlaced(b, m, row, id);
    forall k | 0 <= k < |after.matches| ensures AllocationOk(after, after.matches[k]) {
      assert AllocationOk(b, b.matches[k]);
    }
    forall t | 0 <= t < |after.statements|
      ensures StatusClassified(after, t) && 0 <= StatementUsed(after.matches, t) <= after.statements[t].amount
    {
      assert StatusClassified(b, t);
      SumNonNegative(after.matches, OnStatement(t));
    }
    forall line | LineExists(after.journals, line) && after.journals[line.journal].status == Posted
      ensures 0 <= LineUsed(after.matches, line) <= LineAmount(after.journals, line)
    {
      SumNonNegative(after.matches, OnLine(line));
    }
  }

  lemma UnmatchKeepsBank(b: Books, m: Id, actor: string, reason: string)
    requires BankOk(b)
    requires Unmatch(b, m, actor, reason).Changed?
    ensures BankOk(Unmatch(b, m, actor, reason).books)
  {
    ReleaseKeepsBank(b, m, b.matches[m].(state := Unallocated, status := UnmatchedStatus), m);
  }

  // Unmatching gives back exactly the allocation's amount to its statement line and its journal line,
  // from any state, and to no other; no other row changes.
  lemma UnmatchLowersUse(b: Books, m: Id, actor: string, reason: string)
    requires Unmatch(b, m, actor, reason).Changed?
    ensures var after, row := Unmatch(b, m, actor, reason).books, b.matches[m];
      (forall s :: StatementUsed(after.matches, s) ==
        StatementUsed(b.matches, s) - if s == row.statement then row.amount else 0) &&
      (forall line :: LineUsed(after.matches, line) ==
        LineUsed(b.matches, line) - if row.line == Some(line) then row.amount else 0)
    ensures var after, row := Unmatch(b, m, actor, reason).books, b.matches[m];
      |after.matches| == |b.matches| &&
        (forall k :: 0 <= k < |b.matches| && k != m ==> after.matches[k] == b.matches[k]) &&
      |after.statements| == |b.statements| &&
      (forall s :: 0 <= s < |b.statements| && s != row.statement ==> after.statements[s] == b.statements[s]) &&
      after.statements[row.statement].status ==
        Classify(StatementUsed(b.matches, row.statement) - row.amount, b.statements[row.statement].amount)
  {
    var after := Unmatch(b, m, actor, reason).books;
    ReplaceMovesUse(b.matches, m, after.matches[m]);
  }

  // Unmatching what was just allocated gives back both capacities, everywhere.
  lemma UnmatchRestoresCapacities(b: Books, s: Id, line: LineRef, amount: Cents, actor: string, undoer: string,
      reason: string)
    requires Allocate(b, s, line, amount, actor).Changed?
    requires Unmatch(Allocate(b, s, line, amount, actor).books, |b.matches|, undoer, reason).Changed?
    ensures var after := Unmatch(Allocate(b, s, line, amount, actor).books, |b.matches|, undoer, reason).books;
      (forall t :: StatementUsed(after.matches, t) == StatementUsed(b.matches, t)) &&
      (forall l :: LineUsed(after.matches, l) == LineUsed(b.matches, l)) &&
      after.statements[s].status == Classify(StatementUsed(b.matches, s), b.statements[s].amount)
  {
    var mid := Allocate(b, s, line, amount, actor).books;
    AllocateMovesUse(b, mid.matches[|b.matches|]);
    assert mid.matches == b.matches + [mid.matches[|b.matches|]];
    UnmatchLowersUse(mid, |b.matches|, undoer, reason);
  }

  // ---- verify ----

  // What an accepted verification has established about the promoted row and its line.
  lemma VerifyChecked(b: Books, s: Id, m: Id, expected: LineRef, reason: string, actor: string)
    requires Verify(b, s, m, expected, reason, actor).Changed?
    ensures s < |b.statements| && m < |b.matches| && b.matches[m].statement == s
    ensures b.matches[m].state == Legacy && b.matches[m].amount > 0
    ensures LineExists(b.journals, expected) && b.journals[expected.journal].status == Posted
    ensures b.journals[expected.journal].reversalOf.None? && b.journals[expected.journal].reversedBy.None?
    ensures var l := b.journals[expected.journal].lines[expected.index];
      Sum(b.matches, OnLineAnyIdentity(expected)) + b.matches[m].amount <= BookSide(l, b.statements[s].direction) &&
      OtherSide(l, b.statements[s].direction) == 0
    ensures var after := Verify(b, s, m, expected, reason, actor).books;
      var used := StatementUsed(after.matches, s);
      after.matches == b.matches[m := after.matches[m]] && after.journals == b.journals &&
      after.matches[m].statement == s && after.matches[m].amount == b.matches[m].amount &&
        after.matches[m].state == Active &&
      after.matches[m].identity == Verified && after.matches[m].line == Some(expected) &&
        after.matches[m].journal == Some(expected.journal) &&
      used <= b.statements[s].amount &&
      after.statements == b.statements[s := b.statements[s].(status := Classify(used, b.statements[s].amount))]
  {
  }

  lemma VerifyKeepsPlaced(b: Books, s: Id, m: Id, expected: LineRef, reason: string, actor: string)
    requires AllocationsPlaced(b) && Verify(b, s, m, expected, reason, actor).Changed?
    ensures AllocationsPlaced(Verify(b, s, m, expected, reason, actor).books)
  {
    VerifyChecked(b, s, m, expected, reason, actor);
    OthersStayPlaced(b, Verify(b, s, m, expected, reason, actor).books, m);
  }

  lemma PromotedRowKeepsBank(b: Books, after: Books, s: Id, m: Id, line: LineRef, status: StatementStatus)
    requires BankOk(b)
    requires s < |b.statements| && m < |b.matches| && b.matches[m].statement == s && b.matches[m].state == Legacy &&
      b.matches[m].amount > 0
    requires after.journals == b.journals && |after.matches| == |b.matches| &&
      after.matches == b.matches[m := after.matches[m]]
    requires var row := after.matches[m];
      row.statement == s && row.amount == b.matches[m].amount && row.state == Active && row.identity == Verified &&
      row.line == Some(line) && row.journal == Some(line.journal)
    requires LineExists(b.journals, line) && b.journals[line.journal].status == Posted
    requires b.journals[line.journal].reversalOf.None? && b.journals[line.journal].reversedBy.None?
    requires LineUsed(b.matches, line) + b.matches[m].amount <= LineAmount(b.journals, line)
    requires StatementUsed(after.matches, s) <= b.statements[s].amount
    requires status == Classify(StatementUsed(after.matches, s), b.statements[s].amount)
    requires after.statements == b.statements[s := b.statements[s].(status := status)]
    requires AllocationsPlaced(after)
    ensures BankOk(after)
  {
    ReplaceMovesUse(b.matches, m, after.matches[m]);
    LegacyElsewhere(b.matches, m, after.matches[m]);
    forall k | 0 <= k < |after.matches| ensures AllocationOk(after, after.matches[k]) {
      assert AllocationOk(b, b.matches[k]);
    }
    forall t | 0 <= t < |after.statements| ensures StatusClassified(after, t) {
      assert StatusClassified(b, t);
    }
  }

  lemma VerifyKeepsBank(b: Books, s: Id, m: Id, expected: LineRef, reason: string, actor: string)
    requires BankOk(b) && LinesOneSided(b.journals)
    requires Verify(b, s, m, expected, reason, actor).Changed?
    ensures BankOk(Verify(b, s, m, expected, reason, actor).books)
  {
    var after := Verify(b, s, m, expected, reason, actor).books;
    VerifyChecked(b, s, m, expected, reason, actor);
    forall k | 0 <= k < |b.matches|
      ensures OnLineAnyIdentity(expected)(b.matches[k]) == OnLine(expected)(b.matches[k])
    {
      assert AllocationOk(b, b.matches[k]);
    }
    SumSame(b.matches, OnLineAnyIdentity(expected), OnLine(expected));
    VerifyKeepsPlaced(b, s, m, expected, reason, actor);
    PromotedRowKeepsBank(b, after, s, m, expected, after.statements[s].status);
  }

  // ---- The ledger operations do not disturb the allocations ----

  // No allocation uses a line of a journal that is not posted yet, or not there yet.
  lemma UnusedLine(b: Books, line: LineRef)
    requires AllocationsOk(b)
    requires !LineExists(b.journals, line) || b.journals[line.journal].status != Posted
    ensures LineUsed(b.matches, line) == 0
  {
    forall m | 0 <= m < |b.matches| ensures OnLine(line)(b.matches[m]) == 0 {
      assert AllocationOk(b, b.matches[m]);
    }
    SumZero(b.matches, OnLine(line));
  }

  // An active allocation of a line of journal j.
  predicate HoldsJournal(m: Match, j: Id) { m.state == Active && m.journal == Some(j) }

  lemma JournalsGrowKeepsBank(b: Books, after: Books)
    requires BankOk(b) && LinesOneSided(after.journals)
    requires after.matches == b.matches && after.statements == b.statements && after.banks == b.banks
    requires |after.journals| >= |b.journals|
    requires forall j :: 0 <= j < |b.journals| ==>
      after.journals[j].lines == b.journals[j].lines &&
        (b.journals[j].status == Posted ==> after.journals[j].status == Posted)
    requires forall m, j: Id :: 0 <= m < |b.matches| && HoldsJournal(b.matches[m], j) && j < |b.journals| ==>
        after.journals[j].reversalOf == b.journals[j].reversalOf &&
        after.journals[j].reversedBy == b.journals[j].reversedBy
    ensures BankOk(after)
  {
    RowsStayPlaced(b, after);
    forall m | 0 <= m < |after.matches| ensures AllocationOk(after, after.matches[m]) {
      assert AllocationOk(b, b.matches[m]);
    }
    forall s | 0 <= s < |after.statements| ensures StatusClassified(after, s) { assert StatusClassified(b, s); }
    forall line | LineExists(after.journals, line) && after.journals[line.journal].status == Posted
      ensures 0 <= LineUsed(after.matches, line) <= LineAmount(after.journals, line)
    {
      if !LineExists(b.journals, line) || b.journals[line.journal].status != Posted {
        UnusedLine(b, line);
      } else {
        assert LineAmount(after.journals, line) == LineAmount(b.journals, line);
      }
    }
  }
}
