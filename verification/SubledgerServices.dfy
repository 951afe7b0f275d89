// The undo transactions as they run: rows are rewritten in place, and a refusal rolls the
// transaction back.
module SubledgerServices {
  import opened Tables
  import opened Sums
  import opened PostingEngine
  import opened JournalReversal
  import opened Subledger

  class Subtables {
    var documents: seq<Document>
    var payments: seq<Payment>
    var allocations: seq<Allocation>
    var advances: seq<Advance>
    var applications: seq<Application>
    var notes: seq<Note>
    var noteApplications: seq<NoteApplication>
    var refunds: seq<Refund>
    var writeOffs: seq<WriteOff>
    var parties: seq<Party>
    var orders: seq<Order>
    var expenses: seq<Expenditure>

    function Snapshot(): Sub
      reads this
    {
      Sub(documents, payments, allocations, advances, applications, notes, noteApplications, refunds,
          writeOffs, parties, orders, expenses)
    }

    // ROLLBACK to the state the transaction started from.
    method RollBack(to: Sub)
      modifies this
      ensures Snapshot() == to
    {
      documents, payments, allocations, advances := to.documents, to.payments, to.allocations, to.advances;
      applications, notes, noteApplications := to.applications, to.notes, to.noteApplications;
      refunds, writeOffs, parties, orders, expenses := to.refunds, to.writeOffs, to.parties, to.orders, to.expenses;
    }
  }

  datatype UndoReply = Reversed(journal: Id) | Failed(reason: Reason)

  ghost predicate Commits(s: Sub, b: Books, after: Sub, booksAfter: Books, reply: UndoReply, outcome: Undone) {
    match outcome
    case Undid(sub, books, id) => reply == Reversed(id) && after == sub && booksAfter == books
    case Kept(reason) => reply == Failed(reason) && after == s && booksAfter == b
  }

  // How performing a plan ends, by how its journal reversal ends.
  lemma PerformCases(journal: Id, after: Sub, late: Option<Reason>, b: Books, number: string, today: Date)
    ensures var outcome := Perform(Proceed(journal, after, late), b, number, today);
      match Reverse(b, journal, number, today, None)
      case Refused(refusal) => outcome == Kept(JournalRefused(refusal))
      case Done(books, id) => outcome == if late.Some? then Kept(late.value) else Undid(after, books, id)
  {
  }

  // The end of every undo: reverse the journal, apply the guard that is checked last, or roll back.
  method Conclude(db: Database, t: Subtables, start: Sub, journal: Id, late: Option<Reason>, number: string,
      today: Date)
    returns (reply: UndoReply)
    requires |db.accounts| == |db.balances| && |db.banks| == |db.bankBalances|
    modifies db, t
    ensures Commits(start, old(db.Snapshot()), t.Snapshot(), db.Snapshot(), reply,
                    Perform(Proceed(journal, old(t.Snapshot()), late), old(db.Snapshot()), number, today))
  {
    PerformCases(journal, t.Snapshot(), late, db.Snapshot(), number, today);
    var journals, balances, bankBalances := db.journals, db.balances, db.bankBalances;
    var reversal := ReversePostedJournal(db, journal, number, today, None);
    if reversal.Rejected? {
      t.RollBack(start);
      return Failed(JournalRefused(reversal.refusal));
    }
    if late.Some? {
      t.RollBack(start);
      db.journals, db.balances, db.bankBalances := journals, balances, bankBalances;
      return Failed(late.value);
    }
    return Reversed(reversal.id);
  }

  lemma {:induction false} BlockedStays(docs: seq<Document>, pieces: seq<Piece>, f: Field, checkVoid: bool, i: nat)
    requires i <= |pieces| && Unwind(docs, pieces[..i], f, checkVoid).Blocked?
    ensures Unwind(docs, pieces, f, checkVoid) == Unwind(docs, pieces[..i], f, checkVoid)
  {
    if i == |pieces| {
      assert pieces[..i] == pieces;
    } else {
      assert pieces[..|pieces| - 1][..i] == pieces[..i];
      BlockedStays(docs, pieces[..|pieces| - 1], f, checkVoid, i);
    }
  }

  // The loop over the selected rows; it stops at the first document that cannot give the amount back.
  method UnwindRows(t: Subtables, pieces: seq<Piece>, f: Field, checkVoid: bool)
    returns (why: Option<Reason>, undone: Cents)
    modifies t`documents
    ensures why.None? ==>
      Unwind(old(t.documents), pieces, f, checkVoid) == Unwound(t.documents) && undone == Sum(pieces, PieceAmount)
    ensures why.Some? ==> Unwind(old(t.documents), pieces, f, checkVoid) == Blocked(why.value)
  {
    undone := 0;
    for i := 0 to |pieces|
      invariant Unwind(old(t.documents), pieces[..i], f, checkVoid) == Unwound(t.documents)
      invariant undone == Sum(pieces[..i], PieceAmount)
    {
      var piece := pieces[i];
      assert pieces[..i + 1][..i] == pieces[..i];
      SumSnoc(pieces[..i], piece, PieceAmount);
      assert pieces[..i + 1] == pieces[..i] + [piece];
      var step := UndoPiece(t.documents, piece, f, checkVoid);
      if step.Blocked? {
        BlockedStays(old(t.documents), pieces, f, checkVoid, i + 1);
        return Some(step.why), undone;
      }
      t.documents := step.documents;
      undone := undone + piece.amount;
    }
    assert pieces[..|pieces|] == pieces;
    why := None;
  }

  method ReversePayment(db: Database, t: Subtables, kind: Kind, p: Id, number: string,
      today: Date) returns (reply: UndoReply)
    requires |db.accounts| == |db.balances| && |db.banks| == |db.bankBalances|
    modifies db, t
    ensures Commits(old(t.Snapshot()), old(db.Snapshot()), t.Snapshot(), db.Snapshot(), reply,
                    Perform(PlanPayment(kind, old(t.Snapshot()), old(db.Snapshot()), p), old(db.Snapshot()), number,
                      today))
  {
    var start := t.Snapshot();
    if p >= |t.payments| { return Failed(NotFound); }
    var payment := t.payments[p];
    if payment.reversed { return Failed(AlreadyUndone); }
    if payment.journal.None? { return Failed(NoJournal); }
    if IsBankMatched(kind, db.Snapshot(), p) { return Failed(BankMatched); }
    if !AdvancesUntouched(start, p) { return Failed(AdvanceApplied); }
    var why, undone := UnwindRows(t, PaymentPieces(t.allocations, p), PaidField, true);
    if why.Some? {
      t.RollBack(start);
      return Failed(why.value);
    }
    var late: Option<Reason> := None;
    if kind == Vendors && (!HasParty(start, payment.party) ||
      t.parties[payment.party.value].advances < payment.unallocated) {
      late := Some(PartyBalanceShort);
    }
    t.parties := PaymentParties(kind, start, p, undone);
    t.advances := AdvancesCancelled(t.advances, p);
    t.payments := t.payments[p := payment.(reversed := true, unallocated := 0)];
    assert PlanPayment(kind, start, db.Snapshot(), p) == Proceed(payment.journal.value, t.Snapshot(), late);
    reply := Conclude(db, t, start, payment.journal.value, late, number, today);
  }

  method ReverseNote(db: Database, t: Subtables, kind: Kind, n: Id, number: string,
      today: Date) returns (reply: UndoReply)
    requires |db.accounts| == |db.balances| && |db.banks| == |db.bankBalances|
    modifies db, t
    ensures Commits(old(t.Snapshot()), old(db.Snapshot()), t.Snapshot(), db.Snapshot(), reply,
                    Perform(PlanNote(kind, old(t.Snapshot()), n), old(db.Snapshot()), number, today))
  {
    var start := t.Snapshot();
    if n >= |t.notes| { return Failed(NotFound); }
    var note := t.notes[n];
    if note.status == NoteReversed { return Failed(AlreadyUndone); }
    if note.journal.None? { return Failed(NoJournal); }
    if kind == Customers && HasLiveRefund(start, n) { return Failed(HasRefunds); }
    var why, undone := UnwindRows(t, NotePieces(t.noteApplications, n), CreditedField, false);
    if why.Some? {
      t.RollBack(start);
      return Failed(why.value);
    }
    assert Unwind(start.documents, NotePieces(start.noteApplications, n), CreditedField, false) == Unwound(t.documents);
    if kind == Vendors && note.party.Some? && note.remaining > 0 &&
       (!HasParty(start, note.party) || t.parties[note.party.value].unusedCredits < note.remaining) {
      t.RollBack(start);
      return Failed(PartyBalanceShort);
    }
    if kind == Vendors {
      t.parties := MoveParty(t.parties, note.party, undone, 0, if note.remaining > 0 then -note.remaining else 0);
    }
    t.noteApplications := NoteApplicationsUndone(t.noteApplications, n);
    t.notes := t.notes[n := note.(status := NoteReversed, remaining := 0)];
    assert PlanNote(kind, start, n) == Proceed(note.journal.value, t.Snapshot(), None);
    reply := Conclude(db, t, start, note.journal.value, None, number, today);
  }

  method ReverseRefund(db: Database, t: Subtables, kind: Kind, k: Id, number: string,
      today: Date) returns (reply: UndoReply)
    requires |db.accounts| == |db.balances| && |db.banks| == |db.bankBalances|
    modifies db, t
    ensures Commits(old(t.Snapshot()), old(db.Snapshot()), t.Snapshot(), db.Snapshot(), reply,
                    Perform(PlanRefund(kind, old(t.Snapshot()), k), old(db.Snapshot()), number, today))
  {
    var start := t.Snapshot();
    if k >= |t.refunds| { return Failed(NotFound); }
    var refund := t.refunds[k];
    if refund.reversed { return Failed(AlreadyUndone); }
    if refund.journal.None? { return Failed(NoJournal); }
    var restored := RestoreSource(kind, start, refund);
    if restored.Stop? { return Failed(restored.reason); }
    t.notes, t.advances, t.parties := restored.after.notes, restored.after.advances, restored.after.parties;
    t.refunds := t.refunds[k := refund.(reversed := true)];
    assert PlanRefund(kind, start, k) == Proceed(refund.journal.value, t.Snapshot(), None);
    reply := Conclude(db, t, start, refund.journal.value, None, number, today);
  }

  method ReverseWriteOff(db: Database, t: Subtables, w: Id, number: string, today: Date) returns (reply: UndoReply)
    requires |db.accounts| == |db.balances| && |db.banks| == |db.bankBalances|
    modifies db, t
    ensures Commits(old(t.Snapshot()), old(db.Snapshot()), t.Snapshot(), db.Snapshot(), reply,
                    Perform(PlanWriteOff(old(t.Snapshot()), w), old(db.Snapshot()), number, today))
  {
    var start := t.Snapshot();
    if w >= |t.writeOffs| { return Failed(NotFound); }
    var row := t.writeOffs[w];
    if row.reversed { return Failed(AlreadyUndone); }
    if row.journal.None? { return Failed(NoJournal); }
    if row.document >= |t.documents| { return Failed(DocumentMissing); }
    var doc := t.documents[row.document];
    if row.amount > doc.writtenOff { return Failed(ExceedsSettled); }
    t.documents := t.documents[row.document := Restated(doc.(writtenOff := doc.writtenOff - row.amount))];
    t.writeOffs := t.writeOffs[w := row.(reversed := true)];
    assert PlanWriteOff(start, w) == Proceed(row.journal.value, t.Snapshot(), None);
    reply := Conclude(db, t, start, row.journal.value, None, number, today);
  }

  method ReverseAdvance(db: Database, t: Subtables, i: Id, number: string, today: Date) returns (reply: UndoReply)
    requires |db.accounts| == |db.balances| && |db.banks| == |db.bankBalances|
    modifies db, t
    ensures Commits(old(t.Snapshot()), old(db.Snapshot()), t.Snapshot(), db.Snapshot(), reply,
                    Perform(PlanAdvance(old(t.Snapshot()), i), old(db.Snapshot()), number, today))
  {
    var start := t.Snapshot();
    if i >= |t.advances| { return Failed(NotFound); }
    var row := t.advances[i];
    if row.status == AdvanceReversed { return Failed(AlreadyUndone); }
    if row.payment.Some? { return Failed(LinkedToPayment); }
    if row.journal.None? { return Failed(NoJournal); }
    if row.amount != row.unapplied { return Failed(AdvanceApplied); }
    var late: Option<Reason> := None;
    if row.party >= |t.parties| || t.parties[row.party].advances < row.amount { late := Some(PartyBalanceShort); }
    t.parties := MoveParty(t.parties, Some(row.party), 0, -row.amount, 0);
    t.advances := t.advances[i := row.(status := AdvanceReversed, unapplied := 0)];
    assert PlanAdvance(start, i) == Proceed(row.journal.value, t.Snapshot(), late);
    reply := Conclude(db, t, start, row.journal.value, late, number, today);
  }

  method ReverseAdvanceApplication(db: Database, t: Subtables, kind: Kind, k: Id, number: string, today: Date)
    returns (reply: UndoReply)
    requires |db.accounts| == |db.balances| && |db.banks| == |db.bankBalances|
    modifies db, t
    ensures Commits(old(t.Snapshot()), old(db.Snapshot()), t.Snapshot(), db.Snapshot(), reply,
                    Perform(PlanApplication(kind, old(t.Snapshot()), k), old(db.Snapshot()), number, today))
  {
    var start := t.Snapshot();
    if k >= |t.applications| { return Failed(NotFound); }
    var row := t.applications[k];
    if row.reversed { return Failed(AlreadyUndone); }
    if row.advance >= |t.advances| || row.document >= |t.documents| { return Failed(DocumentMissing); }
    var advance, doc := t.advances[row.advance], t.documents[row.document];
    if row.amount > doc.paid { return Failed(ExceedsSettled); }
    if row.journal.None? { return Failed(JournalRefused(JournalNotFound)); }
    t.documents := t.documents[row.document := Restated(doc.(paid := doc.paid - row.amount))];
    var restored := advance.unapplied + row.amount;
    t.advances := t.advances[row.advance := advance.(unapplied := restored,
                               status := if restored == advance.amount then Unapplied else PartlyApplied)];
    if kind == Vendors {
      t.parties := MoveParty(t.parties, Some(advance.party), row.amount, row.amount, 0);
    }
    t.applications := t.applications[k := row.(reversed := true)];
    assert PlanApplication(kind, start, k) == Proceed(row.journal.value, t.Snapshot(), None);
    reply := Conclude(db, t, start, row.journal.value, None, number, today);
  }

  // UPDATE expenses for every expense billed on the invoice.
  method ReleaseExpenses(t: Subtables, d: Id)
    modifies t`expenses
    ensures t.expenses == VoidExpenses(Customers, old(t.expenses), d)
  {
    for i := 0 to |t.expenses|
      invariant |t.expenses| == |old(t.expenses)|
      invariant forall k :: 0 <= k < i ==> t.expenses[k] == ReleasedExpense(old(t.expenses)[k], d)
      invariant forall k :: i <= k < |t.expenses| ==> t.expenses[k] == old(t.expenses)[k]
    {
      if t.expenses[i].invoice == Some(d) {
        t.expenses := t.expenses[i := t.expenses[i].(billed := false, invoice := None)];
      }
    }
  }

  method Void(db: Database, t: Subtables, kind: Kind, d: Id, number: string, today: Date) returns (reply: UndoReply)
    requires |db.accounts| == |db.balances| && |db.banks| == |db.bankBalances|
    modifies db, t
    ensures Commits(old(t.Snapshot()), old(db.Snapshot()), t.Snapshot(), db.Snapshot(), reply,
                    Perform(PlanVoid(kind, old(t.Snapshot()), d), old(db.Snapshot()), number, today))
  {
    var start := t.Snapshot();
    if d >= |t.documents| { return Failed(NotFound); }
    var doc := t.documents[d];
    if kind == Customers && doc.order.Some? && doc.order.value >= |t.orders| { return Failed(OrderMissing); }
    if doc.status == Voided { return Failed(AlreadyUndone); }
    if !SettlementGuard(kind, start, d) { return Failed(HasSettlements); }
    if doc.journal.None? { return Failed(NoJournal); }
    var late := VoidLate(kind, start, doc);
    t.documents := t.documents[d := doc.(status := Voided, balanceDue := 0)];
    if doc.order.Some? && doc.order.value < |t.orders| {
      var order := t.orders[doc.order.value];
      var billed := order.billed - doc.total;
      t.orders := t.orders[doc.order.value := order.(billed := billed,
        status := OrderStatusAfter(kind, order, billed))];
    }
    if kind == Customers { ReleaseExpenses(t, d); }
    t.parties := VoidParties(kind, start, doc);
    assert t.expenses == VoidExpenses(kind, start.expenses, d) && t.payments == start.payments;
    assert PlanVoid(kind, start, d) == Proceed(doc.journal.value, t.Snapshot(), late);
    reply := Conclude(db, t, start, doc.journal.value, late, number, today);
  }
}
