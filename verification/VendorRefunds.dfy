// PurchasesEngine.recordVendorRefund of a vendor note (debit note), the forward half of the refunds
// that reverseVendorRefund undoes, and what becomes of a refund whose note is reversed first.
module VendorRefunds {
  import opened Tables
  import opened Sums
  import opened PostingEngine
  import opened Subledger
  import opened SubledgerLaws
  import opened SubledgerServices
  import opened VendorLaws

  datatype RefundOrder = RefundOrder(note: Id, vendor: Id, amount: Cents, number: string, date: Date,
                                     deposit: Id, payablesControl: Id)

  datatype RefundRefusal =
    | PeriodClosed | AmountNotPositive | VendorUnknown | NoteUnknown | NoteOfAnother | ExceedsRemaining
    | PostingRefused(refusal: Refusal)

  datatype Recorded = RefundRecorded(sub: Sub, books: Books, refund: Id) | RefundRefused(reason: RefundRefusal)
  datatype RecordReply = Registered(refund: Id) | Declined(refusal: RefundRefusal)

  ghost predicate Registers(s: Sub, b: Books, after: Sub, booksAfter: Books, reply: RecordReply, outcome: Recorded) {
    match outcome
    case RefundRecorded(sub, books, id) => reply == Registered(id) && after == sub && booksAfter == books
    case RefundRefused(reason) => reply == Declined(reason) && after == s && booksAfter == b
  }

  function RefundLines(o: RefundOrder): seq<Line> {
    [Line(o.deposit, o.amount, 0, None, None, Some(o.vendor)),
      Line(o.payablesControl, 0, o.amount, None, None, Some(o.vendor))]
  }

  function RefundPayload(o: RefundOrder): Payload { Payload(o.number, Some(o.date), RefundLines(o), None) }

  function RefundProblem(s: Sub, b: Books, o: RefundOrder): Option<RefundRefusal> {
    if LockedOn(b.locks, o.date) then Some(PeriodClosed)
    else if o.amount <= 0 then Some(AmountNotPositive)
    else if o.vendor >= |s.parties| then Some(VendorUnknown)
    else if o.note >= |s.notes| then Some(NoteUnknown)
    else if s.notes[o.note].party != Some(o.vendor) then Some(NoteOfAnother)
    else if o.amount > s.notes[o.note].remaining then Some(ExceedsRemaining)
    else None
  }

  // The rows of a refund whose journal is `journal`: the remaining credit falls and what the vendor is
  // owed rises. The vendor's unused credits are not touched.
  function WithNoteRefund(s: Sub, o: RefundOrder, journal: Id): Sub
    requires o.note < |s.notes|
  {
    var note := s.notes[o.note];
    var left := note.remaining - o.amount;
    s.(notes := s.notes[o.note := note.(remaining := left, status := if left <= 0 then FullyUsed else note.status)],
       parties := MoveParty(s.parties, Some(o.vendor), o.amount, 0, 0),
       refunds := s.refunds + [Refund(o.vendor, Some(o.note), None, None, None, o.amount, false, Some(journal))])
  }

  function RecordNoteRefund(s: Sub, b: Books, o: RefundOrder): Recorded {
    var problem := RefundProblem(s, b, o);
    if problem.Some? then RefundRefused(problem.value)
    else
      match Post(b, RefundPayload(o))
      case Refused(why) => RefundRefused(PostingRefused(why))
      case Done(books, journal) => RefundRecorded(WithNoteRefund(s, o, journal), books, |s.refunds|)
  }

  method RecordVendorRefund(db: Database, t: Subtables, o: RefundOrder) returns (reply: RecordReply)
    requires |db.accounts| == |db.balances| && |db.banks| == |db.bankBalances|
    modifies db, t
    ensures Registers(old(t.Snapshot()), old(db.Snapshot()), t.Snapshot(), db.Snapshot(), reply,
                      RecordNoteRefund(old(t.Snapshot()), old(db.Snapshot()), o))
  {
    var problem := RefundProblem(t.Snapshot(), db.Snapshot(), o);
    if problem.Some? { return Declined(problem.value); }
    var start := t.Snapshot();
    PayOutRows(t, o);
    var posting := PostEntry(db, RefundPayload(o));
    if posting.Rejected? {
      t.RollBack(start);
      return Declined(PostingRefused(posting.refusal));
    }
    t.refunds := t.refunds + [Refund(o.vendor, Some(o.note), None, None, None, o.amount, false, Some(posting.id))];
    assert t.Snapshot() == WithNoteRefund(start, o, posting.id);
    return Registered(|t.refunds| - 1);
  }

  // The two updates before the journal is posted.
  method PayOutRows(t: Subtables, o: RefundOrder)
    requires o.note < |t.notes|
    modifies t`notes, t`parties
    ensures forall journal :: t.notes == WithNoteRefund(old(t.Snapshot()), o, journal).notes
    ensures forall journal :: t.parties == WithNoteRefund(old(t.Snapshot()), o, journal).parties
  {
    var note := t.notes[o.note];
    var left := note.remaining - o.amount;
    t.notes := t.notes[o.note := note.(remaining := left, status := if left <= 0 then FullyUsed else note.status)];
    t.parties := MoveParty(t.parties, Some(o.vendor), o.amount, 0, 0);
  }

  // ---- Recording keeps the subledger consistent ----

  ghost predicate Acceptable(s: Sub, o: RefundOrder) {
    o.note < |s.notes| && o.vendor < |s.parties| && s.notes[o.note].party == Some(o.vendor) &&
    0 < o.amount <= s.notes[o.note].remaining
  }

  lemma OneMoreRefund(refunds: seq<Refund>, r: Refund)
    ensures forall n :: Sum(refunds + [r], RefundOfNote(n)) == Sum(refunds, RefundOfNote(n)) + RefundOfNote(n)(r)
    ensures forall i, payment, party ::
      Sum(refunds + [r], RefundOfAdvance(Vendors, i, payment, party)) ==
      Sum(refunds, RefundOfAdvance(Vendors, i, payment, party)) + RefundOfAdvance(Vendors, i, payment, party)(r)
  {
    forall n ensures Sum(refunds + [r], RefundOfNote(n)) == Sum(refunds, RefundOfNote(n)) + RefundOfNote(n)(r) {
      SumSnoc(refunds, r, RefundOfNote(n));
    }
    forall i, payment, party ensures Sum(refunds + [r], RefundOfAdvance(Vendors, i, payment, party)) ==
      Sum(refunds, RefundOfAdvance(Vendors, i, payment, party)) + RefundOfAdvance(Vendors, i, payment, party)(r)
    {
      SumSnoc(refunds, r, RefundOfAdvance(Vendors, i, payment, party));
    }
  }

  lemma RefundingKeepsSub(s: Sub, o: RefundOrder, journal: Id)
    requires SubOk(Vendors, s) && PartiesAgree(s) && Acceptable(s, o)
    ensures SubOk(Vendors, WithNoteRefund(s, o, journal)) && PartiesAgree(WithNoteRefund(s, o, journal))
  {
    var after := WithNoteRefund(s, o, journal);
    OneMoreRefund(s.refunds, after.refunds[|s.refunds|]);
    forall d | 0 <= d < |after.documents| ensures DocumentOk(after, d) { assert DocumentOk(s, d); }
    forall n | 0 <= n < |after.notes| ensures NoteOk(Vendors, after, n) { assert NoteOk(Vendors, s, n); }
    forall i | 0 <= i < |after.advances| ensures AdvanceOk(Vendors, after, i) { assert AdvanceOk(Vendors, s, i); }
  }

  // ---- What the refund moves, and what its reversal moves back ----

  // The refund alone opens a gap of its amount between unused credits and remaining credits; what the
  // vendor is owed and has been advanced stay explained.
  lemma RefundingOpensGap(s: Sub, o: RefundOrder, journal: Id, v: Id)
    requires SubOk(Vendors, s) && Acceptable(s, o) && v < |s.parties|
    ensures var after := WithNoteRefund(s, o, journal);
      |after.parties| == |s.parties| &&
      CreditsDrift(after, v) == CreditsDrift(s, v) + (if v == o.vendor then o.amount else 0) &&
      RefundedCredits(after, v) == RefundedCredits(s, v) + (if v == o.vendor then o.amount else 0) &&
      PayablesDrift(after, v) == PayablesDrift(s, v) && AdvanceDrift(after, v) == AdvanceDrift(s, v)
  {
    var after := WithNoteRefund(s, o, journal);
    var refund := after.refunds[|s.refunds|];
    assert NoteOk(Vendors, s, o.note);
    SumUpdate(s.notes, o.note, after.notes[o.note], RemainingOf(v));
    SumSnoc(s.refunds, refund, PlainRefund(v));
    SumSnoc(s.refunds, refund, NoteRefund(s.notes, v));
    SumSame(after.refunds, NoteRefund(after.notes, v), NoteRefund(s.notes, v));
  }

  // The reversal of a refund just recorded goes through exactly when the vendor was not owed less than
  // nothing, and then every table is as before but for the note's status and the reversed row.
  lemma RefundThenReverse(s: Sub, o: RefundOrder, journal: Id)
    requires SubOk(Vendors, s) && Acceptable(s, o)
    ensures var plan := PlanRefund(Vendors, WithNoteRefund(s, o, journal), |s.refunds|);
      (plan.Proceed? <==> s.parties[o.vendor].owed >= 0) && (plan.Stop? ==> plan == Stop(PartyBalanceShort)) &&
      (plan.Proceed? ==>
        plan.journal == journal &&
        plan.after == s.(notes := s.notes[o.note := s.notes[o.note].(status := plan.after.notes[o.note].status)],
                         refunds := s.refunds + [plan.after.refunds[|s.refunds|]]) &&
        plan.after.refunds[|s.refunds|].reversed)
  {
    var after := WithNoteRefund(s, o, journal);
    var plan := PlanRefund(Vendors, after, |s.refunds|);
    assert NoteOk(Vendors, s, o.note);
    SumNonNegative(s.noteApplications, CreditFrom(o.note));
    SumNonNegative(s.refunds, RefundOfNote(o.note));
    assert s.notes[o.note].status != NoteReversed && s.notes[o.note].remaining <= s.notes[o.note].total;
    if plan.Proceed? { assert plan.after.parties == s.parties; }
  }

  lemma RefundThenReverseKeepsDrift(s: Sub, o: RefundOrder, journal: Id, v: Id)
    requires SubOk(Vendors, s) && Acceptable(s, o) && v < |s.parties|
    requires PlanRefund(Vendors, WithNoteRefund(s, o, journal), |s.refunds|).Proceed?
    ensures var after := PlanRefund(Vendors, WithNoteRefund(s, o, journal), |s.refunds|).after;
      |after.parties| == |s.parties| && CreditsDrift(after, v) == CreditsDrift(s, v)
  {
    var after := PlanRefund(Vendors, WithNoteRefund(s, o, journal), |s.refunds|).after;
    RefundThenReverse(s, o, journal);
    assert NoteOk(Vendors, s, o.note);
    SumNonNegative(s.noteApplications, CreditFrom(o.note));
    SumUpdate(s.notes, o.note, after.notes[o.note], RemainingOf(v));
  }

  // ---- Reversing a note that was paid out ----

  // Reversing a note leaves no live refund of it exactly when the code checks for them, as it does for
  // customers, or there is none. A live refund that is left can no longer be undone.
  lemma NoteReversalStrandsRefunds(kind: Kind, s: Sub, n: Id)
    requires PlanNote(kind, s, n).Proceed?
    ensures var after := PlanNote(kind, s, n).after;
      (!HasLiveRefund(after, n) <==> kind == Customers || !HasLiveRefund(s, n)) &&
      forall k :: 0 <= k < |after.refunds| && after.refunds[k].note == Some(n) && !after.refunds[k].reversed ==>
        PlanRefund(kind, after, k) == Stop(if after.refunds[k].journal.None? then NoJournal else SourceUnavailable)
  {
    var after := PlanNote(kind, s, n).after;
    assert after.refunds == s.refunds;
    assert HasLiveRefund(after, n) <==> HasLiveRefund(s, n);
  }

  // A live refund of a reversed note.
  ghost predicate Stranded(s: Sub, k: Id) {
    k < |s.refunds| && !s.refunds[k].reversed && s.refunds[k].note.Some? &&
    s.refunds[k].note.value < |s.notes| && s.notes[s.refunds[k].note.value].status == NoteReversed
  }

  // It stays so under every undo that follows.
  lemma UndoKeepsStranded(kind: Kind, s: Sub, b: Books, undo: Undo, k: Id)
    requires Stranded(s, k) && PlanOf(kind, s, b, undo).Proceed?
    ensures Stranded(PlanOf(kind, s, b, undo).after, k) && PlanOf(kind, s, b, undo).after.refunds[k] == s.refunds[k]
  {
    match undo
    case UndoRefund(r) => RefundUndoKeepsStranded(kind, s, r, k);
    case _ =>
  }

  lemma RefundUndoKeepsStranded(kind: Kind, s: Sub, r: Id, k: Id)
    requires Stranded(s, k) && PlanRefund(kind, s, r).Proceed?
    ensures Stranded(PlanRefund(kind, s, r).after, k) && PlanRefund(kind, s, r).after.refunds[k] == s.refunds[k]
  {
    RestoreEffect(kind, s, s.refunds[r]);
  }

  // ---- Both at one concrete vendor ----

  // A vendor with one open note of 100, of which nothing has been used.
  function OneNote(): Sub {
    Sub([], [], [], [], [], [Note(Some(0), 100, 100, Open, Some(0))], [], [], [], [Party(0, 0, 100)], [], [])
  }

  function PayOut(): RefundOrder { RefundOrder(0, 0, 100, "JE-1", 20240101, 0, 1) }

  lemma OneNoteIsConsistent()
    ensures SubOk(Vendors, OneNote()) && PartiesAgree(OneNote()) && Acceptable(OneNote(), PayOut())
  {
    var s := OneNote();
    assert Sum(s.noteApplications, CreditFrom(0)) == 0 && Sum(s.refunds, RefundOfNote(0)) == 0;
    assert NoteOk(Vendors, s, 0);
  }

  lemma OneNoteAgrees()
    ensures CreditsDrift(OneNote(), 0) == 0
  {
    var s := OneNote();
    SumSnoc([], s.notes[0], RemainingOf(0));
    assert [] + [s.notes[0]] == s.notes;
  }

  // Paying the note out leaves the vendor with 100 unused credits and no remaining credit.
  lemma PaidOutNote()
    ensures CreditsDrift(OneNote(), 0) == 0
    ensures |WithNoteRefund(OneNote(), PayOut(), 1).parties| == 1
    ensures CreditsDrift(WithNoteRefund(OneNote(), PayOut(), 1), 0) == 100
  {
    OneNoteIsConsistent();
    OneNoteAgrees();
    RefundingOpensGap(OneNote(), PayOut(), 1, 0);
  }

  // Undoing that refund makes the two agree again.
  lemma PaidOutNoteUndone()
    ensures var plan := PlanRefund(Vendors, WithNoteRefund(OneNote(), PayOut(), 1), 0);
      plan.Proceed? && |plan.after.parties| == 1 && CreditsDrift(plan.after, 0) == 0
  {
    OneNoteIsConsistent();
    OneNoteAgrees();
    RefundThenReverse(OneNote(), PayOut(), 1);
    RefundThenReverseKeepsDrift(OneNote(), PayOut(), 1, 0);
  }

  // If instead the note is reversed, that goes through, the 100 unused credits stay, and the refund is
  // stranded.
  lemma {:induction false} PaidOutNoteReversed()
    ensures SubOk(Vendors, WithNoteRefund(OneNote(), PayOut(), 1)) &&
      PartiesAgree(WithNoteRefund(OneNote(), PayOut(), 1))
    ensures var paid := WithNoteRefund(OneNote(), PayOut(), 1);
      PlanNote(Vendors, paid, 0).Proceed? &&
      var after := PlanNote(Vendors, paid, 0).after;
      SubOk(Vendors, after) && Stranded(after, 0) && after.parties == [Party(100, 0, 100)] &&
      PlanRefund(Vendors, after, 0) == Stop(SourceUnavailable)
  {
    var paid := WithNoteRefund(OneNote(), PayOut(), 1);
    OneNoteIsConsistent();
    RefundingKeepsSub(OneNote(), PayOut(), 1);
    UnusedNoteReverses(paid, 0);
    NoteKeepsSub(Vendors, paid, 0);
    NoteReversalStrandsRefunds(Vendors, paid, 0);
    assert paid.parties == [Party(100, 0, 100)] && paid.notes[0].remaining == 0;
  }

  // A note without applications and without remaining credit: its reversal moves no balance.
  lemma UnusedNoteReverses(s: Sub, n: Id)
    requires n < |s.notes| && s.notes[n].status != NoteReversed && s.notes[n].journal.Some?
    requires s.noteApplications == [] && s.notes[n].remaining == 0
    ensures var plan := PlanNote(Vendors, s, n);
      plan.Proceed? && plan.after.parties == s.parties && plan.after.refunds == s.refunds &&
      plan.after.notes == s.notes[n := s.notes[n].(status := NoteReversed)]
  {
    assert NotePieces(s.noteApplications, n) == [];
    assert Unwind(s.documents, [], CreditedField, false) == Unwound(s.documents);
  }

  // ---- When a refund is recorded ----

  // A positive amount of the vendor's own note, no more than is left of it, on an unlocked day, whose
  // journal can be posted: money on the deposit account, against payables.
  lemma {:induction false} RefundRecordedIff(s: Sub, b: Books, o: RefundOrder)
    ensures RecordNoteRefund(s, b, o).RefundRecorded? <==>
      (forall k :: 0 <= k < |b.locks| && b.locks[k].statusActive && b.locks[k].lockDate.Some? ==>
        b.locks[k].lockDate.value < o.date) &&
      o.vendor < |s.parties| && o.note < |s.notes| && s.notes[o.note].party == Some(o.vendor) &&
      0 < o.amount <= s.notes[o.note].remaining && Post(b, RefundPayload(o)).Done?
    ensures RecordNoteRefund(s, b, o).RefundRecorded? ==>
      var after := RecordNoteRefund(s, b, o).books.journals;
      |after| == |b.journals| + 1 && after[|b.journals|].lines == RefundPayload(o).lines &&
      after[|b.journals|].date == o.date
    ensures var p, lines := RefundPayload(o), RefundPayload(o).lines;
      p.number == o.number && p.date == Some(o.date) && p.reversalOf.None? && |lines| == 2 &&
      lines[0].account == o.deposit && lines[0].debit == o.amount && lines[0].credit == 0 &&
      lines[1].account == o.payablesControl && lines[1].credit == o.amount && lines[1].debit == 0 &&
      lines[0].vendor == lines[1].vendor == Some(o.vendor) &&
      (forall i :: 0 <= i < 2 ==> lines[i].project.None? && lines[i].customer.None?)
  {
  }

  // The note, the vendor and the refund row it leaves.
  lemma {:induction false} RefundRecordedRows(s: Sub, b: Books, o: RefundOrder)
    requires RecordNoteRefund(s, b, o).RefundRecorded?
    ensures var after, note := RecordNoteRefund(s, b, o).sub, s.notes[o.note];
      after.notes[..o.note] == s.notes[..o.note] && after.notes[o.note + 1..] == s.notes[o.note + 1..] &&
      after.notes[o.note].remaining == note.remaining - o.amount && after.notes[o.note].total == note.total &&
      after.notes[o.note].status == (if note.remaining == o.amount then FullyUsed else note.status) &&
      |after.parties| == |s.parties| && after.parties[o.vendor].owed == s.parties[o.vendor].owed + o.amount &&
      after.parties[o.vendor].unusedCredits == s.parties[o.vendor].unusedCredits &&
      after.parties[o.vendor].advances == s.parties[o.vendor].advances &&
      after.refunds == s.refunds +
        [Refund(o.vendor, Some(o.note), None, None, None, o.amount, false, Some(|b.journals|))]
  {
  }
}
