// Conservation of the vendor balances under every undo of the purchasing side.
module VendorLaws {
  import opened Tables
  import opened Sums
  import opened Subledger
  import opened SubledgerLaws

  // ---- What the vendor balances stand for ----

  function OpenOf(v: Id): Document -> int {
    (d: Document) => if d.status != Voided && d.party == Some(v) then d.total - d.paid - d.credited else 0
  }

  // A refund with no advance and no expense behind it raised the vendor's payable balance itself.
  function PlainRefund(v: Id): Refund -> int {
    (r: Refund) => if !r.reversed && r.party == v && IsPlain(r) then r.amount else 0
  }

  predicate IsPlain(r: Refund) { r.payment.None? && r.advance.None? && r.expense.None? }

  function UnappliedOf(v: Id): Advance -> int {
    (a: Advance) => if a.party == v && a.status != AdvanceReversed then a.unapplied else 0
  }

  function RemainingOf(v: Id): Note -> int {
    (n: Note) => if n.party == Some(v) && n.status != NoteReversed then n.remaining else 0
  }

  function PayablesDrift(s: Sub, v: Id): Cents
    requires v < |s.parties|
  {
    s.parties[v].owed - Sum(s.documents, OpenOf(v)) - Sum(s.refunds, PlainRefund(v))
  }

  function AdvanceDrift(s: Sub, v: Id): Cents
    requires v < |s.parties|
  {
    s.parties[v].advances - Sum(s.advances, UnappliedOf(v))
  }

  function CreditsDrift(s: Sub, v: Id): Cents
    requires v < |s.parties|
  {
    s.parties[v].unusedCredits - Sum(s.notes, RemainingOf(v))
  }

  // Live refunds of the vendor's notes. Paying one out lowers the note's remaining credit but not the
  // vendor's unused credits, so these explain the difference between the two.
  function NoteRefund(notes: seq<Note>, v: Id): Refund -> int {
    (r: Refund) =>
      if !r.reversed && r.note.Some? && r.note.value < |notes| && notes[r.note.value].party == Some(v) then
        r.amount else 0
  }

  function RefundedCredits(s: Sub, v: Id): Cents { Sum(s.refunds, NoteRefund(s.notes, v)) }

  // Documents belong to the vendor of the payment, note or advance that settles them, and a live
  // payment's unallocated amount is what its advances were made out for.
  ghost predicate PartiesAgree(s: Sub) {
    (forall k :: 0 <= k < |s.allocations| ==>
      s.allocations[k].payment < |s.payments| && s.allocations[k].document < |s.documents| &&
      s.payments[s.allocations[k].payment].party == s.documents[s.allocations[k].document].party) &&
    (forall k :: 0 <= k < |s.noteApplications| ==>
      s.noteApplications[k].note < |s.notes| && s.noteApplications[k].document < |s.documents| &&
      s.notes[s.noteApplications[k].note].party == s.documents[s.noteApplications[k].document].party) &&
    (forall k :: 0 <= k < |s.applications| ==>
      s.applications[k].advance < |s.advances| && s.applications[k].document < |s.documents| &&
      s.documents[s.applications[k].document].party == Some(s.advances[s.applications[k].advance].party)) &&
    (forall i :: 0 <= i < |s.advances| && s.advances[i].payment.Some? ==>
      s.advances[i].payment.value < |s.payments| &&
        s.payments[s.advances[i].payment.value].party == Some(s.advances[i].party)) &&
    (forall p :: 0 <= p < |s.payments| && !s.payments[p].reversed ==>
      s.payments[p].unallocated == Sum(s.advances, AdvanceOfPayment(p)))
  }

  // ---- Bills ----

  ghost predicate PiecesOfParty(docs: seq<Document>, pieces: seq<Piece>, party: Option<Id>) {
    forall k :: 0 <= k < |pieces| ==>
      pieces[k].document < |docs| && docs[pieces[k].document].party == party &&
        docs[pieces[k].document].status != Voided
  }

  // Taking settlements off a party's bills opens them by exactly their sum.
  lemma {:induction false} UnwindOpens(docs: seq<Document>, pieces: seq<Piece>, f: Field, checkVoid: bool,
      party: Option<Id>, v: Id)
    requires f != WrittenOffField && PiecesOfParty(docs, pieces, party)
    requires Unwind(docs, pieces, f, checkVoid).Unwound?
    ensures var after := Unwind(docs, pieces, f, checkVoid).documents;
      |after| == |docs| && (forall d :: 0 <= d < |docs| ==>
        after[d].party == docs[d].party && (docs[d].status != Voided ==> after[d].status != Voided)) &&
      Sum(after, OpenOf(v)) == Sum(docs, OpenOf(v)) + if party == Some(v) then Sum(pieces, PieceAmount) else 0
  {
    if pieces != [] {
      var front, last := pieces[..|pieces| - 1], pieces[|pieces| - 1];
      UnwindOpens(docs, front, f, checkVoid, party, v);
      PieceOpens(Unwind(docs, front, f, checkVoid).documents, last, f, checkVoid, party, v);
    }
  }

  lemma PieceOpens(docs: seq<Document>, piece: Piece, f: Field, checkVoid: bool, party: Option<Id>, v: Id)
    requires f != WrittenOffField && UndoPiece(docs, piece, f, checkVoid).Unwound?
    requires docs[piece.document].party == party && docs[piece.document].status != Voided
    ensures var after := UndoPiece(docs, piece, f, checkVoid).documents;
      |after| == |docs| && (forall d :: 0 <= d < |docs| && d != piece.document ==> after[d] == docs[d]) &&
      after[piece.document].party == party && after[piece.document].status != Voided &&
      Sum(after, OpenOf(v)) == Sum(docs, OpenOf(v)) + if party == Some(v) then piece.amount else 0
  {
    var doc := docs[piece.document];
    SumUpdate(docs, piece.document, WithSettled(doc, f, Settled(doc, f) - piece.amount), OpenOf(v));
  }

  lemma {:induction false} PaymentPiecesOfParty(rows: seq<Allocation>, p: Id, s: Sub)
    requires p < |s.payments|
    requires forall k :: 0 <= k < |rows| ==> rows[k].document < |s.documents|
    requires forall k :: 0 <= k < |rows| && rows[k].payment == p ==>
      s.documents[rows[k].document].party == s.payments[p].party && s.documents[rows[k].document].status != Voided
    ensures PiecesOfParty(s.documents, PaymentPieces(rows, p), s.payments[p].party)
  {
    if rows != [] { PaymentPiecesOfParty(rows[..|rows| - 1], p, s); }
  }

  lemma {:induction false} NotePiecesOfParty(rows: seq<NoteApplication>, n: Id, s: Sub)
    requires n < |s.notes|
    requires forall k :: 0 <= k < |rows| ==> rows[k].document < |s.documents|
    requires forall k :: 0 <= k < |rows| && rows[k].note == n && !rows[k].reversed ==>
      s.documents[rows[k].document].party == s.notes[n].party && s.documents[rows[k].document].status != Voided
    ensures PiecesOfParty(s.documents, NotePieces(rows, n), s.notes[n].party)
  {
    if rows != [] { NotePiecesOfParty(rows[..|rows| - 1], n, s); }
  }

  lemma LiveRowsOnOpenDocuments(kind: Kind, s: Sub)
    requires SubOk(kind, s)
    ensures forall k :: 0 <= k < |s.allocations| && !s.payments[s.allocations[k].payment].reversed ==>
      s.documents[s.allocations[k].document].status != Voided
    ensures forall k :: 0 <= k < |s.applications| && !s.applications[k].reversed ==>
      s.documents[s.applications[k].document].status != Voided &&
        s.advances[s.applications[k].advance].status != AdvanceReversed
    ensures forall k :: 0 <= k < |s.noteApplications| && !s.noteApplications[k].reversed ==>
      s.documents[s.noteApplications[k].document].status != Voided
    ensures forall k :: 0 <= k < |s.writeOffs| && !s.writeOffs[k].reversed ==>
      s.documents[s.writeOffs[k].document].status != Voided
  {
    forall k | 0 <= k < |s.allocations| && !s.payments[s.allocations[k].payment].reversed
      ensures s.documents[s.allocations[k].document].status != Voided
    {
      var d := s.allocations[k].document;
      assert DocumentOk(s, d);
      PaidParts(s, d);
      SumBoundsRow(s.allocations, k, PaidBy(s.payments, d));
    }
    forall k | 0 <= k < |s.applications| && !s.applications[k].reversed
      ensures s.documents[s.applications[k].document].status != Voided &&
        s.advances[s.applications[k].advance].status != AdvanceReversed
    {
      var d, i := s.applications[k].document, s.applications[k].advance;
      assert DocumentOk(s, d) && AdvanceOk(kind, s, i);
      PaidParts(s, d);
      AdvanceUseParts(kind, s, i);
      SumBoundsRow(s.applications, k, AppliedTo(d));
      SumBoundsRow(s.applications, k, AppliedFrom(i));
    }
    forall k | 0 <= k < |s.noteApplications| && !s.noteApplications[k].reversed
      ensures s.documents[s.noteApplications[k].document].status != Voided
    {
      assert DocumentOk(s, s.noteApplications[k].document);
      SumBoundsRow(s.noteApplications, k, CreditedBy(s.noteApplications[k].document));
    }
    forall k | 0 <= k < |s.writeOffs| && !s.writeOffs[k].reversed
      ensures s.documents[s.writeOffs[k].document].status != Voided
    {
      assert DocumentOk(s, s.writeOffs[k].document);
      SumBoundsRow(s.writeOffs, k, WrittenOffOn(s.writeOffs[k].document));
    }
  }

  // ---- Advances ----

  lemma CancelledUnapplied(s: Sub, p: Id, v: Id)
    requires SubOk(Vendors, s) && PartiesAgree(s) && p < |s.payments| && AdvancesUntouched(s, p)
    ensures Sum(AdvancesCancelled(s.advances, p), UnappliedOf(v))
         == Sum(s.advances, UnappliedOf(v)) -
            if s.payments[p].party == Some(v) then Sum(s.advances, AdvanceOfPayment(p)) else 0
  {
    var after := AdvancesCancelled(s.advances, p);
    forall i | 0 <= i < |s.advances| ensures AdvanceOk(Vendors, s, i) && s.advances[i].unapplied >= 0 {}
    if s.payments[p].party == Some(v) {
      SumAcross(s.advances, after, UnappliedOf(v), AdvanceOfPayment(p));
    } else {
      SumSameAcross(s.advances, after, UnappliedOf(v));
    }
  }

  // ---- The conservation laws, one undo at a time ----

  lemma PaymentConserves(s: Sub, b: Books, p: Id, v: Id)
    requires SubOk(Vendors, s) && PartiesAgree(s) && v < |s.parties|
    requires PlanPayment(Vendors, s, b, p).Proceed? && PlanPayment(Vendors, s, b, p).late.None?
    ensures var after := PlanPayment(Vendors, s, b, p).after;
      |after.parties| == |s.parties| && PayablesDrift(after, v) == PayablesDrift(s, v) &&
      AdvanceDrift(after, v) == AdvanceDrift(s, v) && CreditsDrift(after, v) == CreditsDrift(s, v)
  {
    LiveRowsOnOpenDocuments(Vendors, s);
    PaymentPiecesOfParty(s.allocations, p, s);
    UnwindOpens(s.documents, PaymentPieces(s.allocations, p), PaidField, true, s.payments[p].party, v);
    CancelledUnapplied(s, p, v);
  }

  lemma NoteConserves(s: Sub, n: Id, v: Id)
    requires SubOk(Vendors, s) && PartiesAgree(s) && v < |s.parties|
    requires PlanNote(Vendors, s, n).Proceed?
    ensures var after := PlanNote(Vendors, s, n).after;
      |after.parties| == |s.parties| && PayablesDrift(after, v) == PayablesDrift(s, v) &&
      AdvanceDrift(after, v) == AdvanceDrift(s, v) && CreditsDrift(after, v) == CreditsDrift(s, v)
  {
    LiveRowsOnOpenDocuments(Vendors, s);
    NotePiecesOfParty(s.noteApplications, n, s);
    UnwindOpens(s.documents, NotePieces(s.noteApplications, n), CreditedField, false, s.notes[n].party, v);
    assert NoteOk(Vendors, s, n);
    SumUpdate(s.notes, n, s.notes[n].(status := NoteReversed, remaining := 0), RemainingOf(v));
  }

  lemma ApplicationConserves(s: Sub, k: Id, v: Id)
    requires SubOk(Vendors, s) && PartiesAgree(s) && v < |s.parties|
    requires PlanApplication(Vendors, s, k).Proceed?
    ensures var after := PlanApplication(Vendors, s, k).after;
      |after.parties| == |s.parties| && PayablesDrift(after, v) == PayablesDrift(s, v) &&
      AdvanceDrift(after, v) == AdvanceDrift(s, v) && CreditsDrift(after, v) == CreditsDrift(s, v)
  {
    LiveRowsOnOpenDocuments(Vendors, s);
    var row := s.applications[k];
    var after := PlanApplication(Vendors, s, k).after;
    SumUpdate(s.documents, row.document, after.documents[row.document], OpenOf(v));
    SumUpdate(s.advances, row.advance, after.advances[row.advance], UnappliedOf(v));
  }

  lemma WriteOffConserves(s: Sub, w: Id, v: Id)
    requires SubOk(Vendors, s) && v < |s.parties|
    requires PlanWriteOff(s, w).Proceed?
    ensures var after := PlanWriteOff(s, w).after;
      |after.parties| == |s.parties| && PayablesDrift(after, v) == PayablesDrift(s, v) &&
      AdvanceDrift(after, v) == AdvanceDrift(s, v) && CreditsDrift(after, v) == CreditsDrift(s, v)
  {
    LiveRowsOnOpenDocuments(Vendors, s);
    var d := s.writeOffs[w].document;
    SumUpdate(s.documents, d, PlanWriteOff(s, w).after.documents[d], OpenOf(v));
  }

  lemma AdvanceConserves(s: Sub, a: Id, v: Id)
    requires v < |s.parties|
    requires PlanAdvance(s, a).Proceed? && PlanAdvance(s, a).late.None?
    ensures var after := PlanAdvance(s, a).after;
      |after.parties| == |s.parties| && PayablesDrift(after, v) == PayablesDrift(s, v) &&
      AdvanceDrift(after, v) == AdvanceDrift(s, v) && CreditsDrift(after, v) == CreditsDrift(s, v)
  {
    SumUpdate(s.advances, a, PlanAdvance(s, a).after.advances[a], UnappliedOf(v));
  }

  lemma VoidConserves(s: Sub, d: Id, v: Id)
    requires v < |s.parties|
    requires PlanVoid(Vendors, s, d).Proceed? && PlanVoid(Vendors, s, d).late.None?
    ensures var after := PlanVoid(Vendors, s, d).after;
      |after.parties| == |s.parties| && PayablesDrift(after, v) == PayablesDrift(s, v) &&
      AdvanceDrift(after, v) == AdvanceDrift(s, v) && CreditsDrift(after, v) == CreditsDrift(s, v)
  {
    SumUpdate(s.documents, d, PlanVoid(Vendors, s, d).after.documents[d], OpenOf(v));
  }

  // Undoing a refund of a vendor note puts the note's remaining credit back, which closes the gap the
  // refund had opened between it and the vendor's unused credits.
  function GapClosed(s: Sub, r: Refund, v: Id): Cents {
    if r.note.Some? && r.note.value < |s.notes| && s.notes[r.note.value].party == Some(v) then r.amount else 0
  }

  lemma RestoreConserves(s: Sub, r: Refund, v: Id)
    requires SubOk(Vendors, s) && v < |s.parties| && r.amount > 0
    requires RestoreSource(Vendors, s, r).Proceed?
    requires SoleNamed(s.advances, r).Some? ==> s.advances[SoleNamed(s.advances, r).value].status != AdvanceReversed
    ensures var after := RestoreSource(Vendors, s, r).after;
      |after.parties| == |s.parties| && after.documents == s.documents && after.refunds == s.refunds &&
      after.parties[v].owed == s.parties[v].owed - (if r.party == v && IsPlain(r) then r.amount else 0) &&
      AdvanceDrift(after, v) == AdvanceDrift(s, v) && CreditsDrift(after, v) == CreditsDrift(s, v) - GapClosed(s, r, v)
  {
    var after := RestoreSource(Vendors, s, r).after;
    if r.note.Some? {
      SumUpdate(s.notes, r.note.value, after.notes[r.note.value], RemainingOf(v));
    }
    if r.payment.Some? || r.advance.Some? {
      var i := SoleNamed(s.advances, r).value;
      SumUpdate(s.advances, i, after.advances[i], UnappliedOf(v));
    }
  }

  lemma RefundedAdvanceIsLive(s: Sub, k: Id)
    requires SubOk(Vendors, s) && k < |s.refunds| && !s.refunds[k].reversed
    requires SoleNamed(s.advances, s.refunds[k]).Some?
    ensures s.advances[SoleNamed(s.advances, s.refunds[k]).value].status != AdvanceReversed
  {
    var i := SoleNamed(s.advances, s.refunds[k]).value;
    assert NamesAt(s.advances, s.refunds[k], i);
    assert AdvanceOk(Vendors, s, i);
    AdvanceUseParts(Vendors, s, i);
    SumBoundsRow(s.refunds, k, RefundOfAdvance(Vendors, i, s.advances[i].payment, s.advances[i].party));
  }

  lemma RefundConserves(s: Sub, k: Id, v: Id)
    requires SubOk(Vendors, s) && v < |s.parties|
    requires PlanRefund(Vendors, s, k).Proceed?
    ensures var after := PlanRefund(Vendors, s, k).after;
      |after.parties| == |s.parties| && PayablesDrift(after, v) == PayablesDrift(s, v) &&
      AdvanceDrift(after, v) == AdvanceDrift(s, v) &&
      CreditsDrift(after, v) == CreditsDrift(s, v) - GapClosed(s, s.refunds[k], v)
  {
    if SoleNamed(s.advances, s.refunds[k]).Some? { RefundedAdvanceIsLive(s, k); }
    RestoreConserves(s, s.refunds[k], v);
    SumUpdate(s.refunds, k, s.refunds[k].(reversed := true), PlainRefund(v));
  }

  function GapClosedBy(s: Sub, undo: Undo, v: Id): Cents {
    if undo.UndoRefund? && undo.id < |s.refunds| then GapClosed(s, s.refunds[undo.id], v) else 0
  }

  lemma NotesKeepParties(s: Sub, after: Sub, v: Id)
    requires |after.notes| == |s.notes| && forall n :: 0 <= n < |s.notes| ==> after.notes[n].party == s.notes[n].party
    requires after.refunds == s.refunds
    ensures RefundedCredits(after, v) == RefundedCredits(s, v)
  {
    SumSame(s.refunds, NoteRefund(after.notes, v), NoteRefund(s.notes, v));
  }

  lemma RefundedCreditsMove(s: Sub, b: Books, undo: Undo, v: Id)
    requires PlanOf(Vendors, s, b, undo).Proceed?
    ensures RefundedCredits(PlanOf(Vendors, s, b, undo).after, v) == RefundedCredits(s, v) - GapClosedBy(s, undo, v)
  {
    var after := PlanOf(Vendors, s, b, undo).after;
    UndoKeepsShape(s, b, undo);
    if undo.UndoRefund? {
      SumUpdate(s.refunds, undo.id, s.refunds[undo.id].(reversed := true), NoteRefund(s.notes, v));
      SumSame(after.refunds, NoteRefund(after.notes, v), NoteRefund(s.notes, v));
    } else {
      NotesKeepParties(s, after, v);
    }
  }

  // For every vendor: what it is owed, and what it has been advanced, stay explained by the live
  // documents under every undo, and its unused credits by the remaining credits of its live notes
  // together with the live refunds of its notes.
  lemma UndoConserves(s: Sub, b: Books, undo: Undo, v: Id)
    requires SubOk(Vendors, s) && PartiesAgree(s) && v < |s.parties|
    requires PlanOf(Vendors, s, b, undo).Proceed? && PlanOf(Vendors, s, b, undo).late.None?
    ensures var after := PlanOf(Vendors, s, b, undo).after;
      |after.parties| == |s.parties| && PayablesDrift(after, v) == PayablesDrift(s, v) &&
      AdvanceDrift(after, v) == AdvanceDrift(s, v) &&
      CreditsDrift(after, v) == CreditsDrift(s, v) - GapClosedBy(s, undo, v) &&
      CreditsDrift(after, v) - RefundedCredits(after, v) == CreditsDrift(s, v) - RefundedCredits(s, v)
  {
    RefundedCreditsMove(s, b, undo, v);
    match undo
    case UndoPayment(p) => PaymentConserves(s, b, p, v);
    case UndoNote(n) => NoteConserves(s, n, v);
    case UndoRefund(k) => RefundConserves(s, k, v);
    case UndoWriteOff(w) => WriteOffConserves(s, w, v);
    case UndoAdvance(a) => AdvanceConserves(s, a, v);
    case UndoApplication(k) => ApplicationConserves(s, k, v);
    case VoidDocument(d) => VoidConserves(s, d, v);
  }

  // So an undo moves unused credits against remaining credits exactly when it closes such a gap.
  lemma CreditsKeptIffNotNoteRefund(s: Sub, b: Books, undo: Undo, v: Id)
    requires SubOk(Vendors, s) && PartiesAgree(s) && v < |s.parties|
    requires PlanOf(Vendors, s, b, undo).Proceed? && PlanOf(Vendors, s, b, undo).late.None?
    ensures var after := PlanOf(Vendors, s, b, undo).after;
      |after.parties| == |s.parties| &&
      (CreditsDrift(after, v) == CreditsDrift(s, v) <==>
        !(undo.UndoRefund? && s.refunds[undo.id].note.Some? && s.notes[s.refunds[undo.id].note.value].party == Some(v)))
  {
    UndoConserves(s, b, undo, v);
  }

  // Unused credits and remaining credits agree exactly while no refund of the vendor's notes is live.
  lemma CreditsAgreeIffNothingRefunded(s: Sub, v: Id)
    requires SubOk(Vendors, s) && v < |s.parties| && CreditsDrift(s, v) == RefundedCredits(s, v)
    ensures CreditsDrift(s, v) == 0 <==>
      forall k :: 0 <= k < |s.refunds| && !s.refunds[k].reversed && s.refunds[k].note.Some? ==>
        s.notes[s.refunds[k].note.value].party != Some(v)
  {
    ZeroSumIff(s.refunds, NoteRefund(s.notes, v));
    forall k | 0 <= k < |s.refunds|
      ensures NoteRefund(s.notes, v)(s.refunds[k]) == 0 <==>
        (s.refunds[k].reversed || s.refunds[k].note.None? || s.notes[s.refunds[k].note.value].party != Some(v))
    {
    }
  }

  // ---- The assumption about parties survives every undo ----

  lemma {:induction false} UnwindKeepsParties(docs: seq<Document>, pieces: seq<Piece>, f: Field, checkVoid: bool)
    requires Unwind(docs, pieces, f, checkVoid).Unwound?
    ensures var after := Unwind(docs, pieces, f, checkVoid).documents;
      |after| == |docs| && forall d :: 0 <= d < |docs| ==> after[d].party == docs[d].party
  {
    if pieces != [] { UnwindKeepsParties(docs, pieces[..|pieces| - 1], f, checkVoid); }
  }

  lemma SameAdvanceTotals(s: Sub, after: Sub)
    requires |after.advances| == |s.advances|
    requires forall i :: 0 <= i < |s.advances| ==>
      after.advances[i].payment == s.advances[i].payment && after.advances[i].amount == s.advances[i].amount
    ensures forall p :: Sum(after.advances, AdvanceOfPayment(p)) == Sum(s.advances, AdvanceOfPayment(p))
  {
    forall p ensures Sum(after.advances, AdvanceOfPayment(p)) == Sum(s.advances, AdvanceOfPayment(p)) {
      SumSameAcross(after.advances, s.advances, AdvanceOfPayment(p));
    }
  }

  // An undo changes no party, no advance amount, no row's references, and no live payment.
  ghost predicate SameShape(s: Sub, after: Sub) {
    SameParties(s, after) && SameAdvances(s, after) && SameReferences(s, after)
  }

  ghost predicate SameParties(s: Sub, after: Sub) {
    |after.documents| == |s.documents| && |after.notes| == |s.notes| && |after.payments| == |s.payments| &&
    (forall d :: 0 <= d < |s.documents| ==> after.documents[d].party == s.documents[d].party) &&
    (forall n :: 0 <= n < |s.notes| ==> after.notes[n].party == s.notes[n].party) &&
    (forall p :: 0 <= p < |s.payments| ==> after.payments[p].party == s.payments[p].party) &&
    (forall p :: 0 <= p < |s.payments| && !after.payments[p].reversed ==> after.payments[p] == s.payments[p])
  }

  ghost predicate SameAdvances(s: Sub, after: Sub) {
    |after.advances| == |s.advances| &&
    forall i {:trigger after.advances[i]} {:trigger s.advances[i]} :: 0 <= i < |s.advances| ==>
      after.advances[i] == s.advances[i].(unapplied := after.advances[i].unapplied, status := after.advances[i].status)
  }

  ghost predicate SameReferences(s: Sub, after: Sub) {
    after.allocations == s.allocations &&
    |after.applications| == |s.applications| && |after.noteApplications| == |s.noteApplications| &&
    (forall k :: 0 <= k < |s.applications| ==>
      after.applications[k] == s.applications[k].(reversed := after.applications[k].reversed)) &&
    (forall k :: 0 <= k < |s.noteApplications| ==>
      after.noteApplications[k] == s.noteApplications[k].(reversed := after.noteApplications[k].reversed))
  }

  lemma RefundKeepsShape(s: Sub, k: Id)
    requires PlanRefund(Vendors, s, k).Proceed?
    ensures SameShape(s, PlanRefund(Vendors, s, k).after)
  {
    RestoreEffect(Vendors, s, s.refunds[k]);
    var after := RestoreSource(Vendors, s, s.refunds[k]).after;
    forall n | 0 <= n < |s.notes| ensures after.notes[n].party == s.notes[n].party {
      if s.refunds[k].note != Some(n) { assert after.notes[n] == s.notes[n]; }
    }
  }

  lemma PaymentKeepsShape(s: Sub, b: Books, p: Id)
    requires PlanPayment(Vendors, s, b, p).Proceed?
    ensures SameShape(s, PlanPayment(Vendors, s, b, p).after)
  {
    UnwindKeepsParties(s.documents, PaymentPieces(s.allocations, p), PaidField, true);
  }

  lemma NoteKeepsShape(s: Sub, n: Id)
    requires PlanNote(Vendors, s, n).Proceed?
    ensures SameShape(s, PlanNote(Vendors, s, n).after)
  {
    UnwindKeepsParties(s.documents, NotePieces(s.noteApplications, n), CreditedField, false);
  }

  lemma UndoKeepsShape(s: Sub, b: Books, undo: Undo)
    requires PlanOf(Vendors, s, b, undo).Proceed?
    ensures SameShape(s, PlanOf(Vendors, s, b, undo).after)
  {
    match undo
    case UndoPayment(p) => PaymentKeepsShape(s, b, p);
    case UndoNote(n) => NoteKeepsShape(s, n);
    case UndoRefund(k) => RefundKeepsShape(s, k);
    case UndoWriteOff(w) => WriteOffKeepsShape(s, w);
    case UndoAdvance(a) => AdvanceKeepsShape(s, a);
    case UndoApplication(k) => ApplicationKeepsShape(s, k);
    case VoidDocument(d) => VoidKeepsShape(s, d);
  }

  lemma WriteOffKeepsShape(s: Sub, w: Id)
    requires PlanWriteOff(s, w).Proceed?
    ensures SameShape(s, PlanWriteOff(s, w).after)
  {
  }

  lemma AdvanceKeepsShape(s: Sub, a: Id)
    requires PlanAdvance(s, a).Proceed?
    ensures SameShape(s, PlanAdvance(s, a).after)
  {
  }

  lemma VoidKeepsShape(s: Sub, d: Id)
    requires PlanVoid(Vendors, s, d).Proceed?
    ensures SameShape(s, PlanVoid(Vendors, s, d).after)
  {
  }

  lemma ApplicationKeepsShape(s: Sub, k: Id)
    requires PlanApplication(Vendors, s, k).Proceed?
    ensures SameShape(s, PlanApplication(Vendors, s, k).after)
  {
  }

  lemma {:induction false} UndoKeepsPartiesAgree(s: Sub, b: Books, undo: Undo)
    requires PartiesAgree(s) && PlanOf(Vendors, s, b, undo).Proceed?
    ensures PartiesAgree(PlanOf(Vendors, s, b, undo).after)
  {
    UndoKeepsShape(s, b, undo);
    SameAdvanceTotals(s, PlanOf(Vendors, s, b, undo).after);
  }
}
