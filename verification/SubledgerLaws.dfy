// The consistency of documents, notes and advances with their live settlements, and its survival
// under every undo.
module SubledgerLaws {
  import opened Tables
  import opened Sums
  import opened Subledger

  // ---- Live settlements ----

  function PaidBy(payments: seq<Payment>, d: Id): Allocation -> int {
    (a: Allocation) => if a.document == d && a.payment < |payments| &&
      !payments[a.payment].reversed then a.amount else 0
  }

  function FromPayment(p: Id, d: Id): Allocation -> int {
    (a: Allocation) => if a.document == d && a.payment == p then a.amount else 0
  }

  function AppliedTo(d: Id): Application -> int {
    (a: Application) => if a.document == d && !a.reversed then a.amount else 0
  }

  function AppliedFrom(i: Id): Application -> int {
    (a: Application) => if a.advance == i && !a.reversed then a.amount else 0
  }

  function CreditedBy(d: Id): NoteApplication -> int {
    (a: NoteApplication) => if a.document == d && !a.reversed then a.amount else 0
  }

  function CreditFrom(n: Id): NoteApplication -> int {
    (a: NoteApplication) => if a.note == n && !a.reversed then a.amount else 0
  }

  function FromNote(n: Id, d: Id): NoteApplication -> int {
    (a: NoteApplication) => if a.note == n && a.document == d && !a.reversed then a.amount else 0
  }

  function RefundOfNote(n: Id): Refund -> int {
    (r: Refund) => if r.note == Some(n) && !r.reversed then r.amount else 0
  }

  // A customer refund of a note never touches an advance, whatever else it names.
  function RefundOfAdvance(kind: Kind, i: Id, payment: Option<Id>, party: Id): Refund -> int {
    (r: Refund) =>
      if !r.reversed && (kind == Vendors || r.note.None?) && Names(r, i, payment, party) then r.amount else 0
  }

  function WrittenOffOn(d: Id): WriteOff -> int {
    (w: WriteOff) => if w.document == d && !w.reversed then w.amount else 0
  }

  function PaidLive(s: Sub, d: Id): Cents {
    Sum(s.allocations, PaidBy(s.payments, d)) + Sum(s.applications, AppliedTo(d))
  }

  function AdvanceUsed(kind: Kind, s: Sub, i: Id): Cents
    requires i < |s.advances|
  {
    Sum(s.applications, AppliedFrom(i)) +
      Sum(s.refunds, RefundOfAdvance(kind, i, s.advances[i].payment, s.advances[i].party))
  }

  // ---- The invariant ----

  ghost predicate RowsOk(s: Sub) {
    (forall k :: 0 <= k < |s.allocations| ==>
      s.allocations[k].amount > 0 && s.allocations[k].payment < |s.payments| &&
        s.allocations[k].document < |s.documents|) &&
    (forall k :: 0 <= k < |s.applications| ==>
      s.applications[k].amount > 0 && s.applications[k].advance < |s.advances| &&
        s.applications[k].document < |s.documents|) &&
    (forall k :: 0 <= k < |s.noteApplications| ==>
      s.noteApplications[k].amount > 0 && s.noteApplications[k].note < |s.notes| &&
        s.noteApplications[k].document < |s.documents|) &&
    (forall k :: 0 <= k < |s.refunds| ==>
      s.refunds[k].amount > 0 && (s.refunds[k].note.Some? ==> s.refunds[k].note.value < |s.notes|)) &&
    (forall k :: 0 <= k < |s.writeOffs| ==> s.writeOffs[k].amount > 0 && s.writeOffs[k].document < |s.documents|)
  }

  ghost predicate DocumentOk(s: Sub, d: Id)
    requires d < |s.documents|
  {
    var doc := s.documents[d];
    doc.paid == PaidLive(s, d) && doc.credited == Sum(s.noteApplications, CreditedBy(d)) &&
    doc.writtenOff == Sum(s.writeOffs, WrittenOffOn(d)) &&
    (if doc.status == Voided then doc.paid == doc.credited == doc.writtenOff == doc.balanceDue == 0
     else doc.balanceDue == doc.total - doc.paid - doc.credited - doc.writtenOff)
  }

  // A reversed customer note has no live refunds left. A reversed vendor note may have some: its
  // reversal does not look at them.
  ghost predicate NoteOk(kind: Kind, s: Sub, n: Id)
    requires n < |s.notes|
  {
    var note := s.notes[n];
    var applied, refunded := Sum(s.noteApplications, CreditFrom(n)), Sum(s.refunds, RefundOfNote(n));
    note.remaining >= 0 &&
    (if note.status == NoteReversed
     then note.remaining == 0 && applied == 0 && (if kind == Customers then refunded == 0 else refunded <= note.total)
     else note.total == note.remaining + applied + refunded)
  }

  ghost predicate AdvanceOk(kind: Kind, s: Sub, i: Id)
    requires i < |s.advances|
  {
    var row := s.advances[i];
    row.unapplied >= 0 &&
    (if row.status == AdvanceReversed then row.unapplied == 0 && AdvanceUsed(kind, s, i) == 0
     else row.amount == row.unapplied + AdvanceUsed(kind, s, i))
  }

  ghost predicate SubOk(kind: Kind, s: Sub) {
    RowsOk(s) &&
    (forall d :: 0 <= d < |s.documents| ==> DocumentOk(s, d)) &&
    (forall n :: 0 <= n < |s.notes| ==> NoteOk(kind, s, n)) &&
    (forall i :: 0 <= i < |s.advances| ==> AdvanceOk(kind, s, i))
  }

  lemma AdvanceUseParts(kind: Kind, s: Sub, i: Id)
    requires RowsOk(s) && i < |s.advances|
    ensures Sum(s.applications, AppliedFrom(i)) >= 0
    ensures Sum(s.refunds, RefundOfAdvance(kind, i, s.advances[i].payment, s.advances[i].party)) >= 0
  {
    SumNonNegative(s.applications, AppliedFrom(i));
    SumNonNegative(s.refunds, RefundOfAdvance(kind, i, s.advances[i].payment, s.advances[i].party));
  }

  lemma PaidParts(s: Sub, d: Id)
    requires RowsOk(s)
    ensures Sum(s.allocations, PaidBy(s.payments, d)) >= 0 && Sum(s.applications, AppliedTo(d)) >= 0
  {
    SumNonNegative(s.allocations, PaidBy(s.payments, d));
    SumNonNegative(s.applications, AppliedTo(d));
  }

  // ---- The loop over allocation rows ----

  function PieceOn(d: Id): Piece -> int {
    (p: Piece) => if p.document == d then p.amount else 0
  }

  ghost predicate PiecesOk(docs: seq<Document>, pieces: seq<Piece>) {
    forall k :: 0 <= k < |pieces| ==> pieces[k].amount > 0 && pieces[k].document < |docs|
  }

  lemma {:induction false} PaymentPiecesAdd(rows: seq<Allocation>, p: Id, docs: seq<Document>)
    requires forall k :: 0 <= k < |rows| ==> rows[k].amount > 0 && rows[k].document < |docs|
    ensures PiecesOk(docs, PaymentPieces(rows, p))
    ensures forall d :: Sum(PaymentPieces(rows, p), PieceOn(d)) == Sum(rows, FromPayment(p, d))
  {
    if rows != [] {
      var front, row := rows[..|rows| - 1], rows[|rows| - 1];
      PaymentPiecesAdd(front, p, docs);
      forall d ensures Sum(PaymentPieces(rows, p), PieceOn(d)) == Sum(rows, FromPayment(p, d)) {
        if row.payment == p {
          SumSnoc(PaymentPieces(front, p), Piece(row.document, row.amount), PieceOn(d));
        } else {
          assert PaymentPieces(rows, p) == PaymentPieces(front, p);
        }
      }
    }
  }

  lemma {:induction false} NotePiecesAdd(rows: seq<NoteApplication>, n: Id, docs: seq<Document>)
    requires forall k :: 0 <= k < |rows| ==> rows[k].amount > 0 && rows[k].document < |docs|
    ensures PiecesOk(docs, NotePieces(rows, n))
    ensures forall d :: Sum(NotePieces(rows, n), PieceOn(d)) == Sum(rows, FromNote(n, d))
  {
    if rows != [] {
      var front, row := rows[..|rows| - 1], rows[|rows| - 1];
      NotePiecesAdd(front, n, docs);
      forall d ensures Sum(NotePieces(rows, n), PieceOn(d)) == Sum(rows, FromNote(n, d)) {
        if row.note == n && !row.reversed {
          SumSnoc(NotePieces(front, n), Piece(row.document, row.amount), PieceOn(d));
        } else {
          assert NotePieces(rows, n) == NotePieces(front, n);
        }
      }
    }
  }

  // What the loop does to document d when its rows add up to `undone` on it.
  function AfterPieces(doc: Document, f: Field, undone: Cents): Document {
    if undone == 0 then doc else WithSettled(doc, f, Settled(doc, f) - undone)
  }

  lemma AfterPiecesStep(doc: Document, f: Field, undone: Cents, more: Cents)
    requires undone >= 0 && more > 0
    ensures Settled(AfterPieces(doc, f, undone), f) == Settled(doc, f) - undone
    ensures WithSettled(AfterPieces(doc, f, undone), f, Settled(doc, f) - undone - more) ==
      AfterPieces(doc, f, undone + more)
    ensures AfterPieces(doc, f, undone).status == Voided ==> doc.status == Voided
  {
  }

  // The loop never stops when no document loses more than it has, and each document ends as if its
  // rows had been taken off at once.
  lemma {:induction false} UnwindEffect(docs: seq<Document>, pieces: seq<Piece>, f: Field, checkVoid: bool)
    requires PiecesOk(docs, pieces)
    requires forall d :: 0 <= d < |docs| ==> Sum(pieces, PieceOn(d)) <= Settled(docs[d], f)
    requires checkVoid ==> forall k :: 0 <= k < |pieces| ==> docs[pieces[k].document].status != Voided
    ensures var after := Unwind(docs, pieces, f, checkVoid);
      after.Unwound? && |after.documents| == |docs| &&
      forall d :: 0 <= d < |docs| ==> after.documents[d] == AfterPieces(docs[d], f, Sum(pieces, PieceOn(d)))
  {
    if pieces != [] {
      var front, last := pieces[..|pieces| - 1], pieces[|pieces| - 1];
      forall d | 0 <= d < |docs| ensures Sum(front, PieceOn(d)) <= Settled(docs[d], f) && Sum(front, PieceOn(d)) >= 0 {
        SumNonNegative(front, PieceOn(d));
      }
      UnwindEffect(docs, front, f, checkVoid);
      assert pieces == front + [last];
      UndoPieceEffect(docs, Unwind(docs, front, f, checkVoid).documents, front, last, f, checkVoid);
    }
  }

  lemma UndoPieceDone(docs: seq<Document>, last: Piece, f: Field, checkVoid: bool)
    requires last.document < |docs| && last.amount <= Settled(docs[last.document], f)
    requires checkVoid ==> docs[last.document].status != Voided
    ensures var doc := docs[last.document];
      UndoPiece(docs, last, f, checkVoid) ==
        Unwound(docs[last.document := WithSettled(doc, f, Settled(doc, f) - last.amount)])
  {
  }

  // One more row after those of `front`.
  lemma UndoPieceEffect(docs: seq<Document>, mid: seq<Document>, front: seq<Piece>, last: Piece, f: Field,
      checkVoid: bool)
    requires |mid| == |docs| && last.document < |docs| && last.amount > 0
    requires forall d :: 0 <= d < |docs| ==> mid[d] == AfterPieces(docs[d], f, Sum(front, PieceOn(d)))
    requires 0 <= Sum(front, PieceOn(last.document)) &&
      Sum(front + [last], PieceOn(last.document)) <= Settled(docs[last.document], f)
    requires checkVoid ==> docs[last.document].status != Voided
    ensures var after := UndoPiece(mid, last, f, checkVoid);
      after.Unwound? && |after.documents| == |docs| &&
      forall d :: 0 <= d < |docs| ==> after.documents[d] == AfterPieces(docs[d], f, Sum(front + [last], PieceOn(d)))
  {
    forall d | 0 <= d < |docs| ensures Sum(front + [last], PieceOn(d)) == Sum(front, PieceOn(d)) + PieceOn(d)(last) {
      SumSnoc(front, last, PieceOn(d));
    }
    AfterPiecesStep(docs[last.document], f, Sum(front, PieceOn(last.document)), last.amount);
    UndoPieceDone(mid, last, f, checkVoid);
  }

  lemma DocumentsUnwound(s: Sub, pieces: seq<Piece>, f: Field, checkVoid: bool)
    requires PiecesOk(s.documents, pieces)
    requires forall d :: 0 <= d < |s.documents| ==>
      DocumentOk(s, d) && Sum(pieces, PieceOn(d)) <= Settled(s.documents[d], f)
    ensures var after := Unwind(s.documents, pieces, f, checkVoid);
      after.Unwound? && |after.documents| == |s.documents| &&
      forall d :: 0 <= d < |s.documents| ==>
        after.documents[d] == AfterPieces(s.documents[d], f, Sum(pieces, PieceOn(d))) && Sum(pieces, PieceOn(d)) >= 0
  {
    forall k | 0 <= k < |pieces| ensures s.documents[pieces[k].document].status != Voided {
      assert DocumentOk(s, pieces[k].document);
      SumBoundsRow(pieces, k, PieceOn(pieces[k].document));
    }
    UnwindEffect(s.documents, pieces, f, checkVoid);
    forall d | 0 <= d < |s.documents| ensures Sum(pieces, PieceOn(d)) >= 0 {
      SumNonNegative(pieces, PieceOn(d));
    }
  }

  // ---- Payments ----

  lemma PaymentShare(s: Sub, p: Id, d: Id)
    requires RowsOk(s) && p < |s.payments| && !s.payments[p].reversed
    ensures var after := s.payments[p := s.payments[p].(reversed := true, unallocated := 0)];
      Sum(s.allocations, PaidBy(s.payments, d)) ==
        Sum(s.allocations, PaidBy(after, d)) + Sum(s.allocations, FromPayment(p, d)) &&
      Sum(s.allocations, PaidBy(after, d)) >= 0
  {
    var after := s.payments[p := s.payments[p].(reversed := true, unallocated := 0)];
    SumPlus(s.allocations, PaidBy(after, d), FromPayment(p, d), PaidBy(s.payments, d));
    SumNonNegative(s.allocations, PaidBy(after, d));
  }

  lemma PaymentUnwinds(s: Sub, p: Id)
    requires RowsOk(s) && forall d :: 0 <= d < |s.documents| ==> DocumentOk(s, d)
    requires p < |s.payments| && !s.payments[p].reversed
    ensures var pieces := PaymentPieces(s.allocations, p);
      var after := Unwind(s.documents, pieces, PaidField, true);
      after.Unwound? && |after.documents| == |s.documents| &&
      forall d :: 0 <= d < |s.documents| ==>
        after.documents[d] == AfterPieces(s.documents[d], PaidField, Sum(s.allocations, FromPayment(p, d))) &&
        Sum(s.allocations, FromPayment(p, d)) >= 0
  {
    PaymentPiecesAdd(s.allocations, p, s.documents);
    forall d | 0 <= d < |s.documents| ensures Sum(PaymentPieces(s.allocations, p), PieceOn(d)) <= s.documents[d].paid {
      assert DocumentOk(s, d);
      PaymentShare(s, p, d);
      PaidParts(s, d);
    }
    DocumentsUnwound(s, PaymentPieces(s.allocations, p), PaidField, true);
  }

  lemma CancelledAdvancesOk(kind: Kind, s: Sub, after: Sub, p: Id)
    requires RowsOk(s) && (forall i :: 0 <= i < |s.advances| ==> AdvanceOk(kind, s, i)) && AdvancesUntouched(s, p)
    requires after.advances == AdvancesCancelled(s.advances, p) && after.applications == s.applications &&
      after.refunds == s.refunds
    ensures forall i :: 0 <= i < |after.advances| ==> AdvanceOk(kind, after, i)
  {
    forall i | 0 <= i < |after.advances| ensures AdvanceOk(kind, after, i) {
      assert AdvanceOk(kind, s, i);
      assert AdvanceUsed(kind, after, i) == AdvanceUsed(kind, s, i);
    }
  }

  lemma PaymentKeepsSub(kind: Kind, s: Sub, b: Books, p: Id)
    requires SubOk(kind, s) && PlanPayment(kind, s, b, p).Proceed?
    ensures SubOk(kind, PlanPayment(kind, s, b, p).after)
  {
    var after := PlanPayment(kind, s, b, p).after;
    PaymentUnwinds(s, p);
    forall d | 0 <= d < |after.documents| ensures DocumentOk(after, d) {
      assert DocumentOk(s, d);
      PaymentShare(s, p, d);
      PaidParts(s, d);
    }
    CancelledAdvancesOk(kind, s, after, p);
    forall n | 0 <= n < |after.notes| ensures NoteOk(kind, after, n) { assert NoteOk(kind, s, n); }
  }

  // ---- Notes ----

  lemma NoteShare(rows: seq<NoteApplication>, n: Id, d: Id)
    requires forall k :: 0 <= k < |rows| ==> rows[k].amount > 0
    ensures Sum(rows, CreditedBy(d)) == Sum(NoteApplicationsUndone(rows, n), CreditedBy(d)) + Sum(rows, FromNote(n, d))
    ensures Sum(NoteApplicationsUndone(rows, n), CreditedBy(d)) >= 0
  {
    SumAcross(rows, NoteApplicationsUndone(rows, n), CreditedBy(d), FromNote(n, d));
    SumNonNegative(NoteApplicationsUndone(rows, n), CreditedBy(d));
  }

  lemma NoteUnwinds(s: Sub, n: Id)
    requires RowsOk(s) && forall d :: 0 <= d < |s.documents| ==> DocumentOk(s, d)
    ensures var pieces := NotePieces(s.noteApplications, n);
      var after := Unwind(s.documents, pieces, CreditedField, false);
      after.Unwound? && |after.documents| == |s.documents| &&
      forall d :: 0 <= d < |s.documents| ==>
        after.documents[d] == AfterPieces(s.documents[d], CreditedField, Sum(s.noteApplications, FromNote(n, d))) &&
        Sum(s.noteApplications, FromNote(n, d)) >= 0
  {
    NotePiecesAdd(s.noteApplications, n, s.documents);
    forall d | 0 <= d < |s.documents|
      ensures Sum(NotePieces(s.noteApplications, n), PieceOn(d)) <= s.documents[d].credited
    {
      assert DocumentOk(s, d);
      NoteShare(s.noteApplications, n, d);
    }
    DocumentsUnwound(s, NotePieces(s.noteApplications, n), CreditedField, false);
  }

  lemma UndoneApplicationsSums(rows: seq<NoteApplication>, n: Id, k: Id)
    ensures Sum(NoteApplicationsUndone(rows, n), CreditFrom(k)) == if k == n then 0 else Sum(rows, CreditFrom(k))
  {
    if k == n {
      SumZero(NoteApplicationsUndone(rows, n), CreditFrom(k));
    } else {
      SumSameAcross(NoteApplicationsUndone(rows, n), rows, CreditFrom(k));
    }
  }

  lemma NoLiveRefundSum(s: Sub, n: Id)
    requires !HasLiveRefund(s, n)
    ensures Sum(s.refunds, RefundOfNote(n)) == 0
  {
    SumZero(s.refunds, RefundOfNote(n));
  }

  lemma ReversedNoteOk(kind: Kind, s: Sub, n: Id, k: Id)
    requires RowsOk(s) && PlanNote(kind, s, n).Proceed? && k < |s.notes| && NoteOk(kind, s, k)
    ensures NoteOk(kind, PlanNote(kind, s, n).after, k)
  {
    UndoneApplicationsSums(s.noteApplications, n, k);
    SumNonNegative(s.noteApplications, CreditFrom(k));
    if kind == Customers { NoLiveRefundSum(s, n); }
  }

  lemma UncreditedDocumentOk(kind: Kind, s: Sub, n: Id, d: Id)
    requires SubOk(kind, s) && PlanNote(kind, s, n).Proceed? && d < |s.documents|
    ensures |PlanNote(kind, s, n).after.documents| == |s.documents| && DocumentOk(PlanNote(kind, s, n).after, d)
  {
    NoteUnwinds(s, n);
    assert DocumentOk(s, d);
    NoteShare(s.noteApplications, n, d);
    assert PaidLive(PlanNote(kind, s, n).after, d) == PaidLive(s, d);
  }

  lemma NoteKeepsSub(kind: Kind, s: Sub, n: Id)
    requires SubOk(kind, s) && PlanNote(kind, s, n).Proceed?
    ensures SubOk(kind, PlanNote(kind, s, n).after)
  {
    var after := PlanNote(kind, s, n).after;
    NoteUnwinds(s, n);
    forall d | 0 <= d < |after.documents| ensures DocumentOk(after, d) { UncreditedDocumentOk(kind, s, n, d); }
    forall k | 0 <= k < |after.notes| ensures NoteOk(kind, after, k) { ReversedNoteOk(kind, s, n, k); }
    forall i | 0 <= i < |after.advances| ensures AdvanceOk(kind, after, i) {
      assert AdvanceOk(kind, s, i);
      assert AdvanceUsed(kind, after, i) == AdvanceUsed(kind, s, i);
    }
  }

  // ---- Refunds ----

  lemma RefundShares(kind: Kind, s: Sub, k: Id)
    requires k < |s.refunds| && !s.refunds[k].reversed
    ensures var after := s.refunds[k := s.refunds[k].(reversed := true)];
      (forall n :: Sum(after, RefundOfNote(n)) == Sum(s.refunds, RefundOfNote(n)) - RefundOfNote(n)(s.refunds[k])) &&
      (forall i, payment, party :: Sum(after, RefundOfAdvance(kind, i, payment, party))
        == Sum(s.refunds, RefundOfAdvance(kind, i, payment, party)) -
          RefundOfAdvance(kind, i, payment, party)(s.refunds[k]))
  {
    var row := s.refunds[k].(reversed := true);
    var after := s.refunds[k := row];
    forall n ensures Sum(after, RefundOfNote(n)) == Sum(s.refunds, RefundOfNote(n)) - RefundOfNote(n)(s.refunds[k]) {
      SumUpdate(s.refunds, k, row, RefundOfNote(n));
    }
    forall i, payment, party ensures Sum(after, RefundOfAdvance(kind, i, payment, party))
        == Sum(s.refunds, RefundOfAdvance(kind, i, payment, party)) -
          RefundOfAdvance(kind, i, payment, party)(s.refunds[k]) {
      SumUpdate(s.refunds, k, row, RefundOfAdvance(kind, i, payment, party));
    }
  }

  // What restoring the source does to notes and advances, and that nothing else moves.
  lemma RestoreEffect(kind: Kind, s: Sub, r: Refund)
    requires RestoreSource(kind, s, r).Proceed?
    ensures var after := RestoreSource(kind, s, r).after;
      after == s.(notes := after.notes, advances := after.advances, parties := after.parties) &&
      |after.notes| == |s.notes| && |after.advances| == |s.advances| &&
      (forall n :: 0 <= n < |s.notes| ==>
        after.notes[n].remaining == s.notes[n].remaining + (if r.note == Some(n) then r.amount else 0) &&
        after.notes[n].total == s.notes[n].total &&
        (r.note == Some(n) ==> s.notes[n].status != NoteReversed && after.notes[n].status != NoteReversed) &&
        (r.note != Some(n) ==> after.notes[n] == s.notes[n])) &&
      (forall i :: 0 <= i < |s.advances| ==>
        if (kind == Vendors || r.note.None?) && NamesAt(s.advances, r, i)
        then after.advances[i] ==
          s.advances[i].(unapplied := s.advances[i].unapplied + r.amount, status := after.advances[i].status) &&
             after.advances[i].status in {Unapplied, PartlyApplied}
        else after.advances[i] == s.advances[i])
  {
  }

  lemma RefundedAdvanceOk(kind: Kind, s: Sub, k: Id, i: Id)
    requires SubOk(kind, s) && PlanRefund(kind, s, k).Proceed? && i < |s.advances|
    ensures AdvanceOk(kind, PlanRefund(kind, s, k).after, i)
  {
    var r := s.refunds[k];
    RestoreEffect(kind, s, r);
    RefundShares(kind, s, k);
    assert AdvanceOk(kind, s, i);
    AdvanceUseParts(kind, s, i);
    if (kind == Vendors || r.note.None?) && NamesAt(s.advances, r, i) {
      SumBoundsRow(s.refunds, k, RefundOfAdvance(kind, i, s.advances[i].payment, s.advances[i].party));
    }
  }

  lemma RefundKeepsSub(kind: Kind, s: Sub, k: Id)
    requires SubOk(kind, s) && PlanRefund(kind, s, k).Proceed?
    ensures SubOk(kind, PlanRefund(kind, s, k).after)
  {
    var r := s.refunds[k];
    var after := PlanRefund(kind, s, k).after;
    RestoreEffect(kind, s, r);
    RefundShares(kind, s, k);
    forall d | 0 <= d < |after.documents| ensures DocumentOk(after, d) { assert DocumentOk(s, d); }
    forall n | 0 <= n < |after.notes| ensures NoteOk(kind, after, n) { assert NoteOk(kind, s, n); }
    forall i | 0 <= i < |after.advances| ensures AdvanceOk(kind, after, i) { RefundedAdvanceOk(kind, s, k, i); }
  }

  // ---- Write-offs, advances, applications, voids ----

  lemma WriteOffKeepsSub(kind: Kind, s: Sub, w: Id)
    requires SubOk(kind, s) && PlanWriteOff(s, w).Proceed?
    ensures SubOk(kind, PlanWriteOff(s, w).after)
  {
    var after := PlanWriteOff(s, w).after;
    var row := s.writeOffs[w];
    assert DocumentOk(s, row.document);
    SumBoundsRow(s.writeOffs, w, WrittenOffOn(row.document));
    forall d | 0 <= d < |after.documents| ensures DocumentOk(after, d) {
      assert DocumentOk(s, d);
      SumUpdate(s.writeOffs, w, row.(reversed := true), WrittenOffOn(d));
      assert PaidLive(after, d) == PaidLive(s, d);
    }
    forall n | 0 <= n < |after.notes| ensures NoteOk(kind, after, n) { assert NoteOk(kind, s, n); }
    forall i | 0 <= i < |after.advances| ensures AdvanceOk(kind, after, i) {
      assert AdvanceOk(kind, s, i);
      assert AdvanceUsed(kind, after, i) == AdvanceUsed(kind, s, i);
    }
  }

  lemma AdvanceKeepsSub(kind: Kind, s: Sub, a: Id)
    requires SubOk(kind, s) && PlanAdvance(s, a).Proceed?
    ensures SubOk(kind, PlanAdvance(s, a).after)
  {
    var after := PlanAdvance(s, a).after;
    forall d | 0 <= d < |after.documents| ensures DocumentOk(after, d) { assert DocumentOk(s, d); }
    forall n | 0 <= n < |after.notes| ensures NoteOk(kind, after, n) { assert NoteOk(kind, s, n); }
    forall i | 0 <= i < |after.advances| ensures AdvanceOk(kind, after, i) {
      assert AdvanceOk(kind, s, i);
      assert AdvanceUsed(kind, after, i) == AdvanceUsed(kind, s, i);
    }
  }

  lemma UnappliedDocumentOk(kind: Kind, s: Sub, k: Id, d: Id)
    requires SubOk(kind, s) && PlanApplication(kind, s, k).Proceed? && d < |s.documents|
    ensures DocumentOk(PlanApplication(kind, s, k).after, d)
  {
    var row := s.applications[k];
    assert DocumentOk(s, d) && DocumentOk(s, row.document);
    PaidParts(s, row.document);
    SumBoundsRow(s.applications, k, AppliedTo(row.document));
    SumUpdate(s.applications, k, row.(reversed := true), AppliedTo(d));
  }

  lemma UnappliedAdvanceOk(kind: Kind, s: Sub, k: Id, i: Id)
    requires SubOk(kind, s) && PlanApplication(kind, s, k).Proceed? && i < |s.advances|
    ensures AdvanceOk(kind, PlanApplication(kind, s, k).after, i)
  {
    var row := s.applications[k];
    assert AdvanceOk(kind, s, i) && AdvanceOk(kind, s, row.advance);
    AdvanceUseParts(kind, s, row.advance);
    SumBoundsRow(s.applications, k, AppliedFrom(row.advance));
    SumUpdate(s.applications, k, row.(reversed := true), AppliedFrom(i));
  }

  lemma ApplicationKeepsSub(kind: Kind, s: Sub, k: Id)
    requires SubOk(kind, s) && PlanApplication(kind, s, k).Proceed?
    ensures SubOk(kind, PlanApplication(kind, s, k).after)
  {
    var after := PlanApplication(kind, s, k).after;
    forall d | 0 <= d < |after.documents| ensures DocumentOk(after, d) { UnappliedDocumentOk(kind, s, k, d); }
    forall n | 0 <= n < |after.notes| ensures NoteOk(kind, after, n) { assert NoteOk(kind, s, n); }
    forall i | 0 <= i < |after.advances| ensures AdvanceOk(kind, after, i) { UnappliedAdvanceOk(kind, s, k, i); }
  }

  lemma VoidKeepsSub(kind: Kind, s: Sub, d: Id)
    requires SubOk(kind, s) && PlanVoid(kind, s, d).Proceed?
    ensures SubOk(kind, PlanVoid(kind, s, d).after)
  {
    var after := PlanVoid(kind, s, d).after;
    forall k | 0 <= k < |after.documents| ensures DocumentOk(after, k) { assert DocumentOk(s, k); }
    forall n | 0 <= n < |after.notes| ensures NoteOk(kind, after, n) { assert NoteOk(kind, s, n); }
    forall i | 0 <= i < |after.advances| ensures AdvanceOk(kind, after, i) {
      assert AdvanceOk(kind, s, i);
      assert AdvanceUsed(kind, after, i) == AdvanceUsed(kind, s, i);
    }
  }

  // No expense is billed on a voided invoice.
  ghost predicate ExpensesFree(s: Sub) {
    forall e :: 0 <= e < |s.expenses| && s.expenses[e].invoice.Some? && s.expenses[e].invoice.value < |s.documents| ==>
      s.documents[s.expenses[e].invoice.value].status != Voided
  }

  // Only voiding makes a document void, and voiding an invoice releases its expenses and no others.
  lemma UndoKeepsExpensesFree(s: Sub, b: Books, undo: Undo)
    requires ExpensesFree(s) && PlanOf(Customers, s, b, undo).Proceed?
    ensures ExpensesFree(PlanOf(Customers, s, b, undo).after)
    ensures var after := PlanOf(Customers, s, b, undo).after;
      |after.expenses| == |s.expenses| &&
      forall e :: 0 <= e < |s.expenses| ==>
        (if undo.VoidDocument? && s.expenses[e].invoice == Some(undo.id)
         then after.expenses[e] == Expenditure(s.expenses[e].live, false, None) else after.expenses[e] == s.expenses[e])
  {
    match undo
    case UndoPayment(p) => UnwindVoidsNothing(s.documents, PaymentPieces(s.allocations, p), PaidField, true);
    case UndoNote(n) => UnwindVoidsNothing(s.documents, NotePieces(s.noteApplications, n), CreditedField, false);
    case _ =>
  }

  lemma {:induction false} UnwindVoidsNothing(docs: seq<Document>, pieces: seq<Piece>, f: Field, checkVoid: bool)
    requires Unwind(docs, pieces, f, checkVoid).Unwound?
    ensures var after := Unwind(docs, pieces, f, checkVoid).documents;
      |after| == |docs| && forall d :: 0 <= d < |docs| && after[d].status == Voided ==> docs[d].status == Voided
  {
    if pieces != [] { UnwindVoidsNothing(docs, pieces[..|pieces| - 1], f, checkVoid); }
  }

  // Every undo keeps documents, notes and advances in step with their live settlements.
  lemma UndoKeepsSub(kind: Kind, s: Sub, b: Books, undo: Undo)
    requires SubOk(kind, s) && PlanOf(kind, s, b, undo).Proceed?
    ensures SubOk(kind, PlanOf(kind, s, b, undo).after)
  {
    match undo
    case UndoPayment(p) => PaymentKeepsSub(kind, s, b, p);
    case UndoNote(n) => NoteKeepsSub(kind, s, n);
    case UndoRefund(r) => RefundKeepsSub(kind, s, r);
    case UndoWriteOff(w) => WriteOffKeepsSub(kind, s, w);
    case UndoAdvance(a) => AdvanceKeepsSub(kind, s, a);
    case UndoApplication(k) => ApplicationKeepsSub(kind, s, k);
    case VoidDocument(d) => VoidKeepsSub(kind, s, d);
  }

  // ---- The over-restore guards never trip ----

  lemma RefundWithinSource(kind: Kind, s: Sub, k: Id)
    requires SubOk(kind, s) && k < |s.refunds| && !s.refunds[k].reversed
    ensures RestoreSource(kind, s, s.refunds[k]) != Stop(OverRestores)
    ensures RestoreSource(kind, s, s.refunds[k]) != Stop(ExceedsSettled)
  {
    var r := s.refunds[k];
    if r.note.Some? {
      var n := r.note.value;
      assert NoteOk(kind, s, n);
      SumBoundsRow(s.refunds, k, RefundOfNote(n));
      SumNonNegative(s.noteApplications, CreditFrom(n));
    }
    if SoleNamed(s.advances, r).Some? && (kind == Vendors || r.note.None?) {
      var i := SoleNamed(s.advances, r).value;
      assert NamesAt(s.advances, r, i);
      assert AdvanceOk(kind, s, i);
      AdvanceUseParts(kind, s, i);
      SumBoundsRow(s.refunds, k, RefundOfAdvance(kind, i, s.advances[i].payment, s.advances[i].party));
    }
  }

  // The plan gives back no more than was settled, and to no voided document.
  predicate WithinSettled(plan: Plan) {
    plan !in {Stop(ExceedsSettled), Stop(OverRestores), Stop(DocumentVoided)}
  }

  lemma PaymentWithin(kind: Kind, s: Sub, b: Books, p: Id)
    requires SubOk(kind, s)
    ensures WithinSettled(PlanPayment(kind, s, b, p))
  {
    if p < |s.payments| && !s.payments[p].reversed { PaymentUnwinds(s, p); }
  }

  lemma NoteWithin(kind: Kind, s: Sub, n: Id)
    requires SubOk(kind, s)
    ensures WithinSettled(PlanNote(kind, s, n))
  {
    NoteUnwinds(s, n);
  }

  lemma RefundWithin(kind: Kind, s: Sub, k: Id)
    requires SubOk(kind, s)
    ensures WithinSettled(PlanRefund(kind, s, k))
  {
    if k < |s.refunds| && !s.refunds[k].reversed { RefundWithinSource(kind, s, k); }
  }

  lemma WriteOffWithin(kind: Kind, s: Sub, w: Id)
    requires SubOk(kind, s)
    ensures WithinSettled(PlanWriteOff(s, w))
  {
    if w < |s.writeOffs| && !s.writeOffs[w].reversed {
      assert DocumentOk(s, s.writeOffs[w].document);
      SumBoundsRow(s.writeOffs, w, WrittenOffOn(s.writeOffs[w].document));
    }
  }

  lemma ApplicationWithin(kind: Kind, s: Sub, k: Id)
    requires SubOk(kind, s)
    ensures WithinSettled(PlanApplication(kind, s, k))
  {
    if k < |s.applications| && !s.applications[k].reversed {
      var d := s.applications[k].document;
      assert DocumentOk(s, d);
      PaidParts(s, d);
      SumBoundsRow(s.applications, k, AppliedTo(d));
    }
  }

  lemma UndoNeverOverRestores(kind: Kind, s: Sub, b: Books, undo: Undo)
    requires SubOk(kind, s)
    ensures PlanOf(kind, s, b, undo) !in {Stop(ExceedsSettled), Stop(OverRestores), Stop(DocumentVoided)}
  {
    match undo
    case UndoPayment(p) => PaymentWithin(kind, s, b, p);
    case UndoNote(n) => NoteWithin(kind, s, n);
    case UndoRefund(k) => RefundWithin(kind, s, k);
    case UndoWriteOff(w) => WriteOffWithin(kind, s, w);
    case UndoAdvance(a) =>
    case UndoApplication(k) => ApplicationWithin(kind, s, k);
    case VoidDocument(d) =>
  }

  // ---- When everything is undone ----

  // Some live settlement still rests on document d.
  ghost predicate LiveSettlementOn(s: Sub, d: Id) {
    HasLiveAllocation(s, d) ||
    (exists k :: 0 <= k < |s.applications| && s.applications[k].document == d && !s.applications[k].reversed) ||
    (exists k :: 0 <= k < |s.noteApplications| && s.noteApplications[k].document == d &&
      !s.noteApplications[k].reversed) ||
    (exists k :: 0 <= k < |s.writeOffs| && s.writeOffs[k].document == d && !s.writeOffs[k].reversed)
  }

  // A sum of positive live rows is zero exactly when no row is live.
  lemma ZeroSumIff<T>(rows: seq<T>, f: T -> int)
    requires forall k :: 0 <= k < |rows| ==> f(rows[k]) >= 0
    ensures Sum(rows, f) == 0 <==> forall k :: 0 <= k < |rows| ==> f(rows[k]) == 0
  {
    SumNonNegative(rows, f);
    if Sum(rows, f) == 0 {
      forall k | 0 <= k < |rows| ensures f(rows[k]) == 0 { SumBoundsRow(rows, k, f); }
    } else if forall k :: 0 <= k < |rows| ==> f(rows[k]) == 0 {
      SumZero(rows, f);
    }
  }

  // voidInvoice and voidBill are blocked by settlements exactly while one is live, and a document
  // without live settlements owes its whole total again.
  lemma VoidableIffSettlementsUndone(kind: Kind, s: Sub, d: Id)
    requires SubOk(kind, s) && d < |s.documents|
    ensures SettlementGuard(kind, s, d) <==> !LiveSettlementOn(s, d)
    ensures !LiveSettlementOn(s, d) && s.documents[d].status != Voided ==>
      s.documents[d].balanceDue == s.documents[d].total
    ensures s.documents[d].status == Voided ==> !LiveSettlementOn(s, d)
  {
    assert DocumentOk(s, d);
    PaidParts(s, d);
    SumNonNegative(s.noteApplications, CreditedBy(d));
    SumNonNegative(s.writeOffs, WrittenOffOn(d));
    SettlementSumsIff(s, d);
  }

  lemma SettlementSumsIff(s: Sub, d: Id)
    requires RowsOk(s)
    ensures LiveSettlementOn(s, d) <==>
      PaidLive(s, d) != 0 || Sum(s.noteApplications, CreditedBy(d)) != 0 || Sum(s.writeOffs, WrittenOffOn(d)) != 0
  {
    PaidParts(s, d);
    ZeroSumIff(s.allocations, PaidBy(s.payments, d));
    ZeroSumIff(s.applications, AppliedTo(d));
    ZeroSumIff(s.noteApplications, CreditedBy(d));
    ZeroSumIff(s.writeOffs, WrittenOffOn(d));
    LiveRowsIff(s, d);
  }

  lemma LiveRowsIff(s: Sub, d: Id)
    requires RowsOk(s)
    ensures HasLiveAllocation(s, d) <==>
      exists k :: 0 <= k < |s.allocations| && PaidBy(s.payments, d)(s.allocations[k]) != 0
    ensures (exists k :: 0 <= k < |s.applications| && s.applications[k].document == d && !s.applications[k].reversed)
      <==> exists k :: 0 <= k < |s.applications| && AppliedTo(d)(s.applications[k]) != 0
    ensures (exists k ::
      0 <= k < |s.noteApplications| && s.noteApplications[k].document == d && !s.noteApplications[k].reversed)
      <==> exists k :: 0 <= k < |s.noteApplications| && CreditedBy(d)(s.noteApplications[k]) != 0
    ensures (exists k :: 0 <= k < |s.writeOffs| && s.writeOffs[k].document == d && !s.writeOffs[k].reversed)
      <==> exists k :: 0 <= k < |s.writeOffs| && WrittenOffOn(d)(s.writeOffs[k]) != 0
  {
    assert forall k :: 0 <= k < |s.allocations| ==> s.allocations[k].amount > 0;
    if HasLiveAllocation(s, d) {
      var k :| 0 <= k < |s.allocations| && s.allocations[k].document == d &&
        s.allocations[k].payment < |s.payments| && !s.payments[s.allocations[k].payment].reversed;
      assert PaidBy(s.payments, d)(s.allocations[k]) != 0;
    }
    forall k | 0 <= k < |s.applications| ensures AppliedTo(d)(s.applications[k]) != 0 <==>
      s.applications[k].document == d && !s.applications[k].reversed {}
    forall k | 0 <= k < |s.noteApplications| ensures CreditedBy(d)(s.noteApplications[k]) != 0 <==>
      s.noteApplications[k].document == d && !s.noteApplications[k].reversed {}
    forall k | 0 <= k < |s.writeOffs| ensures WrittenOffOn(d)(s.writeOffs[k]) != 0 <==>
      s.writeOffs[k].document == d && !s.writeOffs[k].reversed {}
  }
}
