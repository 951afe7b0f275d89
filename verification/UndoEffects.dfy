// What each undo does to customers' balances, to statuses and to orders, in the columns themselves.
module UndoEffects {
  import opened Tables
  import opened Sums
  import opened Subledger
  import opened SubledgerLaws

  // ---- Customers ----

  // Nothing about a party but c changes.
  ghost predicate OthersUnmoved(before: seq<Party>, after: seq<Party>, c: Option<Id>) {
    |after| == |before| && forall k :: 0 <= k < |before| && c != Some(k) ==> after[k] == before[k]
  }

  function AllocatedFrom(p: Id): Allocation -> int { (a: Allocation) => if a.payment == p then a.amount else 0 }

  function AdvancedBy(p: Id): Advance -> int { (a: Advance) => if a.payment == Some(p) then a.amount else 0 }

  lemma {:induction false} PiecesTotal(rows: seq<Allocation>, p: Id)
    ensures Sum(PaymentPieces(rows, p), PieceAmount) == Sum(rows, AllocatedFrom(p))
  {
    if rows != [] {
      var front, row := rows[..|rows| - 1], rows[|rows| - 1];
      PiecesTotal(front, p);
      if row.payment == p {
        SumSnoc(PaymentPieces(front, p), Piece(row.document, row.amount), PieceAmount);
      } else {
        assert PaymentPieces(rows, p) == PaymentPieces(front, p);
      }
    }
  }

  // Undoing a payment: its customer owes again what the payment's allocations had settled, and has been
  // advanced less by what it had made out as advances, though never less than nothing.
  lemma {:induction false} CustomerPaymentUndone(s: Sub, b: Books, p: Id)
    requires PlanPayment(Customers, s, b, p).Proceed?
    ensures p < |s.payments|
    ensures var c, after := s.payments[p].party, PlanPayment(Customers, s, b, p).after.parties;
      OthersUnmoved(s.parties, after, c) &&
      (c.Some? && c.value < |s.parties| ==>
        after[c.value].owed == s.parties[c.value].owed + Sum(s.allocations, AllocatedFrom(p)) &&
        after[c.value].unusedCredits == s.parties[c.value].unusedCredits &&
        var left := s.parties[c.value].advances - Sum(s.advances, AdvancedBy(p));
        after[c.value].advances == if left >= 0 then left else 0)
  {
    PiecesTotal(s.allocations, p);
    SumSame(s.advances, AdvanceOfPayment(p), AdvancedBy(p));
  }

  // Voiding an invoice: its customer owes its total less, though never less than nothing.
  lemma {:induction false} CustomerInvoiceVoided(s: Sub, d: Id)
    requires PlanVoid(Customers, s, d).Proceed?
    ensures d < |s.documents|
    ensures var c, after := s.documents[d].party, PlanVoid(Customers, s, d).after.parties;
      OthersUnmoved(s.parties, after, c) &&
      (c.Some? && c.value < |s.parties| ==>
        after[c.value].advances == s.parties[c.value].advances &&
        after[c.value].unusedCredits == s.parties[c.value].unusedCredits &&
        var left := s.parties[c.value].owed - s.documents[d].total;
        after[c.value].owed == if left >= 0 then left else 0)
  {
  }

  // Undoing a refund gives its amount back to the advance balance, unless it was paid from a note.
  lemma {:induction false} CustomerRefundUndone(s: Sub, k: Id)
    requires PlanRefund(Customers, s, k).Proceed?
    ensures k < |s.refunds|
    ensures var r, after := s.refunds[k], PlanRefund(Customers, s, k).after.parties;
      (r.note.Some? ==> after == s.parties) &&
      (r.note.None? ==>
        OthersUnmoved(s.parties, after, Some(r.party)) &&
        (r.party < |s.parties| ==>
          after[r.party] == s.parties[r.party].(advances := s.parties[r.party].advances + r.amount)))
  {
  }

  // Cancelling an advance takes its amount off the advance balance.
  lemma {:induction false} AdvanceUndone(s: Sub, i: Id)
    requires PlanAdvance(s, i).Proceed?
    ensures i < |s.advances|
    ensures var row, after := s.advances[i], PlanAdvance(s, i).after.parties;
      OthersUnmoved(s.parties, after, Some(row.party)) &&
      (row.party < |s.parties| ==>
        after[row.party] == s.parties[row.party].(advances := s.parties[row.party].advances - row.amount))
  {
  }

  // Credit notes, write-offs and applied advances are undone without touching the customer's balances.
  lemma {:induction false} CustomersOtherwiseUnmoved(s: Sub, b: Books, undo: Undo)
    requires undo.UndoNote? || undo.UndoWriteOff? || undo.UndoApplication?
    requires PlanOf(Customers, s, b, undo).Proceed?
    ensures PlanOf(Customers, s, b, undo).after.parties == s.parties
  {
  }

  // ---- Statuses ----

  // Posted, partly paid or paid, by what is due and what has been paid.
  ghost predicate StatusFits(doc: Document) {
    (doc.balanceDue == 0 ==> doc.status == Paid) &&
    (doc.balanceDue != 0 && doc.paid > 0 ==> doc.status == PartlyPaid) &&
    (doc.balanceDue != 0 && doc.paid <= 0 ==> doc.status == DocPosted) &&
    doc.balanceDue == doc.total - doc.paid - doc.credited - doc.writtenOff
  }

  ghost predicate KeptOrFits(before: seq<Document>, after: seq<Document>) {
    |after| == |before| && forall d :: 0 <= d < |before| ==> after[d] == before[d] || StatusFits(after[d])
  }

  lemma {:induction false} UnwindFits(docs: seq<Document>, pieces: seq<Piece>, f: Field, checkVoid: bool)
    requires Unwind(docs, pieces, f, checkVoid).Unwound?
    ensures KeptOrFits(docs, Unwind(docs, pieces, f, checkVoid).documents)
  {
    if pieces != [] { UnwindFits(docs, pieces[..|pieces| - 1], f, checkVoid); }
  }

  lemma {:induction false} PieceFits(docs: seq<Document>, piece: Piece, f: Field, checkVoid: bool)
    requires UndoPiece(docs, piece, f, checkVoid).Unwound?
    ensures KeptOrFits(docs, UndoPiece(docs, piece, f, checkVoid).documents)
  {
  }

  // Every document an undo touches, other than by voiding it, is left with the status of its balance.
  lemma {:induction false} UndoneDocumentsFit(kind: Kind, s: Sub, b: Books, undo: Undo)
    requires !undo.VoidDocument? && PlanOf(kind, s, b, undo).Proceed?
    ensures KeptOrFits(s.documents, PlanOf(kind, s, b, undo).after.documents)
  {
    match undo
    case UndoPayment(p) => UnwindFits(s.documents, PaymentPieces(s.allocations, p), PaidField, true);
    case UndoNote(n) => UnwindFits(s.documents, NotePieces(s.noteApplications, n), CreditedField, false);
    case UndoRefund(k) => RestoreEffect(kind, s, s.refunds[k]);
    case UndoWriteOff(w) =>
      PieceFits(s.documents, Piece(s.writeOffs[w].document, s.writeOffs[w].amount), WrittenOffField, false);
    case UndoApplication(k) =>
      PieceFits(s.documents, Piece(s.applications[k].document, s.applications[k].amount), PaidField, false);
    case _ =>
  }

  // What a refund gives back leaves a note open or partly used, and an advance unapplied or partly
  // applied, by whether all of it is there again.
  lemma {:induction false} RefundedSourcesFit(kind: Kind, s: Sub, k: Id)
    requires PlanRefund(kind, s, k).Proceed?
    ensures var after := PlanRefund(kind, s, k).after;
      |after.notes| == |s.notes| && |after.advances| == |s.advances| &&
      (forall n :: 0 <= n < |s.notes| && after.notes[n] != s.notes[n] ==>
        after.notes[n].status == if after.notes[n].remaining == after.notes[n].total then Open else PartlyUsed) &&
      (forall i :: 0 <= i < |s.advances| && after.advances[i] != s.advances[i] ==>
        after.advances[i].status ==
          if after.advances[i].unapplied == after.advances[i].amount then Unapplied else PartlyApplied)
  {
  }

  // Undoing a payment cancels exactly its own advances.
  lemma {:induction false} PaymentAdvancesCancelled(kind: Kind, s: Sub, b: Books, p: Id)
    requires PlanPayment(kind, s, b, p).Proceed?
    ensures var after := PlanPayment(kind, s, b, p).after.advances;
      |after| == |s.advances| && forall i :: 0 <= i < |s.advances| ==>
        if s.advances[i].payment == Some(p) then after[i].status == AdvanceReversed && after[i].unapplied == 0
        else after[i] == s.advances[i]
  {
  }

  // ---- Voiding ----

  // A voided document owes nothing, and its order has been billed its total less.
  lemma {:induction false} VoidedDocument(kind: Kind, s: Sub, d: Id)
    requires PlanVoid(kind, s, d).Proceed?
    ensures var doc, after := s.documents[d], PlanVoid(kind, s, d).after;
      after.documents == s.documents[d := doc.(status := Voided, balanceDue := 0)] && |after.orders| == |s.orders| &&
      (forall k :: 0 <= k < |s.orders| && doc.order != Some(k) ==> after.orders[k] == s.orders[k]) &&
      (doc.order.Some? && doc.order.value < |s.orders| ==>
        after.orders[doc.order.value].billed == s.orders[doc.order.value].billed - doc.total &&
        after.orders[doc.order.value].total == s.orders[doc.order.value].total &&
        after.orders[doc.order.value].fulfilled == s.orders[doc.order.value].fulfilled)
  {
  }

  // The status of a sales order after voiding: closed ones stay, otherwise what is still invoiced decides,
  // then what is fulfilled, then where it stood.
  lemma {:induction false} VoidedSalesOrder(s: Sub, d: Id)
    requires PlanVoid(Customers, s, d).Proceed? && s.documents[d].order.Some?
    ensures s.documents[d].order.value < |s.orders|
    ensures var k := s.documents[d].order.value;
      var o, after := s.orders[k], PlanVoid(Customers, s, d).after.orders[k];
      var billed := o.billed - s.documents[d].total;
      var closed := o.status == Cancelled || o.status == Closed;
      (closed ==> after.status == o.status) &&
      (!closed && o.total > 0 && billed == o.total ==> after.status == Invoiced) &&
      (!closed && billed > 0 && billed != o.total ==> after.status == PartlyInvoiced) &&
      (!closed && billed <= 0 && o.total > 0 && billed != o.total && o.fulfilled == o.total ==>
        after.status == Fulfilled) &&
      (!closed && billed <= 0 && o.fulfilled > 0 && o.fulfilled != o.total && o.total > 0 ==>
        after.status == PartlyFulfilled) &&
      (!closed && billed == 0 && o.total > 0 && o.fulfilled <= 0 ==>
        after.status == if o.status in {OrderDraft, Confirmed, InProduction, Shipped} then o.status else Confirmed)
  {
  }

  // A purchase order is approved when nothing is billed any more, billed when all of it is.
  lemma {:induction false} VoidedPurchaseOrder(s: Sub, d: Id)
    requires PlanVoid(Vendors, s, d).Proceed? && s.documents[d].order.Some?
    requires s.documents[d].order.value < |s.orders|
    ensures var k := s.documents[d].order.value;
      var o, after := s.orders[k], PlanVoid(Vendors, s, d).after.orders[k];
      var billed := o.billed - s.documents[d].total;
      (after.status == Approved <==> billed == 0) && (after.status == Billed <==> billed != 0 && billed >= o.total) &&
      (after.status == PartlyBilled <==> billed != 0 && billed < o.total)
  {
  }

  // The order's counters must agree: nothing billed below zero, and for a sales order neither billed nor
  // fulfilled past its total. Otherwise the voiding is rolled back.
  lemma {:induction false} VoidedOrderConsistent(kind: Kind, s: Sub, d: Id)
    requires PlanVoid(kind, s, d).Proceed? && s.documents[d].order.Some?
    ensures var doc := s.documents[d];
      PlanVoid(kind, s, d).late.None? <==>
        (kind == Vendors ==> doc.party.Some? && doc.party.value < |s.parties|) && doc.order.value < |s.orders| &&
        var o := s.orders[doc.order.value];
        doc.total <= o.billed &&
        (kind == Customers ==> o.billed - doc.total <= o.total && 0 <= o.fulfilled <= o.total)
  {
  }

  // ---- When an undo is accepted, in a consistent subledger ----

  // No bank row in force names the payment, and nothing of its advances has been used.
  lemma {:induction false} PaymentUndoneIff(kind: Kind, s: Sub, b: Books, p: Id)
    requires SubOk(kind, s)
    ensures PlanPayment(kind, s, b, p).Proceed? <==>
      p < |s.payments| && !s.payments[p].reversed && s.payments[p].journal.Some? &&
      (forall m :: 0 <= m < |b.matches| && b.matches[m].status == MatchedStatus ==>
        if kind == Customers then b.matches[m].source != PaymentReceived(p)
        else b.matches[m].source != PaymentMade(p)) &&
      forall i :: 0 <= i < |s.advances| && s.advances[i].payment == Some(p) ==>
        s.advances[i].unapplied == s.advances[i].amount
    ensures PlanPayment(kind, s, b, p).Proceed? ==> PlanPayment(kind, s, b, p).journal == s.payments[p].journal.value
  {
    if p < |s.payments| && !s.payments[p].reversed { PaymentUnwinds(s, p); }
  }

  // A customer's note has no live refund; a vendor still has the unused credits a note leaves unused.
  lemma {:induction false} NoteUndoneIff(kind: Kind, s: Sub, n: Id)
    requires SubOk(kind, s)
    ensures PlanNote(kind, s, n).Proceed? <==>
      n < |s.notes| && s.notes[n].status != NoteReversed && s.notes[n].journal.Some? &&
      (kind == Customers ==> forall r :: 0 <= r < |s.refunds| && s.refunds[r].note == Some(n) ==>
        s.refunds[r].reversed) &&
      (kind == Vendors && s.notes[n].party.Some? && s.notes[n].remaining > 0 ==>
        s.notes[n].party.value < |s.parties| &&
        s.notes[n].remaining <= s.parties[s.notes[n].party.value].unusedCredits)
    ensures PlanNote(kind, s, n).Proceed? ==>
      PlanNote(kind, s, n).journal == s.notes[n].journal.value &&
      PlanNote(kind, s, n).after.notes[n] == s.notes[n].(status := NoteReversed, remaining := 0)
  {
    NoteUnwinds(s, n);
  }

  lemma {:induction false} WriteOffUndoneIff(kind: Kind, s: Sub, w: Id)
    requires SubOk(kind, s)
    ensures PlanWriteOff(s, w).Proceed? <==>
      w < |s.writeOffs| && !s.writeOffs[w].reversed && s.writeOffs[w].journal.Some?
  {
    WriteOffWithin(kind, s, w);
  }

  // An advance made out on its own, of which nothing has been used; the party's balance is looked at last.
  lemma {:induction false} AdvanceUndoneIff(s: Sub, i: Id)
    ensures PlanAdvance(s, i).Proceed? <==>
      i < |s.advances| && s.advances[i].status != AdvanceReversed && s.advances[i].payment.None? &&
      s.advances[i].journal.Some? && s.advances[i].unapplied == s.advances[i].amount
    ensures PlanAdvance(s, i).Proceed? ==>
      (PlanAdvance(s, i).late.None? <==>
        s.advances[i].party < |s.parties| && s.advances[i].amount <= s.parties[s.advances[i].party].advances) &&
      PlanAdvance(s, i).after.advances[i].status == AdvanceReversed &&
        PlanAdvance(s, i).after.advances[i].unapplied == 0
  {
  }

  lemma {:induction false} ApplicationUndoneIff(kind: Kind, s: Sub, k: Id)
    requires SubOk(kind, s)
    ensures PlanApplication(kind, s, k).Proceed? <==>
      k < |s.applications| && !s.applications[k].reversed && s.applications[k].journal.Some?
  {
    ApplicationWithin(kind, s, k);
  }

  // A note or advance that is there and not reversed, the only advance named; an expense not voided; or
  // else a vendor who is owed that much.
  lemma {:induction false} RefundUndoneIff(kind: Kind, s: Sub, k: Id)
    requires SubOk(kind, s)
    ensures PlanRefund(kind, s, k).Proceed? <==>
      k < |s.refunds| && !s.refunds[k].reversed && s.refunds[k].journal.Some? &&
      var r := s.refunds[k];
      (r.note.Some? ==> r.note.value < |s.notes| && s.notes[r.note.value].status != NoteReversed) &&
      (if kind == Customers && r.note.Some? then true
       else if r.payment.Some? || r.advance.Some? then exists i :: OnlyNamed(s.advances, r, i)
       else
         kind == Vendors &&
         if r.expense.Some? then r.expense.value < |s.expenses| && s.expenses[r.expense.value].live
         else r.party < |s.parties| && r.amount <= s.parties[r.party].owed)
  {
    if k < |s.refunds| && !s.refunds[k].reversed {
      RefundWithinSource(kind, s, k);
      SoleNamedIff(s.advances, s.refunds[k]);
    }
  }

  // The refund's party has the advance, and the refund names it or the payment it came with.
  predicate IsNamed(a: Advance, i: Id, r: Refund) {
    a.party == r.party && (r.advance == Some(i) || (r.payment.Some? && a.payment == r.payment))
  }

  ghost predicate OnlyNamed(advances: seq<Advance>, r: Refund, i: Id) {
    i < |advances| && IsNamed(advances[i], i, r) &&
    forall k: Id :: k < |advances| && k != i ==> !IsNamed(advances[k], k, r)
  }

  lemma SoleNamedIff(advances: seq<Advance>, r: Refund)
    ensures SoleNamed(advances, r).Some? <==> exists i :: OnlyNamed(advances, r, i)
  {
    forall k: Id | k < |advances| ensures NamesAt(advances, r, k) <==> IsNamed(advances[k], k, r) {
    }
    var last := LastNamed(advances, r, |advances|);
    if SoleNamed(advances, r).Some? { assert OnlyNamed(advances, r, SoleNamed(advances, r).value); }
  }

  // A posted document without settlements; an invoice's order must be there before anything is done.
  lemma {:induction false} VoidedIff(kind: Kind, s: Sub, d: Id)
    ensures PlanVoid(kind, s, d).Proceed? <==>
      d < |s.documents| && s.documents[d].status != Voided && s.documents[d].journal.Some? &&
      s.documents[d].paid == 0 && s.documents[d].credited == 0 && s.documents[d].writtenOff == 0 &&
      (kind == Customers && s.documents[d].order.Some? ==> s.documents[d].order.value < |s.orders|) &&
      (kind == Customers ==> forall k :: 0 <= k < |s.allocations| && s.allocations[k].document == d ==>
        s.allocations[k].payment < |s.payments| ==> s.payments[s.allocations[k].payment].reversed)
  {
  }

  // ---- Why an undo is refused ----

  ghost predicate BankNames(b: Books, m: Id, p: Id) {
    m < |b.matches| && b.matches[m].status == MatchedStatus &&
    b.matches[m].source in {PaymentReceived(p), PaymentMade(p)}
  }

  ghost predicate PartlyGone(s: Sub, i: Id, p: Id) {
    i < |s.advances| && s.advances[i].payment == Some(p) && s.advances[i].unapplied != s.advances[i].amount
  }

  // In a consistent subledger a payment is refused for these reasons only, in this order.
  lemma {:induction false} PaymentRefusedBecause(kind: Kind, s: Sub, b: Books, p: Id)
    requires SubOk(kind, s)
    ensures PlanPayment(kind, s, b, p) == Stop(NotFound) <==> p >= |s.payments|
    ensures p < |s.payments| ==>
      var row, plan := s.payments[p], PlanPayment(kind, s, b, p);
      (plan == Stop(AlreadyUndone) <==> row.reversed) &&
        (plan == Stop(NoJournal) <==> !row.reversed && row.journal.None?) &&
      (plan == Stop(BankMatched) ==> exists m :: BankNames(b, m, p)) &&
      (plan == Stop(AdvanceApplied) ==> exists i :: PartlyGone(s, i, p)) &&
      (plan.Stop? ==> plan.reason in {AlreadyUndone, NoJournal, BankMatched, AdvanceApplied})
    ensures PlanPayment(kind, s, b, p).Proceed? ==>
      (PlanPayment(kind, s, b, p).late == Some(PartyBalanceShort) <==>
        kind == Vendors && (s.payments[p].party.None? || s.payments[p].party.value >= |s.parties| ||
          s.parties[s.payments[p].party.value].advances < s.payments[p].unallocated))
  {
    if p < |s.payments| && !s.payments[p].reversed { PaymentUnwinds(s, p); }
    if PlanPayment(kind, s, b, p) == Stop(BankMatched) {
      var m :| 0 <= m < |b.matches| && b.matches[m].status == MatchedStatus &&
        b.matches[m].source == (if kind == Customers then PaymentReceived(p) else PaymentMade(p));
      assert BankNames(b, m, p);
    }
    if PlanPayment(kind, s, b, p) == Stop(AdvanceApplied) {
      var i :| 0 <= i < |s.advances| && s.advances[i].payment == Some(p) &&
        s.advances[i].amount != s.advances[i].unapplied;
      assert PartlyGone(s, i, p);
    }
  }

  // Voiding: the order of an invoice, the status, the settlements, and the journal, in this order.
  lemma {:induction false} VoidRefusedBecause(kind: Kind, s: Sub, d: Id)
    ensures PlanVoid(kind, s, d) == Stop(NotFound) <==> d >= |s.documents|
    ensures d < |s.documents| ==>
      var doc, plan := s.documents[d], PlanVoid(kind, s, d);
      var orderThere := kind == Customers && doc.order.Some? ==> doc.order.value < |s.orders|;
      (plan == Stop(OrderMissing) <==> !orderThere) &&
      (plan == Stop(AlreadyUndone) <==> orderThere && doc.status == Voided) &&
      (plan == Stop(NoJournal) ==> doc.journal.None? && doc.paid == 0 && doc.credited == 0 && doc.writtenOff == 0) &&
      (plan == Stop(HasSettlements) ==>
        doc.paid != 0 || doc.credited != 0 || doc.writtenOff != 0 || (kind == Customers && HasLiveAllocation(s, d)))
  {
  }
}
