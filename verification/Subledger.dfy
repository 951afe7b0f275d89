// FinancialDestructiveActionsService: undoing settlements of invoices (customers) and bills
// (vendors). Both sides keep tables of the same shape; Kind says which side is meant.
module Subledger {
  import opened Tables
  import opened Sums
  import opened PostingEngine
  import opened JournalReversal

  datatype Kind = Customers | Vendors

  datatype DocStatus = DocPosted | PartlyPaid | Paid | Voided | OtherDocStatus
  datatype AdvanceStatus = Unapplied | PartlyApplied | FullyApplied | AdvanceReversed
  datatype NoteStatus = Open | PartlyUsed | FullyUsed | NoteReversed
  datatype OrderStatus =
    | OrderDraft | Confirmed | InProduction | Shipped | PartlyFulfilled | Fulfilled | PartlyInvoiced | Invoiced
    | Cancelled | Closed | Approved | PartlyBilled | Billed | OtherOrderStatus

  datatype Document = Document(total: Cents, paid: Cents, credited: Cents, writtenOff: Cents, balanceDue: Cents,
                               status: DocStatus, party: Option<Id>, journal: Option<Id>, order: Option<Id>)
  datatype Payment = Payment(party: Option<Id>, unallocated: Cents, reversed: bool, journal: Option<Id>)
  datatype Allocation = Allocation(payment: Id, document: Id, amount: Cents)
  datatype Advance = Advance(party: Id, payment: Option<Id>, amount: Cents, unapplied: Cents, status: AdvanceStatus,
      journal: Option<Id>)
  datatype Application = Application(advance: Id, document: Id, amount: Cents, reversed: bool, journal: Option<Id>)
  datatype Note = Note(party: Option<Id>, total: Cents, remaining: Cents, status: NoteStatus, journal: Option<Id>)
  datatype NoteApplication = NoteApplication(note: Id, document: Id, amount: Cents, reversed: bool)
  datatype Refund = Refund(party: Id, note: Option<Id>, payment: Option<Id>, advance: Option<Id>, expense: Option<Id>,
                           amount: Cents, reversed: bool, journal: Option<Id>)
  datatype WriteOff = WriteOff(document: Id, amount: Cents, reversed: bool, journal: Option<Id>)
  // owed is receivables_balance or payables_balance
  datatype Party = Party(owed: Cents, advances: Cents, unusedCredits: Cents)
  datatype Order = Order(total: Cents, fulfilled: Cents, billed: Cents, status: OrderStatus)

  // An expense: not voided, and billed on an invoice or not.
  datatype Expenditure = Expenditure(live: bool, billed: bool, invoice: Option<Id>)

  datatype Sub = Sub(
    documents: seq<Document>, payments: seq<Payment>, allocations: seq<Allocation>,
    advances: seq<Advance>, applications: seq<Application>, notes: seq<Note>, noteApplications: seq<NoteApplication>,
    refunds: seq<Refund>, writeOffs: seq<WriteOff>, parties: seq<Party>, orders: seq<Order>, expenses: seq<Expenditure>)

  datatype Reason =
    | NotFound | AlreadyUndone | NoJournal | BankMatched | AdvanceApplied | DocumentMissing | DocumentVoided
    | ExceedsSettled | HasRefunds | SourceUnavailable | OverRestores | NoSource | LinkedToPayment | HasSettlements
    | PartyMissing | PartyBalanceShort | OrderMissing | OrderInconsistent | JournalRefused(refusal: Refusal)

  // What an undo decides before the journal is reversed, and the guard it has left for afterwards.
  datatype Plan = Stop(reason: Reason) | Proceed(journal: Id, after: Sub, late: Option<Reason>)

  // ---- Documents ----

  function Restated(doc: Document): Document {
    var balance := doc.total - doc.paid - doc.credited - doc.writtenOff;
    doc.(balanceDue := balance,
         status := if balance == 0 then Paid else if doc.paid > 0 then PartlyPaid else DocPosted)
  }

  datatype Field = PaidField | CreditedField | WrittenOffField

  function Settled(doc: Document, f: Field): Cents {
    match f case PaidField => doc.paid case CreditedField => doc.credited case WrittenOffField => doc.writtenOff
  }

  function WithSettled(doc: Document, f: Field, x: Cents): Document {
    Restated(match f
             case PaidField => doc.(paid := x)
             case CreditedField => doc.(credited := x)
             case WrittenOffField => doc.(writtenOff := x))
  }

  datatype Piece = Piece(document: Id, amount: Cents)
  datatype Unwound = Blocked(why: Reason) | Unwound(documents: seq<Document>)

  function UndoPiece(docs: seq<Document>, piece: Piece, f: Field, checkVoid: bool): Unwound {
    if piece.document >= |docs| then Blocked(DocumentMissing)
    else
      var doc := docs[piece.document];
      if checkVoid && doc.status == Voided then Blocked(DocumentVoided)
      else if piece.amount > Settled(doc, f) then Blocked(ExceedsSettled)
      else Unwound(docs[piece.document := WithSettled(doc, f, Settled(doc, f) - piece.amount)])
  }

  // The loop over allocation rows: each row re-reads its document as the rows before left it.
  function Unwind(docs: seq<Document>, pieces: seq<Piece>, f: Field, checkVoid: bool): Unwound {
    if pieces == [] then Unwound(docs)
    else
      var front := Unwind(docs, pieces[..|pieces| - 1], f, checkVoid);
      if front.Blocked? then front else UndoPiece(front.documents, pieces[|pieces| - 1], f, checkVoid)
  }

  function PaymentPieces(rows: seq<Allocation>, p: Id): seq<Piece> {
    if rows == [] then []
    else
      var row := rows[|rows| - 1];
      PaymentPieces(rows[..|rows| - 1], p) + if row.payment == p then [Piece(row.document, row.amount)] else []
  }

  function NotePieces(rows: seq<NoteApplication>, n: Id): seq<Piece> {
    if rows == [] then []
    else
      var row := rows[|rows| - 1];
      NotePieces(rows[..|rows| - 1], n) + if row.note == n &&
        !row.reversed then [Piece(row.document, row.amount)] else []
  }

  function PieceAmount(piece: Piece): int { piece.amount }

  // ---- Parties and orders ----

  function MoveParty(parties: seq<Party>, party: Option<Id>, owed: Cents, advances: Cents, unused: Cents): seq<Party> {
    if party.Some? && party.value < |parties| then
      var row := parties[party.value];
      parties[party.value := row.(owed := row.owed + owed, advances := row.advances + advances,
                                  unusedCredits := row.unusedCredits + unused)]
    else parties
  }

  function AtLeastZero(x: Cents): Cents { if x < 0 then 0 else x }

  predicate HasParty(s: Sub, party: Option<Id>) { party.Some? && party.value < |s.parties| }

  function SalesOrderStatus(o: Order, billed: Cents): OrderStatus {
    if o.status in {Cancelled, Closed} then o.status
    else if billed == o.total && o.total > 0 then Invoiced
    else if billed > 0 then PartlyInvoiced
    else if o.fulfilled == o.total && o.total > 0 then Fulfilled
    else if o.fulfilled > 0 then PartlyFulfilled
    else if o.status in {OrderDraft, Confirmed, InProduction, Shipped} then o.status
    else Confirmed
  }

  function PurchaseOrderStatus(o: Order, billed: Cents): OrderStatus {
    if billed == 0 then Approved else if billed >= o.total then Billed else PartlyBilled
  }

  function OrderStatusAfter(kind: Kind, o: Order, billed: Cents): OrderStatus {
    if kind == Customers then SalesOrderStatus(o, billed) else PurchaseOrderStatus(o, billed)
  }

  function OrderRefusal(kind: Kind, o: Order, billed: Cents): Option<Reason> {
    if billed < 0 then Some(OrderInconsistent)
    else if kind == Customers && (billed > o.total || o.fulfilled < 0 || o.fulfilled > o.total) then
      Some(OrderInconsistent)
    else None
  }

  // ---- Payments ----

  predicate IsBankMatched(kind: Kind, b: Books, p: Id) {
    exists m :: 0 <= m < |b.matches| && b.matches[m].status == MatchedStatus &&
      b.matches[m].source == (if kind == Customers then PaymentReceived(p) else PaymentMade(p))
  }

  predicate AdvancesUntouched(s: Sub, p: Id) {
    forall i :: 0 <= i < |s.advances| && s.advances[i].payment == Some(p) ==>
      s.advances[i].amount == s.advances[i].unapplied
  }

  function AdvancesCancelled(advances: seq<Advance>, p: Id): seq<Advance> {
    seq(|advances|, i requires 0 <= i < |advances| =>
      if advances[i].payment == Some(p) then advances[i].(status := AdvanceReversed, unapplied := 0) else advances[i])
  }

  function AdvanceOfPayment(p: Id): Advance -> int {
    (a: Advance) => if a.payment == Some(p) then a.amount else 0
  }

  function PaymentParties(kind: Kind, s: Sub, p: Id, undone: Cents): seq<Party>
    requires p < |s.payments|
  {
    var payment := s.payments[p];
    if !HasParty(s, payment.party) then s.parties
    else if kind == Vendors then MoveParty(s.parties, payment.party, undone, -payment.unallocated, 0)
    else
      var row := s.parties[payment.party.value];
      s.parties[payment.party.value := row.(owed := row.owed + undone,
                                            advances := AtLeastZero(row.advances -
                                              Sum(s.advances, AdvanceOfPayment(p))))]
  }

  function PlanPayment(kind: Kind, s: Sub, b: Books, p: Id): Plan {
    if p >= |s.payments| then Stop(NotFound)
    else
      var payment := s.payments[p];
      if payment.reversed then Stop(AlreadyUndone)
      else if payment.journal.None? then Stop(NoJournal)
      else if IsBankMatched(kind, b, p) then Stop(BankMatched)
      else if !AdvancesUntouched(s, p) then Stop(AdvanceApplied)
      else
        var pieces := PaymentPieces(s.allocations, p);
        var undone := Unwind(s.documents, pieces, PaidField, true);
        if undone.Blocked? then Stop(undone.why)
        else
          Proceed(payment.journal.value,
                  s.(documents := undone.documents,
                     advances := AdvancesCancelled(s.advances, p),
                     payments := s.payments[p := payment.(reversed := true, unallocated := 0)],
                     parties := PaymentParties(kind, s, p, Sum(pieces, PieceAmount))),
                  if kind == Vendors && (!HasParty(s, payment.party) ||
                    s.parties[payment.party.value].advances < payment.unallocated)
                  then Some(PartyBalanceShort) else None)
  }

  // ---- Credit notes and vendor credits ----

  predicate HasLiveRefund(s: Sub, n: Id) {
    exists r :: 0 <= r < |s.refunds| && s.refunds[r].note == Some(n) && !s.refunds[r].reversed
  }

  function NoteApplicationsUndone(rows: seq<NoteApplication>, n: Id): seq<NoteApplication> {
    seq(|rows|, i requires 0 <= i < |rows| => if rows[i].note == n then rows[i].(reversed := true) else rows[i])
  }

  function PlanNote(kind: Kind, s: Sub, n: Id): Plan {
    if n >= |s.notes| then Stop(NotFound)
    else
      var note := s.notes[n];
      if note.status == NoteReversed then Stop(AlreadyUndone)
      else if note.journal.None? then Stop(NoJournal)
      else if kind == Customers && HasLiveRefund(s, n) then Stop(HasRefunds)
      else
        var pieces := NotePieces(s.noteApplications, n);
        var undone := Unwind(s.documents, pieces, CreditedField, false);
        if undone.Blocked? then Stop(undone.why)
        else if kind == Vendors && note.party.Some? && note.remaining > 0 &&
          (!HasParty(s, note.party) ||
            s.parties[note.party.value].unusedCredits < note.remaining) then Stop(PartyBalanceShort)
        else
          Proceed(note.journal.value,
                  s.(documents := undone.documents,
                     noteApplications := NoteApplicationsUndone(s.noteApplications, n),
                     notes := s.notes[n := note.(status := NoteReversed, remaining := 0)],
                     parties := if kind == Customers then s.parties
                                else MoveParty(s.parties, note.party, Sum(pieces, PieceAmount), 0,
                                               if note.remaining > 0 then -note.remaining else 0)),
                  None)
  }

  // ---- Refunds ----

  predicate Names(r: Refund, i: Id, payment: Option<Id>, party: Id) {
    ((r.payment.Some? && payment == r.payment) || r.advance == Some(i)) && r.party == party
  }

  predicate NamesAt(advances: seq<Advance>, r: Refund, i: Id)
    requires i < |advances|
  {
    Names(r, i, advances[i].payment, advances[i].party)
  }

  // The rows a refund names, scanned from the end: the query accepts exactly one.
  function LastNamed(advances: seq<Advance>, r: Refund, n: nat): (found: Option<Id>)
    requires n <= |advances|
    ensures found.None? <==> forall k :: 0 <= k < n ==> !NamesAt(advances, r, k)
    ensures found.Some? ==> found.value < n && NamesAt(advances, r, found.value)
    ensures found.Some? ==> forall k :: found.value < k < n ==> !NamesAt(advances, r, k)
  {
    if n == 0 then None else if NamesAt(advances, r, n - 1) then Some(n - 1) else LastNamed(advances, r, n - 1)
  }

  function SoleNamed(advances: seq<Advance>, r: Refund): (sole: Option<Id>)
    ensures sole.Some? ==> sole.value < |advances|
    ensures sole.Some? ==> forall k :: 0 <= k < |advances| ==> (NamesAt(advances, r, k) <==> k == sole.value)
  {
    var last := LastNamed(advances, r, |advances|);
    if last.Some? && LastNamed(advances, r, last.value).Some? then None else last
  }

  function RestoreNote(s: Sub, n: Id, amount: Cents): Plan {
    if n >= |s.notes| || s.notes[n].status == NoteReversed then Stop(SourceUnavailable)
    else
      var restored := s.notes[n].remaining + amount;
      if restored > s.notes[n].total then Stop(OverRestores)
      else Proceed(0, s.(notes := s.notes[n := s.notes[n].(remaining := restored,
                         status := if restored == s.notes[n].total then Open else PartlyUsed)]), None)
  }

  function RestoreAdvance(s: Sub, r: Refund): Plan {
    var named := SoleNamed(s.advances, r);
    if named.None? then Stop(SourceUnavailable)
    else
      var i := named.value;
      var restored := s.advances[i].unapplied + r.amount;
      if restored > s.advances[i].amount then Stop(OverRestores)
      else Proceed(0, s.(advances := s.advances[i := s.advances[i].(unapplied := restored,
                           status := if restored == s.advances[i].amount then Unapplied else PartlyApplied)],
                         parties := MoveParty(s.parties, Some(r.party), 0, r.amount, 0)), None)
  }

  // A customer refund restores its note or else its advance.
  function RestoreCustomerSource(s: Sub, r: Refund): Plan {
    if r.note.Some? then RestoreNote(s, r.note.value, r.amount)
    else if r.payment.Some? || r.advance.Some? then RestoreAdvance(s, r)
    else Stop(NoSource)
  }

  // A vendor refund restores its note if it has one, and then its advance, expense or payable balance.
  function RestoreVendorSource(s: Sub, r: Refund): Plan {
    var noted := if r.note.Some? then RestoreNote(s, r.note.value, r.amount) else Proceed(0, s, None);
    if noted.Stop? then noted
    else if r.payment.Some? || r.advance.Some? then RestoreAdvance(noted.after, r)
    else if r.expense.Some? then
      if r.expense.value < |s.expenses| && s.expenses[r.expense.value].live then noted else Stop(SourceUnavailable)
    else if r.party >= |s.parties| || s.parties[r.party].owed < r.amount then Stop(PartyBalanceShort)
    else Proceed(0, noted.after.(parties := MoveParty(noted.after.parties, Some(r.party), -r.amount, 0, 0)), None)
  }

  function RestoreSource(kind: Kind, s: Sub, r: Refund): Plan {
    if kind == Customers then RestoreCustomerSource(s, r) else RestoreVendorSource(s, r)
  }

  function PlanRefund(kind: Kind, s: Sub, k: Id): Plan {
    if k >= |s.refunds| then Stop(NotFound)
    else
      var r := s.refunds[k];
      if r.reversed then Stop(AlreadyUndone)
      else if r.journal.None? then Stop(NoJournal)
      else
        var restored := RestoreSource(kind, s, r);
        if restored.Stop? then restored
        else Proceed(r.journal.value, restored.after.(refunds := s.refunds[k := r.(reversed := true)]), None)
  }

  // ---- Write-offs, advances and advance applications ----

  function PlanWriteOff(s: Sub, w: Id): Plan {
    if w >= |s.writeOffs| then Stop(NotFound)
    else
      var row := s.writeOffs[w];
      if row.reversed then Stop(AlreadyUndone)
      else if row.journal.None? then Stop(NoJournal)
      else
        var undone := UndoPiece(s.documents, Piece(row.document, row.amount), WrittenOffField, false);
        if undone.Blocked? then Stop(undone.why)
        else Proceed(row.journal.value,
                     s.(documents := undone.documents, writeOffs := s.writeOffs[w := row.(reversed := true)]), None)
  }

  function PlanAdvance(s: Sub, i: Id): Plan {
    if i >= |s.advances| then Stop(NotFound)
    else
      var row := s.advances[i];
      if row.status == AdvanceReversed then Stop(AlreadyUndone)
      else if row.payment.Some? then Stop(LinkedToPayment)
      else if row.journal.None? then Stop(NoJournal)
      else if row.amount != row.unapplied then Stop(AdvanceApplied)
      else Proceed(row.journal.value,
                   s.(advances := s.advances[i := row.(status := AdvanceReversed, unapplied := 0)],
                      parties := MoveParty(s.parties, Some(row.party), 0, -row.amount, 0)),
                   if row.party >= |s.parties| || s.parties[row.party].advances < row.amount then
                     Some(PartyBalanceShort) else None)
  }

  function PlanApplication(kind: Kind, s: Sub, k: Id): Plan {
    if k >= |s.applications| then Stop(NotFound)
    else
      var row := s.applications[k];
      if row.reversed then Stop(AlreadyUndone)
      else if row.advance >= |s.advances| then Stop(DocumentMissing)
      else
        var undone := UndoPiece(s.documents, Piece(row.document, row.amount), PaidField, false);
        if undone.Blocked? then Stop(undone.why)
        else if row.journal.None? then Stop(JournalRefused(JournalNotFound))
        else
          var advance := s.advances[row.advance];
          var restored := advance.unapplied + row.amount;
          Proceed(row.journal.value,
                  s.(documents := undone.documents,
                     advances := s.advances[row.advance := advance.(unapplied := restored,
                                   status := if restored == advance.amount then Unapplied else PartlyApplied)],
                     applications := s.applications[k := row.(reversed := true)],
                     parties := if kind == Customers then s.parties
                                else MoveParty(s.parties, Some(advance.party), row.amount, row.amount, 0)),
                  None)
  }

  // ---- Voiding ----

  predicate HasLiveAllocation(s: Sub, d: Id) {
    exists k :: 0 <= k < |s.allocations| && s.allocations[k].document == d &&
      s.allocations[k].payment < |s.payments| && !s.payments[s.allocations[k].payment].reversed
  }

  predicate SettlementGuard(kind: Kind, s: Sub, d: Id)
    requires d < |s.documents|
  {
    s.documents[d].paid == 0 && s.documents[d].credited == 0 && s.documents[d].writtenOff == 0 &&
    (kind == Customers ==> !HasLiveAllocation(s, d))
  }

  function VoidParties(kind: Kind, s: Sub, doc: Document): seq<Party> {
    if kind == Vendors then MoveParty(s.parties, doc.party, -doc.total, 0, 0)
    else if HasParty(s, doc.party) then
      var row := s.parties[doc.party.value];
      s.parties[doc.party.value := row.(owed := AtLeastZero(row.owed - doc.total))]
    else s.parties
  }

  // Voiding an invoice makes the expenses billed on it billable again.
  function ReleasedExpense(e: Expenditure, d: Id): Expenditure {
    if e.invoice == Some(d) then e.(billed := false, invoice := None) else e
  }

  function VoidExpenses(kind: Kind, expenses: seq<Expenditure>, d: Id): seq<Expenditure> {
    seq(|expenses|, i requires 0 <= i < |expenses| =>
      if kind == Customers then ReleasedExpense(expenses[i], d) else expenses[i])
  }

  function VoidLate(kind: Kind, s: Sub, doc: Document): Option<Reason> {
    if kind == Vendors && !HasParty(s, doc.party) then Some(PartyMissing)
    else if doc.order.None? then None
    else if doc.order.value >= |s.orders| then Some(OrderMissing)
    else OrderRefusal(kind, s.orders[doc.order.value], s.orders[doc.order.value].billed - doc.total)
  }

  function PlanVoid(kind: Kind, s: Sub, d: Id): Plan {
    if d >= |s.documents| then Stop(NotFound)
    else
      var doc := s.documents[d];
      if kind == Customers && doc.order.Some? && doc.order.value >= |s.orders| then Stop(OrderMissing)
      else if doc.status == Voided then Stop(AlreadyUndone)
      else if !SettlementGuard(kind, s, d) then Stop(HasSettlements)
      else if doc.journal.None? then Stop(NoJournal)
      else
        var orders :=
          if doc.order.Some? && doc.order.value < |s.orders| then
            var o := s.orders[doc.order.value];
            var billed := o.billed - doc.total;
            s.orders[doc.order.value := o.(billed := billed, status := OrderStatusAfter(kind, o, billed))]
          else s.orders;
        Proceed(doc.journal.value,
                s.(documents := s.documents[d := doc.(status := Voided, balanceDue := 0)],
                   orders := orders, parties := VoidParties(kind, s, doc),
                   expenses := VoidExpenses(kind, s.expenses, d)),
                VoidLate(kind, s, doc))
  }

  // ---- One undo transaction: the subledger part and the reversal of its journal, or nothing ----

  datatype Undo =
    | UndoPayment(id: Id) | UndoNote(id: Id) | UndoRefund(id: Id) | UndoWriteOff(id: Id)
    | UndoAdvance(id: Id) | UndoApplication(id: Id) | VoidDocument(id: Id)

  function PlanOf(kind: Kind, s: Sub, b: Books, undo: Undo): Plan {
    match undo
    case UndoPayment(p) => PlanPayment(kind, s, b, p)
    case UndoNote(n) => PlanNote(kind, s, n)
    case UndoRefund(r) => PlanRefund(kind, s, r)
    case UndoWriteOff(w) => PlanWriteOff(s, w)
    case UndoAdvance(a) => PlanAdvance(s, a)
    case UndoApplication(k) => PlanApplication(kind, s, k)
    case VoidDocument(d) => PlanVoid(kind, s, d)
  }

  datatype Undone = Undid(sub: Sub, books: Books, reversal: Id) | Kept(reason: Reason)

  function Perform(plan: Plan, b: Books, number: string, today: Date): Undone {
    match plan
    case Stop(reason) => Kept(reason)
    case Proceed(journal, after, late) =>
      match Reverse(b, journal, number, today, None)
      case Refused(refusal) => Kept(JournalRefused(refusal))
      case Done(books, id) => if late.Some? then Kept(late.value) else Undid(after, books, id)
  }
}
