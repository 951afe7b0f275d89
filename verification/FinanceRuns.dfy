// The whole state machine: ledger, bank and both subledgers, over any run of transactions.
module FinanceRuns {
  import opened Tables
  import opened PostingEngine
  import opened JournalReversal
  import opened LedgerLaws
  import opened LedgerSteps
  import opened LedgerRuns
  import opened Subledger
  import opened SubledgerLaws
  import opened VendorLaws
  import opened VendorRefunds

  datatype World = World(books: Books, customers: Sub, vendors: Sub)

  datatype Transaction =
    | LedgerStep(op: Op)
    | UndoStep(kind: Kind, undo: Undo, number: string, today: Date)
    | RefundStep(order: RefundOrder)

  function SubOf(w: World, kind: Kind): Sub { if kind == Customers then w.customers else w.vendors }

  function Outcome(w: World, kind: Kind, undo: Undo, number: string, today: Date): Undone {
    Perform(PlanOf(kind, SubOf(w, kind), w.books, undo), w.books, number, today)
  }

  function WithOutcome(w: World, kind: Kind, outcome: Undone): World {
    match outcome
    case Kept(_) => w
    case Undid(sub, books, _) =>
      if kind == Customers then w.(customers := sub, books := books) else w.(vendors := sub, books := books)
  }

  function ExecuteUndo(w: World, kind: Kind, undo: Undo, number: string, today: Date): World {
    WithOutcome(w, kind, Outcome(w, kind, undo, number, today))
  }

  function ExecuteRefund(w: World, order: RefundOrder): World {
    var recorded := RecordNoteRefund(w.vendors, w.books, order);
    if recorded.RefundRefused? then w else w.(vendors := recorded.sub, books := recorded.books)
  }

  function Execute(w: World, t: Transaction): World {
    match t
    case LedgerStep(op) => w.(books := LedgerRuns.Step(w.books, op))
    case UndoStep(kind, undo, number, today) => ExecuteUndo(w, kind, undo, number, today)
    case RefundStep(order) => ExecuteRefund(w, order)
  }

  function ExecuteAll(w: World, ts: seq<Transaction>): World
    decreases |ts|
  {
    if ts == [] then w else ExecuteAll(Execute(w, ts[0]), ts[1..])
  }

  ghost predicate WorldOk(w: World) {
    BooksOk(w.books) && SubOk(Customers, w.customers) && SubOk(Vendors, w.vendors) && PartiesAgree(w.vendors)
  }

  // What a performed plan is made of.
  lemma {:induction false} PerformParts(plan: Plan, b: Books, number: string, today: Date)
    requires Perform(plan, b, number, today).Undid?
    ensures plan.Proceed? && plan.late.None? && Reverse(b, plan.journal, number, today, None).Done?
    ensures Perform(plan, b, number, today).sub == plan.after
    ensures Perform(plan, b, number, today).books == Reverse(b, plan.journal, number, today, None).books
  {
  }

  lemma {:induction false} OutcomeIsOk(w: World, kind: Kind, undo: Undo, number: string, today: Date)
    requires WorldOk(w) && Outcome(w, kind, undo, number, today).Undid?
    ensures BooksOk(Outcome(w, kind, undo, number, today).books)
    ensures SubOk(kind, Outcome(w, kind, undo, number, today).sub)
  {
    var plan := PlanOf(kind, SubOf(w, kind), w.books, undo);
    PerformParts(plan, w.books, number, today);
    ReverseStepKeepsBooks(w.books, plan.journal, number, today);
    UndoKeepsSub(kind, SubOf(w, kind), w.books, undo);
  }

  lemma {:induction false} UndoVendorsKeepsParties(w: World, undo: Undo, number: string, today: Date)
    requires PartiesAgree(w.vendors) && Outcome(w, Vendors, undo, number, today).Undid?
    ensures PartiesAgree(Outcome(w, Vendors, undo, number, today).sub)
  {
    PerformParts(PlanOf(Vendors, w.vendors, w.books, undo), w.books, number, today);
    UndoKeepsPartiesAgree(w.vendors, w.books, undo);
  }

  lemma WithOutcomeIsOk(w: World, kind: Kind, outcome: Undone)
    requires WorldOk(w)
    requires outcome.Undid? ==> BooksOk(outcome.books) && SubOk(kind, outcome.sub)
    requires outcome.Undid? && kind == Vendors ==> PartiesAgree(outcome.sub)
    ensures WorldOk(WithOutcome(w, kind, outcome))
  {
  }

  lemma {:induction false} UndoKeepsWorld(w: World, kind: Kind, undo: Undo, number: string, today: Date)
    requires WorldOk(w)
    ensures WorldOk(ExecuteUndo(w, kind, undo, number, today))
  {
    var outcome := Outcome(w, kind, undo, number, today);
    if outcome.Undid? { OutcomeIsOk(w, kind, undo, number, today); }
    if outcome.Undid? && kind == Vendors { UndoVendorsKeepsParties(w, undo, number, today); }
    WithOutcomeIsOk(w, kind, outcome);
  }

  // What a recorded refund is made of.
  lemma {:induction false} RecordedParts(s: Sub, b: Books, order: RefundOrder)
    requires RecordNoteRefund(s, b, order).RefundRecorded?
    ensures Acceptable(s, order) && Post(b, RefundPayload(order)).Done?
    ensures RecordNoteRefund(s, b, order).sub == WithNoteRefund(s, order, Post(b, RefundPayload(order)).id)
    ensures RecordNoteRefund(s, b, order).books == Post(b, RefundPayload(order)).books
  {
  }

  lemma {:induction false} RecordedIsOk(s: Sub, b: Books, order: RefundOrder)
    requires BooksOk(b) && SubOk(Vendors, s) && PartiesAgree(s) && RecordNoteRefund(s, b, order).RefundRecorded?
    ensures BooksOk(RecordNoteRefund(s, b, order).books)
    ensures SubOk(Vendors, RecordNoteRefund(s, b, order).sub) && PartiesAgree(RecordNoteRefund(s, b, order).sub)
  {
    RecordedParts(s, b, order);
    PostStepKeepsBooks(b, RefundPayload(order));
    RefundingKeepsSub(s, order, Post(b, RefundPayload(order)).id);
  }

  lemma {:induction false} RefundKeepsWorld(w: World, order: RefundOrder)
    requires WorldOk(w)
    ensures WorldOk(ExecuteRefund(w, order))
  {
    if RecordNoteRefund(w.vendors, w.books, order).RefundRecorded? { RecordedIsOk(w.vendors, w.books, order); }
  }

  lemma {:induction false} LedgerKeepsWorld(w: World, op: Op)
    requires WorldOk(w)
    ensures WorldOk(w.(books := LedgerRuns.Step(w.books, op)))
  {
    StepKeepsBooks(w.books, op);
  }

  lemma {:induction false} ExecuteKeepsWorld(w: World, t: Transaction)
    requires WorldOk(w)
    ensures WorldOk(Execute(w, t))
  {
    match t
    case LedgerStep(op) => LedgerKeepsWorld(w, op);
    case UndoStep(kind, undo, number, today) => UndoKeepsWorld(w, kind, undo, number, today);
    case RefundStep(order) => RefundKeepsWorld(w, order);
  }

  // Main theorem: any run of postings, reversals, allocations, undos and refunds of vendor notes keeps
  // the ledger, the bank and both subledgers consistent.
  lemma {:induction false} RunKeepsWorld(w: World, ts: seq<Transaction>)
    requires WorldOk(w)
    ensures WorldOk(ExecuteAll(w, ts))
    decreases |ts|
  {
    if ts != [] {
      ExecuteKeepsWorld(w, ts[0]);
      RunKeepsWorld(Execute(w, ts[0]), ts[1..]);
    }
  }

  // The guards left for after the journal reversal are about balances and orders only.
  lemma {:induction false} LateGuards(kind: Kind, s: Sub, b: Books, undo: Undo)
    requires PlanOf(kind, s, b, undo).Proceed? && PlanOf(kind, s, b, undo).late.Some?
    ensures PlanOf(kind, s, b, undo).late.value in {PartyBalanceShort, PartyMissing, OrderMissing, OrderInconsistent}
  {
  }

  lemma {:induction false} PerformReasons(plan: Plan, b: Books, number: string, today: Date)
    requires Perform(plan, b, number, today).Kept?
    ensures var reason := Perform(plan, b, number, today).reason;
      plan == Stop(reason) || reason.JournalRefused? || (plan.Proceed? && plan.late == Some(reason))
  {
  }

  // In no reachable state does an undo fail because it would give back more than was settled, or
  // because a settled document has been voided meanwhile.
  lemma {:induction false} ReachableUndoNeverOverRestores(w: World, ts: seq<Transaction>, kind: Kind, undo: Undo,
      number: string, today: Date)
    requires WorldOk(w)
    ensures Outcome(ExecuteAll(w, ts), kind, undo, number, today) !in {Kept(ExceedsSettled), Kept(OverRestores),
      Kept(DocumentVoided)}
  {
    RunKeepsWorld(w, ts);
    var end := ExecuteAll(w, ts);
    UndoNeverOverRestores(kind, SubOf(end, kind), end.books, undo);
    var plan := PlanOf(kind, SubOf(end, kind), end.books, undo);
    if plan.Proceed? && plan.late.Some? { LateGuards(kind, SubOf(end, kind), end.books, undo); }
    if Outcome(end, kind, undo, number, today).Kept? { PerformReasons(plan, end.books, number, today); }
  }

  // What a vendor is owed, has been advanced and may still use stays as far explained as it was.
  ghost predicate SameDrifts(s: Sub, after: Sub, v: Id)
    requires v < |s.parties|
  {
    |after.parties| == |s.parties| && PayablesDrift(after, v) == PayablesDrift(s, v) &&
    AdvanceDrift(after, v) == AdvanceDrift(s, v) &&
    CreditsDrift(after, v) - RefundedCredits(after, v) == CreditsDrift(s, v) - RefundedCredits(s, v)
  }

  lemma {:induction false} UndoStepConserves(w: World, kind: Kind, undo: Undo, number: string, today: Date, v: Id)
    requires WorldOk(w) && v < |w.vendors.parties|
    ensures SameDrifts(w.vendors, ExecuteUndo(w, kind, undo, number, today).vendors, v)
  {
    if kind == Vendors && Outcome(w, kind, undo, number, today).Undid? {
      PerformParts(PlanOf(Vendors, w.vendors, w.books, undo), w.books, number, today);
      UndoConserves(w.vendors, w.books, undo, v);
    }
  }

  lemma {:induction false} RefundStepConserves(w: World, order: RefundOrder, v: Id)
    requires WorldOk(w) && v < |w.vendors.parties|
    ensures SameDrifts(w.vendors, ExecuteRefund(w, order).vendors, v)
  {
    if RecordNoteRefund(w.vendors, w.books, order).RefundRecorded? {
      RecordedParts(w.vendors, w.books, order);
      RefundingOpensGap(w.vendors, order, Post(w.books, RefundPayload(order)).id, v);
    }
  }

  lemma {:induction false} ExecuteConserves(w: World, t: Transaction, v: Id)
    requires WorldOk(w) && v < |w.vendors.parties|
    ensures SameDrifts(w.vendors, Execute(w, t).vendors, v)
  {
    match t
    case LedgerStep(op) =>
    case UndoStep(kind, undo, number, today) => UndoStepConserves(w, kind, undo, number, today, v);
    case RefundStep(order) => RefundStepConserves(w, order, v);
  }

  // For every vendor, the payable balance not explained by open bills, the advance balance not
  // explained by live advances, and the unused credits not explained by the remaining credits and the
  // live refunds of its notes, are the same after any run.
  lemma {:induction false} RunConservesVendorBalances(w: World, ts: seq<Transaction>, v: Id)
    requires WorldOk(w) && v < |w.vendors.parties|
    ensures |ExecuteAll(w, ts).vendors.parties| == |w.vendors.parties|
    ensures PayablesDrift(ExecuteAll(w, ts).vendors, v) == PayablesDrift(w.vendors, v)
    ensures AdvanceDrift(ExecuteAll(w, ts).vendors, v) == AdvanceDrift(w.vendors, v)
    ensures CreditsDrift(ExecuteAll(w, ts).vendors, v) - RefundedCredits(ExecuteAll(w, ts).vendors, v) ==
      CreditsDrift(w.vendors, v) - RefundedCredits(w.vendors, v)
    decreases |ts|
  {
    if ts != [] {
      ExecuteConserves(w, ts[0], v);
      ExecuteKeepsWorld(w, ts[0]);
      RunConservesVendorBalances(Execute(w, ts[0]), ts[1..], v);
    }
  }

  ghost predicate StaysStranded(s: Sub, after: Sub, k: Id)
    requires k < |s.refunds|
  {
    Stranded(after, k) && after.refunds[k] == s.refunds[k]
  }

  lemma {:induction false} UndoStepKeepsStranded(w: World, kind: Kind, undo: Undo, number: string, today: Date, k: Id)
    requires Stranded(w.vendors, k)
    ensures StaysStranded(w.vendors, ExecuteUndo(w, kind, undo, number, today).vendors, k)
  {
    if kind == Vendors && Outcome(w, kind, undo, number, today).Undid? {
      PerformParts(PlanOf(Vendors, w.vendors, w.books, undo), w.books, number, today);
      UndoKeepsStranded(Vendors, w.vendors, w.books, undo, k);
    }
  }

  // Only a note with credit left can be paid out, and a reversed one has none.
  lemma {:induction false} RefundStepKeepsStranded(w: World, order: RefundOrder, k: Id)
    requires WorldOk(w) && Stranded(w.vendors, k)
    ensures StaysStranded(w.vendors, ExecuteRefund(w, order).vendors, k)
  {
    if RecordNoteRefund(w.vendors, w.books, order).RefundRecorded? {
      RecordedParts(w.vendors, w.books, order);
      assert NoteOk(Vendors, w.vendors, w.vendors.refunds[k].note.value);
    }
  }

  lemma {:induction false} ExecuteKeepsStranded(w: World, t: Transaction, k: Id)
    requires WorldOk(w) && Stranded(w.vendors, k)
    ensures StaysStranded(w.vendors, Execute(w, t).vendors, k)
  {
    match t
    case LedgerStep(op) =>
    case UndoStep(kind, undo, number, today) => UndoStepKeepsStranded(w, kind, undo, number, today, k);
    case RefundStep(order) => RefundStepKeepsStranded(w, order, k);
  }

  // A refund whose vendor note was reversed before it can never be undone again, in any run.
  lemma {:induction false} StrandedForEver(w: World, ts: seq<Transaction>, k: Id, number: string, today: Date)
    requires WorldOk(w) && Stranded(w.vendors, k)
    ensures Stranded(ExecuteAll(w, ts).vendors, k)
    ensures Outcome(ExecuteAll(w, ts), Vendors, UndoRefund(k), number, today).Kept?
    decreases |ts|
  {
    if ts != [] {
      ExecuteKeepsStranded(w, ts[0], k);
      ExecuteKeepsWorld(w, ts[0]);
      StrandedForEver(Execute(w, ts[0]), ts[1..], k, number, today);
    }
  }

  // No run of undos leaves an expense billed on a voided invoice.
  lemma {:induction false} RunKeepsExpensesFree(w: World, ts: seq<Transaction>)
    requires ExpensesFree(w.customers)
    ensures ExpensesFree(ExecuteAll(w, ts).customers)
    decreases |ts|
  {
    if ts != [] {
      var t := ts[0];
      if t.UndoStep? && t.kind == Customers && Outcome(w, t.kind, t.undo, t.number, t.today).Undid? {
        UndoKeepsExpensesFree(w.customers, w.books, t.undo);
      }
      RunKeepsExpensesFree(Execute(w, t), ts[1..]);
    }
  }

  // The voiding of a document whose journal can be reversed and whose order agrees.
  predicate VoidClear(w: World, kind: Kind, d: Id, number: string, today: Date)
    requires d < |SubOf(w, kind).documents|
  {
    var s, doc := SubOf(w, kind), SubOf(w, kind).documents[d];
    (kind == Customers && doc.order.Some? ==> doc.order.value < |s.orders|) &&
    doc.journal.Some? && Reverse(w.books, doc.journal.value, number, today, None).Done? && VoidLate(kind, s, doc).None?
  }

  lemma {:induction false} VoidOutcome(w: World, kind: Kind, d: Id, number: string, today: Date)
    requires d < |SubOf(w, kind).documents| && SubOf(w, kind).documents[d].status != Voided
    ensures Outcome(w, kind, VoidDocument(d), number, today).Undid? <==>
      SettlementGuard(kind, SubOf(w, kind), d) && VoidClear(w, kind, d, number, today)
  {
  }

  // After any run a document whose settlements have all been undone owes its total again, and voiding
  // it succeeds exactly when its journal can be reversed, its order agrees and, for a bill, its vendor
  // is there.
  lemma {:induction false} UndoneDocumentIsVoidable(w: World, ts: seq<Transaction>, kind: Kind, d: Id, number: string,
      today: Date)
    requires WorldOk(w)
    requires d < |SubOf(ExecuteAll(w, ts), kind).documents|
    requires SubOf(ExecuteAll(w, ts), kind).documents[d].status != Voided
    ensures var end := ExecuteAll(w, ts);
      var s := SubOf(end, kind);
      !LiveSettlementOn(s, d) ==>
        s.documents[d].balanceDue == s.documents[d].total &&
        (Outcome(end, kind, VoidDocument(d), number, today).Undid? <==> VoidClear(end, kind, d, number, today))
    ensures var end := ExecuteAll(w, ts);
      LiveSettlementOn(SubOf(end, kind), d) ==> Outcome(end, kind, VoidDocument(d), number, today).Kept?
  {
    var end := ExecuteAll(w, ts);
    RunKeepsWorld(w, ts);
    VoidableIffSettlementsUndone(kind, SubOf(end, kind), d);
    VoidOutcome(end, kind, d, number, today);
  }
}
