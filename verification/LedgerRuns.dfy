// Whole runs over the ledger and the bank tables: posting, draft posting, reversal, allocation,
// unmatching, matching by document, legacy verification, both creations of entries from statement lines
// and their removal, in any order, refused or not.
module LedgerRuns {
  import opened Tables
  import opened Sums
  import opened PostingEngine
  import opened JournalReversal
  import opened LedgerLaws
  import opened BankAllocations
  import opened BankLaws
  import opened StatementReversal
  import opened LedgerSteps
  import opened LegacyMatches
  import opened LegacyLaws
  import opened StatementEntries
  import opened EntryLaws

  datatype Op =
    | PostOp(number: string, date: Option<Date>, lines: seq<Line>)
    | DraftOp(draft: Id)
    | ReverseOp(journal: Id, reversalNumber: string, today: Date)
    | AllocateOp(statement: Id, line: LineRef, amount: Cents, actor: string)
    | UnmatchOp(allocation: Id, actor: string, reason: string)
    | VerifyOp(statement: Id, legacy: Id, expected: LineRef, reason: string, actor: string)
    | RemoveOp(statement: Id, named: Option<Id>, reason: string, reversalNumber: string, today: Date)
    | MatchOp(statement: Id, source: Source, amount: Cents, documentThere: bool)
    | CreateOp(statement: Id, bankAccount: Option<Id>, target: Id, number: string)
    | EntryOp(order: EntryOrder)

  function Landed(b: Books, o: Outcome): Books { if o.Done? then o.books else b }

  function LandedBank(b: Books, o: BankOutcome): Books { if o.Changed? then o.books else b }

  function LandedRemoval(b: Books, o: Removal): Books { if o.Removed? then o.books else b }

  function LandedMatch(b: Books, o: MatchOutcome): Books { if o.Entered? then o.books else b }

  function LandedEntry(b: Books, o: EntryOutcome): Books { if o.Booked? then o.books else b }

  function Step(b: Books, op: Op): Books {
    match op
    case PostOp(number, date, lines) => Landed(b, Post(b, Payload(number, date, lines, None)))
    case DraftOp(j) => Landed(b, PostDraft(b, j))
    case ReverseOp(j, number, today) => Landed(b, Reverse(b, j, number, today, None))
    case AllocateOp(s, line, amount, actor) => LandedBank(b, Allocate(b, s, line, amount, actor))
    case UnmatchOp(m, actor, reason) => LandedBank(b, Unmatch(b, m, actor, reason))
    case VerifyOp(s, m, expected, reason, actor) => LandedBank(b, Verify(b, s, m, expected, reason, actor))
    case RemoveOp(s, m, reason, number, today) => LandedRemoval(b, RemoveCreated(b, s, m, reason, number, today))
    case MatchOp(s, source, amount, there) => LandedMatch(b, MatchLine(b, s, source, amount, there))
    case CreateOp(s, bankAccount, target, number) => LandedMatch(b, CreateFromLine(b, s, bankAccount, target, number))
    case EntryOp(o) => LandedEntry(b, CreateEntry(b, o))
  }

  function Run(b: Books, ops: seq<Op>): Books
    decreases |ops|
  {
    if ops == [] then b else Run(Step(b, ops[0]), ops[1..])
  }

  lemma {:induction false} StepKeepsBooks(b: Books, op: Op)
    requires BooksOk(b)
    ensures BooksOk(Step(b, op))
  {
    LedgerGivesBankFacts(b);
    match op
    case PostOp(number, date, lines) =>
      if Post(b, Payload(number, date, lines, None)).Done? {
        PostStepKeepsBooks(b, Payload(number, date, lines, None));
      }
    case DraftOp(j) =>
      if PostDraft(b, j).Done? { DraftStepKeepsBooks(b, j); }
    case ReverseOp(j, number, today) =>
      if Reverse(b, j, number, today, None).Done? { ReverseStepKeepsBooks(b, j, number, today); }
    case AllocateOp(s, line, amount, actor) =>
      if Allocate(b, s, line, amount, actor).Changed? {
        AllocateKeepsBank(b, s, line, amount, actor);
        LedgerKeptByBank(b, Step(b, op));
      }
    case UnmatchOp(m, actor, reason) =>
      if Unmatch(b, m, actor, reason).Changed? {
        UnmatchKeepsBank(b, m, actor, reason);
        LedgerKeptByBank(b, Step(b, op));
      }
    case VerifyOp(s, m, expected, reason, actor) =>
      if Verify(b, s, m, expected, reason, actor).Changed? {
        VerifyKeepsBank(b, s, m, expected, reason, actor);
        LedgerKeptByBank(b, Step(b, op));
      }
    case RemoveOp(s, m, reason, number, today) =>
      RemoveStepKeepsBooks(b, s, m, reason, number, today);
    case MatchOp(s, source, amount, there) =>
      if MatchLine(b, s, source, amount, there).Entered? { MatchKeepsBooks(b, s, source, amount, there); }
    case CreateOp(s, bankAccount, target, number) =>
      if CreateFromLine(b, s, bankAccount, target, number).Entered? {
        CreationKeepsBooks(b, s, bankAccount, target, number);
      }
    case EntryOp(o) =>
      if CreateEntry(b, o).Booked? { EntryKeepsBooks(b, o); }
  }

  // Main theorem: every run keeps balances equal to folds, the trial balance, the matching of
  // reversals, both allocation capacities, the statement statuses and the reversal safety.
  lemma {:induction false} RunKeepsBooks(b: Books, ops: seq<Op>)
    requires BooksOk(b)
    ensures BooksOk(Run(b, ops))
    decreases |ops|
  {
    if ops != [] {
      StepKeepsBooks(b, ops[0]);
      RunKeepsBooks(Step(b, ops[0]), ops[1..]);
    }
  }

  // Books in which nothing is posted and nothing is allocated yet, with any drafts, statement lines
  // and legacy matches waiting in them, satisfy the invariant.
  lemma {:induction false} FreshBooksOk(b: Books)
    requires SameLengths(b) && NumbersDistinct(b.journals)
    requires forall j :: 0 <= j < |b.journals| ==>
      b.journals[j].status != Posted && b.journals[j].reversalOf.None? && b.journals[j].reversedBy.None?
    requires forall m :: 0 <= m < |b.matches| ==> b.matches[m].state != Active
    requires (forall a :: 0 <= a < |b.balances| ==> b.balances[a] == 0) &&
      (forall k :: 0 <= k < |b.bankBalances| ==> b.bankBalances[k] == 0)
    requires forall s :: 0 <= s < |b.statements| ==> b.statements[s].amount >= 0
    requires forall s :: 0 <= s < |b.statements| && !LegacyOn(b.matches, s) ==>
      b.statements[s].status !in {PartiallyMatched, Matched}
    ensures BooksOk(b)
  {
    ZeroSideTotals(b.accounts, b.balances, |b.accounts|);
    forall a | 0 <= a < |b.accounts|
      ensures AccountNet(b, a) == 0
    {
      SumZero(b.journals, JournalOnAccount(b.accounts, a));
    }
    forall k | 0 <= k < |b.banks|
      ensures BankNet(b, b.banks[k]) == 0
    {
      SumZero(b.journals, JournalOnBank(b.accounts, b.banks[k]));
    }
    forall s ensures StatementUsed(b.matches, s) == 0 { SumZero(b.matches, OnStatement(s)); }
    forall line ensures LineUsed(b.matches, line) == 0 { SumZero(b.matches, OnLine(line)); }
  }

  lemma {:induction false} ZeroSideTotals(accounts: seq<Account>, balances: seq<Cents>, n: nat)
    requires n <= |accounts| && n <= |balances|
    requires forall a :: 0 <= a < |balances| ==> balances[a] == 0
    ensures SideTotal(accounts, balances, Debit, n) == SideTotal(accounts, balances, Credit, n) == 0
  {
    if n > 0 { ZeroSideTotals(accounts, balances, n - 1); }
  }

  // ---- Consequences, stated on their own ----

  // A journal is reversed at most once, and a reversal never.
  lemma {:induction false} ReversalsFormMatching(b: Books, ops: seq<Op>)
    requires BooksOk(b)
    ensures var js := Run(b, ops).journals;
      (forall r, q ::
        0 <= r < |js| && 0 <= q < |js| && js[r].reversalOf.Some? && js[r].reversalOf == js[q].reversalOf ==> r == q) &&
      (forall r, q :: 0 <= r < |js| && 0 <= q < |js| && js[r].reversalOf == Some(q) ==>
        js[q].reversalOf.None? && js[q].reversedBy == Some(r))
  {
    RunKeepsBooks(b, ops);
  }

  // No active allocation ever points at a reversal or at a reversed journal.
  lemma {:induction false} NoAllocationOnReversedJournal(b: Books, ops: seq<Op>)
    requires BooksOk(b)
    ensures var after := Run(b, ops);
      forall m, j ::
        0 <= m < |after.matches| && after.matches[m].state == Active && after.matches[m].journal == Some(j) ==>
          j < |after.journals| && after.journals[j].reversalOf.None? && after.journals[j].reversedBy.None? &&
          !HasReversal(after.journals, j)
  {
    RunKeepsBooks(b, ops);
    var after := Run(b, ops);
    forall m | 0 <= m < |after.matches| ensures AllocationOk(after, after.matches[m]) {
    }
  }

  lemma {:induction false} PostingKeepsPlaced(b: Books, op: Op)
    requires AllocationsPlaced(b) && (op.PostOp? || op.DraftOp? || op.ReverseOp?)
    ensures AllocationsPlaced(Step(b, op))
  {
    RowsStayPlaced(b, Step(b, op));
  }

  lemma {:induction false} StepKeepsPlaced(b: Books, op: Op)
    requires AllocationsPlaced(b)
    ensures AllocationsPlaced(Step(b, op))
  {
    match op
    case AllocateOp(s, line, amount, actor) =>
      if Allocate(b, s, line, amount, actor).Changed? { AllocateKeepsPlaced(b, s, line, amount, actor); }
    case UnmatchOp(m, actor, reason) =>
      if Unmatch(b, m, actor, reason).Changed? {
        ReleaseKeepsPlaced(b, m, b.matches[m].(state := Unallocated, status := UnmatchedStatus), m);
      }
    case VerifyOp(s, m, expected, reason, actor) =>
      if Verify(b, s, m, expected, reason, actor).Changed? { VerifyKeepsPlaced(b, s, m, expected, reason, actor); }
    case RemoveOp(s, m, reason, number, today) =>
      if RemoveCreated(b, s, m, reason, number, today).Removed? { RemovalKeepsPlaced(b, s, m, reason, number, today); }
    case MatchOp(s, source, amount, there) =>
      if MatchLine(b, s, source, amount, there).Entered? { MatchKeepsPlaced(b, s, source, amount, there); }
    case CreateOp(s, bankAccount, target, number) =>
      if CreateFromLine(b, s, bankAccount, target, number).Entered? {
        CreationKeepsPlaced(b, s, bankAccount, target, number);
      }
    case EntryOp(o) =>
      if CreateEntry(b, o).Booked? { EntryKeepsPlaced(b, o); }
    case _ => PostingKeepsPlaced(b, op);
  }

  lemma {:induction false} StepKeepsMatched(b: Books, op: Op)
    requires MatchedWithin(b)
    ensures MatchedWithin(Step(b, op))
  {
    match op
    case AllocateOp(s, line, amount, actor) =>
      if Allocate(b, s, line, amount, actor).Changed? { AllocateKeepsMatched(b, s, line, amount, actor); }
    case UnmatchOp(m, actor, reason) =>
      if Unmatch(b, m, actor, reason).Changed? { UnmatchKeepsMatched(b, m, actor, reason); }
    case VerifyOp(s, m, expected, reason, actor) =>
      if Verify(b, s, m, expected, reason, actor).Changed? { VerifyKeepsMatched(b, s, m, expected, reason, actor); }
    case RemoveOp(s, m, reason, number, today) =>
      if RemoveCreated(b, s, m, reason, number, today).Removed? { RemoveKeepsMatched(b, s, m, reason, number, today); }
    case MatchOp(s, source, amount, there) =>
      if MatchLine(b, s, source, amount, there).Entered? { MatchKeepsMatched(b, s, source, amount, there); }
    case CreateOp(s, bankAccount, target, number) =>
      if CreateFromLine(b, s, bankAccount, target, number).Entered? {
        CreationKeepsMatched(b, s, bankAccount, target, number);
      }
    case EntryOp(o) =>
      if CreateEntry(b, o).Booked? { EntryKeepsMatched(b, o); }
    case _ =>
  }

  lemma {:induction false} ReverseKeepsHistory(b: Books, j: Id, number: string, today: Date, allowed: Option<Id>)
    requires Reverse(b, j, number, today, allowed).Done?
    ensures HistoryKept(b.journals, Reverse(b, j, number, today, allowed).books.journals)
  {
    var after := Reverse(b, j, number, today, allowed).books.journals;
    assert forall i :: 0 <= i < |b.journals| && i != j ==> after[i] == b.journals[i];
    assert after[j] == b.journals[j].(reversedBy := Some(|b.journals|));
  }

  lemma {:induction false} RemovalKeepsHistory(b: Books, s: Id, named: Option<Id>, reason: string, number: string,
      today: Date)
    requires RemoveCreated(b, s, named, reason, number, today).Removed?
    ensures HistoryKept(b.journals, RemoveCreated(b, s, named, reason, number, today).books.journals)
  {
    RemovalParts(b, s, named, reason, number, today);
    var m := Choose(b, s, named).id;
    ReverseKeepsHistory(b, JournalOf(b.matches[m]).value, number, today, Exempted(b.matches[m], m));
  }

  lemma {:induction false} StepKeepsHistory(b: Books, op: Op)
    ensures HistoryKept(b.journals, Step(b, op).journals)
  {
    match op
    case ReverseOp(j, number, today) =>
      if Reverse(b, j, number, today, None).Done? { ReverseKeepsHistory(b, j, number, today, None); }
    case RemoveOp(s, named, reason, number, today) =>
      if RemoveCreated(b, s, named, reason, number, today).Removed? {
        RemovalKeepsHistory(b, s, named, reason, number, today);
      }
    case EntryOp(o) =>
      if CreateEntry(b, o).Booked? { BookedParts(b, o); }
    case _ =>
  }

  // No run alters a posted journal's lines, date, number or links, from any state.
  lemma {:induction false} RunKeepsHistory(b: Books, ops: seq<Op>)
    ensures HistoryKept(b.journals, Run(b, ops).journals)
    decreases |ops|
  {
    if ops != [] {
      StepKeepsHistory(b, ops[0]);
      RunKeepsHistory(Step(b, ops[0]), ops[1..]);
    }
  }

  lemma {:induction false} RemovalKeepsFrozen(b: Books, s: Id, named: Option<Id>, reason: string, number: string,
      today: Date, a: Id, d: Date)
    requires Frozen(b, a, d) && RemoveCreated(b, s, named, reason, number, today).Removed?
    ensures AsOf(RemoveCreated(b, s, named, reason, number, today).books, a, d) == AsOf(b, a, d)
  {
    RemovalParts(b, s, named, reason, number, today);
    var m := Choose(b, s, named).id;
    ReverseKeepsFrozen(b, JournalOf(b.matches[m]).value, number, today, Exempted(b.matches[m], m), a, d);
  }

  lemma {:induction false} CreationKeepsFrozen(b: Books, s: Id, bankAccount: Option<Id>, target: Id, number: string,
      a: Id, d: Date)
    requires Frozen(b, a, d) && CreateFromLine(b, s, bankAccount, target, number).Entered?
    ensures AsOf(CreateFromLine(b, s, bankAccount, target, number).books, a, d) == AsOf(b, a, d)
  {
    PostKeepsFrozen(b, CreationPayload(b.statements[s], bankAccount.value, target, number), a, d);
  }

  lemma {:induction false} EntryKeepsFrozen(b: Books, o: EntryOrder, a: Id, d: Date)
    requires Frozen(b, a, d) && CreateEntry(b, o).Booked?
    ensures AsOf(CreateEntry(b, o).books, a, d) == AsOf(b, a, d)
  {
    BookedParts(b, o);
    PostKeepsFrozen(b, EntryPayload(b, o), a, d);
  }

  lemma {:induction false} RemovalKeepsBarriers(b: Books, s: Id, named: Option<Id>, reason: string, number: string,
      today: Date)
    requires RemoveCreated(b, s, named, reason, number, today).Removed?
    ensures BarriersKept(b, RemoveCreated(b, s, named, reason, number, today).books)
  {
    RemovalParts(b, s, named, reason, number, today);
  }

  ghost predicate BarriersKept(b: Books, after: Books) {
    after.locks == b.locks && after.banks == b.banks && after.sessions == b.sessions && after.accounts == b.accounts
  }

  // No operation of a run moves a lock, a cutoff or a session.
  lemma {:induction false} StepKeepsBarriers(b: Books, op: Op)
    ensures BarriersKept(b, Step(b, op))
  {
    match op
    case RemoveOp(s, named, reason, number, today) =>
      if RemoveCreated(b, s, named, reason, number, today).Removed? {
        RemovalKeepsBarriers(b, s, named, reason, number, today);
      }
    case EntryOp(o) =>
      if CreateEntry(b, o).Booked? { BookedParts(b, o); }
    case _ =>
  }

  lemma {:induction false} StepKeepsAsOf(b: Books, op: Op, a: Id, d: Date)
    requires Frozen(b, a, d)
    ensures AsOf(Step(b, op), a, d) == AsOf(b, a, d)
  {
    match op
    case PostOp(number, date, lines) =>
      if Post(b, Payload(number, date, lines, None)).Done? {
        PostKeepsFrozen(b, Payload(number, date, lines, None), a, d);
      }
    case DraftOp(j) =>
      if PostDraft(b, j).Done? { DraftKeepsFrozen(b, j, a, d); }
    case ReverseOp(j, number, today) =>
      if Reverse(b, j, number, today, None).Done? { ReverseKeepsFrozen(b, j, number, today, None, a, d); }
    case RemoveOp(s, named, reason, number, today) =>
      if RemoveCreated(b, s, named, reason, number, today).Removed? {
        RemovalKeepsFrozen(b, s, named, reason, number, today, a, d);
      }
    case CreateOp(s, bankAccount, target, number) =>
      if CreateFromLine(b, s, bankAccount, target, number).Entered? {
        CreationKeepsFrozen(b, s, bankAccount, target, number, a, d);
      }
    case EntryOp(o) =>
      if CreateEntry(b, o).Booked? { EntryKeepsFrozen(b, o, a, d); }
    case _ =>
  }

  lemma {:induction false} StepKeepsFrozen(b: Books, op: Op, a: Id, d: Date)
    requires Frozen(b, a, d)
    ensures AsOf(Step(b, op), a, d) == AsOf(b, a, d) && Frozen(Step(b, op), a, d)
  {
    StepKeepsAsOf(b, op, a, d);
    StepKeepsBarriers(b, op);
    SameBarriers(b, Step(b, op), a, d);
  }

  lemma SameBarriers(b: Books, after: Books, a: Id, d: Date)
    requires BarriersKept(b, after) && Frozen(b, a, d)
    ensures Frozen(after, a, d)
  {
    if CutoffCovers(b, a, d) {
      var k :| 0 <= k < |b.banks| && b.banks[k].ledger == Some(a) && BehindCutoff(b, k, d);
      assert BehindCutoff(after, k, d);
    }
  }

  // While a period lock or a bank reconciliation covers day d, no run changes the balance of the
  // account as of d. From any state, consistent or not.
  lemma {:induction false} RunKeepsClosedBalances(b: Books, ops: seq<Op>, a: Id, d: Date)
    requires Frozen(b, a, d)
    ensures AsOf(Run(b, ops), a, d) == AsOf(b, a, d)
    decreases |ops|
  {
    if ops != [] {
      StepKeepsFrozen(b, ops[0], a, d);
      RunKeepsClosedBalances(Step(b, ops[0]), ops[1..], a, d);
    }
  }
}
