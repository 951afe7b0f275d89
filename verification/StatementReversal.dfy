// BankReconciliationService.reverseTransactionCreatedFromStatement: the one reversal that is allowed
// although an active allocation points at the journal, because it releases that allocation with it.
module StatementReversal {
  import opened Tables
  import Texts
  import opened Sums
  import PostingEngine
  import opened JournalReversal
  import opened BankAllocations

  datatype RemovalRefusal =
    | InvalidReason | NoStatement | Completed | Ambiguous | NothingCreated
    | NotReversed(journal: PostingEngine.Refusal) | NotReclassified(bank: BankRefusal)

  datatype Removal = Removed(books: Books, reversal: Id) | NotRemoved(reason: RemovalRefusal)
  datatype RemovalReply = Cleared(reversal: Id) | Withheld(refusal: RemovalRefusal)

  ghost predicate Commits(before: Books, after: Books, reply: RemovalReply, removal: Removal) {
    match removal
    case Removed(books, id) => reply == Cleared(id) && after == books
    case NotRemoved(reason) => reply == Withheld(reason) && after == before
  }

  // The rows of statement line s that say its journal was created from it.
  predicate CreatedHere(b: Books, s: Id, m: Id)
    requires m < |b.matches|
  {
    var row := b.matches[m];
    row.statement == s && row.status == MatchedStatus &&
    (row.origin == StatementCreation || row.state == Legacy) &&
    ((row.origin == StatementCreation && row.state == Active) || (row.source.JournalSource? && row.createdFromBank))
  }

  function LastCreated(b: Books, s: Id, n: nat): (found: Option<Id>)
    requires n <= |b.matches|
    ensures found.None? <==> forall k :: 0 <= k < n ==> !CreatedHere(b, s, k)
    ensures found.Some? ==> found.value < n && CreatedHere(b, s, found.value)
    ensures found.Some? ==> forall k :: found.value < k < n ==> !CreatedHere(b, s, k)
  {
    if n == 0 then None else if CreatedHere(b, s, n - 1) then Some(n - 1) else LastCreated(b, s, n - 1)
  }

  // The named row, or the only one there is.
  datatype Choice = Chosen(id: Id) | Unclear | Nothing

  function Choose(b: Books, s: Id, named: Option<Id>): (choice: Choice)
    ensures choice.Chosen? ==> choice.id < |b.matches| && CreatedHere(b, s, choice.id)
  {
    var last := LastCreated(b, s, |b.matches|);
    match named
    case Some(m) => if m < |b.matches| && CreatedHere(b, s, m) then Chosen(m) else Nothing
    case None =>
      if last.None? then Nothing
      else if LastCreated(b, s, last.value).Some? then Unclear
      else Chosen(last.value)
  }

  function JournalOf(row: Match): Option<Id> {
    if row.origin == StatementCreation then row.journal else Some(row.source.id)
  }

  function Exempted(row: Match, m: Id): Option<Id> { if row.origin == StatementCreation then Some(m) else None }

  function Released(row: Match): Match {
    row.(status := ReversedStatus, state := if row.state == Active then ReversedAllocation else row.state)
  }

  function RemovalProblem(b: Books, s: Id, named: Option<Id>, reason: string): Option<RemovalRefusal> {
    var clean := Texts.Trim(reason);
    if |clean| < 3 || |clean| > 1000 then Some(InvalidReason)
    else if s >= |b.statements| || b.statements[s].bank >= |b.banks| then Some(NoStatement)
    else
      var st := b.statements[s];
      var through := b.banks[st.bank].reconciledThrough;
      if st.status == Reconciled || (through.Some? && st.date <= through.value) then Some(Completed)
      else if SessionClosed(b, st.bank, st.date) then Some(Completed)
      else
        match Choose(b, s, named)
        case Unclear => Some(Ambiguous)
        case Nothing => Some(NothingCreated)
        case Chosen(_) => None
  }

  function ReverseCreated(b: Books, m: Id, number: string, today: Date): PostingEngine.Outcome
    requires m < |b.matches|
  {
    match JournalOf(b.matches[m])
    case None => PostingEngine.Refused(PostingEngine.JournalNotFound)
    case Some(j) => Reverse(b, j, number, today, Exempted(b.matches[m], m))
  }

  function RemoveCreated(b: Books, s: Id, named: Option<Id>, reason: string, number: string, today: Date): Removal {
    var problem := RemovalProblem(b, s, named, reason);
    if problem.Some? then NotRemoved(problem.value)
    else
      var m := Choose(b, s, named).id;
      match ReverseCreated(b, m, number, today)
      case Refused(why) => NotRemoved(NotReversed(why))
      case Done(books, reversal) =>
        match Recompute(books.(matches := books.matches[m := Released(books.matches[m])]), s, m)
        case Denied(why) => NotRemoved(NotReclassified(why))
        case Changed(after, _, _) => Removed(after, reversal)
  }

  method RemoveCreatedTransaction(db: Database, s: Id, named: Option<Id>, reason: string, number: string, today: Date)
    returns (reply: RemovalReply)
    requires |db.accounts| == |db.balances| && |db.banks| == |db.bankBalances|
    modifies db
    ensures Commits(old(db.Snapshot()), db.Snapshot(), reply,
      RemoveCreated(old(db.Snapshot()), s, named, reason, number, today))
  {
    var problem := RemovalProblem(db.Snapshot(), s, named, reason);
    if problem.Some? { return Withheld(problem.value); }
    var before := db.Snapshot();
    var m := Choose(before, s, named).id;
    var reversal := ReverseCreatedJournal(db, m, number, today);
    if reversal.Rejected? { return Withheld(NotReversed(reversal.refusal)); }
    var row := db.matches[m];
    var state := if row.state == Active then ReversedAllocation else row.state;
    db.matches := db.matches[m := row.(status := ReversedStatus, state := state)];
    var status := RecomputeStatementStatus(db, s, m);
    if status.Declined? {
      RollBack(db, before);
      return Withheld(NotReclassified(status.refusal));
    }
    return Cleared(reversal.id);
  }

  method ReverseCreatedJournal(db: Database, m: Id, number: string, today: Date) returns (reply: PostingEngine.Reply)
    requires |db.accounts| == |db.balances| && |db.banks| == |db.bankBalances| && m < |db.matches|
    modifies db
    ensures PostingEngine.Commits(old(db.Snapshot()), db.Snapshot(), reply,
      ReverseCreated(old(db.Snapshot()), m, number, today))
    ensures db.matches == old(db.matches) && db.statements == old(db.statements)
  {
    var row := db.matches[m];
    if JournalOf(row).None? { return PostingEngine.Rejected(PostingEngine.JournalNotFound); }
    reply := ReversePostedJournal(db, JournalOf(row).value, number, today, Exempted(row, m));
  }

  // ROLLBACK to the state the transaction started from.
  method RollBack(db: Database, to: Books)
    modifies db
    ensures db.Snapshot() == to
  {
    db.recoveryLocked, db.baseCurrency, db.accounts, db.balances :=
      to.recoveryLocked, to.baseCurrency, to.accounts, to.balances;
    db.banks, db.bankBalances, db.sessions, db.locks := to.banks, to.bankBalances, to.sessions, to.locks;
    db.projects, db.customers, db.vendors, db.journals := to.projects, to.customers, to.vendors, to.journals;
    db.statements, db.matches, db.sourceJournals := to.statements, to.matches, to.sourceJournals;
  }
}
