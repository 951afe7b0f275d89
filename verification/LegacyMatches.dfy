// BankReconciliationService: matching statement lines by document, entries created from statement
// lines, and the dropping of such a match. These rows name no journal line until they are verified.
module LegacyMatches {
  import opened Tables
  import opened Sums
  import PostingEngine
  import opened BankAllocations

  datatype MatchRefusal =
    | UnsupportedType | AmountNotPositive | NoStatementLine | DispositionInForce | CompletedReconciliation
    | AllocatedAlready | NoDocument | ExceedsLine | SameDocumentTwice | AlreadyProcessed | AlreadyMatched
    | NoBankAccount | NotPosted(journal: PostingEngine.Refusal) | NoMatch | NeedsReversal

  datatype MatchOutcome = Entered(books: Books, id: Id) | TurnedDown(reason: MatchRefusal)
  datatype MatchReply = Noted(id: Id) | Refusing(refusal: MatchRefusal)

  ghost predicate Commits(before: Books, after: Books, reply: MatchReply, outcome: MatchOutcome) {
    match outcome
    case Entered(books, id) => reply == Noted(id) && after == books
    case TurnedDown(reason) => reply == Refusing(reason) && after == before
  }

  predicate ActiveOn(matches: seq<Match>, s: Id) {
    exists m :: 0 <= m < |matches| && matches[m].statement == s && matches[m].state == Active
  }

  function MatchedOn(s: Id): Match -> int {
    (m: Match) => if m.statement == s && m.status == MatchedStatus then m.amount else 0
  }

  // What the rows with status MATCHED add up to, allocations among them.
  function MatchedSum(matches: seq<Match>, s: Id): Cents { Sum(matches, MatchedOn(s)) }

  predicate InForce(m: Match) { m.status !in {RejectedStatus, ReversedStatus, UnmatchedStatus} }

  // The unique index on statement line and document.
  predicate DocumentTaken(matches: seq<Match>, s: Id, source: Source) {
    exists m :: 0 <= m < |matches| && matches[m].statement == s && matches[m].source == source && InForce(matches[m])
  }

  predicate NotRejectedOn(matches: seq<Match>, s: Id) {
    exists m :: 0 <= m < |matches| && matches[m].statement == s && matches[m].status != RejectedStatus
  }

  function LegacyRow(s: Id, source: Source, amount: Cents, created: bool): Match {
    Match(s, source, amount, MatchedStatus, None, None, LegacyUnresolved, LegacyMatch, Legacy, None, created)
  }

  function WithStatus(b: Books, s: Id, status: StatementStatus): seq<Statement> {
    if s < |b.statements| then b.statements[s := b.statements[s].(status := status)] else b.statements
  }

  // ---- matchTransaction ----

  // documentThere is the answer to the lookup of the document, true where none is asked for.
  function MatchProblem(b: Books, s: Id, source: Source, amount: Cents, documentThere: bool): Option<MatchRefusal> {
    if source.Canonical? then Some(UnsupportedType)
    else if amount <= 0 then Some(AmountNotPositive)
    else if s >= |b.statements| then Some(NoStatementLine)
    else
      var st := b.statements[s];
      if st.hasDisposition || st.status in {ConfirmedDuplicate, ProvenArtifact} then Some(DispositionInForce)
      else if st.status == Reconciled then Some(CompletedReconciliation)
      else if ActiveOn(b.matches, s) then Some(AllocatedAlready)
      else if !documentThere then Some(NoDocument)
      else if MatchedSum(b.matches, s) + amount > st.amount then Some(ExceedsLine)
      else if DocumentTaken(b.matches, s, source) then Some(SameDocumentTwice)
      else None
  }

  function MatchLine(b: Books, s: Id, source: Source, amount: Cents, documentThere: bool): MatchOutcome {
    var problem := MatchProblem(b, s, source, amount, documentThere);
    if problem.Some? then TurnedDown(problem.value)
    else
      var total := MatchedSum(b.matches, s) + amount;
      var status := if total == b.statements[s].amount then Matched else PartiallyMatched;
      Entered(b.(matches := b.matches + [LegacyRow(s, source, amount, false)], statements := WithStatus(b, s, status)),
              |b.matches|)
  }

  method MatchTransaction(db: Database, s: Id, source: Source, amount: Cents, documentThere: bool)
    returns (reply: MatchReply)
    modifies db`matches, db`statements
    ensures Commits(old(db.Snapshot()), db.Snapshot(), reply,
                    MatchLine(old(db.Snapshot()), s, source, amount, documentThere))
  {
    var problem := MatchProblem(db.Snapshot(), s, source, amount, documentThere);
    if problem.Some? { return Refusing(problem.value); }
    var id, st := |db.matches|, db.statements[s];
    var existing := MatchedSum(db.matches, s);
    var status := PartiallyMatched;
    if existing + amount == st.amount { status := Matched; }
    db.matches := db.matches + [LegacyRow(s, source, amount, false)];
    db.statements := db.statements[s := st.(status := status)];
    return Noted(id);
  }

  // ---- createTransactionFromStatement ----

  function CreationProblem(b: Books, s: Id, bankAccount: Option<Id>): Option<MatchRefusal> {
    if s >= |b.statements| then Some(NoStatementLine)
    else if ActiveOn(b.matches, s) then Some(AllocatedAlready)
    else if b.statements[s].status in {Matched, Reconciled} then Some(AlreadyProcessed)
    else if NotRejectedOn(b.matches, s) then Some(AlreadyMatched)
    else if bankAccount.None? then Some(NoBankAccount)
    else None
  }

  // Money out of the bank credits it; everything else debits it.
  function CreationLines(st: Statement, bankAccount: Id, target: Id): seq<Line> {
    var debited, credited := if st.direction == Outflow then target else bankAccount,
                             if st.direction == Outflow then bankAccount else target;
    [Line(debited, st.amount, 0, None, None, None), Line(credited, 0, st.amount, None, None, None)]
  }

  function CreationPayload(st: Statement, bankAccount: Id, target: Id, number: string): PostingEngine.Payload {
    PostingEngine.Payload(number, Some(st.date), CreationLines(st, bankAccount, target), None)
  }

  // bankAccount is the account the monetary account policy resolves, if it allows one.
  function CreateFromLine(b: Books, s: Id, bankAccount: Option<Id>, target: Id, number: string): MatchOutcome {
    var problem := CreationProblem(b, s, bankAccount);
    if problem.Some? then TurnedDown(problem.value)
    else
      match PostingEngine.Post(b, CreationPayload(b.statements[s], bankAccount.value, target, number))
      case Refused(why) => TurnedDown(NotPosted(why))
      case Done(posted, j) =>
        var row := LegacyRow(s, JournalSource(j), b.statements[s].amount, true);
        Entered(posted.(matches := b.matches + [row], statements := WithStatus(b, s, Matched)), |b.matches|)
  }

  method CreateTransactionFromStatement(db: Database, s: Id, bankAccount: Option<Id>, target: Id, number: string)
    returns (reply: MatchReply)
    requires |db.accounts| == |db.balances| && |db.banks| == |db.bankBalances|
    modifies db
    ensures Commits(old(db.Snapshot()), db.Snapshot(), reply,
                    CreateFromLine(old(db.Snapshot()), s, bankAccount, target, number))
  {
    var problem := CreationProblem(db.Snapshot(), s, bankAccount);
    if problem.Some? { return Refusing(problem.value); }
    var id, st := |db.matches|, db.statements[s];
    var posting := PostingEngine.PostEntry(db, CreationPayload(st, bankAccount.value, target, number));
    if posting.Rejected? { return Refusing(NotPosted(posting.refusal)); }
    db.matches := db.matches + [LegacyRow(s, JournalSource(posting.id), st.amount, true)];
    db.statements := db.statements[s := st.(status := Matched)];
    return Noted(id);
  }

  // ---- unmatchTransaction ----

  // A deleted row keeps its place, emptied and rejected, which no query looks at.
  function Deleted(s: Id): Match {
    Match(s, OtherSource(0), 0, RejectedStatus, None, None, LegacyUnresolved, LegacyMatch, Unallocated, None, false)
  }

  predicate Bookkept(m: Match) { m.source.JournalSource? && m.createdFromBank }

  function DropProblem(b: Books, m: Id): Option<MatchRefusal> {
    if m >= |b.matches| || b.matches[m] == Deleted(b.matches[m].statement) then Some(NoMatch)
    else if b.matches[m].state == Active then Some(AllocatedAlready)
    else if Bookkept(b.matches[m]) then Some(NeedsReversal)
    else None
  }

  predicate MatchedRowOn(matches: seq<Match>, s: Id) {
    exists m :: 0 <= m < |matches| && matches[m].statement == s && matches[m].status == MatchedStatus
  }

  // The new status looks at whether a matched row is left, whatever its amount.
  function StatusLeft(matches: seq<Match>, s: Id): StatementStatus {
    if MatchedRowOn(matches, s) then Matched else Unmatched
  }

  function Drop(b: Books, m: Id): MatchOutcome {
    var problem := DropProblem(b, m);
    if problem.Some? then TurnedDown(problem.value)
    else
      var s := b.matches[m].statement;
      var matches := b.matches[m := Deleted(s)];
      Entered(b.(matches := matches, statements := WithStatus(b, s, StatusLeft(matches, s))), m)
  }

  method UnmatchTransaction(db: Database, m: Id) returns (reply: MatchReply)
    modifies db`matches, db`statements
    ensures Commits(old(db.Snapshot()), db.Snapshot(), reply, Drop(old(db.Snapshot()), m))
  {
    if m >= |db.matches| || db.matches[m] == Deleted(db.matches[m].statement) { return Refusing(NoMatch); }
    var row := db.matches[m];
    if row.state == Active { return Refusing(AllocatedAlready); }
    if Bookkept(row) { return Refusing(NeedsReversal); }
    db.matches := db.matches[m := Deleted(row.statement)];
    var remaining := MatchedRowOn(db.matches, row.statement);
    if row.statement < |db.statements| {
      var status := if remaining then Matched else Unmatched;
      db.statements := db.statements[row.statement := db.statements[row.statement].(status := status)];
    }
    return Noted(m);
  }
}
