// BankStatementEntryCreationService: booking what is left of a statement line as a new journal, and
// allocating that journal's bank line to it.
module StatementEntries {
  import opened Tables
  import opened Sums
  import PostingEngine
  import opened BankAllocations
  import opened LegacyMatches
  import opened StatementReversal

  datatype EntryRefusal =
    | OperationInvalid | LedgerUnavailable | EntryProcessed | AllocationUnsound | RemainderChanged | StateInvalid
    | CounterMissing | CounterNotAllowed | NotBookable(journal: PostingEngine.Refusal) | ByBank(bank: BankRefusal)

  datatype EntryOutcome = Booked(books: Books, id: Id) | NotBooked(reason: EntryRefusal)
  datatype EntryReply = Created(id: Id) | NotCreated(refusal: EntryRefusal)

  ghost predicate Commits(before: Books, after: Books, reply: EntryReply, outcome: EntryOutcome) {
    match outcome
    case Booked(books, id) => reply == Created(id) && after == books
    case NotBooked(reason) => reply == NotCreated(reason) && after == before
  }

  // counterAllowed: the counter account is an income or cost account, no system account, not archived.
  datatype EntryOrder = EntryOrder(statement: Id, counter: Id, counterAllowed: bool, expected: Cents,
                                   actor: string, operation: string, number: string)

  predicate IsOperationId(id: string) {
    8 <= |id| <= 80 && forall i :: 0 <= i < |id| ==>
      'a' <= id[i] <= 'z' || 'A' <= id[i] <= 'Z' || '0' <= id[i] <= '9' || id[i] in {'_', '-'}
  }

  predicate LegacyOnBank(b: Books, bank: Id) {
    exists k :: 0 <= k < |b.matches| && LiveLegacy(b.matches[k]) &&
      b.matches[k].statement < |b.statements| && b.statements[b.matches[k].statement].bank == bank
  }

  // An active allocation that may be added up.
  predicate Addable(m: Match) { m.identity == Verified && ValidCents(m.amount) && m.amount > 0 }

  predicate AllAddable(matches: seq<Match>, s: Id) {
    forall m :: 0 <= m < |matches| && matches[m].statement == s && matches[m].state == Active ==> Addable(matches[m])
  }

  function Remainder(b: Books, s: Id): Cents
    requires s < |b.statements|
  {
    b.statements[s].amount - StatementUsed(b.matches, s)
  }

  function LineProblem(b: Books, s: Id): Option<EntryRefusal> {
    if s >= |b.statements| || b.statements[s].bank >= |b.banks| then Some(ByBank(StatementNotFound))
    else
      var st := b.statements[s];
      var bank := b.banks[st.bank];
      if st.hasDisposition || st.status in {ConfirmedDuplicate, ProvenArtifact} then Some(ByBank(DispositionActive))
      else if !st.importCompleted then Some(ByBank(ImportNotComplete))
      else if bank.ledger.None? then Some(ByBank(LedgerNotLinked))
      else if ManyProfiles(b, bank.ledger.value) then Some(ByBank(ProfileAmbiguous))
      else if !bank.isActive || bank.isArchived then Some(ByBank(BankInactive))
      else if !PostingEngine.Usable(b, bank.ledger.value) then Some(LedgerUnavailable)
      else if !ValidCents(st.amount) || st.amount == 0 then Some(ByBank(StatementInvalidAmount))
      else if !IsCurrencyCode(st.currency) || st.currency != bank.currency ||
        st.currency != LedgerCurrency(b, bank.ledger.value) ||
          st.currency != b.baseCurrency then Some(ByBank(CurrencyUnsupported))
      else if st.direction == UnknownDirection then Some(ByBank(DirectionInvalid))
      else if st.status in {Matched, Reconciled} then Some(EntryProcessed)
      else if st.isIgnored || st.status in {Ignored, NeedsReview, PossibleDuplicate, ToReview, Recognized} then
        Some(ByBank(ReviewRequired))
      else if LegacyOnBank(b, st.bank) then Some(ByBank(LegacyPending))
      else if SessionClosed(b, st.bank, st.date) then Some(ByBank(ReconciliationCompleted))
      else None
  }

  function RemainderProblem(b: Books, s: Id, expected: Cents): Option<EntryRefusal>
    requires s < |b.statements|
  {
    var st, used := b.statements[s], StatementUsed(b.matches, s);
    if !AllAddable(b.matches, s) then Some(AllocationUnsound)
    else if used > st.amount then Some(ByBank(StatementCapacityExceeded))
    else if Remainder(b, s) <= 0 then Some(EntryProcessed)
    else if expected != Remainder(b, s) then Some(RemainderChanged)
    else if (used > 0) != (st.status == PartiallyMatched) then Some(StateInvalid)
    else None
  }

  function CounterProblem(b: Books, o: EntryOrder, ledger: Id, currency: string): Option<EntryRefusal> {
    if o.counter >= |b.accounts| then Some(CounterMissing)
    else if !PostingEngine.Usable(b, o.counter) || !o.counterAllowed || o.counter == ledger then Some(CounterNotAllowed)
    else if b.accounts[o.counter].currency !in {None, Some(currency)} then Some(ByBank(CurrencyUnsupported))
    else None
  }

  function EntryProblem(b: Books, o: EntryOrder): Option<EntryRefusal> {
    if o.actor == "" then Some(ByBank(ActorRequired))
    else if !IsOperationId(o.operation) then Some(OperationInvalid)
    else if LineProblem(b, o.statement).Some? then LineProblem(b, o.statement)
    else if RemainderProblem(b, o.statement, o.expected).Some? then RemainderProblem(b, o.statement, o.expected)
    else
      var st := b.statements[o.statement];
      CounterProblem(b, o, b.banks[st.bank].ledger.value, st.currency)
  }

  // The journal of the remainder: the bank's ledger account against the counter account.
  function EntryPayload(b: Books, o: EntryOrder): PostingEngine.Payload
    requires EntryProblem(b, o).None?
  {
    var st := b.statements[o.statement];
    CreationPayload(st.(amount := Remainder(b, o.statement)), b.banks[st.bank].ledger.value, o.counter, o.number)
  }

  // Which of the two lines is the bank's.
  function BankIndex(d: Direction): nat { if d == Outflow then 1 else 0 }

  function EntryRow(b: Books, o: EntryOrder, j: Id): Match
    requires EntryProblem(b, o).None?
  {
    var st := b.statements[o.statement];
    Match(o.statement, Canonical(|b.matches|), Remainder(b, o.statement), MatchedStatus, Some(j),
      Some(LineRef(j, BankIndex(st.direction))),
          Verified, StatementCreation, Active, Some(st.bank), false)
  }

  function CreateEntry(b: Books, o: EntryOrder): EntryOutcome {
    var problem := EntryProblem(b, o);
    if problem.Some? then NotBooked(problem.value)
    else
      match PostingEngine.Post(b, EntryPayload(b, o))
      case Refused(why) => NotBooked(NotBookable(why))
      case Done(posted, j) =>
        match Recompute(posted.(matches := b.matches + [EntryRow(b, o, j)]), o.statement, |b.matches|)
        case Denied(why) => NotBooked(ByBank(why))
        case Changed(books, id, _) => Booked(books, id)
  }

  predicate IsBankLine(b: Books, o: EntryOrder, l: Line)
    requires EntryProblem(b, o).None?
  {
    var st := b.statements[o.statement];
    l.account == b.banks[st.bank].ledger.value && BookSide(l, st.direction) == Remainder(b, o.statement) &&
    OtherSide(l, st.direction) == 0
  }

  // The query for the bank's line in the new journal finds this one and no other.
  lemma OneBankLine(b: Books, o: EntryOrder, i: nat)
    requires EntryProblem(b, o).None? && i < 2
    ensures |EntryPayload(b, o).lines| == 2 &&
      (IsBankLine(b, o, EntryPayload(b, o).lines[i]) <==> i == BankIndex(b.statements[o.statement].direction))
  {
  }

  // ---- The service ----

  // The loop over the active allocations of the line.
  method AddUpAllocations(matches: seq<Match>, s: Id) returns (ok: bool, taken: Cents)
    ensures ok <==> AllAddable(matches, s)
    ensures ok ==> taken == StatementUsed(matches, s)
  {
    taken := 0;
    for i := 0 to |matches|
      invariant forall m :: 0 <= m < i && matches[m].statement == s && matches[m].state == Active ==>
        Addable(matches[m])
      invariant taken == StatementUsed(matches[..i], s)
    {
      assert matches[..i + 1] == matches[..i] + [matches[i]];
      SumSnoc(matches[..i], matches[i], OnStatement(s));
      if matches[i].statement == s && matches[i].state == Active {
        if matches[i].identity != Verified || !ValidCents(matches[i].amount) || matches[i].amount == 0 {
          return false, taken;
        }
        taken := taken + matches[i].amount;
      }
    }
    assert matches[..|matches|] == matches;
    ok := true;
  }

  method CheckRemainder(b: Books, s: Id, expected: Cents) returns (problem: Option<EntryRefusal>)
    requires s < |b.statements|
    ensures problem == RemainderProblem(b, s, expected)
  {
    var st := b.statements[s];
    var ok, taken := AddUpAllocations(b.matches, s);
    if !ok { return Some(AllocationUnsound); }
    if taken > st.amount { return Some(ByBank(StatementCapacityExceeded)); }
    var amount := st.amount - taken;
    if amount <= 0 { return Some(EntryProcessed); }
    if expected != amount { return Some(RemainderChanged); }
    StatementUsedIsNatural(b.matches, s);
    if taken == 0 && st.status == PartiallyMatched { return Some(StateInvalid); }
    if taken > 0 && st.status != PartiallyMatched { return Some(StateInvalid); }
    return None;
  }

  lemma StatementUsedIsNatural(matches: seq<Match>, s: Id)
    requires AllAddable(matches, s)
    ensures StatementUsed(matches, s) >= 0
  {
    SumNonNegative(matches, OnStatement(s));
  }

  method CreateStatementEntry(db: Database, o: EntryOrder) returns (reply: EntryReply)
    requires |db.accounts| == |db.balances| && |db.banks| == |db.bankBalances|
    modifies db
    ensures Commits(old(db.Snapshot()), db.Snapshot(), reply, CreateEntry(old(db.Snapshot()), o))
  {
    var before := db.Snapshot();
    if o.actor == "" { return NotCreated(ByBank(ActorRequired)); }
    if !IsOperationId(o.operation) { return NotCreated(OperationInvalid); }
    if LineProblem(before, o.statement).Some? { return NotCreated(LineProblem(before, o.statement).value); }
    var problem := CheckRemainder(before, o.statement, o.expected);
    if problem.Some? { return NotCreated(problem.value); }
    var st := db.statements[o.statement];
    problem := CounterProblem(before, o, db.banks[st.bank].ledger.value, st.currency);
    if problem.Some? { return NotCreated(problem.value); }
    var posting := PostingEngine.PostEntry(db, EntryPayload(before, o));
    if posting.Rejected? { return NotCreated(NotBookable(posting.refusal)); }
    var id := |db.matches|;
    db.matches := db.matches + [EntryRow(before, o, posting.id)];
    var status := RecomputeStatementStatus(db, o.statement, id);
    if status.Declined? {
      RollBack(db, before);
      return NotCreated(ByBank(status.refusal));
    }
    return Created(id);
  }
}
