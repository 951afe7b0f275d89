// BankMovementAllocationService and BankLegacyAllocationVerificationService: sharing the
// capacity of statement lines and journal lines between allocations.
module BankAllocations {
  import Texts
  import opened Tables
  import opened Sums
  import PostingEngine

  const CENTS_LIMIT: Cents := 1000000000000000   // 13 integer digits and two decimals

  datatype BankRefusal =
    | RequestedInvalidAmount | ActorRequired | ReasonInvalid | StatementNotFound | DispositionActive
    | ImportNotComplete | LedgerNotLinked | ProfileAmbiguous | BankInactive | StatementInvalidAmount
    | CurrencyUnsupported | ReconciliationCompleted | ReviewRequired | LegacyPending | DirectionInvalid
    | MovementNotFound | MovementNotPosted | ReversalUnsupported | SideInvalid | MovementPeriodLocked
    | InvalidSum | StatementCapacityExceeded | BookCapacityExceeded
    | AllocationNotFound | AllocationNotActive
    | LegacyNotFound | LegacyStateInvalid | LegacyAmountInvalid | SourceUnsupported | SourceUnverifiable
    | LegacyJournalInvalid | LegacyAmbiguous | LegacyNotVerifiable | CandidateChanged

  datatype BankOutcome = Changed(books: Books, id: Id, status: StatementStatus) | Denied(reason: BankRefusal)
  datatype BankReply = Confirmed(id: Id, status: StatementStatus) | Declined(refusal: BankRefusal)

  ghost predicate Commits(before: Books, after: Books, reply: BankReply, outcome: BankOutcome) {
    match outcome
    case Changed(books, id, status) => reply == Confirmed(id, status) && after == books
    case Denied(reason) => reply == Declined(reason) && after == before
  }

  // ---- Capacities ----

  predicate Counts(m: Match) { m.state == Active && m.identity == Verified }

  function OnStatement(s: Id): Match -> int {
    (m: Match) => if m.statement == s && Counts(m) then m.amount else 0
  }

  function OnLine(line: LineRef): Match -> int {
    (m: Match) => if m.line == Some(line) && Counts(m) then m.amount else 0
  }

  function StatementUsed(matches: seq<Match>, s: Id): Cents { Sum(matches, OnStatement(s)) }

  function LineUsed(matches: seq<Match>, line: LineRef): Cents { Sum(matches, OnLine(line)) }

  // The legacy service sums active rows whatever their identity state, and unresolved legacy rows too.
  predicate LiveLegacy(m: Match) {
    m.state == Legacy && m.status !in {RejectedStatus, ReversedStatus, UnmatchedStatus}
  }

  function OnStatementOrLegacy(s: Id): Match -> int {
    (m: Match) => if m.statement == s && (m.state == Active || LiveLegacy(m)) then m.amount else 0
  }

  function OnLineAnyIdentity(line: LineRef): Match -> int {
    (m: Match) => if m.line == Some(line) && m.state == Active then m.amount else 0
  }

  predicate ValidCents(c: Cents) { 0 <= c < CENTS_LIMIT }

  function Classify(used: Cents, amount: Cents): StatementStatus {
    if used == 0 then Unmatched else if used == amount then Matched else PartiallyMatched
  }

  predicate LineExists(js: seq<Journal>, line: LineRef) {
    line.journal < |js| && line.index < |js[line.journal].lines|
  }

  // The money on a journal line; exactly one of its two sides is non-zero.
  function LineAmount(js: seq<Journal>, line: LineRef): Cents
    requires LineExists(js, line)
  {
    js[line.journal].lines[line.index].debit + js[line.journal].lines[line.index].credit
  }

  // A statement inflow is a debit in the books.
  function BookSide(l: Line, d: Direction): Cents { if d == Inflow then l.debit else l.credit }
  function OtherSide(l: Line, d: Direction): Cents { if d == Inflow then l.credit else l.debit }

  // ---- Shared guards ----

  predicate ManyProfiles(b: Books, ledger: Id) {
    exists i, k :: 0 <= i < k < |b.banks| && ActiveProfile(b.banks[i], ledger) && ActiveProfile(b.banks[k], ledger)
  }

  predicate ActiveProfile(bank: Bank, ledger: Id) {
    bank.ledger == Some(ledger) && bank.isActive && !bank.isArchived
  }

  predicate SessionClosed(b: Books, bank: Id, date: Date) {
    exists k :: 0 <= k < |b.sessions| && b.sessions[k].bank == bank && b.sessions[k].completed &&
      b.sessions[k].endDate >= date
  }

  predicate LegacyUnsettled(b: Books, bank: Id) {
    exists k :: 0 <= k < |b.matches| && LiveLegacy(b.matches[k]) &&
      (b.matches[k].bank == Some(bank) ||
       (b.matches[k].statement < |b.statements| && b.statements[b.matches[k].statement].bank == bank))
  }

  predicate IsCurrencyCode(c: string) {
    |c| == 3 && forall i :: 0 <= i < |c| ==> 'A' <= c[i] <= 'Z'
  }

  function LedgerCurrency(b: Books, ledger: Id): string {
    if ledger < |b.accounts| && b.accounts[ledger].currency.Some? then b.accounts[ledger].currency.value
    else b.baseCurrency
  }

  predicate MovementLocked(locks: seq<PeriodLock>, date: Date) {
    exists k :: 0 <= k < |locks| && locks[k].isLocked &&
      (locks[k].month == date / 100 ||
       (locks[k].lockDate.Some? && locks[k].lockDate.value >= date && locks[k].statusActive))
  }

  predicate HasReversal(js: seq<Journal>, j: Id) {
    exists r :: 0 <= r < |js| && js[r].reversalOf == Some(j)
  }

  // ---- allocate ----

  function StatementRefusal(b: Books, s: Id): Option<BankRefusal> {
    if s >= |b.statements| || b.statements[s].bank >= |b.banks| then Some(StatementNotFound)
    else
      var st := b.statements[s];
      var bank := b.banks[st.bank];
      if st.hasDisposition || st.status in {ConfirmedDuplicate, ProvenArtifact} then Some(DispositionActive)
      else if !st.importCompleted then Some(ImportNotComplete)
      else if bank.ledger.None? then Some(LedgerNotLinked)
      else if ManyProfiles(b, bank.ledger.value) then Some(ProfileAmbiguous)
      else if !bank.isActive || bank.isArchived then Some(BankInactive)
      else if !ValidCents(st.amount) || st.amount == 0 then Some(StatementInvalidAmount)
      else if !IsCurrencyCode(st.currency) || st.currency != bank.currency ||
        st.currency != LedgerCurrency(b, bank.ledger.value) ||
        LedgerCurrency(b, bank.ledger.value) != b.baseCurrency then Some(CurrencyUnsupported)
      else if st.status == Reconciled then Some(ReconciliationCompleted)
      else if st.isIgnored || st.status in {Ignored, NeedsReview, PossibleDuplicate, ToReview, Recognized} then
        Some(ReviewRequired)
      else if SessionClosed(b, st.bank, st.date) then Some(ReconciliationCompleted)
      else if LegacyUnsettled(b, st.bank) then Some(LegacyPending)
      else if st.direction == UnknownDirection then Some(DirectionInvalid)
      else None
  }

  function MovementRefusal(b: Books, s: Id, line: LineRef): Option<BankRefusal>
    requires StatementRefusal(b, s).None?
  {
    var st := b.statements[s];
    if !LineExists(b.journals, line) ||
      b.banks[st.bank].ledger != Some(b.journals[line.journal].lines[line.index].account) then Some(MovementNotFound)
    else
      var row := b.journals[line.journal];
      var l := row.lines[line.index];
      if row.status != Posted then Some(MovementNotPosted)
      else if row.reversalOf.Some? || HasReversal(b.journals, line.journal) then Some(ReversalUnsupported)
      else if !ValidCents(BookSide(l, st.direction)) || BookSide(l, st.direction) == 0 ||
        OtherSide(l, st.direction) != 0 then Some(SideInvalid)
      else if MovementLocked(b.locks, row.date) then Some(MovementPeriodLocked)
      else None
  }

  function AllocateRefusal(b: Books, s: Id, line: LineRef, amount: Cents, actor: string): Option<BankRefusal> {
    if !ValidCents(amount) || amount == 0 then Some(RequestedInvalidAmount)
    else if actor == "" then Some(ActorRequired)
    else if StatementRefusal(b, s).Some? then StatementRefusal(b, s)
    else if MovementRefusal(b, s, line).Some? then MovementRefusal(b, s, line)
    else
      var st := b.statements[s];
      var l := b.journals[line.journal].lines[line.index];
      var statementUsed, bookUsed := StatementUsed(b.matches, s), LineUsed(b.matches, line);
      if !ValidCents(statementUsed) || !ValidCents(bookUsed) then Some(InvalidSum)
      else if statementUsed + amount > st.amount then Some(StatementCapacityExceeded)
      else if bookUsed + amount > BookSide(l, st.direction) then Some(BookCapacityExceeded)
      else None
  }

  // recomputeStatementStatus: the status a statement line gets from its active allocations.
  function Recompute(b: Books, s: Id, id: Id): BankOutcome
    requires s < |b.statements|
  {
    var used := StatementUsed(b.matches, s);
    if !ValidCents(used) then Denied(InvalidSum)
    else if used > b.statements[s].amount then Denied(StatementCapacityExceeded)
    else
      var status := Classify(used, b.statements[s].amount);
      Changed(b.(statements := b.statements[s := b.statements[s].(status := status)]), id, status)
  }

  function Allocate(b: Books, s: Id, line: LineRef, amount: Cents, actor: string): BankOutcome {
    var refusal := AllocateRefusal(b, s, line, amount, actor);
    if refusal.Some? then Denied(refusal.value)
    else
      var row := Match(s, Canonical(|b.matches|), amount, MatchedStatus, Some(line.journal), Some(line),
                       Verified, CanonicalAllocation, Active, Some(b.statements[s].bank), false);
      Recompute(b.(matches := b.matches + [row]), s, |b.matches|)
  }

  // ---- unmatch ----

  function UnmatchRefusal(b: Books, m: Id, actor: string, reason: string): Option<BankRefusal> {
    var clean := Texts.Trim(reason);
    if actor == "" then Some(ActorRequired)
    else if |clean| < 3 || |clean| > 500 then Some(ReasonInvalid)
    else if m >= |b.matches| || b.matches[m].origin !in {CanonicalAllocation, LegacyVerified} then
      Some(AllocationNotFound)
    else if b.matches[m].statement >= |b.statements| || b.statements[b.matches[m].statement].bank >= |b.banks| then
      Some(StatementNotFound)
    else
      var st := b.statements[b.matches[m].statement];
      if st.status == Reconciled then Some(ReconciliationCompleted)
      else if SessionClosed(b, st.bank, st.date) then Some(ReconciliationCompleted)
      else if !Counts(b.matches[m]) then Some(AllocationNotActive)
      else if !ValidCents(st.amount) then Some(StatementInvalidAmount)
      else None
  }

  function Unmatch(b: Books, m: Id, actor: string, reason: string): BankOutcome {
    var refusal := UnmatchRefusal(b, m, actor, reason);
    if refusal.Some? then Denied(refusal.value)
    else
      var row := b.matches[m].(state := Unallocated, status := UnmatchedStatus);
      Recompute(b.(matches := b.matches[m := row]), b.matches[m].statement, m)
  }

  // ---- verify ----

  function ResolveSource(b: Books, source: Source): Option<Id> {
    if source.JournalSource? then (if source.id < |b.journals| then Some(source.id) else None)
    else if source in b.sourceJournals then Some(b.sourceJournals[source])
    else None
  }

  predicate SoleLegacyMatch(b: Books, m: Id)
    requires m < |b.matches|
  {
    LiveLegacy(b.matches[m]) &&
    forall k :: 0 <= k < |b.matches| && LiveLegacy(b.matches[k]) && b.matches[k].source == b.matches[m].source ==>
      k == m
  }

  // The lines of journal j that could carry the match: right account and side, and room left.
  function Candidates(b: Books, j: Id, ledger: Id, d: Direction, amount: Cents): set<nat>
    requires j < |b.journals|
  {
    set i | 0 <= i < |b.journals[j].lines| && b.journals[j].lines[i].account == ledger &&
      BookSide(b.journals[j].lines[i], d) > 0 && OtherSide(b.journals[j].lines[i], d) == 0 &&
      Sum(b.matches, OnLineAnyIdentity(LineRef(j, i))) + amount <= BookSide(b.journals[j].lines[i], d)
  }

  function LegacyStatementRefusal(b: Books, s: Id, m: Id): Option<BankRefusal> {
    if m >= |b.matches| || b.matches[m].statement != s || s >= |b.statements| || b.statements[s].bank >= |b.banks| then
      Some(LegacyNotFound)
    else
      var row := b.matches[m];
      var st := b.statements[s];
      var bank := b.banks[st.bank];
      if !LiveLegacy(row) || row.identity != LegacyUnresolved then Some(LegacyStateInvalid)
      else if !st.importCompleted then Some(ImportNotComplete)
      else if st.isIgnored || st.status in {Reconciled, ConfirmedDuplicate, ProvenArtifact, Ignored} then
        Some(ReviewRequired)
      else if !bank.isActive || bank.isArchived then Some(BankInactive)
      else if bank.ledger.Some? && ManyProfiles(b, bank.ledger.value) then Some(ProfileAmbiguous)
      else if bank.reconciledThrough.Some? && st.date <= bank.reconciledThrough.value then Some(ReconciliationCompleted)
      else if bank.ledger.None? then Some(LedgerNotLinked)
      else if st.currency == "" || st.currency != bank.currency ||
        st.currency != LedgerCurrency(b, bank.ledger.value) ||
        st.currency != b.baseCurrency then Some(CurrencyUnsupported)
      else if row.amount <= 0 || row.amount > st.amount then Some(LegacyAmountInvalid)
      else if st.hasDisposition then Some(DispositionActive)
      else if SessionClosed(b, st.bank, st.date) then Some(ReconciliationCompleted)
      else None
  }

  function LegacyJournalRefusal(b: Books, s: Id, m: Id): Option<BankRefusal>
    requires LegacyStatementRefusal(b, s, m).None?
  {
    var row := b.matches[m];
    var st := b.statements[s];
    if row.source.Canonical? || row.source.OtherSource? then Some(SourceUnsupported)
    else if ResolveSource(b, row.source).None? then Some(SourceUnverifiable)
    else
      var j := ResolveSource(b, row.source).value;
      if j >= |b.journals| || b.journals[j].status != Posted || b.journals[j].date > st.date ||
        b.journals[j].reversalOf.Some? || b.journals[j].reversedBy.Some? then Some(LegacyJournalInvalid)
      else if MovementLocked(b.locks, b.journals[j].date) then Some(MovementPeriodLocked)
      else if st.direction == UnknownDirection then Some(DirectionInvalid)
      else if Sum(b.matches, OnStatementOrLegacy(s)) > st.amount then Some(StatementCapacityExceeded)
      else if !SoleLegacyMatch(b, m) then Some(LegacyAmbiguous)
      else None
  }

  function VerifyRefusal(b: Books, s: Id, m: Id, expected: LineRef, reason: string,
      actor: string): Option<BankRefusal> {
    var clean := Texts.Trim(reason);
    if actor == "" then Some(ActorRequired)
    else if |clean| < 10 || |clean| > 1000 then Some(ReasonInvalid)
    else if LegacyStatementRefusal(b, s, m).Some? then LegacyStatementRefusal(b, s, m)
    else if LegacyJournalRefusal(b, s, m).Some? then LegacyJournalRefusal(b, s, m)
    else
      var j := ResolveSource(b, b.matches[m].source).value;
      var st := b.statements[s];
      var found := Candidates(b, j, b.banks[st.bank].ledger.value, st.direction, b.matches[m].amount);
      if |found| > 1 then Some(LegacyAmbiguous)
      else if |found| == 0 then Some(LegacyNotVerifiable)
      else if expected.journal != j || expected.index !in found then Some(CandidateChanged)
      else None
  }

  function Verify(b: Books, s: Id, m: Id, expected: LineRef, reason: string, actor: string): BankOutcome {
    var refusal := VerifyRefusal(b, s, m, expected, reason, actor);
    if refusal.Some? then Denied(refusal.value)
    else
      var origin := if b.matches[m].source.JournalSource? &&
        b.matches[m].createdFromBank then StatementCreation else LegacyVerified;
      var row := b.matches[m].(bank := Some(b.statements[s].bank), journal := Some(expected.journal),
        line := Some(expected),
                               identity := Verified, origin := origin, state := Active);
      // this service sums money without the 13-digit bound of recomputeStatementStatus
      var after := b.(matches := b.matches[m := row]);
      var used := StatementUsed(after.matches, s);
      if used > b.statements[s].amount then Denied(StatementCapacityExceeded)
      else
        var status := Classify(used, b.statements[s].amount);
        Changed(after.(statements := b.statements[s := b.statements[s].(status := status)]), m, status)
  }

  // ---- The services: a refusal leaves every table as it was ----

  method AllocateMovement(db: Database, s: Id, line: LineRef, amount: Cents, actor: string) returns (reply: BankReply)
    modifies db`matches, db`statements
    ensures Commits(old(db.Snapshot()), db.Snapshot(), reply, Allocate(old(db.Snapshot()), s, line, amount, actor))
  {
    var refusal := AllocateRefusal(db.Snapshot(), s, line, amount, actor);
    if refusal.Some? { return Declined(refusal.value); }
    var id := |db.matches|;
    var before := db.matches;
    db.matches := db.matches + [Match(s, Canonical(id), amount, MatchedStatus, Some(line.journal), Some(line),
                                      Verified, CanonicalAllocation, Active, Some(db.statements[s].bank), false)];
    reply := RecomputeStatementStatus(db, s, id);
    if reply.Declined? { db.matches := before; }
  }

  method RecomputeStatementStatus(db: Database, s: Id, id: Id) returns (reply: BankReply)
    requires s < |db.statements|
    modifies db`statements
    ensures Commits(old(db.Snapshot()), db.Snapshot(), reply, Recompute(old(db.Snapshot()), s, id))
  {
    var used := StatementUsed(db.matches, s);
    var row := db.statements[s];
    if !ValidCents(used) { return Declined(InvalidSum); }
    if used > row.amount { return Declined(StatementCapacityExceeded); }
    var status := if used == 0 then Unmatched else if used == row.amount then Matched else PartiallyMatched;
    db.statements := db.statements[s := row.(status := status)];
    return Confirmed(id, status);
  }

  method UnmatchMovement(db: Database, m: Id, actor: string, reason: string) returns (reply: BankReply)
    modifies db`matches, db`statements
    ensures Commits(old(db.Snapshot()), db.Snapshot(), reply, Unmatch(old(db.Snapshot()), m, actor, reason))
  {
    var refusal := UnmatchRefusal(db.Snapshot(), m, actor, reason);
    if refusal.Some? { return Declined(refusal.value); }
    var before := db.matches;
    db.matches := db.matches[m := db.matches[m].(state := Unallocated, status := UnmatchedStatus)];
    reply := RecomputeStatementStatus(db, before[m].statement, m);
    if reply.Declined? { db.matches := before; }
  }

  method VerifyLegacyMatch(db: Database, s: Id, m: Id, expected: LineRef, reason: string, actor: string)
    returns (reply: BankReply)
    modifies db`matches, db`statements
    ensures Commits(old(db.Snapshot()), db.Snapshot(), reply, Verify(old(db.Snapshot()), s, m, expected, reason, actor))
  {
    var refusal := VerifyRefusal(db.Snapshot(), s, m, expected, reason, actor);
    if refusal.Some? { return Declined(refusal.value); }
    var before, row, st := db.matches, db.matches[m], db.statements[s];
    var origin := LegacyVerified;
    if row.source.JournalSource? && row.createdFromBank { origin := StatementCreation; }
    db.matches := db.matches[m := row.(bank := Some(st.bank), journal := Some(expected.journal), line := Some(expected),
                                       identity := Verified, origin := origin, state := Active)];
    var used := StatementUsed(db.matches, s);
    if used > st.amount {
      db.matches := before;
      return Declined(StatementCapacityExceeded);
    }
    var status := Classify(used, st.amount);
    db.statements := db.statements[s := st.(status := status)];
    return Confirmed(m, status);
  }
}
