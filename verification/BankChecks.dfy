// What an accepted operation on bank allocations and matches has checked, in the columns of the tables,
// and the row it leaves.
module BankChecks {
  import Texts
  import opened Tables
  import opened Sums
  import PostingEngine
  import opened JournalReversal
  import opened BankAllocations
  import opened LegacyMatches
  import opened StatementReversal
  import opened StatementEntries

  // A statement line waits for money while its status is one of these.
  const WAITING: set<StatementStatus> := {Unmatched, PartiallyMatched, Matched, Suggested}

  // Thirteen digits before the point, and two behind it.
  predicate Representable(c: Cents) { 0 <= c <= 999999999999999 }

  // The bank has a ledger account to itself and is in use.
  ghost predicate BankUsable(b: Books, k: Id) {
    k < |b.banks| && b.banks[k].ledger.Some? && b.banks[k].isActive && !b.banks[k].isArchived &&
    forall other: Id :: other < |b.banks| && other != k && b.banks[other].ledger == b.banks[k].ledger ==>
      !b.banks[other].isActive || b.banks[other].isArchived
  }

  // Statement line, bank, ledger account and organization have one currency.
  ghost predicate OneCurrency(b: Books, st: Statement, ledger: Id)
    requires st.bank < |b.banks|
  {
    st.currency == b.banks[st.bank].currency && st.currency == b.baseCurrency &&
    (ledger < |b.accounts| && b.accounts[ledger].currency.Some? ==> st.currency == b.accounts[ledger].currency.value)
  }

  predicate CapitalCode(c: string) { |c| == 3 && 'A' <= c[0] <= 'Z' && 'A' <= c[1] <= 'Z' && 'A' <= c[2] <= 'Z' }

  // No completed reconciliation of the bank reaches the day.
  ghost predicate NotReconciled(b: Books, bank: Id, date: Date) {
    forall e :: 0 <= e < |b.sessions| && b.sessions[e].bank == bank && b.sessions[e].completed ==>
      b.sessions[e].endDate < date
  }

  // A legacy match in force on the bank: its row names the bank or lies on one of the bank's lines.
  ghost predicate LegacyWaits(b: Books, bank: Id) {
    exists m :: 0 <= m < |b.matches| && b.matches[m].state == Legacy &&
      b.matches[m].status in {MatchedStatus, PendingStatus} &&
      (b.matches[m].bank == Some(bank) || OnBankLine(b, bank, b.matches[m].statement))
  }

  predicate OnBankLine(b: Books, bank: Id, s: Id) { s < |b.statements| && b.statements[s].bank == bank }

  lemma MatchStatuses(status: MatchStatus)
    ensures status in {MatchedStatus, PendingStatus} <==> status !in {RejectedStatus, ReversedStatus, UnmatchedStatus}
  {
    match status
    case MatchedStatus => case RejectedStatus => case ReversedStatus => case UnmatchedStatus => case PendingStatus =>
  }

  lemma StatementStatuses(status: StatementStatus)
    ensures status in WAITING <==>
      status !in {Reconciled, Ignored, NeedsReview, PossibleDuplicate, ToReview, Recognized, ConfirmedDuplicate,
                  ProvenArtifact}
  {
    match status
    case Unmatched => case PartiallyMatched => case Matched => case Suggested => case Reconciled => case Ignored =>
    case NeedsReview => case PossibleDuplicate => case ToReview => case Recognized => case ConfirmedDuplicate =>
    case ProvenArtifact =>
  }

  // ---- Allocation ----

  ghost predicate OpenForMoney(b: Books, s: Id) {
    s < |b.statements| &&
    var st := b.statements[s];
    BankUsable(b, st.bank) && OneCurrency(b, st, b.banks[st.bank].ledger.value) && CapitalCode(st.currency) &&
    st.importCompleted && !st.hasDisposition && !st.isIgnored && st.status in WAITING &&
    st.amount > 0 && Representable(st.amount) && st.direction in {Inflow, Outflow} &&
    NotReconciled(b, st.bank, st.date)
  }

  // A line of the bank's ledger account that moved money the statement's way, in a live journal of an
  // unlocked month.
  ghost predicate LiveMovement(b: Books, s: Id, line: LineRef)
    requires s < |b.statements| && b.statements[s].bank < |b.banks|
  {
    line.journal < |b.journals| && line.index < |b.journals[line.journal].lines| &&
    var st, row, l := b.statements[s], b.journals[line.journal], b.journals[line.journal].lines[line.index];
    b.banks[st.bank].ledger == Some(l.account) && row.status == Posted && row.reversalOf.None? &&
    (forall r :: 0 <= r < |b.journals| ==> b.journals[r].reversalOf != Some(line.journal)) &&
    (if st.direction == Inflow then l.credit == 0 && l.debit > 0 && Representable(l.debit)
     else l.debit == 0 && l.credit > 0 && Representable(l.credit)) &&
    forall k :: 0 <= k < |b.locks| && b.locks[k].isLocked ==>
      b.locks[k].month != row.date / 100 &&
      (b.locks[k].lockDate.Some? && b.locks[k].statusActive ==> b.locks[k].lockDate.value < row.date)
  }

  // What verified active rows have taken from a statement line, and from a journal line.
  function TakenFrom(s: Id): Match -> int {
    (m: Match) => if m.statement == s && m.state == Active && m.identity == Verified then m.amount else 0
  }

  function TakenOf(line: LineRef): Match -> int {
    (m: Match) => if m.line == Some(line) && m.state == Active && m.identity == Verified then m.amount else 0
  }

  lemma TakenSums(matches: seq<Match>)
    ensures forall s :: Sum(matches, TakenFrom(s)) == StatementUsed(matches, s)
    ensures forall l :: Sum(matches, TakenOf(l)) == LineUsed(matches, l)
  {
    forall s ensures Sum(matches, TakenFrom(s)) == StatementUsed(matches, s) {
      SumSame(matches, TakenFrom(s), OnStatement(s));
    }
    forall l ensures Sum(matches, TakenOf(l)) == LineUsed(matches, l) { SumSame(matches, TakenOf(l), OnLine(l)); }
  }

  lemma OpenForMoneyIff(b: Books, s: Id)
    ensures StatementRefusal(b, s).None? <==>
      OpenForMoney(b, s) && !LegacyWaits(b, b.statements[s].bank)
  {
    if s < |b.statements| && b.statements[s].bank < |b.banks| {
      var k := b.statements[s].bank;
      StatementStatuses(b.statements[s].status);
      if b.banks[k].ledger.Some? { ProfilesIff(b, k); }
      WaitsIff(b, k);
      assert SessionClosed(b, k, b.statements[s].date) <==> !NotReconciled(b, k, b.statements[s].date);
    }
  }

  lemma ProfilesIff(b: Books, k: Id)
    requires k < |b.banks| && b.banks[k].ledger.Some?
    ensures BankUsable(b, k) <==>
      b.banks[k].isActive && !b.banks[k].isArchived && !ManyProfiles(b, b.banks[k].ledger.value)
  {
  }

  lemma WaitsIff(b: Books, bank: Id)
    ensures LegacyWaits(b, bank) <==> LegacyUnsettled(b, bank)
  {
    if LegacyUnsettled(b, bank) {
      var m :| 0 <= m < |b.matches| && LiveLegacy(b.matches[m]) &&
        (b.matches[m].bank == Some(bank) ||
         (b.matches[m].statement < |b.statements| && b.statements[b.matches[m].statement].bank == bank));
      MatchStatuses(b.matches[m].status);
      assert b.matches[m].bank == Some(bank) || OnBankLine(b, bank, b.matches[m].statement);
    }
    if LegacyWaits(b, bank) {
      var m :| 0 <= m < |b.matches| && b.matches[m].state == Legacy &&
        b.matches[m].status in {MatchedStatus, PendingStatus} &&
        (b.matches[m].bank == Some(bank) || OnBankLine(b, bank, b.matches[m].statement));
      assert LiveLegacy(b.matches[m]);
    }
  }

  lemma LiveMovementIff(b: Books, s: Id, line: LineRef)
    requires StatementRefusal(b, s).None?
    ensures MovementRefusal(b, s, line).None? <==> LiveMovement(b, s, line)
  {
    if LineExists(b.journals, line) {
      var date := b.journals[line.journal].date;
      assert MovementLocked(b.locks, date) <==>
        !forall k :: 0 <= k < |b.locks| && b.locks[k].isLocked ==>
          b.locks[k].month != date / 100 &&
          (b.locks[k].lockDate.Some? && b.locks[k].statusActive ==> b.locks[k].lockDate.value < date);
    }
  }

  // An allocation is made exactly when an actor asks for a positive amount that both the statement line
  // and the journal line still have room for, no legacy match waits on the bank, and both are open.
  lemma {:induction false} AllocatedIff(b: Books, s: Id, line: LineRef, amount: Cents, actor: string)
    ensures Allocate(b, s, line, amount, actor).Changed? <==>
      actor != "" && amount > 0 && Representable(amount) && OpenForMoney(b, s) &&
      !LegacyWaits(b, b.statements[s].bank) && LiveMovement(b, s, line) && RoomFor(b, s, line, amount)
    ensures Allocate(b, s, line, amount, actor).Changed? ==>
      Allocate(b, s, line, amount, actor).books.matches == b.matches +
        [Match(s, Canonical(|b.matches|), amount, MatchedStatus, Some(line.journal), Some(line), Verified,
               CanonicalAllocation, Active, Some(b.statements[s].bank), false)]
  {
    OpenForMoneyIff(b, s);
    TakenSums(b.matches);
    if StatementRefusal(b, s).None? {
      LiveMovementIff(b, s, line);
      var row := Match(s, Canonical(|b.matches|), amount, MatchedStatus, Some(line.journal), Some(line), Verified,
                       CanonicalAllocation, Active, Some(b.statements[s].bank), false);
      SumSnoc(b.matches, row, OnStatement(s));
    }
  }

  ghost predicate RoomFor(b: Books, s: Id, line: LineRef, amount: Cents)
    requires s < |b.statements| && LineExists(b.journals, line)
  {
    var taken, used := Sum(b.matches, TakenFrom(s)), Sum(b.matches, TakenOf(line));
    var l := b.journals[line.journal].lines[line.index];
    taken >= 0 && used >= 0 && taken + amount <= b.statements[s].amount &&
    used + amount <= if b.statements[s].direction == Inflow then l.debit else l.credit
  }

  // The status a statement line is left with by an allocation, a release or a promotion: by what its
  // verified active rows take, nothing, all or some of its amount.
  lemma {:induction false} StatusByUse(b: Books, s: Id, id: Id)
    requires s < |b.statements|
    ensures Recompute(b, s, id).Changed? <==>
      0 <= Sum(b.matches, TakenFrom(s)) <= b.statements[s].amount && Representable(Sum(b.matches, TakenFrom(s)))
    ensures Recompute(b, s, id).Changed? ==>
      var taken, after := Sum(b.matches, TakenFrom(s)), Recompute(b, s, id).books.statements;
      |after| == |b.statements| && after == b.statements[s := b.statements[s].(status := after[s].status)] &&
      (taken == 0 ==> after[s].status == Unmatched) &&
      (taken != 0 && taken == b.statements[s].amount ==> after[s].status == Matched) &&
      (taken != 0 && taken != b.statements[s].amount ==> after[s].status == PartiallyMatched)
  {
    TakenSums(b.matches);
  }

  // An allocation made by hand or promoted is released by an actor with a reason, while its statement
  // line is not reconciled.
  lemma {:induction false} UnmatchedIff(b: Books, m: Id, actor: string, reason: string)
    ensures UnmatchRefusal(b, m, actor, reason).None? <==>
      actor != "" && 3 <= |Texts.Trim(reason)| <= 500 && m < |b.matches| &&
      b.matches[m].origin in {CanonicalAllocation, LegacyVerified} && b.matches[m].state == Active &&
      b.matches[m].identity == Verified && b.matches[m].statement < |b.statements| &&
      var st := b.statements[b.matches[m].statement];
      st.bank < |b.banks| && st.status != Reconciled && NotReconciled(b, st.bank, st.date) && Representable(st.amount)
    ensures Unmatch(b, m, actor, reason).Changed? ==>
      Unmatch(b, m, actor, reason).books.matches ==
        b.matches[m := b.matches[m].(state := Unallocated, status := UnmatchedStatus)]
  {
  }

  // ---- Verification of legacy matches ----

  ghost predicate OpenForVerification(b: Books, s: Id, m: Id) {
    m < |b.matches| && s < |b.statements| && b.matches[m].statement == s &&
    b.matches[m].state == Legacy && b.matches[m].status in {MatchedStatus, PendingStatus} &&
    b.matches[m].identity == LegacyUnresolved &&
    var st := b.statements[s];
    BankUsable(b, st.bank) && OneCurrency(b, st, b.banks[st.bank].ledger.value) && st.currency != "" &&
    st.importCompleted && !st.isIgnored && !st.hasDisposition &&
    st.status !in {Reconciled, ConfirmedDuplicate, ProvenArtifact, Ignored} &&
    (b.banks[st.bank].reconciledThrough.Some? ==> b.banks[st.bank].reconciledThrough.value < st.date) &&
    NotReconciled(b, st.bank, st.date) && 0 < b.matches[m].amount <= st.amount
  }

  lemma {:induction false} OpenForVerificationIff(b: Books, s: Id, m: Id)
    ensures LegacyStatementRefusal(b, s, m).None? <==> OpenForVerification(b, s, m)
  {
    if s < |b.statements| && b.statements[s].bank < |b.banks| {
      var k := b.statements[s].bank;
      if m < |b.matches| { MatchStatuses(b.matches[m].status); }
      if b.banks[k].ledger.Some? { ProfilesIff(b, k); }
      assert SessionClosed(b, k, b.statements[s].date) <==> !NotReconciled(b, k, b.statements[s].date);
    }
  }

  // The journal a match's document was posted with.
  ghost predicate PostedWith(b: Books, source: Source, j: Id) {
    j < |b.journals| &&
    (if source.JournalSource? then source.id == j else source in b.sourceJournals && b.sourceJournals[source] == j)
  }

  // What verification demands of the promoted match: its document's journal is live and no later than the
  // line, and the expected line is the only one of it on the bank's account and side with room left.
  ghost predicate Promotable(b: Books, s: Id, m: Id, line: LineRef)
    requires OpenForVerification(b, s, m)
  {
    var row, st := b.matches[m], b.statements[s];
    !row.source.Canonical? && !row.source.OtherSource? && PostedWith(b, row.source, line.journal) &&
    b.journals[line.journal].status == Posted && b.journals[line.journal].date <= st.date &&
    b.journals[line.journal].reversalOf.None? && b.journals[line.journal].reversedBy.None? &&
    st.direction in {Inflow, Outflow} && line.index < |b.journals[line.journal].lines| &&
    Carries(b, b.banks[st.bank].ledger.value, st.direction, row.amount, line) &&
    (forall i :: 0 <= i < |b.journals[line.journal].lines| && i != line.index ==>
      !Carries(b, b.banks[st.bank].ledger.value, st.direction, row.amount, LineRef(line.journal, i))) &&
    forall k: Id :: k < |b.matches| && k != m && b.matches[k].source == row.source ==>
      b.matches[k].state != Legacy || b.matches[k].status !in {MatchedStatus, PendingStatus}
  }

  function ActiveOf(line: LineRef): Match -> int {
    (m: Match) => if m.line == Some(line) && m.state == Active then m.amount else 0
  }

  ghost predicate Carries(b: Books, ledger: Id, d: Direction, amount: Cents, line: LineRef)
    requires line.journal < |b.journals| && line.index < |b.journals[line.journal].lines|
  {
    var l := b.journals[line.journal].lines[line.index];
    l.account == ledger &&
    (if d == Inflow then l.debit > 0 && l.credit == 0 else l.credit > 0 && l.debit == 0) &&
    Sum(b.matches, ActiveOf(line)) + amount <= if d == Inflow then l.debit else l.credit
  }

  lemma {:induction false} CandidatesAre(b: Books, j: Id, ledger: Id, d: Direction, amount: Cents)
    requires j < |b.journals|
    ensures forall i: nat :: i in Candidates(b, j, ledger, d, amount) <==>
      i < |b.journals[j].lines| && Carries(b, ledger, d, amount, LineRef(j, i))
  {
    forall i: nat | i < |b.journals[j].lines|
      ensures Sum(b.matches, OnLineAnyIdentity(LineRef(j, i))) == Sum(b.matches, ActiveOf(LineRef(j, i)))
    {
      SumSame(b.matches, OnLineAnyIdentity(LineRef(j, i)), ActiveOf(LineRef(j, i)));
    }
  }

  // Active rows of whatever identity, and legacy matches in force.
  function HeldOn(s: Id): Match -> int {
    (m: Match) =>
      if m.statement == s && (m.state == Active ||
        (m.state == Legacy && m.status in {MatchedStatus, PendingStatus})) then
        m.amount else 0
  }

  ghost predicate MonthUnlocked(b: Books, date: Date) {
    forall k :: 0 <= k < |b.locks| && b.locks[k].isLocked ==>
      b.locks[k].month != date / 100 &&
      (b.locks[k].lockDate.Some? && b.locks[k].statusActive ==> b.locks[k].lockDate.value < date)
  }

  // A legacy match is verified exactly when an actor gives a reason, its statement line is open for it,
  // all that is held on the line is within its amount, and the expected line is the one to promote it to;
  // it is then an allocation of that line.
  lemma {:induction false} VerifiedIff(b: Books, s: Id, m: Id, line: LineRef, reason: string, actor: string)
    ensures Verify(b, s, m, line, reason, actor).Changed? <==>
      actor != "" && 10 <= |Texts.Trim(reason)| <= 1000 && OpenForVerification(b, s, m) && Promotable(b, s, m, line) &&
      MonthUnlocked(b, b.journals[line.journal].date) && Sum(b.matches, HeldOn(s)) <= b.statements[s].amount &&
      StatementUsed(b.matches[m := PromotedRow(b, s, m, line)], s) <= b.statements[s].amount
    ensures Verify(b, s, m, line, reason, actor).Changed? ==>
      Verify(b, s, m, line, reason, actor).books.matches == b.matches[m := PromotedRow(b, s, m, line)]
  {
    OpenForVerificationIff(b, s, m);
    if OpenForVerification(b, s, m) {
      PromotableIff(b, s, m, line);
      HeldIs(b.matches, s);
    }
  }

  function PromotedRow(b: Books, s: Id, m: Id, line: LineRef): Match
    requires m < |b.matches| && s < |b.statements|
  {
    var row := b.matches[m];
    row.(bank := Some(b.statements[s].bank), journal := Some(line.journal), line := Some(line), identity := Verified,
         state := Active,
         origin := if row.source.JournalSource? && row.createdFromBank then StatementCreation else LegacyVerified)
  }

  lemma HeldIs(matches: seq<Match>, s: Id)
    ensures Sum(matches, HeldOn(s)) == Sum(matches, OnStatementOrLegacy(s))
  {
    forall k | 0 <= k < |matches| ensures HeldOn(s)(matches[k]) == OnStatementOrLegacy(s)(matches[k]) {
      MatchStatuses(matches[k].status);
    }
    SumSame(matches, HeldOn(s), OnStatementOrLegacy(s));
  }

  lemma {:induction false} PromotableIff(b: Books, s: Id, m: Id, line: LineRef)
    requires OpenForVerification(b, s, m) && LegacyStatementRefusal(b, s, m).None?
    ensures LegacyJournalRefusal(b, s, m).None? && ExpectedIsSole(b, s, m, line) <==>
      Promotable(b, s, m, line) && MonthUnlocked(b, b.journals[line.journal].date) &&
      Sum(b.matches, HeldOn(s)) <= b.statements[s].amount
  {
    HeldIs(b.matches, s);
    forall k | 0 <= k < |b.matches| ensures LiveLegacy(b.matches[k]) <==>
      b.matches[k].state == Legacy && b.matches[k].status in {MatchedStatus, PendingStatus}
    {
      MatchStatuses(b.matches[k].status);
    }
    if ResolveSource(b, b.matches[m].source).Some? {
      var j, st := ResolveSource(b, b.matches[m].source).value, b.statements[s];
      if j < |b.journals| {
        LockedIff(b.locks, b.journals[j].date, b);
        SoleCandidate(b, j, b.banks[st.bank].ledger.value, st.direction, b.matches[m].amount, line);
      }
    }
  }

  lemma LockedIff(locks: seq<PeriodLock>, date: Date, b: Books)
    requires locks == b.locks
    ensures MonthUnlocked(b, date) <==> !MovementLocked(locks, date)
  {
  }

  // The expected line is the only candidate of the document's journal.
  ghost predicate ExpectedIsSole(b: Books, s: Id, m: Id, line: LineRef)
    requires LegacyStatementRefusal(b, s, m).None? && LegacyJournalRefusal(b, s, m).None?
  {
    var j, st := ResolveSource(b, b.matches[m].source).value, b.statements[s];
    var found := Candidates(b, j, b.banks[st.bank].ledger.value, st.direction, b.matches[m].amount);
    |found| == 1 && line.journal == j && line.index in found
  }

  lemma {:induction false} SoleCandidate(b: Books, j: Id, ledger: Id, d: Direction, amount: Cents, line: LineRef)
    requires j < |b.journals|
    ensures var found := Candidates(b, j, ledger, d, amount);
      |found| == 1 && line.journal == j && line.index in found <==>
        line.journal == j && line.index < |b.journals[j].lines| && Carries(b, ledger, d, amount, line) &&
        forall i :: 0 <= i < |b.journals[j].lines| && i != line.index ==>
          !Carries(b, ledger, d, amount, LineRef(j, i))
  {
    var found := Candidates(b, j, ledger, d, amount);
    CandidatesAre(b, j, ledger, d, amount);
    assert LineRef(line.journal, line.index) == line;
    if line.index in found && forall i :: i in found ==> i == line.index { assert found == {line.index}; }
    if |found| == 1 && line.index in found {
      forall i | i in found ensures i == line.index { OnlyElement(found, i, line.index); }
    }
  }

  lemma OnlyElement<T>(xs: set<T>, x: T, y: T)
    requires |xs| <= 1 && x in xs && y in xs
    ensures x == y
  {
    if x != y { assert |{x, y}| == 2 && {x, y} <= xs; SetsGrow({x, y}, xs); }
  }

  lemma SetsGrow<T>(xs: set<T>, ys: set<T>)
    requires xs <= ys
    ensures |xs| <= |ys|
  {
    if xs != {} {
      var x :| x in xs;
      SetsGrow(xs - {x}, ys - {x});
    }
  }

  // ---- Matches by document and entries created from a line ----

  function MatchedRow(s: Id): Match -> int {
    (m: Match) => if m.statement == s && m.status == MatchedStatus then m.amount else 0
  }

  // A document is matched exactly when nothing active lies on the line, the matched rows leave room for
  // the amount and the document has no match in force on it.
  lemma {:induction false} MatchedIff(b: Books, s: Id, source: Source, amount: Cents, documentThere: bool)
    ensures MatchLine(b, s, source, amount, documentThere).Entered? <==>
      !source.Canonical? && amount > 0 && documentThere && s < |b.statements| && !b.statements[s].hasDisposition &&
      b.statements[s].status !in {ConfirmedDuplicate, ProvenArtifact, Reconciled} &&
      (forall m :: 0 <= m < |b.matches| && b.matches[m].statement == s ==>
        b.matches[m].state != Active &&
        (b.matches[m].source == source ==> b.matches[m].status in {RejectedStatus, ReversedStatus, UnmatchedStatus})) &&
      Sum(b.matches, MatchedRow(s)) + amount <= b.statements[s].amount
    ensures MatchLine(b, s, source, amount, documentThere).Entered? ==>
      var after := MatchLine(b, s, source, amount, documentThere).books;
      after.matches == b.matches + [Match(s, source, amount, MatchedStatus, None, None, LegacyUnresolved, LegacyMatch,
                                          Legacy, None, false)] &&
      |after.statements| == |b.statements| &&
      after.statements[s].status ==
        if Sum(b.matches, MatchedRow(s)) + amount == b.statements[s].amount then Matched else PartiallyMatched
  {
    SumSame(b.matches, MatchedOn(s), MatchedRow(s));
  }

  // The older creation: nothing but rejected rows on a line not yet processed. Money out credits the
  // bank's account, everything else debits it.
  lemma {:induction false} CreatedFromLineIff(b: Books, s: Id, bankAccount: Option<Id>, target: Id, number: string)
    ensures CreationProblem(b, s, bankAccount).None? <==>
      s < |b.statements| && b.statements[s].status !in {Matched, Reconciled} && bankAccount.Some? &&
      forall m :: 0 <= m < |b.matches| && b.matches[m].statement == s ==>
        b.matches[m].state != Active && b.matches[m].status == RejectedStatus
    ensures s < |b.statements| && bankAccount.Some? ==>
      var st, p := b.statements[s], CreationPayload(b.statements[s], bankAccount.value, target, number);
      p.number == number && p.date == Some(st.date) && p.reversalOf.None? &&
      BooksMoney(Journal(number, st.date, Posted, p.lines, None, None), st, st.amount, bankAccount.value, target)
    ensures CreateFromLine(b, s, bankAccount, target, number).Entered? ==>
      var after, j, st := CreateFromLine(b, s, bankAccount, target, number).books, |b.journals|, b.statements[s];
      |after.journals| == j + 1 && after.journals[j].date == st.date && BooksMoney(after.journals[j], st, st.amount,
        bankAccount.value, target) &&
      after.matches == b.matches + [Match(s, JournalSource(j), st.amount, MatchedStatus, None, None, LegacyUnresolved,
                                          LegacyMatch, Legacy, None, true)] &&
      after.statements == b.statements[s := st.(status := Matched)]
  {
  }

  // Two lines of the amount, between the bank's account and the other one.
  ghost predicate BooksMoney(j: Journal, st: Statement, amount: Cents, bankAccount: Id, other: Id) {
    |j.lines| == 2 &&
    (st.direction == Outflow ==>
      Carrying(j.lines[0], other, amount, 0) && Carrying(j.lines[1], bankAccount, 0, amount)) &&
    (st.direction != Outflow ==>
      Carrying(j.lines[0], bankAccount, amount, 0) && Carrying(j.lines[1], other, 0, amount))
  }

  predicate Carrying(l: Line, account: Id, debit: Cents, credit: Cents) {
    l.account == account && l.debit == debit && l.credit == credit &&
    l.project.None? && l.customer.None? && l.vendor.None?
  }

  // ---- Entries for what is left of a line ----

  ghost predicate OpenForEntry(b: Books, s: Id) {
    s < |b.statements| &&
    var st := b.statements[s];
    BankUsable(b, st.bank) && OneCurrency(b, st, b.banks[st.bank].ledger.value) && CapitalCode(st.currency) &&
    st.importCompleted && !st.hasDisposition && !st.isIgnored &&
    st.status in {Unmatched, PartiallyMatched, Suggested} && st.amount > 0 && Representable(st.amount) &&
    st.direction in {Inflow, Outflow} && NotReconciled(b, st.bank, st.date) &&
    Postable(b, b.banks[st.bank].ledger.value) && !LegacyOnLines(b, st.bank)
  }

  predicate Postable(b: Books, a: Id) {
    a < |b.accounts| && b.accounts[a].isActive && !b.accounts[a].isLocked && b.accounts[a].directPosting
  }

  ghost predicate LegacyOnLines(b: Books, bank: Id) {
    exists m :: 0 <= m < |b.matches| && b.matches[m].state == Legacy &&
      b.matches[m].status in {MatchedStatus, PendingStatus} && OnBankLine(b, bank, b.matches[m].statement)
  }

  lemma {:induction false} OpenForEntryIff(b: Books, s: Id)
    ensures LineProblem(b, s).None? <==> OpenForEntry(b, s)
  {
    if s < |b.statements| && b.statements[s].bank < |b.banks| {
      var k := b.statements[s].bank;
      StatementStatuses(b.statements[s].status);
      if b.banks[k].ledger.Some? { ProfilesIff(b, k); }
      LegacyOnLinesIff(b, k);
      assert SessionClosed(b, k, b.statements[s].date) <==> !NotReconciled(b, k, b.statements[s].date);
    }
  }

  lemma LegacyOnLinesIff(b: Books, bank: Id)
    ensures LegacyOnLines(b, bank) <==> LegacyOnBank(b, bank)
  {
    if LegacyOnBank(b, bank) {
      var m :| 0 <= m < |b.matches| && LiveLegacy(b.matches[m]) && b.matches[m].statement < |b.statements| &&
        b.statements[b.matches[m].statement].bank == bank;
      MatchStatuses(b.matches[m].status);
      assert OnBankLine(b, bank, b.matches[m].statement);
    }
    if LegacyOnLines(b, bank) {
      var m :| 0 <= m < |b.matches| && b.matches[m].state == Legacy &&
        b.matches[m].status in {MatchedStatus, PendingStatus} && OnBankLine(b, bank, b.matches[m].statement);
      assert LiveLegacy(b.matches[m]);
    }
  }

  // The remainder is booked exactly when the line is open, its active rows are verified positive amounts
  // that leave the expected remainder, its status says whether there are any, and the counter account is
  // another usable one in the line's currency.
  lemma {:induction false} EntryIff(b: Books, o: EntryOrder)
    ensures EntryProblem(b, o).None? <==>
      o.actor != "" && 8 <= |o.operation| <= 80 && (forall i :: 0 <= i < |o.operation| ==> Plain(o.operation[i])) &&
      OpenForEntry(b, o.statement) && RemainderFits(b, o.statement, o.expected) &&
      var st := b.statements[o.statement];
      Postable(b, o.counter) && o.counterAllowed && b.banks[st.bank].ledger != Some(o.counter) &&
      (b.accounts[o.counter].currency.Some? ==> b.accounts[o.counter].currency.value == st.currency)
    ensures EntryProblem(b, o).None? ==>
      var p, st := EntryPayload(b, o), b.statements[o.statement];
      p.date == Some(st.date) && p.number == o.number && p.reversalOf.None? &&
      BooksMoney(Journal(p.number, st.date, Posted, p.lines, None, None), st, o.expected, b.banks[st.bank].ledger.value,
                 o.counter) &&
      EntryRow(b, o, |b.journals|) == Match(o.statement, Canonical(|b.matches|), o.expected, MatchedStatus,
        Some(|b.journals|), Some(LineRef(|b.journals|, if st.direction == Outflow then 1 else 0)), Verified,
        StatementCreation, Active, Some(st.bank), false)
  {
    OpenForEntryIff(b, o.statement);
    OperationIdIff(o.operation);
    if OpenForEntry(b, o.statement) {
      var st := b.statements[o.statement];
      RemainderFitsIff(b, o.statement, o.expected);
      CounterIff(b, o, b.banks[st.bank].ledger.value, st.currency);
    }
  }

  lemma OperationIdIff(id: string)
    ensures IsOperationId(id) <==> 8 <= |id| <= 80 && forall i :: 0 <= i < |id| ==> Plain(id[i])
  {
  }

  lemma CounterIff(b: Books, o: EntryOrder, ledger: Id, currency: string)
    ensures CounterProblem(b, o, ledger, currency).None? <==>
      Postable(b, o.counter) && o.counterAllowed && ledger != o.counter &&
      (b.accounts[o.counter].currency.Some? ==> b.accounts[o.counter].currency.value == currency)
  {
    if o.counter < |b.accounts| {
      match b.accounts[o.counter].currency
      case None =>
      case Some(own) =>
    }
  }

  predicate Plain(c: char) { 'a' <= c <= 'z' || 'A' <= c <= 'Z' || '0' <= c <= '9' || c == '_' || c == '-' }

  ghost predicate RemainderFits(b: Books, s: Id, expected: Cents)
    requires s < |b.statements|
  {
    var taken := Sum(b.matches, TakenFrom(s));
    (forall m :: 0 <= m < |b.matches| && b.matches[m].statement == s && b.matches[m].state == Active ==>
      b.matches[m].identity == Verified && b.matches[m].amount > 0 && Representable(b.matches[m].amount)) &&
    expected > 0 && taken + expected == b.statements[s].amount &&
    (b.statements[s].status == PartiallyMatched <==> taken > 0)
  }

  lemma {:induction false} RemainderFitsIff(b: Books, s: Id, expected: Cents)
    requires s < |b.statements|
    ensures RemainderProblem(b, s, expected).None? <==> RemainderFits(b, s, expected)
    ensures Remainder(b, s) + Sum(b.matches, TakenFrom(s)) == b.statements[s].amount
  {
    TakenSums(b.matches);
  }

  // ---- Removal ----

  // The row removed is matched, on the line, and either an active allocation created with its journal or
  // a legacy match saying that its journal was created from the line; the journal reversed is that one.
  lemma {:induction false} RemovedRow(b: Books, s: Id, named: Option<Id>, reason: string, number: string, today: Date)
    requires RemoveCreated(b, s, named, reason, number, today).Removed?
    ensures Choose(b, s, named).Chosen? && Choose(b, s, named).id < |b.matches|
    ensures var m := Choose(b, s, named).id;
      var row, after := b.matches[m], RemoveCreated(b, s, named, reason, number, today).books;
      (named.Some? ==> named == Some(m)) && row.statement == s && row.status == MatchedStatus &&
      ((row.state == Active && row.origin == StatementCreation) || (row.source.JournalSource? && row.createdFromBank &&
        (row.state == Legacy || row.origin == StatementCreation))) &&
      after.matches == b.matches[m := row.(status := ReversedStatus,
        state := if row.state == Active then ReversedAllocation else row.state)] &&
      |after.journals| == |b.journals| + 1 &&
      (row.origin == StatementCreation ==> after.journals[|b.journals|].reversalOf == row.journal) &&
      (row.origin != StatementCreation ==> after.journals[|b.journals|].reversalOf == Some(row.source.id))
    ensures 3 <= |Texts.Trim(reason)| <= 1000 && s < |b.statements| && b.statements[s].status != Reconciled
    ensures b.statements[s].bank < |b.banks| && NotReconciled(b, b.statements[s].bank, b.statements[s].date)
  {
  }

  // A matched row of the line that says that its journal was created from it.
  predicate CreatedFrom(row: Match, s: Id) {
    row.statement == s && row.status == MatchedStatus &&
    ((row.state == Active && row.origin == StatementCreation) ||
     (row.source.JournalSource? && row.createdFromBank && (row.state == Legacy || row.origin == StatementCreation)))
  }

  // The named row is taken if it is one of these; without a name, the only one there is.
  lemma {:induction false} ChosenIff(b: Books, s: Id, named: Option<Id>)
    ensures named.Some? ==>
      (Choose(b, s, named).Chosen? <==> named.value < |b.matches| && CreatedFrom(b.matches[named.value], s))
    ensures named.None? ==>
      (Choose(b, s, named).Chosen? <==> exists m :: SoleCreated(b, s, m))
    ensures Choose(b, s, named).Chosen? && named.None? ==> SoleCreated(b, s, Choose(b, s, named).id)
    ensures Choose(b, s, named).Chosen? && named.Some? ==> Choose(b, s, named).id == named.value
  {
    forall k: Id | k < |b.matches| ensures CreatedHere(b, s, k) <==> CreatedFrom(b.matches[k], s) {
    }
    var last := LastCreated(b, s, |b.matches|);
    if m: Id :| SoleCreated(b, s, m) {
      assert CreatedHere(b, s, m);
      assert last.Some? && CreatedHere(b, s, last.value);
      assert last.value == m;
      assert LastCreated(b, s, m).None?;
    }
    if last.Some? && LastCreated(b, s, last.value).None? { assert SoleCreated(b, s, last.value); }
  }

  ghost predicate SoleCreated(b: Books, s: Id, m: Id) {
    m < |b.matches| && CreatedFrom(b.matches[m], s) &&
    forall k: Id :: k < |b.matches| && k != m ==> !CreatedFrom(b.matches[k], s)
  }

  // Removal: a reason, a line not reconciled by session or cutoff, one row to choose, the reversal of its
  // journal, the row's own allocation exempted if it was created with it, and a representable rest.
  lemma {:induction false} RemovedIff(b: Books, s: Id, named: Option<Id>, reason: string, number: string, today: Date)
    ensures RemovalProblem(b, s, named, reason).None? <==>
      3 <= |Texts.Trim(reason)| <= 1000 && s < |b.statements| && b.statements[s].bank < |b.banks| &&
      b.statements[s].status != Reconciled && NotReconciled(b, b.statements[s].bank, b.statements[s].date) &&
      (b.banks[b.statements[s].bank].reconciledThrough.Some? ==>
        b.banks[b.statements[s].bank].reconciledThrough.value < b.statements[s].date) &&
      Choose(b, s, named).Chosen?
    ensures RemoveCreated(b, s, named, reason, number, today).Removed? ==>
      var row, m := b.matches[Choose(b, s, named).id], Choose(b, s, named).id;
      row.origin == StatementCreation ==>
        row.journal.Some? && Reverse(b, row.journal.value, number, today, Some(m)).Done?
    ensures RemoveCreated(b, s, named, reason, number, today).Removed? ==>
      var row := b.matches[Choose(b, s, named).id];
      row.origin != StatementCreation ==>
        row.source.JournalSource? && Reverse(b, row.source.id, number, today, None).Done?
  {
  }

  // ---- Dropping ----

  // A match that is there, not active and not of a created entry is dropped; its line is MATCHED if
  // another matched row is left on it, and UNMATCHED otherwise.
  lemma {:induction false} DroppedIff(b: Books, m: Id)
    ensures Drop(b, m).Entered? <==>
      m < |b.matches| && b.matches[m] != Deleted(b.matches[m].statement) && b.matches[m].state != Active &&
      !(b.matches[m].source.JournalSource? && b.matches[m].createdFromBank)
    ensures Drop(b, m).Entered? ==>
      var s, after := b.matches[m].statement, Drop(b, m).books;
      |after.matches| == |b.matches| && after.matches[m].status == RejectedStatus &&
        after.matches[m].state == Unallocated &&
      after.matches[m].amount == 0 && after.matches[m].line.None? && after.matches[m].statement == s &&
      (forall k :: 0 <= k < |b.matches| && k != m ==> after.matches[k] == b.matches[k]) &&
      |after.statements| == |b.statements| &&
      (forall t :: 0 <= t < |b.statements| && t != s ==> after.statements[t] == b.statements[t]) &&
      (s < |b.statements| ==>
        (after.statements[s].status == Matched <==> AnotherMatched(b.matches, m, s)) &&
        (after.statements[s].status == Unmatched <==> !AnotherMatched(b.matches, m, s)))
  {
    if Drop(b, m).Entered? { AnotherIff(b.matches, m, b.matches[m].statement); }
  }

  ghost predicate AnotherMatched(matches: seq<Match>, m: Id, s: Id) {
    exists k: Id :: k < |matches| && k != m && matches[k].statement == s && matches[k].status == MatchedStatus
  }

  lemma AnotherIff(matches: seq<Match>, m: Id, s: Id)
    requires m < |matches|
    ensures AnotherMatched(matches, m, s) <==> MatchedRowOn(matches[m := Deleted(s)], s)
  {
    var after := matches[m := Deleted(s)];
    if AnotherMatched(matches, m, s) {
      var k: Id :| k < |matches| && k != m && matches[k].statement == s && matches[k].status == MatchedStatus;
      assert after[k] == matches[k];
    }
    if MatchedRowOn(after, s) {
      var k :| 0 <= k < |after| && after[k].statement == s && after[k].status == MatchedStatus;
      assert k != m && after[k] == matches[k];
    }
  }

  // ---- Why an allocation is refused ----

  // The amount and the actor first, then the statement line, then the journal line, then what is left of
  // either.
  lemma {:induction false} AllocateRefusedBecause(b: Books, s: Id, line: LineRef, amount: Cents, actor: string)
    ensures AllocateRefusal(b, s, line, amount, actor) == Some(RequestedInvalidAmount) <==>
      amount <= 0 || !Representable(amount)
    ensures AllocateRefusal(b, s, line, amount, actor) == Some(ActorRequired) <==>
      amount > 0 && Representable(amount) && actor == ""
    ensures amount > 0 && Representable(amount) && actor != "" ==>
      var refusal, open := AllocateRefusal(b, s, line, amount, actor), OpenForMoney(b, s);
      (refusal == Some(LegacyPending) ==> s < |b.statements| && LegacyWaits(b, b.statements[s].bank)) &&
      (open && !LegacyWaits(b, b.statements[s].bank) ==>
        (!LiveMovement(b, s, line) <==> refusal in {Some(MovementNotFound), Some(MovementNotPosted),
          Some(ReversalUnsupported), Some(SideInvalid), Some(MovementPeriodLocked)}) &&
        (LiveMovement(b, s, line) ==>
          (refusal == Some(StatementCapacityExceeded) <==>
            SumsFit(b, s, line) && Sum(b.matches, TakenFrom(s)) + amount > b.statements[s].amount)))
  {
    OpenForMoneyIff(b, s);
    TakenSums(b.matches);
    if s < |b.statements| && b.statements[s].bank < |b.banks| { WaitsIff(b, b.statements[s].bank); }
    if StatementRefusal(b, s).None? { LiveMovementIff(b, s, line); }
  }

  // Both sums can be written with thirteen digits.
  ghost predicate SumsFit(b: Books, s: Id, line: LineRef) {
    Representable(Sum(b.matches, TakenFrom(s))) && Representable(Sum(b.matches, TakenOf(line)))
  }

  // Each reason a statement line is refused for, in its columns.
  lemma {:induction false} StatementRefusedBecause(b: Books, s: Id)
    requires s < |b.statements| && b.statements[s].bank < |b.banks| && StatementRefusal(b, s).Some?
    ensures var st, bank, reason := b.statements[s], b.banks[b.statements[s].bank], StatementRefusal(b, s).value;
      (reason == DispositionActive <==> st.hasDisposition || st.status in {ConfirmedDuplicate, ProvenArtifact}) &&
      (reason == ImportNotComplete ==> !st.importCompleted) && (reason == LedgerNotLinked ==> bank.ledger.None?) &&
      (reason == ProfileAmbiguous ==> bank.ledger.Some? && ManyProfiles(b, bank.ledger.value)) &&
      (reason == BankInactive ==> !bank.isActive || bank.isArchived) &&
      (reason == StatementInvalidAmount ==> st.amount <= 0 || !Representable(st.amount)) &&
      (reason == ReviewRequired ==>
        st.isIgnored || st.status in {Ignored, NeedsReview, PossibleDuplicate, ToReview, Recognized}) &&
      (reason == ReconciliationCompleted ==> st.status == Reconciled || !NotReconciled(b, st.bank, st.date)) &&
      (reason == LegacyPending ==> LegacyWaits(b, st.bank)) &&
        (reason == DirectionInvalid ==> st.direction == UnknownDirection)
  {
    WaitsIff(b, b.statements[s].bank);
  }
}
