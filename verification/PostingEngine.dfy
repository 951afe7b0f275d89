// server/src/accounting/postingEngine.ts: posting balanced journals.
module PostingEngine {
  import opened Texts
  import opened Tables
  import opened Sums

  datatype Payload = Payload(number: string, date: Option<Date>, lines: seq<Line>, reversalOf: Option<Id>)

  datatype Refusal =
    | RecoveryLocked | DateInvalid | HeaderInvalid | LineInvalid | Unbalanced
    | CutoffLocked | PeriodIsLocked | AccountUnusable | ReferenceUnknown | NumberTaken
    | DraftNotFound | AlreadyPosted | TooFewLines
    // reversal only
    | AllocationActive | AllocationNotEligible | JournalNotFound | JournalNotPosted
    | AlreadyReversed | IsReversal

  datatype Outcome = Done(books: Books, id: Id) | Refused(reason: Refusal)
  datatype Reply = Accepted(id: Id) | Rejected(refusal: Refusal)

  // What a caller sees of an outcome, given the tables before and after the call.
  ghost predicate Commits(before: Books, after: Books, reply: Reply, outcome: Outcome) {
    match outcome
    case Done(books, id) => reply == Accepted(id) && after == books
    case Refused(reason) => reply == Rejected(reason) && after == before
  }

  // ---- Normal sides and movements ----

  function NormalSide(a: Account): Side {
    if a.normalIsExplicit && a.normal.Some? then a.normal.value
    else if a.kind in {"Liability", "Equity", "Income", "Revenue", "Other Income"} then Credit
    else Debit
  }

  function SideOf(accounts: seq<Account>, a: Id): Side {
    if a < |accounts| then NormalSide(accounts[a]) else Debit
  }

  function Movement(side: Side, l: Line): Cents {
    if side == Debit then l.debit - l.credit else l.credit - l.debit
  }

  function Touches(bank: Bank, a: Id): bool {
    bank.ledger == Some(a) || bank.sameIdAs == Some(a)
  }

  // A line's effect on the cached balance of account a, and of a bank.
  function OnAccount(accounts: seq<Account>, a: Id): Line -> int {
    (l: Line) => if l.account == a then Movement(SideOf(accounts, a), l) else 0
  }

  function OnBank(accounts: seq<Account>, bank: Bank): Line -> int {
    (l: Line) => if Touches(bank, l.account) then Movement(SideOf(accounts, l.account), l) else 0
  }

  function DebitOf(l: Line): int { l.debit }
  function CreditOf(l: Line): int { l.credit }

  function AccountsMoved(b: Books, lines: seq<Line>): seq<Cents> {
    seq(|b.balances|, i requires 0 <= i < |b.balances| => b.balances[i] + Sum(lines, OnAccount(b.accounts, i)))
  }

  function BanksMoved(b: Books, lines: seq<Line>): seq<Cents> {
    seq(|b.bankBalances|, i requires 0 <= i < |b.bankBalances| =>
      b.bankBalances[i] + if i < |b.banks| then Sum(lines, OnBank(b.accounts, b.banks[i])) else 0)
  }

  // ---- Checks ----

  predicate LineOk(l: Line) {
    0 <= l.debit <= MAX_SAFE_CENTS && 0 <= l.credit <= MAX_SAFE_CENTS && (l.debit == 0) != (l.credit == 0)
  }

  predicate Usable(b: Books, a: Id) {
    a < |b.accounts| && !b.accounts[a].isLocked && b.accounts[a].isActive && b.accounts[a].directPosting
  }

  predicate ReferencesOk(b: Books, l: Line) {
    (l.project.Some? ==> l.project.value in b.projects) &&
    (l.customer.Some? ==> l.customer.value in b.customers) &&
    (l.vendor.Some? ==> l.vendor.value in b.vendors)
  }

  predicate NumberInUse(b: Books, number: string) {
    exists i :: 0 <= i < |b.journals| && b.journals[i].number == number
  }

  predicate LockedOn(locks: seq<PeriodLock>, date: Date) {
    exists k :: 0 <= k < |locks| && locks[k].statusActive && locks[k].lockDate.Some? && locks[k].lockDate.value >= date
  }

  // GREATEST of the bank's reconciled date and its last completed session, floored at FIRST_DATE.
  predicate BehindCutoff(b: Books, bank: nat, date: Date)
    requires bank < |b.banks|
  {
    date <= FIRST_DATE ||
    (b.banks[bank].reconciledThrough.Some? && date <= b.banks[bank].reconciledThrough.value) ||
    exists s :: 0 <= s < |b.sessions| && b.sessions[s].bank == bank && b.sessions[s].completed &&
      date <= b.sessions[s].endDate
  }

  predicate CutoffHit(b: Books, date: Date, lines: seq<Line>) {
    exists k, i :: 0 <= k < |b.banks| && 0 <= i < |lines| &&
      b.banks[k].ledger == Some(lines[i].account) && BehindCutoff(b, k, date)
  }

  function ShapeCheck(): Line -> Option<Refusal> {
    (l: Line) => if LineOk(l) then None else Some(LineInvalid)
  }

  function PostCheck(b: Books): Line -> Option<Refusal> {
    (l: Line) => if !Usable(b, l.account) then Some(AccountUnusable)
         else if !ReferencesOk(b, l) then Some(ReferenceUnknown)
         else None
  }

  function DraftCheck(b: Books): Line -> Option<Refusal> {
    (l: Line) => if !LineOk(l) then Some(LineInvalid)
         else if !Usable(b, l.account) then Some(AccountUnusable)
         else None
  }

  // The refusal of the first line that fails the check.
  function FirstProblem(lines: seq<Line>, check: Line -> Option<Refusal>): (r: Option<Refusal>)
    ensures r.None? <==> forall i :: 0 <= i < |lines| ==> check(lines[i]).None?
  {
    if lines == [] then None
    else
      var r := FirstProblem(lines[..|lines| - 1], check);
      if r.Some? then r else check(lines[|lines| - 1])
  }

  lemma {:induction false} FirstProblemAt(lines: seq<Line>, check: Line -> Option<Refusal>, i: nat)
    requires i < |lines| && check(lines[i]).Some?
    requires forall k :: 0 <= k < i ==> check(lines[k]).None?
    ensures FirstProblem(lines, check) == check(lines[i])
  {
    if i < |lines| - 1 { FirstProblemAt(lines[..|lines| - 1], check, i); }
  }

  predicate Balances(lines: seq<Line>) {
    Sum(lines, DebitOf) == Sum(lines, CreditOf) != 0
  }

  // ---- Specifications of the two posting operations ----

  function PostRefusal(b: Books, p: Payload): Option<Refusal> {
    if b.recoveryLocked then Some(RecoveryLocked)
    else if p.date.None? then Some(DateInvalid)
    else if Trim(p.number) == "" || |p.lines| < 2 then Some(HeaderInvalid)
    else if FirstProblem(p.lines, ShapeCheck()).Some? then Some(LineInvalid)
    else if !Balances(p.lines) then Some(Unbalanced)
    else if CutoffHit(b, p.date.value, p.lines) then Some(CutoffLocked)
    else if LockedOn(b.locks, p.date.value) then Some(PeriodIsLocked)
    else if FirstProblem(p.lines, PostCheck(b)).Some? then FirstProblem(p.lines, PostCheck(b))
    // the query compares the raw number, the unique index the trimmed one that is inserted
    else if NumberInUse(b, p.number) || NumberInUse(b, Trim(p.number)) then Some(NumberTaken)
    else None
  }

  function Post(b: Books, p: Payload): Outcome {
    var refusal := PostRefusal(b, p);
    if refusal.Some? then Refused(refusal.value)
    else
      var row := Journal(Trim(p.number), p.date.value, Posted, p.lines, p.reversalOf, None);
      Done(b.(journals := b.journals + [row],
              balances := AccountsMoved(b, p.lines),
              bankBalances := BanksMoved(b, p.lines)),
           |b.journals|)
  }

  function DraftRefusal(b: Books, j: Id): Option<Refusal> {
    if b.recoveryLocked then Some(RecoveryLocked)
    else if j >= |b.journals| then Some(DraftNotFound)
    else
      var row := b.journals[j];
      if row.status == Posted then Some(AlreadyPosted)
      else if CutoffHit(b, row.date, row.lines) then Some(CutoffLocked)
      else if LockedOn(b.locks, row.date) then Some(PeriodIsLocked)
      else if |row.lines| < 2 then Some(TooFewLines)
      else if FirstProblem(row.lines, DraftCheck(b)).Some? then FirstProblem(row.lines, DraftCheck(b))
      else if !Balances(row.lines) then Some(Unbalanced)
      else None
  }

  function PostDraft(b: Books, j: Id): Outcome {
    var refusal := DraftRefusal(b, j);
    if refusal.Some? then Refused(refusal.value)
    else
      Done(b.(journals := b.journals[j := b.journals[j].(status := Posted)],
              balances := AccountsMoved(b, b.journals[j].lines),
              bankBalances := BanksMoved(b, b.journals[j].lines)),
           j)
  }

  // ---- The services ----

  // The balance updates of one line: one account row, and every bank row the line touches.
  method ApplyLine(db: Database, line: Line, ghost start: Books, ghost done: seq<Line>)
    requires line.account < |db.accounts| <= |db.balances|
    requires |db.bankBalances| == |db.banks|
    requires db.accounts == start.accounts && db.banks == start.banks
    requires db.balances == AccountsMoved(start, done) && db.bankBalances == BanksMoved(start, done)
    modifies db`balances, db`bankBalances
    ensures db.balances == AccountsMoved(start, done + [line])
    ensures db.bankBalances == BanksMoved(start, done + [line])
  {
    MovedOneMore(start, done, line);
    var delta := Movement(NormalSide(db.accounts[line.account]), line);
    db.balances := db.balances[line.account := db.balances[line.account] + delta];
    assert db.balances == AccountsMoved(start, done + [line]);
    db.bankBalances := WithBanksMoved(db.banks, db.bankBalances, line.account, delta);
  }

  // UPDATE bank_accounts for every bank whose ledger account is this one.
  function WithBanksMoved(banks: seq<Bank>, bankBalances: seq<Cents>, account: Id, delta: Cents): (moved: seq<Cents>)
    requires |banks| == |bankBalances|
    ensures |moved| == |bankBalances|
    ensures forall k :: 0 <= k < |banks| ==>
      moved[k] == bankBalances[k] + if Touches(banks[k], account) then delta else 0
  {
    seq(|banks|, k requires 0 <= k < |banks| =>
      if Touches(banks[k], account) then bankBalances[k] + delta else bankBalances[k])
  }

  lemma MovedOneMore(b: Books, done: seq<Line>, line: Line)
    ensures forall i :: 0 <= i < |b.balances| ==>
      AccountsMoved(b, done + [line])[i] == AccountsMoved(b, done)[i] + OnAccount(b.accounts, i)(line)
    ensures |b.banks| == |b.bankBalances| ==> forall k :: 0 <= k < |b.bankBalances| ==>
      BanksMoved(b, done + [line])[k] == BanksMoved(b, done)[k] + OnBank(b.accounts, b.banks[k])(line)
  {
    forall i | 0 <= i < |b.balances|
      ensures AccountsMoved(b, done + [line])[i] == AccountsMoved(b, done)[i] + OnAccount(b.accounts, i)(line)
    {
      SumSnoc(done, line, OnAccount(b.accounts, i));
    }
    if |b.banks| == |b.bankBalances| {
      forall k | 0 <= k < |b.bankBalances|
        ensures BanksMoved(b, done + [line])[k] == BanksMoved(b, done)[k] + OnBank(b.accounts, b.banks[k])(line)
      {
        SumSnoc(done, line, OnBank(b.accounts, b.banks[k]));
      }
    }
  }

  lemma NothingMoved(b: Books)
    ensures AccountsMoved(b, []) == b.balances && BanksMoved(b, []) == b.bankBalances
  {
  }

  // The validation loop of postEntry: every line is well shaped, and what the two sides add up to.
  method AddUpLines(lines: seq<Line>) returns (ok: bool, debitCents: Cents, creditCents: Cents)
    ensures ok <==> forall k :: 0 <= k < |lines| ==> LineOk(lines[k])
    ensures ok ==> debitCents == Sum(lines, DebitOf) && creditCents == Sum(lines, CreditOf)
  {
    debitCents, creditCents := 0, 0;
    for i := 0 to |lines|
      invariant debitCents == Sum(lines[..i], DebitOf) && creditCents == Sum(lines[..i], CreditOf)
      invariant forall k :: 0 <= k < i ==> LineOk(lines[k])
    {
      if !LineOk(lines[i]) { return false, debitCents, creditCents; }
      assert lines[..i + 1] == lines[..i] + [lines[i]];
      SumSnoc(lines[..i], lines[i], DebitOf);
      SumSnoc(lines[..i], lines[i], CreditOf);
      debitCents, creditCents := debitCents + lines[i].debit, creditCents + lines[i].credit;
    }
    assert lines[..|lines|] == lines;
    ok := true;
  }

  // The account and reference loop of postEntry; the first offending line decides the refusal.
  method CheckLines(db: Database, lines: seq<Line>) returns (problem: Option<Refusal>)
    ensures problem == FirstProblem(lines, PostCheck(db.Snapshot()))
  {
    var b := db.Snapshot();
    for i := 0 to |lines|
      invariant forall k :: 0 <= k < i ==> PostCheck(b)(lines[k]).None?
    {
      if !Usable(b, lines[i].account) {
        FirstProblemAt(lines, PostCheck(b), i);
        return Some(AccountUnusable);
      }
      if !ReferencesOk(b, lines[i]) {
        FirstProblemAt(lines, PostCheck(b), i);
        return Some(ReferenceUnknown);
      }
    }
    problem := None;
  }

  // The validation loop of postExistingDraft, which does both kinds of check line by line.
  method CheckDraftLines(db: Database, lines: seq<Line>)
    returns (problem: Option<Refusal>, debitCents: Cents, creditCents: Cents)
    ensures problem == FirstProblem(lines, DraftCheck(db.Snapshot()))
    ensures problem.None? ==> debitCents == Sum(lines, DebitOf) && creditCents == Sum(lines, CreditOf)
  {
    var b := db.Snapshot();
    debitCents, creditCents := 0, 0;
    for i := 0 to |lines|
      invariant debitCents == Sum(lines[..i], DebitOf) && creditCents == Sum(lines[..i], CreditOf)
      invariant forall k :: 0 <= k < i ==> DraftCheck(b)(lines[k]).None?
    {
      if !LineOk(lines[i]) {
        FirstProblemAt(lines, DraftCheck(b), i);
        return Some(LineInvalid), debitCents, creditCents;
      }
      if !Usable(b, lines[i].account) {
        FirstProblemAt(lines, DraftCheck(b), i);
        return Some(AccountUnusable), debitCents, creditCents;
      }
      assert lines[..i + 1] == lines[..i] + [lines[i]];
      SumSnoc(lines[..i], lines[i], DebitOf);
      SumSnoc(lines[..i], lines[i], CreditOf);
      debitCents, creditCents := debitCents + lines[i].debit, creditCents + lines[i].credit;
    }
    assert lines[..|lines|] == lines;
    problem := None;
  }

  // The insert loop of postEntry: each line is appended and its balances moved at once.
  method InsertEntry(db: Database, header: Journal, lines: seq<Line>)
    requires |db.accounts| == |db.balances| && |db.banks| == |db.bankBalances|
    requires header.lines == [] && forall k :: 0 <= k < |lines| ==> lines[k].account < |db.accounts|
    modifies db`journals, db`balances, db`bankBalances
    ensures db.journals == old(db.journals) + [header.(lines := lines)]
    ensures db.balances == AccountsMoved(old(db.Snapshot()), lines)
    ensures db.bankBalances == BanksMoved(old(db.Snapshot()), lines)
  {
    ghost var b := db.Snapshot();
    var id := |db.journals|;
    db.journals := db.journals + [header];
    NothingMoved(b);
    for i := 0 to |lines|
      invariant db.journals == b.journals + [header.(lines := lines[..i])]
      invariant db.balances == AccountsMoved(b, lines[..i])
      invariant db.bankBalances == BanksMoved(b, lines[..i])
    {
      assert lines[..i + 1] == lines[..i] + [lines[i]];
      db.journals := db.journals[id := db.journals[id].(lines := db.journals[id].lines + [lines[i]])];
      ApplyLine(db, lines[i], b, lines[..i]);
    }
    assert lines[..|lines|] == lines;
  }

  method PostEntry(db: Database, p: Payload) returns (reply: Reply)
    requires |db.accounts| == |db.balances| && |db.banks| == |db.bankBalances|
    modifies db
    ensures Commits(old(db.Snapshot()), db.Snapshot(), reply, Post(old(db.Snapshot()), p))
  {
    ghost var b := db.Snapshot();
    if db.recoveryLocked { return Rejected(RecoveryLocked); }
    if p.date.None? { return Rejected(DateInvalid); }
    if Trim(p.number) == "" || |p.lines| < 2 { return Rejected(HeaderInvalid); }
    var ok, debitCents, creditCents := AddUpLines(p.lines);
    if !ok { return Rejected(LineInvalid); }
    if debitCents != creditCents || debitCents == 0 { return Rejected(Unbalanced); }
    if CutoffHit(db.Snapshot(), p.date.value, p.lines) { return Rejected(CutoffLocked); }
    if LockedOn(db.locks, p.date.value) { return Rejected(PeriodIsLocked); }
    var problem := CheckLines(db, p.lines);
    if problem.Some? { return Rejected(problem.value); }
    if NumberInUse(db.Snapshot(), p.number) || NumberInUse(db.Snapshot(), Trim(p.number)) {
      return Rejected(NumberTaken);
    }
    assert PostRefusal(b, p).None?;
    assert forall k :: 0 <= k < |p.lines| ==> PostCheck(b)(p.lines[k]).None?;
    var id := |db.journals|;
    InsertEntry(db, Journal(Trim(p.number), p.date.value, Posted, [], p.reversalOf, None), p.lines);
    return Accepted(id);
  }

  method PostExistingDraft(db: Database, j: Id) returns (reply: Reply)
    requires |db.accounts| == |db.balances| && |db.banks| == |db.bankBalances|
    modifies db
    ensures Commits(old(db.Snapshot()), db.Snapshot(), reply, PostDraft(old(db.Snapshot()), j))
  {
    ghost var b := db.Snapshot();
    if db.recoveryLocked { return Rejected(RecoveryLocked); }
    if j >= |db.journals| { return Rejected(DraftNotFound); }
    var row := db.journals[j];
    if row.status == Posted { return Rejected(AlreadyPosted); }
    if CutoffHit(db.Snapshot(), row.date, row.lines) { return Rejected(CutoffLocked); }
    if LockedOn(db.locks, row.date) { return Rejected(PeriodIsLocked); }
    if |row.lines| < 2 { return Rejected(TooFewLines); }
    var problem, debitCents, creditCents := CheckDraftLines(db, row.lines);
    if problem.Some? { return Rejected(problem.value); }
    if debitCents != creditCents || debitCents == 0 { return Rejected(Unbalanced); }

    NothingMoved(b);
    for i := 0 to |row.lines|
      invariant db.Snapshot() == b.(balances := AccountsMoved(b, row.lines[..i]),
                                    bankBalances := BanksMoved(b, row.lines[..i]))
    {
      assert DraftCheck(b)(row.lines[i]).None?;
      assert row.lines[..i + 1] == row.lines[..i] + [row.lines[i]];
      ApplyLine(db, row.lines[i], b, row.lines[..i]);
    }
    assert row.lines[..|row.lines|] == row.lines;
    db.journals := db.journals[j := row.(status := Posted)];
    return Accepted(j);
  }
}
