// What an accepted posting, draft or reversal has checked and moved, in the columns of the tables.
module PostingChecks {
  import Texts
  import opened Tables
  import opened Sums
  import opened PostingEngine
  import opened JournalReversal
  import opened LedgerLaws
  import opened ManualReversal

  // ---- Which way a balance moves ----

  // An account grows with its debits if it is said to, or if nothing is said and it is no liability,
  // equity or income account.
  predicate GrowsWithDebits(a: Account) {
    if a.normalIsExplicit && a.normal.Some? then a.normal.value == Debit else a.kind !in CREDIT_KINDS
  }

  const CREDIT_KINDS: set<string> := {"Liability", "Equity", "Income", "Revenue", "Other Income"}

  function DebitedTo(a: Id): Line -> int { (l: Line) => if l.account == a then l.debit else 0 }
  function CreditedTo(a: Id): Line -> int { (l: Line) => if l.account == a then l.credit else 0 }

  lemma {:induction false} LinesMoveAccount(b: Books, lines: seq<Line>, a: Id)
    requires a < |b.accounts| && a < |b.balances|
    ensures var debits, credits := Sum(lines, DebitedTo(a)), Sum(lines, CreditedTo(a));
      AccountsMoved(b, lines)[a] ==
        b.balances[a] + if GrowsWithDebits(b.accounts[a]) then debits - credits else credits - debits
  {
    if lines != [] {
      var front, l := lines[..|lines| - 1], lines[|lines| - 1];
      LinesMoveAccount(b, front, a);
      assert lines == front + [l];
      SumSnoc(front, l, OnAccount(b.accounts, a));
    }
  }

  // Posting moves the balance of account a by the debits less the credits on it, or the other way round.
  lemma {:induction false} PostMovesAccount(b: Books, p: Payload, a: Id)
    requires Post(b, p).Done? && a < |b.accounts| && a < |b.balances|
    ensures var debits, credits := Sum(p.lines, DebitedTo(a)), Sum(p.lines, CreditedTo(a));
      |Post(b, p).books.balances| == |b.balances| &&
      Post(b, p).books.balances[a] ==
        b.balances[a] + if GrowsWithDebits(b.accounts[a]) then debits - credits else credits - debits
  {
    LinesMoveAccount(b, p.lines, a);
  }

  lemma {:induction false} DraftMovesAccount(b: Books, j: Id, a: Id)
    requires PostDraft(b, j).Done? && a < |b.accounts| && a < |b.balances|
    ensures var debits, credits := Sum(b.journals[j].lines, DebitedTo(a)), Sum(b.journals[j].lines, CreditedTo(a));
      |PostDraft(b, j).books.balances| == |b.balances| &&
      PostDraft(b, j).books.balances[a] ==
        b.balances[a] + if GrowsWithDebits(b.accounts[a]) then debits - credits else credits - debits
  {
    LinesMoveAccount(b, b.journals[j].lines, a);
  }

  // A line reaches a bank through the bank's ledger account, or an account with the bank's own id.
  function MovesBank(accounts: seq<Account>, bank: Bank): Line -> int {
    (l: Line) =>
      if bank.ledger != Some(l.account) && bank.sameIdAs != Some(l.account) then 0
      else if l.account < |accounts| && !GrowsWithDebits(accounts[l.account]) then l.credit - l.debit
      else l.debit - l.credit
  }

  lemma {:induction false} PostMovesBank(b: Books, p: Payload, k: Id)
    requires Post(b, p).Done? && k < |b.banks| && k < |b.bankBalances|
    ensures |Post(b, p).books.bankBalances| == |b.bankBalances|
    ensures Post(b, p).books.bankBalances[k] == b.bankBalances[k] + Sum(p.lines, MovesBank(b.accounts, b.banks[k]))
  {
    SumSame(p.lines, OnBank(b.accounts, b.banks[k]), MovesBank(b.accounts, b.banks[k]));
  }

  lemma {:induction false} DraftMovesBank(b: Books, j: Id, k: Id)
    requires PostDraft(b, j).Done? && k < |b.banks| && k < |b.bankBalances|
    ensures |PostDraft(b, j).books.bankBalances| == |b.bankBalances|
    ensures PostDraft(b, j).books.bankBalances[k] ==
      b.bankBalances[k] + Sum(b.journals[j].lines, MovesBank(b.accounts, b.banks[k]))
  {
    SumSame(b.journals[j].lines, OnBank(b.accounts, b.banks[k]), MovesBank(b.accounts, b.banks[k]));
  }

  // ---- What is accepted ----

  // Money on one side only, positive and a safe integer, on an active account open to direct posting.
  predicate GoodLine(b: Books, l: Line) {
    ((l.credit == 0 && 0 < l.debit <= 9007199254740991) || (l.debit == 0 && 0 < l.credit <= 9007199254740991)) &&
    l.account < |b.accounts| && b.accounts[l.account].isActive && !b.accounts[l.account].isLocked &&
    b.accounts[l.account].directPosting
  }

  predicate KnownReferences(b: Books, l: Line) {
    (l.project.None? || l.project.value in b.projects) && (l.customer.None? || l.customer.value in b.customers) &&
    (l.vendor.None? || l.vendor.value in b.vendors)
  }

  // The day lies after every lock in force, and after the reconciliations of every bank the lines reach.
  ghost predicate DayIsOpen(b: Books, date: Date, lines: seq<Line>) {
    (forall k :: 0 <= k < |b.locks| && b.locks[k].statusActive && b.locks[k].lockDate.Some? ==>
      b.locks[k].lockDate.value < date) &&
    (forall i, k :: 0 <= i < |lines| && 0 <= k < |b.banks| && b.banks[k].ledger == Some(lines[i].account) ==>
      date > 10101 && (b.banks[k].reconciledThrough.Some? ==> b.banks[k].reconciledThrough.value < date)) &&
    (forall i, k, e :: 0 <= i < |lines| && 0 <= k < |b.banks| && 0 <= e < |b.sessions| ==>
      b.banks[k].ledger == Some(lines[i].account) && b.sessions[e].bank == k && b.sessions[e].completed ==>
        b.sessions[e].endDate < date)
  }

  lemma {:induction false} DayIsOpenIff(b: Books, date: Date, lines: seq<Line>)
    ensures DayIsOpen(b, date, lines) <==> !LockedOn(b.locks, date) && !CutoffHit(b, date, lines)
  {
    if !CutoffHit(b, date, lines) {
      forall i, k | 0 <= i < |lines| && 0 <= k < |b.banks| && b.banks[k].ledger == Some(lines[i].account)
        ensures !BehindCutoff(b, k, date)
      {
      }
    }
  }

  // Lines of positive amounts do not add up to nothing.
  lemma {:induction false} GoodLinesBalance(b: Books, lines: seq<Line>)
    requires |lines| >= 2 && forall i :: 0 <= i < |lines| ==> GoodLine(b, lines[i])
    ensures Balances(lines) <==> Sum(lines, DebitOf) == Sum(lines, CreditOf)
  {
    SumNonNegative(lines, DebitOf);
    SumNonNegative(lines, CreditOf);
    SumBoundsRow(lines, 0, DebitOf);
    SumBoundsRow(lines, 0, CreditOf);
  }

  // An entry is posted exactly when these hold, and then it is the last journal, with these lines.
  lemma {:induction false} PostedIff(b: Books, p: Payload)
    ensures Post(b, p).Done? <==>
      !b.recoveryLocked && p.date.Some? && Texts.Trim(p.number) != "" && |p.lines| >= 2 &&
      (forall i :: 0 <= i < |p.lines| ==> GoodLine(b, p.lines[i]) && KnownReferences(b, p.lines[i])) &&
      Sum(p.lines, DebitOf) == Sum(p.lines, CreditOf) && DayIsOpen(b, p.date.value, p.lines) &&
      forall j :: 0 <= j < |b.journals| ==>
        b.journals[j].number != p.number && b.journals[j].number != Texts.Trim(p.number)
    ensures Post(b, p).Done? ==>
      Post(b, p).books.journals ==
        b.journals + [Journal(Texts.Trim(p.number), p.date.value, Posted, p.lines, p.reversalOf, None)]
  {
    if p.date.Some? { DayIsOpenIff(b, p.date.value, p.lines); }
    var good := |p.lines| >= 2 && forall i :: 0 <= i < |p.lines| ==>
      GoodLine(b, p.lines[i]) && KnownReferences(b, p.lines[i]);
    LinesPassIff(b, p.lines);
    if good { GoodLinesBalance(b, p.lines); }
  }

  lemma {:induction false} LinesPassIff(b: Books, lines: seq<Line>)
    ensures FirstProblem(lines, ShapeCheck()).None? && FirstProblem(lines, PostCheck(b)).None? <==>
      forall i :: 0 <= i < |lines| ==> GoodLine(b, lines[i]) && KnownReferences(b, lines[i])
    ensures FirstProblem(lines, DraftCheck(b)).None? <==> forall i :: 0 <= i < |lines| ==> GoodLine(b, lines[i])
  {
    forall i | 0 <= i < |lines|
      ensures ShapeCheck()(lines[i]).None? && PostCheck(b)(lines[i]).None? <==>
        GoodLine(b, lines[i]) && KnownReferences(b, lines[i])
      ensures DraftCheck(b)(lines[i]).None? <==> GoodLine(b, lines[i])
    {
    }
  }

  // So is a stored draft, which keeps its lines; its references are not looked at.
  lemma {:induction false} DraftPostedIff(b: Books, j: Id)
    ensures PostDraft(b, j).Done? <==>
      !b.recoveryLocked && j < |b.journals| && b.journals[j].status != Posted && |b.journals[j].lines| >= 2 &&
      (forall i :: 0 <= i < |b.journals[j].lines| ==> GoodLine(b, b.journals[j].lines[i])) &&
      Sum(b.journals[j].lines, DebitOf) == Sum(b.journals[j].lines, CreditOf) &&
      DayIsOpen(b, b.journals[j].date, b.journals[j].lines)
    ensures PostDraft(b, j).Done? ==>
      PostDraft(b, j).books.journals == b.journals[j := b.journals[j].(status := Posted)]
  {
    if j < |b.journals| {
      var lines := b.journals[j].lines;
      DayIsOpenIff(b, b.journals[j].date, lines);
      LinesPassIff(b, lines);
      if |lines| >= 2 && forall i :: 0 <= i < |lines| ==> GoodLine(b, lines[i]) { GoodLinesBalance(b, lines); }
    }
  }

  // ---- Reversals ----

  // The same account and references, with the two sides exchanged.
  predicate Opposite(l: Line, m: Line) {
    m.account == l.account && m.debit == l.credit && m.credit == l.debit &&
    m.project == l.project && m.customer == l.customer && m.vendor == l.vendor
  }

  // A journal is reversed exactly when it is posted, linked to no other, free of active allocations but
  // the exempted one, and its mirror can be posted; the exempted one must have been created with it.
  lemma {:induction false} ReversedIff(b: Books, j: Id, number: string, today: Date, allowed: Option<Id>)
    ensures Reverse(b, j, number, today, allowed).Done? <==>
      j < |b.journals| && b.journals[j].status == Posted && b.journals[j].reversedBy.None? &&
      b.journals[j].reversalOf.None? && |b.journals[j].lines| >= 2 &&
      (forall m: Id :: m < |b.matches| && b.matches[m].journal == Some(j) && b.matches[m].state == Active ==>
        allowed == Some(m)) &&
      (allowed.Some? ==>
        allowed.value < |b.matches| &&
        b.matches[allowed.value].journal == Some(j) && b.matches[allowed.value].state == Active &&
        b.matches[allowed.value].origin == StatementCreation && b.matches[allowed.value].identity == Verified) &&
      Post(b, ReversalPayload(b, j, number, today)).Done?
    ensures j < |b.journals| ==>
      var p, lines := ReversalPayload(b, j, number, today), b.journals[j].lines;
      p.number == number && p.date == Some(today) && p.reversalOf == Some(j) && |p.lines| == |lines| &&
      forall i :: 0 <= i < |lines| ==> Opposite(lines[i], p.lines[i])
    ensures Reverse(b, j, number, today, allowed).Done? ==>
      var after, r := Reverse(b, j, number, today, allowed).books.journals, |b.journals|;
      |after| == r + 1 && after[j] == b.journals[j].(reversedBy := Some(r)) &&
      after[r].number == Texts.Trim(number) && after[r].date == today && after[r].status == Posted &&
      after[r].reversalOf == Some(j) && |after[r].lines| == |b.journals[j].lines| &&
      forall i :: 0 <= i < |after[r].lines| ==> Opposite(b.journals[j].lines[i], after[r].lines[i])
  {
  }

  // By hand: a manual journal that is not reversed yet, whose mirror can be posted and whose stored
  // reason, if it is posted and has one, is the given one. The mirror has no references.
  lemma {:induction false} ManualReversedIff(b: Books, j: Id, today: Date, reason: string, stored: Option<string>)
    ensures ReverseManual(b, j, today, reason, stored).Made? <==>
      3 <= |Texts.Trim(reason)| <= 1000 && j < |b.journals| && |b.journals[j].number| >= 3 &&
      b.journals[j].number[..3] == "JV/" && b.journals[j].reversedBy.None? && |b.journals[j].lines| >= 2 &&
      (b.journals[j].status == Posted && stored.Some? ==> stored.value == Texts.Trim(reason)) &&
      Post(b, MirrorPayload(b, j, today)).Done?
    ensures j < |b.journals| ==>
      var p, lines := MirrorPayload(b, j, today), b.journals[j].lines;
      p.number == "RV-" + b.journals[j].number && p.date == Some(today) && p.reversalOf == Some(j) &&
      |p.lines| == |lines| && forall i :: 0 <= i < |lines| ==>
        Opposite(lines[i].(project := None, customer := None, vendor := None), p.lines[i])
    ensures ReverseManual(b, j, today, reason, stored).Made? ==>
      var after, r := ReverseManual(b, j, today, reason, stored).books.journals, |b.journals|;
      |after| == r + 1 && after[j] == b.journals[j].(reversedBy := Some(r)) &&
      after[r].number == Texts.Trim("RV-" + b.journals[j].number) && after[r].date == today &&
      after[r].reversalOf == Some(j) && |after[r].lines| == |b.journals[j].lines| &&
      forall i :: 0 <= i < |after[r].lines| ==>
        Opposite(b.journals[j].lines[i].(project := None, customer := None, vendor := None), after[r].lines[i])
  {
  }

  // ---- Why one is refused ----

  predicate OneSided(l: Line) {
    (l.credit == 0 && 0 < l.debit <= 9007199254740991) || (l.debit == 0 && 0 < l.credit <= 9007199254740991)
  }

  ghost predicate NoLock(b: Books, date: Date) {
    forall k :: 0 <= k < |b.locks| && b.locks[k].statusActive && b.locks[k].lockDate.Some? ==>
      b.locks[k].lockDate.value < date
  }

  // Everything before the lines' accounts: the entry's form, its balance, the banks' cutoffs, the locks.
  ghost predicate FormOk(p: Payload) {
    Texts.Trim(p.number) != "" && |p.lines| >= 2
  }

  ghost predicate LinesOk(p: Payload) { forall i :: 0 <= i < |p.lines| ==> OneSided(p.lines[i]) }

  lemma {:induction false} LineProblems(b: Books, lines: seq<Line>)
    ensures FirstProblem(lines, PostCheck(b)) in {None, Some(AccountUnusable), Some(ReferenceUnknown)}
  {
    if lines != [] { LineProblems(b, lines[..|lines| - 1]); }
  }

  lemma {:induction false} PostReasons(b: Books, p: Payload)
    requires Post(b, p).Refused?
    ensures Post(b, p).reason in {RecoveryLocked, DateInvalid, HeaderInvalid, LineInvalid, Unbalanced, CutoffLocked,
                                  PeriodIsLocked, AccountUnusable, ReferenceUnknown, NumberTaken}
  {
    LineProblems(b, p.lines);
  }

  // The reasons in the order they are looked for; each means that everything before it passed.
  lemma {:induction false} PostRefusedBecause(b: Books, p: Payload)
    ensures Post(b, p) == Refused(RecoveryLocked) <==> b.recoveryLocked
    ensures Post(b, p) == Refused(DateInvalid) <==> !b.recoveryLocked && p.date.None?
    ensures Post(b, p) == Refused(HeaderInvalid) <==> !b.recoveryLocked && p.date.Some? && !FormOk(p)
    ensures Post(b, p) == Refused(LineInvalid) <==>
      !b.recoveryLocked && p.date.Some? && FormOk(p) && !LinesOk(p)
    ensures Post(b, p) == Refused(Unbalanced) <==>
      !b.recoveryLocked && p.date.Some? && FormOk(p) && LinesOk(p) && Sum(p.lines, DebitOf) != Sum(p.lines, CreditOf)
    ensures Post(b, p) in {Refused(CutoffLocked), Refused(PeriodIsLocked)} <==>
      !b.recoveryLocked && p.date.Some? && FormOk(p) && LinesOk(p) &&
      Sum(p.lines, DebitOf) == Sum(p.lines, CreditOf) && !DayIsOpen(b, p.date.value, p.lines)
    ensures Post(b, p) == Refused(PeriodIsLocked) ==> p.date.Some? && !NoLock(b, p.date.value)
    ensures Post(b, p) == Refused(NumberTaken) ==>
      exists j :: 0 <= j < |b.journals| && b.journals[j].number in {p.number, Texts.Trim(p.number)}
  {
    ShapesAre(p.lines);
    LineProblems(b, p.lines);
    if p.date.Some? { DayIsOpenIff(b, p.date.value, p.lines); }
    if FormOk(p) && LinesOk(p) { OneSidedBalance(p.lines); }
  }

  lemma ShapesAre(lines: seq<Line>)
    ensures FirstProblem(lines, ShapeCheck()).None? <==> forall i :: 0 <= i < |lines| ==> OneSided(lines[i])
  {
    forall i | 0 <= i < |lines| ensures ShapeCheck()(lines[i]).None? <==> OneSided(lines[i]) {
    }
  }

  lemma OneSidedBalance(lines: seq<Line>)
    requires |lines| >= 2 && forall i :: 0 <= i < |lines| ==> OneSided(lines[i])
    ensures Balances(lines) <==> Sum(lines, DebitOf) == Sum(lines, CreditOf)
  {
    SumNonNegative(lines, DebitOf);
    SumNonNegative(lines, CreditOf);
    SumBoundsRow(lines, 0, DebitOf);
    SumBoundsRow(lines, 0, CreditOf);
  }

  // Which of the two a bad line is refused for: the first one decides, its account before its references.
  lemma {:induction false} FirstBadLine(b: Books, p: Payload, i: nat)
    requires i < |p.lines| && forall k :: 0 <= k < i ==> GoodLine(b, p.lines[k]) && KnownReferences(b, p.lines[k])
    requires !b.recoveryLocked && p.date.Some? && FormOk(p) && LinesOk(p)
    requires Sum(p.lines, DebitOf) == Sum(p.lines, CreditOf) && DayIsOpen(b, p.date.value, p.lines)
    ensures !GoodLine(b, p.lines[i]) ==> Post(b, p) == Refused(AccountUnusable)
    ensures GoodLine(b, p.lines[i]) && !KnownReferences(b, p.lines[i]) ==> Post(b, p) == Refused(ReferenceUnknown)
  {
    ShapesAre(p.lines);
    DayIsOpenIff(b, p.date.value, p.lines);
    OneSidedBalance(p.lines);
    forall k | 0 <= k < i ensures PostCheck(b)(p.lines[k]).None? {
      assert GoodLine(b, p.lines[k]);
    }
    if !(GoodLine(b, p.lines[i]) && KnownReferences(b, p.lines[i])) { FirstProblemAt(p.lines, PostCheck(b), i); }
  }

  // No active allocation names the journal.
  ghost predicate Unheld(b: Books, j: Id) {
    forall m: Id :: m < |b.matches| && b.matches[m].journal == Some(j) ==> b.matches[m].state != Active
  }

  // A reversal is refused for the allocations first, then for the journal, and then for its mirror.
  lemma {:induction false} ReverseRefusedBecause(b: Books, j: Id, number: string, today: Date)
    ensures Reverse(b, j, number, today, None) == Refused(AllocationActive) <==> !Unheld(b, j)
    ensures Reverse(b, j, number, today, None) == Refused(JournalNotFound) <==> j >= |b.journals| && Unheld(b, j)
    ensures j < |b.journals| && Unheld(b, j) ==>
      var row, reply := b.journals[j], Reverse(b, j, number, today, None);
      (reply == Refused(JournalNotPosted) <==> row.status != Posted) &&
      (reply == Refused(AlreadyReversed) <==> row.status == Posted && row.reversedBy.Some?) &&
      (reply == Refused(IsReversal) <==> row.status == Posted && row.reversedBy.None? && row.reversalOf.Some?)
  {
    assert !HeldByBank(b, j, None) <==> Unheld(b, j);
    if j < |b.journals| && Post(b, ReversalPayload(b, j, number, today)).Refused? {
      PostReasons(b, ReversalPayload(b, j, number, today));
    }
  }
}
