// What posting, draft posting and reversal keep true of the ledger.
module LedgerLaws {
  import opened Texts
  import opened Tables
  import opened Sums
  import opened PostingEngine
  import opened JournalReversal

  // ---- What the cached balances should be: folds over the posted journals ----

  function JournalOnAccount(accounts: seq<Account>, a: Id): Journal -> int {
    (j: Journal) => if j.status == Posted then Sum(j.lines, OnAccount(accounts, a)) else 0
  }

  function JournalOnBank(accounts: seq<Account>, bank: Bank): Journal -> int {
    (j: Journal) => if j.status == Posted then Sum(j.lines, OnBank(accounts, bank)) else 0
  }

  function JournalAsOf(accounts: seq<Account>, a: Id, d: Date): Journal -> int {
    (j: Journal) => if j.status == Posted && j.date <= d then Sum(j.lines, OnAccount(accounts, a)) else 0
  }

  function AccountNet(b: Books, a: Id): Cents { Sum(b.journals, JournalOnAccount(b.accounts, a)) }

  function BankNet(b: Books, bank: Bank): Cents { Sum(b.journals, JournalOnBank(b.accounts, bank)) }

  // The balance of account a at the end of day d.
  function AsOf(b: Books, a: Id, d: Date): Cents { Sum(b.journals, JournalAsOf(b.accounts, a, d)) }

  // Sum of the balances of the accounts with the given normal side, among the first n.
  function SideTotal(accounts: seq<Account>, balances: seq<Cents>, side: Side, n: nat): Cents
    requires n <= |accounts| && n <= |balances|
  {
    if n == 0 then 0
    else SideTotal(accounts, balances, side, n - 1) + if NormalSide(accounts[n - 1]) == side then balances[n - 1] else 0
  }

  // ---- The invariant ----

  ghost predicate SameLengths(b: Books) {
    |b.accounts| == |b.balances| && |b.banks| == |b.bankBalances|
  }

  ghost predicate PostedOk(b: Books, j: Journal) {
    j.status == Posted ==>
      |j.lines| >= 2 && Balances(j.lines) &&
      forall i :: 0 <= i < |j.lines| ==> LineOk(j.lines[i]) && j.lines[i].account < |b.accounts|
  }

  ghost predicate AllPostedOk(b: Books) {
    forall j :: 0 <= j < |b.journals| ==> PostedOk(b, b.journals[j])
  }

  ghost predicate CachesAgree(b: Books)
    requires SameLengths(b)
  {
    (forall a :: 0 <= a < |b.accounts| ==> b.balances[a] == AccountNet(b, a)) &&
    (forall k :: 0 <= k < |b.banks| ==> b.bankBalances[k] == BankNet(b, b.banks[k]))
  }

  ghost predicate TrialBalances(b: Books)
    requires SameLengths(b)
  {
    SideTotal(b.accounts, b.balances, Debit, |b.accounts|) == SideTotal(b.accounts, b.balances, Credit, |b.accounts|)
  }

  // The forward and the backward links are inverse to each other, and no journal has both.
  ghost predicate LinksMatch(js: seq<Journal>) {
    (forall j :: 0 <= j < |js| && js[j].reversedBy.Some? ==>
      js[j].reversedBy.value < |js| && js[js[j].reversedBy.value].reversalOf == Some(j) && js[j].reversalOf.None? &&
      js[j].status == Posted) &&
    (forall r :: 0 <= r < |js| && js[r].reversalOf.Some? ==>
      js[r].reversalOf.value < |js| && js[js[r].reversalOf.value].reversedBy == Some(r) && js[r].reversedBy.None? &&
      js[r].status == Posted)
  }

  ghost predicate NumbersDistinct(js: seq<Journal>) {
    forall i, k :: 0 <= i < k < |js| ==> js[i].number != js[k].number
  }

  // Cached balances are folds of the posted lines, the two sides agree, numbers are distinct.
  ghost predicate BalancesOk(b: Books) {
    SameLengths(b) && AllPostedOk(b) && CachesAgree(b) && TrialBalances(b) && NumbersDistinct(b.journals)
  }

  ghost predicate LedgerOk(b: Books) { BalancesOk(b) && LinksMatch(b.journals) }

  // ---- Posting moves caches and folds alike, from any state ----

  lemma PostMovesFolds(b: Books, p: Payload)
    requires Post(b, p).Done?
    ensures forall a :: AccountNet(Post(b, p).books, a) == AccountNet(b, a) + Sum(p.lines, OnAccount(b.accounts, a))
    ensures forall k :: BankNet(Post(b, p).books, k) == BankNet(b, k) + Sum(p.lines, OnBank(b.accounts, k))
  {
    var after := Post(b, p).books;
    var row := after.journals[|b.journals|];
    assert after.journals == b.journals + [row];
    forall a ensures AccountNet(after, a) == AccountNet(b, a) + Sum(p.lines, OnAccount(b.accounts, a)) {
      SumSnoc(b.journals, row, JournalOnAccount(b.accounts, a));
    }
    forall k ensures BankNet(after, k) == BankNet(b, k) + Sum(p.lines, OnBank(b.accounts, k)) {
      SumSnoc(b.journals, row, JournalOnBank(b.accounts, k));
    }
  }

  lemma DraftMovesFolds(b: Books, j: Id)
    requires PostDraft(b, j).Done?
    ensures forall a ::
      AccountNet(PostDraft(b, j).books, a) == AccountNet(b, a) + Sum(b.journals[j].lines, OnAccount(b.accounts, a))
    ensures forall k ::
      BankNet(PostDraft(b, j).books, k) == BankNet(b, k) + Sum(b.journals[j].lines, OnBank(b.accounts, k))
  {
    var row := b.journals[j].(status := Posted);
    forall a
      ensures AccountNet(PostDraft(b, j).books, a) ==
        AccountNet(b, a) + Sum(b.journals[j].lines, OnAccount(b.accounts, a))
    {
      SumUpdate(b.journals, j, row, JournalOnAccount(b.accounts, a));
    }
    forall k
      ensures BankNet(PostDraft(b, j).books, k) == BankNet(b, k) + Sum(b.journals[j].lines, OnBank(b.accounts, k))
    {
      SumUpdate(b.journals, j, row, JournalOnBank(b.accounts, k));
    }
  }

  // Setting the reversed_by link of a journal changes no fold.
  lemma LinkMovesNothing(b: Books, j: Id, r: Id)
    requires j < |b.journals|
    ensures var after := b.(journals := b.journals[j := b.journals[j].(reversedBy := Some(r))]);
      (forall a :: AccountNet(after, a) == AccountNet(b, a)) && (forall k :: BankNet(after, k) == BankNet(b, k)) &&
      (forall a, d :: AsOf(after, a, d) == AsOf(b, a, d))
  {
    var row := b.journals[j].(reversedBy := Some(r));
    var after := b.(journals := b.journals[j := row]);
    forall a
      ensures AccountNet(after, a) == AccountNet(b, a)
    {
      SumUpdate(b.journals, j, row, JournalOnAccount(b.accounts, a));
    }
    forall k ensures BankNet(after, k) == BankNet(b, k) { SumUpdate(b.journals, j, row, JournalOnBank(b.accounts, k)); }
    forall a, d
      ensures AsOf(after, a, d) == AsOf(b, a, d)
    {
      SumUpdate(b.journals, j, row, JournalAsOf(b.accounts, a, d));
    }
  }

  // ---- Trial balance ----

  lemma {:induction false} SideTotalUpdate(accounts: seq<Account>, balances: seq<Cents>, side: Side, n: nat, i: nat,
      x: Cents)
    requires n <= |accounts| && n <= |balances| && i < |balances|
    ensures SideTotal(accounts, balances[i := x], side, n)
         == SideTotal(accounts, balances, side, n) +
            if i < n && NormalSide(accounts[i]) == side then x - balances[i] else 0
  {
    if n > 0 { SideTotalUpdate(accounts, balances, side, n - 1, i, x); }
  }

  function TrialDifference(accounts: seq<Account>, balances: seq<Cents>): Cents
    requires |accounts| <= |balances|
  {
    SideTotal(accounts, balances, Debit, |accounts|) - SideTotal(accounts, balances, Credit, |accounts|)
  }

  lemma {:induction false} LinesShiftTrial(b: Books, lines: seq<Line>)
    requires |b.accounts| == |b.balances|
    requires forall i :: 0 <= i < |lines| ==> lines[i].account < |b.accounts|
    ensures TrialDifference(b.accounts, AccountsMoved(b, lines))
         == TrialDifference(b.accounts, b.balances) + Sum(lines, DebitOf) - Sum(lines, CreditOf)
  {
    if lines == [] {
      NothingMoved(b);
    } else {
      var front, l := lines[..|lines| - 1], lines[|lines| - 1];
      LinesShiftTrial(b, front);
      var before := AccountsMoved(b, front);
      var x := before[l.account] + Movement(NormalSide(b.accounts[l.account]), l);
      assert lines == front + [l];
      forall i | 0 <= i < |b.balances| ensures AccountsMoved(b, lines)[i] == before[l.account := x][i] {
        SumSnoc(front, l, OnAccount(b.accounts, i));
      }
      assert AccountsMoved(b, lines) == before[l.account := x];
      SideTotalUpdate(b.accounts, before, Debit, |b.accounts|, l.account, x);
      SideTotalUpdate(b.accounts, before, Credit, |b.accounts|, l.account, x);
    }
  }

  // ---- Each operation keeps the invariant ----

  lemma PostChecked(b: Books, p: Payload)
    requires Post(b, p).Done?
    ensures |p.lines| >= 2 && Balances(p.lines)
    ensures forall i :: 0 <= i < |p.lines| ==> LineOk(p.lines[i]) && Usable(b, p.lines[i].account)
    ensures !LockedOn(b.locks, p.date.value) && !CutoffHit(b, p.date.value, p.lines)
  {
    forall i | 0 <= i < |p.lines| ensures LineOk(p.lines[i]) && Usable(b, p.lines[i].account) {
      assert ShapeCheck()(p.lines[i]).None? && PostCheck(b)(p.lines[i]).None?;
    }
  }

  lemma DraftChecked(b: Books, j: Id)
    requires PostDraft(b, j).Done?
    ensures |b.journals[j].lines| >= 2 && Balances(b.journals[j].lines)
    ensures forall i :: 0 <= i < |b.journals[j].lines| ==>
      LineOk(b.journals[j].lines[i]) && Usable(b, b.journals[j].lines[i].account)
  {
    forall i | 0 <= i < |b.journals[j].lines|
      ensures LineOk(b.journals[j].lines[i]) && Usable(b, b.journals[j].lines[i].account)
    {
      assert DraftCheck(b)(b.journals[j].lines[i]).None?;
    }
  }

  lemma PostKeepsNumbers(b: Books, p: Payload)
    requires NumbersDistinct(b.journals) && Post(b, p).Done?
    ensures NumbersDistinct(Post(b, p).books.journals)
  {
    assert !NumberInUse(b, Trim(p.number));
  }

  lemma PostKeepsBalances(b: Books, p: Payload)
    requires BalancesOk(b) && Post(b, p).Done?
    ensures BalancesOk(Post(b, p).books)
  {
    PostChecked(b, p);
    PostMovesFolds(b, p);
    LinesShiftTrial(b, p.lines);
    PostKeepsNumbers(b, p);
  }

  lemma PostKeepsLedger(b: Books, p: Payload)
    requires LedgerOk(b) && p.reversalOf.None? && Post(b, p).Done?
    ensures LedgerOk(Post(b, p).books)
  {
    PostKeepsBalances(b, p);
  }

  lemma DraftKeepsBalances(b: Books, j: Id)
    requires BalancesOk(b) && PostDraft(b, j).Done?
    ensures BalancesOk(PostDraft(b, j).books)
  {
    DraftChecked(b, j);
    DraftMovesFolds(b, j);
    LinesShiftTrial(b, b.journals[j].lines);
  }

  lemma DraftKeepsLedger(b: Books, j: Id)
    requires LedgerOk(b) && PostDraft(b, j).Done?
    ensures LedgerOk(PostDraft(b, j).books)
  {
    DraftKeepsBalances(b, j);
  }

  // Linking a fresh reversal to an unlinked posted journal keeps the links a matching.
  lemma LinkKeepsMatching(js: seq<Journal>, j: Id, mirror: Journal)
    requires LinksMatch(js) && j < |js| && js[j].status == Posted && js[j].reversedBy.None? && js[j].reversalOf.None?
    requires mirror.reversalOf == Some(j) && mirror.reversedBy.None? && mirror.status == Posted
    ensures LinksMatch((js + [mirror])[j := js[j].(reversedBy := Some(|js|))])
  {
  }

  lemma LinkKeepsNumbers(js: seq<Journal>, j: Id, r: Id)
    requires NumbersDistinct(js) && j < |js|
    ensures NumbersDistinct(js[j := js[j].(reversedBy := Some(r))])
  {
  }

  lemma LinkKeepsPosted(b: Books, j: Id, r: Id)
    requires j < |b.journals| && AllPostedOk(b)
    ensures AllPostedOk(b.(journals := b.journals[j := b.journals[j].(reversedBy := Some(r))]))
  {
    var after := b.(journals := b.journals[j := b.journals[j].(reversedBy := Some(r))]);
    forall i | 0 <= i < |after.journals| ensures PostedOk(after, after.journals[i]) {
      assert PostedOk(b, b.journals[i]);
    }
  }

  lemma LinkKeepsBalances(b: Books, j: Id, r: Id)
    requires j < |b.journals| && BalancesOk(b)
    ensures BalancesOk(b.(journals := b.journals[j := b.journals[j].(reversedBy := Some(r))]))
  {
    LinkMovesNothing(b, j, r);
    LinkKeepsPosted(b, j, r);
    LinkKeepsNumbers(b.journals, j, r);
  }

  lemma ReverseKeepsBalances(b: Books, j: Id, number: string, today: Date, allowed: Option<Id>)
    requires BalancesOk(b) && Reverse(b, j, number, today, allowed).Done?
    ensures BalancesOk(Reverse(b, j, number, today, allowed).books)
  {
    var p := ReversalPayload(b, j, number, today);
    PostKeepsBalances(b, p);
    LinkKeepsBalances(Post(b, p).books, j, |b.journals|);
  }

  lemma ReverseKeepsLedger(b: Books, j: Id, number: string, today: Date, allowed: Option<Id>)
    requires LedgerOk(b) && Reverse(b, j, number, today, allowed).Done?
    ensures LedgerOk(Reverse(b, j, number, today, allowed).books)
  {
    ReverseKeepsBalances(b, j, number, today, allowed);
    LinkKeepsMatching(b.journals, j, Post(b, ReversalPayload(b, j, number, today)).books.journals[|b.journals|]);
  }

  // ---- Reversal cancels the original ----

  lemma SwappedNegates(lines: seq<Line>, accounts: seq<Account>)
    ensures forall a :: Sum(Swapped(lines), OnAccount(accounts, a)) == -Sum(lines, OnAccount(accounts, a))
    ensures forall bank :: Sum(Swapped(lines), OnBank(accounts, bank)) == -Sum(lines, OnBank(accounts, bank))
  {
    forall a ensures Sum(Swapped(lines), OnAccount(accounts, a)) == -Sum(lines, OnAccount(accounts, a)) {
      SumNegated(Swapped(lines), lines, OnAccount(accounts, a));
    }
    forall bank ensures Sum(Swapped(lines), OnBank(accounts, bank)) == -Sum(lines, OnBank(accounts, bank)) {
      SumNegated(Swapped(lines), lines, OnBank(accounts, bank));
    }
  }

  // A journal and its reversal together move no account and no bank: from any state, the reversal
  // takes every cached balance back by exactly what the original's lines had moved it.
  lemma ReversalHasZeroNetEffect(b: Books, j: Id, number: string, today: Date, allowed: Option<Id>)
    requires SameLengths(b) && Reverse(b, j, number, today, allowed).Done?
    ensures var after := Reverse(b, j, number, today, allowed).books;
      var r := Reverse(b, j, number, today, allowed).id;
      r == |b.journals| && after.journals[j].reversedBy == Some(r) && after.journals[r].reversalOf == Some(j) &&
      (forall a :: Sum(after.journals[j].lines, OnAccount(b.accounts, a)) +
        Sum(after.journals[r].lines, OnAccount(b.accounts, a)) == 0) &&
      (forall a :: 0 <= a < |b.accounts| ==>
        after.balances[a] == b.balances[a] - Sum(b.journals[j].lines, OnAccount(b.accounts, a))) &&
      (forall k :: 0 <= k < |b.banks| ==>
        after.bankBalances[k] == b.bankBalances[k] - Sum(b.journals[j].lines, OnBank(b.accounts, b.banks[k])))
  {
    SwappedNegates(b.journals[j].lines, b.accounts);
  }

  // Posting and then reversing leaves every account and bank balance where it was.
  lemma PostThenReverseRestoresBalances(b: Books, p: Payload, number: string, today: Date)
    requires SameLengths(b) && Post(b, p).Done?
    requires Reverse(Post(b, p).books, Post(b, p).id, number, today, None).Done?
    ensures var after := Reverse(Post(b, p).books, Post(b, p).id, number, today, None).books;
      after.balances == b.balances && after.bankBalances == b.bankBalances
  {
    ReversalHasZeroNetEffect(Post(b, p).books, Post(b, p).id, number, today, None);
  }

  // ---- Closed periods ----

  // An active period lock, or a reconciled bank, freezes everything dated on or before d.
  ghost predicate LockCovers(b: Books, d: Date) {
    exists k :: 0 <= k < |b.locks| && b.locks[k].statusActive && b.locks[k].lockDate.Some? &&
      b.locks[k].lockDate.value >= d
  }

  ghost predicate CutoffCovers(b: Books, a: Id, d: Date) {
    exists k :: 0 <= k < |b.banks| && b.banks[k].ledger == Some(a) && BehindCutoff(b, k, d)
  }

  ghost predicate Frozen(b: Books, a: Id, d: Date) {
    LockCovers(b, d) || CutoffCovers(b, a, d)
  }

  lemma FrozenRefuses(b: Books, a: Id, d: Date, date: Date, lines: seq<Line>)
    requires Frozen(b, a, d) && date <= d
    requires !LockedOn(b.locks, date) && !CutoffHit(b, date, lines)
    ensures forall i :: 0 <= i < |lines| ==> lines[i].account != a
  {
    if CutoffCovers(b, a, d) {
      var k :| 0 <= k < |b.banks| && b.banks[k].ledger == Some(a) && BehindCutoff(b, k, d);
      assert BehindCutoff(b, k, date);
    }
  }

  lemma PostKeepsFrozen(b: Books, p: Payload, a: Id, d: Date)
    requires Post(b, p).Done? && Frozen(b, a, d)
    ensures AsOf(Post(b, p).books, a, d) == AsOf(b, a, d)
  {
    PostChecked(b, p);
    var row := Post(b, p).books.journals[|b.journals|];
    SumSnoc(b.journals, row, JournalAsOf(b.accounts, a, d));
    if row.date <= d {
      FrozenRefuses(b, a, d, row.date, p.lines);
      SumZero(p.lines, OnAccount(b.accounts, a));
    }
  }

  lemma DraftKeepsFrozen(b: Books, j: Id, a: Id, d: Date)
    requires PostDraft(b, j).Done? && Frozen(b, a, d)
    ensures AsOf(PostDraft(b, j).books, a, d) == AsOf(b, a, d)
  {
    var row := b.journals[j];
    SumUpdate(b.journals, j, row.(status := Posted), JournalAsOf(b.accounts, a, d));
    if row.date <= d {
      FrozenRefuses(b, a, d, row.date, row.lines);
      SumZero(row.lines, OnAccount(b.accounts, a));
    }
  }

  lemma ReverseKeepsFrozen(b: Books, j: Id, number: string, today: Date, allowed: Option<Id>, a: Id, d: Date)
    requires Reverse(b, j, number, today, allowed).Done? && Frozen(b, a, d)
    ensures AsOf(Reverse(b, j, number, today, allowed).books, a, d) == AsOf(b, a, d)
  {
    var p := ReversalPayload(b, j, number, today);
    PostKeepsFrozen(b, p, a, d);
    LinkMovesNothing(Post(b, p).books, j, |b.journals|);
  }

  // ---- History ----

  // Posted journals keep their number, date, lines and backward link; a reversed_by link is never changed.
  ghost predicate HistoryKept(before: seq<Journal>, after: seq<Journal>) {
    |before| <= |after| &&
    forall j :: 0 <= j < |before| ==>
      (before[j].status == Posted ==> after[j].status == Posted) &&
      after[j].lines == before[j].lines && after[j].date == before[j].date && after[j].number == before[j].number &&
      after[j].reversalOf == before[j].reversalOf &&
      (before[j].reversedBy.Some? ==> after[j].reversedBy == before[j].reversedBy)
  }
}
