// SummaryLedgerService: monthly turnovers kept up line by line, against the same table rebuilt.
module MonthlyRollup {
  import opened Tables
  import opened Sums
  import opened PostingEngine
  import opened LedgerLaws

  datatype Key = Key(account: Id, year: nat, month: nat)
  datatype Row = Row(debit: Cents, credit: Cents, net: Cents, closing: Cents)

  type Rollup = map<Key, Row>

  function KeyOf(l: Line, date: Date): Key { Key(l.account, date / 10000, date / 100 % 100) }

  function RowOf(debit: Cents, credit: Cents): Row { Row(debit, credit, debit - credit, debit - credit) }

  // INSERT ... ON CONFLICT DO UPDATE
  function Upserted(rows: Rollup, key: Key, debit: Cents, credit: Cents): Rollup {
    if key in rows then rows[key := Added(rows[key], debit, credit)] else rows[key := RowOf(debit, credit)]
  }

  function Added(r: Row, debit: Cents, credit: Cents): Row {
    Row(r.debit + debit, r.credit + credit, r.net + (debit - credit), r.closing + (debit - credit))
  }

  function Recorded(rows: Rollup, lines: seq<Line>, date: Date): Rollup {
    if lines == [] then rows
    else
      var l := lines[|lines| - 1];
      Upserted(Recorded(rows, lines[..|lines| - 1], date), KeyOf(l, date), l.debit, l.credit)
  }

  // The table after the posted ones among these journals have been recorded in this order.
  function RecordedAll(rows: Rollup, journals: seq<Journal>): Rollup {
    if journals == [] then rows
    else
      var before, j := RecordedAll(rows, journals[..|journals| - 1]), journals[|journals| - 1];
      if j.status == Posted then Recorded(before, j.lines, j.date) else before
  }

  // ---- The aggregate query ----

  function DebitOn(key: Key, date: Date): Line -> int { (l: Line) => if KeyOf(l, date) == key then l.debit else 0 }
  function CreditOn(key: Key, date: Date): Line -> int { (l: Line) => if KeyOf(l, date) == key then l.credit else 0 }

  function DebitIn(key: Key): Journal -> int {
    (j: Journal) => if j.status == Posted then Sum(j.lines, DebitOn(key, j.date)) else 0
  }

  function CreditIn(key: Key): Journal -> int {
    (j: Journal) => if j.status == Posted then Sum(j.lines, CreditOn(key, j.date)) else 0
  }

  function LineKeys(lines: seq<Line>, date: Date): set<Key> {
    set i | 0 <= i < |lines| :: KeyOf(lines[i], date)
  }

  function GroupKeys(journals: seq<Journal>): set<Key> {
    set j, i | 0 <= j < |journals| && journals[j].status == Posted && 0 <= i < |journals[j].lines| ::
      KeyOf(journals[j].lines[i], journals[j].date)
  }

  function Group(journals: seq<Journal>, key: Key): Row {
    RowOf(Sum(journals, DebitIn(key)), Sum(journals, CreditIn(key)))
  }

  // GROUP BY account, year and month over the lines of posted journals.
  function Rebuilt(journals: seq<Journal>): Rollup {
    map key | key in GroupKeys(journals) :: Group(journals, key)
  }

  class SummaryLedger {
    var rows: Rollup

    method RecordJournalLines(lines: seq<Line>, date: Date)
      modifies this
      ensures rows == Recorded(old(rows), lines, date)
    {
      for i := 0 to |lines|
        invariant rows == Recorded(old(rows), lines[..i], date)
      {
        var l := lines[i];
        assert lines[..i + 1][..i] == lines[..i];
        var key, net := KeyOf(l, date), l.debit - l.credit;
        if key in rows {
          var r := rows[key];
          rows := rows[key := Row(r.debit + l.debit, r.credit + l.credit, r.net + net, r.closing + net)];
        } else {
          rows := rows[key := Row(l.debit, l.credit, net, net)];
        }
      }
      assert lines[..|lines|] == lines;
    }

    method RebuildMonthlyRollups(journals: seq<Journal>) returns (processed: nat)
      modifies this
      ensures rows == Rebuilt(journals) && processed == |Rebuilt(journals)|
    {
      rows := map[];
      InsertGroups(journals, GroupKeys(journals));
      return |rows|;
    }

    // The query's rows come in no particular order.
    method InsertGroups(journals: seq<Journal>, keys: set<Key>)
      requires rows == map[]
      modifies this
      ensures rows == map key | key in keys :: Group(journals, key)
    {
      var left := keys;
      while left != {}
        invariant left <= keys && rows.Keys == keys - left
        invariant forall key :: key in rows ==> rows[key] == Group(journals, key)
        decreases left
      {
        var key :| key in left;
        var debit, credit := Sum(journals, DebitIn(key)), Sum(journals, CreditIn(key));
        rows := rows[key := Row(debit, credit, debit - credit, debit - credit)];
        left := left - {key};
      }
    }
  }

  // ---- Recording equals rebuilding ----

  function RowAt(rows: Rollup, key: Key): Row { if key in rows then rows[key] else RowOf(0, 0) }

  lemma {:induction false} RecordedAt(rows: Rollup, lines: seq<Line>, date: Date, key: Key)
    ensures key in Recorded(rows, lines, date) <==> key in rows || key in LineKeys(lines, date)
    ensures RowAt(Recorded(rows, lines, date), key) ==
      Added(RowAt(rows, key), Sum(lines, DebitOn(key, date)), Sum(lines, CreditOn(key, date)))
  {
    if lines != [] {
      var init, l := lines[..|lines| - 1], lines[|lines| - 1];
      RecordedAt(rows, init, date, key);
      assert LineKeys(lines, date) == LineKeys(init, date) + {KeyOf(l, date)};
    }
  }

  lemma {:induction false} RecordedAllAt(journals: seq<Journal>, key: Key)
    ensures key in RecordedAll(map[], journals) <==> key in GroupKeys(journals)
    ensures RowAt(RecordedAll(map[], journals), key) == Group(journals, key)
  {
    if journals != [] {
      var init, j := journals[..|journals| - 1], journals[|journals| - 1];
      RecordedAllAt(init, key);
      RecordedAt(RecordedAll(map[], init), j.lines, j.date, key);
      assert GroupKeys(journals) == GroupKeys(init) + if j.status == Posted then LineKeys(j.lines, j.date) else {};
    }
  }

  // Recording journals one by one from an empty table gives the table a rebuild computes.
  lemma RecordingEqualsRebuilding(journals: seq<Journal>)
    ensures RecordedAll(map[], journals) == Rebuilt(journals)
  {
    var recorded, rebuilt := RecordedAll(map[], journals), Rebuilt(journals);
    forall key ensures key in recorded <==> key in rebuilt {
      RecordedAllAt(journals, key);
    }
    forall key | key in recorded ensures recorded[key] == rebuilt[key] {
      RecordedAllAt(journals, key);
    }
  }

  // ---- The order of posting does not matter ----

  lemma {:induction false} SumPermuted<T>(xs: seq<T>, ys: seq<T>, f: T -> int)
    requires multiset(xs) == multiset(ys)
    ensures Sum(xs, f) == Sum(ys, f)
  {
    if xs == [] {
      assert |multiset(ys)| == |ys|;
    } else {
      var n := |xs| - 1;
      assert xs[n] in multiset(ys);
      var k :| 0 <= k < |ys| && ys[k] == xs[n];
      TakenOut(xs, n);
      TakenOut(ys, k);
      assert xs[..n] + xs[n + 1..] == xs[..n];
      SumPermuted(xs[..n], ys[..k] + ys[k + 1..], f);
      SumWithout(ys, k, f);
    }
  }

  lemma TakenOut<T>(xs: seq<T>, k: nat)
    requires k < |xs|
    ensures multiset(xs[..k] + xs[k + 1..]) == multiset(xs) - multiset{xs[k]}
  {
    assert xs == xs[..k] + [xs[k]] + xs[k + 1..];
  }

  lemma {:induction false} SumWithout<T>(ys: seq<T>, k: nat, f: T -> int)
    requires k < |ys|
    ensures Sum(ys, f) == Sum(ys[..k] + ys[k + 1..], f) + f(ys[k])
  {
    var rest, n := ys[..k] + ys[k + 1..], |ys| - 1;
    if k == n {
      assert rest == ys[..n];
    } else {
      SumWithout(ys[..n], k, f);
      assert rest[..n - 1] == ys[..n][..k] + ys[..n][k + 1..];
    }
  }

  lemma OrderDoesNotMatter(journals: seq<Journal>, reordered: seq<Journal>)
    requires multiset(journals) == multiset(reordered)
    ensures RecordedAll(map[], journals) == RecordedAll(map[], reordered)
  {
    RecordingEqualsRebuilding(journals);
    RecordingEqualsRebuilding(reordered);
    SameRebuilt(journals, reordered);
  }

  lemma SameRebuilt(journals: seq<Journal>, reordered: seq<Journal>)
    requires multiset(journals) == multiset(reordered)
    ensures Rebuilt(journals) == Rebuilt(reordered)
  {
    var one, other := Rebuilt(journals), Rebuilt(reordered);
    SameKeys(journals, reordered);
    SameKeys(reordered, journals);
    assert one.Keys == other.Keys;
    forall key | key in one ensures one[key] == other[key] { SameGroup(journals, reordered, key); }
  }

  lemma SameGroup(journals: seq<Journal>, reordered: seq<Journal>, key: Key)
    requires multiset(journals) == multiset(reordered)
    ensures Group(journals, key) == Group(reordered, key)
  {
    SumPermuted(journals, reordered, DebitIn(key));
    SumPermuted(journals, reordered, CreditIn(key));
  }

  lemma SameKeys(journals: seq<Journal>, reordered: seq<Journal>)
    requires multiset(journals) == multiset(reordered)
    ensures GroupKeys(journals) <= GroupKeys(reordered)
  {
    forall j | 0 <= j < |journals| ensures journals[j] in reordered {
      assert journals[j] in multiset(reordered);
    }
  }

  // ---- Balanced journals ----

  // The net turnover of one month over the first n accounts.
  function MonthNet(rows: Rollup, n: nat, year: nat, month: nat): int {
    if n == 0 then 0 else MonthNet(rows, n - 1, year, month) + RowAt(rows, Key(n - 1, year, month)).net
  }

  lemma {:induction false} UpsertMovesMonth(rows: Rollup, key: Key, debit: Cents, credit: Cents, n: nat, year: nat,
      month: nat)
    ensures MonthNet(Upserted(rows, key, debit, credit), n, year, month) ==
      MonthNet(rows, n, year, month) +
        if key.account < n && key.year == year && key.month == month then debit - credit else 0
  {
    if n != 0 { UpsertMovesMonth(rows, key, debit, credit, n - 1, year, month); }
  }

  lemma {:induction false} LinesMoveMonth(rows: Rollup, lines: seq<Line>, date: Date, n: nat, year: nat, month: nat)
    requires forall i :: 0 <= i < |lines| ==> lines[i].account < n
    ensures MonthNet(Recorded(rows, lines, date), n, year, month) == MonthNet(rows, n, year, month) +
      if date / 10000 == year && date / 100 % 100 == month then Sum(lines, DebitOf) - Sum(lines, CreditOf) else 0
  {
    if lines != [] {
      var init, l := lines[..|lines| - 1], lines[|lines| - 1];
      LinesMoveMonth(rows, init, date, n, year, month);
      UpsertMovesMonth(Recorded(rows, init, date), KeyOf(l, date), l.debit, l.credit, n, year, month);
    }
  }

  // If every posted journal balances, each month's net turnovers cancel over the accounts.
  lemma {:induction false} MonthsBalance(journals: seq<Journal>, n: nat, year: nat, month: nat)
    requires forall j :: 0 <= j < |journals| && journals[j].status == Posted ==>
      Balances(journals[j].lines) && forall i :: 0 <= i < |journals[j].lines| ==> journals[j].lines[i].account < n
    ensures MonthNet(RecordedAll(map[], journals), n, year, month) == 0
  {
    if journals == [] {
      EmptyMonth(n, year, month);
    } else {
      var init, j := journals[..|journals| - 1], journals[|journals| - 1];
      MonthsBalance(init, n, year, month);
      if j.status == Posted { LinesMoveMonth(RecordedAll(map[], init), j.lines, j.date, n, year, month); }
    }
  }

  lemma {:induction false} EmptyMonth(n: nat, year: nat, month: nat)
    ensures MonthNet(map[], n, year, month) == 0
  {
    if n != 0 { EmptyMonth(n - 1, year, month); }
  }

  // So they do in every consistent ledger.
  lemma LedgerMonthsBalance(b: Books, year: nat, month: nat)
    requires LedgerOk(b)
    ensures MonthNet(Rebuilt(b.journals), |b.accounts|, year, month) == 0
  {
    MonthsBalance(b.journals, |b.accounts|, year, month);
    RecordingEqualsRebuilding(b.journals);
  }

  // The column called closing balance is the month's net turnover; it does not accumulate.
  lemma ClosingIsNet(journals: seq<Journal>, key: Key)
    requires key in RecordedAll(map[], journals)
    ensures var r := RecordedAll(map[], journals)[key];
      r.closing == r.net == r.debit - r.credit
  {
    RecordedAllAt(journals, key);
  }

  // ---- The rows themselves ----

  function DebitedIn(a: Id, year: nat, month: nat): Journal -> int {
    (j: Journal) =>
      if j.status == Posted && j.date / 10000 == year && j.date % 10000 / 100 == month then
        Sum(j.lines, DebitOnAccount(a))
      else 0
  }

  function CreditedIn(a: Id, year: nat, month: nat): Journal -> int {
    (j: Journal) =>
      if j.status == Posted && j.date / 10000 == year && j.date % 10000 / 100 == month then
        Sum(j.lines, CreditOnAccount(a))
      else 0
  }

  function DebitOnAccount(a: Id): Line -> int { (l: Line) => if l.account == a then l.debit else 0 }
  function CreditOnAccount(a: Id): Line -> int { (l: Line) => if l.account == a then l.credit else 0 }

  // The row of an account and month holds the debits and the credits on that account in the journals
  // posted in that month, and their difference; it is there when there is such a line.
  lemma {:induction false} RowHolds(journals: seq<Journal>, a: Id, year: nat, month: nat)
    ensures Key(a, year, month) in Rebuilt(journals) <==>
      exists j: nat, i: nat :: PostedLine(journals, j, i) && journals[j].lines[i].account == a &&
        journals[j].date / 10000 == year && journals[j].date % 10000 / 100 == month
    ensures Key(a, year, month) in Rebuilt(journals) ==>
      var row := Rebuilt(journals)[Key(a, year, month)];
      row.debit == Sum(journals, DebitedIn(a, year, month)) &&
        row.credit == Sum(journals, CreditedIn(a, year, month)) &&
      row.net == row.debit - row.credit
  {
    var key := Key(a, year, month);
    forall j | 0 <= j < |journals|
      ensures DebitIn(key)(journals[j]) == DebitedIn(a, year, month)(journals[j])
      ensures CreditIn(key)(journals[j]) == CreditedIn(a, year, month)(journals[j])
    {
      MonthOf(journals[j].date);
      var lines, date := journals[j].lines, journals[j].date;
      if date / 10000 == year && date % 10000 / 100 == month {
        SumSame(lines, DebitOn(key, date), DebitOnAccount(a));
        SumSame(lines, CreditOn(key, date), CreditOnAccount(a));
      } else {
        SumZero(lines, DebitOn(key, date));
        SumZero(lines, CreditOn(key, date));
      }
    }
    SumSame(journals, DebitIn(key), DebitedIn(a, year, month));
    SumSame(journals, CreditIn(key), CreditedIn(a, year, month));
    KeyThereIff(journals, a, year, month);
  }

  predicate PostedLine(journals: seq<Journal>, j: nat, i: nat) {
    j < |journals| && journals[j].status == Posted && i < |journals[j].lines|
  }

  lemma {:induction false} KeyThereIff(journals: seq<Journal>, a: Id, year: nat, month: nat)
    ensures Key(a, year, month) in GroupKeys(journals) <==>
      exists j: nat, i: nat :: PostedLine(journals, j, i) && journals[j].lines[i].account == a &&
        journals[j].date / 10000 == year && journals[j].date % 10000 / 100 == month
  {
    forall j | 0 <= j < |journals| ensures journals[j].date / 100 % 100 == journals[j].date % 10000 / 100 {
      MonthOf(journals[j].date);
    }
    if Key(a, year, month) in GroupKeys(journals) {
      var j, i :| 0 <= j < |journals| && journals[j].status == Posted && 0 <= i < |journals[j].lines| &&
        KeyOf(journals[j].lines[i], journals[j].date) == Key(a, year, month);
      assert PostedLine(journals, j, i);
    }
  }

  lemma MonthOf(date: Date)
    ensures date / 100 % 100 == date % 10000 / 100
  {
    var year, rest := date / 10000, date % 10000;
    assert date == year * 100 * 100 + rest;
    assert date / 100 == year * 100 + rest / 100 && rest / 100 < 100;
    assert (year * 100 + rest / 100) % 100 == rest / 100;
  }
}
