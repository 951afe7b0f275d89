// BankFeedSyncService.syncFeed and the mock provider it pages through.
module BankFeed {
  import opened Tables
  import opened Texts

  datatype FeedTransaction = FeedTransaction(externalId: string, date: string, amount: Cents, inflow: bool,
                                             reference: Option<string>, narration: string)

  // What the fingerprint is the SHA-256 of, apart from the bank account.
  datatype Fingerprint = Fingerprint(date: string, amount: Cents, inflow: bool, reference: string, narration: string)

  datatype Row = Row(fingerprint: Fingerprint, transaction: FeedTransaction)

  // The stored statement transactions of one bank account and its feed connection's cursor.
  datatype Connection = Connection(rows: seq<Row>, cursor: Option<nat>)

  datatype Page = Page(transactions: seq<FeedTransaction>, next: Option<nat>)

  const PAGE_SIZE: nat := 20

  function FingerprintOf(tx: FeedTransaction): Fingerprint {
    Fingerprint(tx.date, tx.amount, tx.inflow, match tx.reference case None => "" case Some(r) => r, Trim(tx.narration))
  }

  function Smaller(a: nat, b: nat): nat { if a < b then a else b }

  // MockBankFeedProvider.fetchTransactions
  function Fetch(feed: seq<FeedTransaction>, cursor: Option<nat>): Page {
    var start := Smaller(match cursor case None => 0 case Some(c) => c, |feed|);
    var end := Smaller(start + PAGE_SIZE, |feed|);
    Page(feed[start..end], if end < |feed| then Some(end) else None)
  }

  function RowOf(tx: FeedTransaction): Row { Row(FingerprintOf(tx), tx) }

  predicate Stored(rows: seq<Row>, fp: Fingerprint) { exists i :: 0 <= i < |rows| && rows[i].fingerprint == fp }

  // The rows after these transactions: those whose fingerprint is new, in their order.
  function WithNew(rows: seq<Row>, txs: seq<FeedTransaction>): seq<Row>
    decreases |txs|
  {
    if txs == [] then rows
    else
      var before, tx := WithNew(rows, txs[..|txs| - 1]), txs[|txs| - 1];
      if Stored(before, FingerprintOf(tx)) then before else before + [RowOf(tx)]
  }

  function Sync(c: Connection, feed: seq<FeedTransaction>): Connection {
    var page := Fetch(feed, c.cursor);
    Connection(WithNew(c.rows, page.transactions), page.next)
  }

  class Feed {
    var rows: seq<Row>
    var cursor: Option<nat>

    function Snapshot(): Connection
      reads this
    {
      Connection(rows, cursor)
    }

    method SyncFeed(feed: seq<FeedTransaction>) returns (synced: nat, duplicates: nat, inserted: seq<Row>)
      modifies this
      ensures Snapshot() == Sync(old(Snapshot()), feed)
      ensures synced == |inserted| && synced + duplicates == |Fetch(feed, old(cursor)).transactions|
      ensures rows == old(rows) + inserted
    {
      var page := Fetch(feed, cursor);
      var known := set i | 0 <= i < |rows| :: rows[i].fingerprint;
      synced, duplicates, inserted := 0, 0, [];
      for i := 0 to |page.transactions|
        invariant cursor == old(cursor) && rows == WithNew(old(rows), page.transactions[..i]) &&
          rows == old(rows) + inserted
        invariant synced == |inserted| && synced + duplicates == i
        invariant forall fp :: fp in known <==> Stored(rows, fp)
      {
        var tx := page.transactions[i];
        assert page.transactions[..i + 1][..i] == page.transactions[..i];
        var fingerprint := FingerprintOf(tx);
        if fingerprint in known {
          duplicates := duplicates + 1;
        } else {
          AddedRow(rows, RowOf(tx));
          rows := rows + [RowOf(tx)];
          known := known + {fingerprint};
          inserted := inserted + [RowOf(tx)];
          synced := synced + 1;
        }
      }
      assert page.transactions[..|page.transactions|] == page.transactions;
      cursor := page.next;
    }
  }

  lemma AddedRow(rows: seq<Row>, row: Row)
    ensures forall fp :: Stored(rows + [row], fp) <==> Stored(rows, fp) || fp == row.fingerprint
  {
    var more := rows + [row];
    assert more[|rows|] == row;
    forall fp | Stored(rows, fp) ensures Stored(more, fp) {
      var i :| 0 <= i < |rows| && rows[i].fingerprint == fp;
      assert more[i].fingerprint == fp;
    }
  }

  // ---- Every distinct transaction once ----

  ghost predicate Distinct(rows: seq<Row>) {
    forall i, k :: 0 <= i < k < |rows| ==> rows[i].fingerprint != rows[k].fingerprint
  }

  ghost predicate IsFrom(row: Row, feed: seq<FeedTransaction>) {
    row.transaction in feed && row.fingerprint == FingerprintOf(row.transaction)
  }

  ghost predicate FromFeed(rows: seq<Row>, feed: seq<FeedTransaction>) {
    forall i :: 0 <= i < |rows| ==> IsFrom(rows[i], feed)
  }

  ghost predicate Imported(rows: seq<Row>, txs: seq<FeedTransaction>) {
    forall k :: 0 <= k < |txs| ==> Stored(rows, FingerprintOf(txs[k]))
  }

  lemma {:induction false} WithNewDistinct(rows: seq<Row>, txs: seq<FeedTransaction>)
    requires Distinct(rows)
    ensures Distinct(WithNew(rows, txs))
    decreases |txs|
  {
    if txs != [] { WithNewDistinct(rows, txs[..|txs| - 1]); }
  }

  lemma {:induction false} WithNewImports(rows: seq<Row>, txs: seq<FeedTransaction>)
    ensures Imported(WithNew(rows, txs), txs)
    decreases |txs|
  {
    if txs != [] {
      var front, tx := txs[..|txs| - 1], txs[|txs| - 1];
      WithNewImports(rows, front);
      AddedRow(WithNew(rows, front), RowOf(tx));
      forall k | 0 <= k < |txs| ensures Stored(WithNew(rows, txs), FingerprintOf(txs[k])) {
        if k < |front| { assert front[k] == txs[k]; }
      }
    }
  }

  lemma {:induction false} WithNewIsFrom(rows: seq<Row>, txs: seq<FeedTransaction>, feed: seq<FeedTransaction>)
    requires FromFeed(rows, feed) && forall k :: 0 <= k < |txs| ==> txs[k] in feed
    ensures FromFeed(WithNew(rows, txs), feed)
    decreases |txs|
  {
    if txs != [] { WithNewIsFrom(rows, txs[..|txs| - 1], feed); }
  }

  // ---- Runs over a growing feed ----

  // What one pass has covered so far.
  function Covered(c: Connection, feed: seq<FeedTransaction>): seq<FeedTransaction> {
    match c.cursor
    case None => feed
    case Some(at) => feed[..Smaller(at, |feed|)]
  }

  ghost predicate FeedOk(c: Connection, feed: seq<FeedTransaction>) {
    Distinct(c.rows) && FromFeed(c.rows, feed) && Imported(c.rows, Covered(c, feed)) &&
      (c.cursor.Some? ==> c.cursor.value <= |feed|)
  }

  lemma FromLongerFeed(rows: seq<Row>, feed: seq<FeedTransaction>, longer: seq<FeedTransaction>)
    requires FromFeed(rows, feed) && feed <= longer
    ensures FromFeed(rows, longer)
  {
    forall i | 0 <= i < |rows| ensures IsFrom(rows[i], longer) {
      assert IsFrom(rows[i], feed);
      var k :| 0 <= k < |feed| && feed[k] == rows[i].transaction;
      assert longer[k] == feed[k];
    }
  }

  function StartOf(c: Connection): nat { match c.cursor case None => 0 case Some(at) => at }

  // A page of a feed that has only grown since the last one.
  lemma SyncKeepsFeed(c: Connection, feed: seq<FeedTransaction>, longer: seq<FeedTransaction>)
    requires FeedOk(c, feed) && feed <= longer
    ensures FeedOk(Sync(c, longer), longer)
  {
    var page := Fetch(longer, c.cursor).transactions;
    WithNewDistinct(c.rows, page);
    FromLongerFeed(c.rows, feed, longer);
    assert forall k :: 0 <= k < |page| ==> page[k] == longer[StartOf(c) + k];
    WithNewIsFrom(c.rows, page, longer);
    PageCovers(c, feed, longer);
  }

  // What has been imported before and what the page brings make one prefix of the feed.
  lemma ImportedInParts(rows: seq<Row>, front: seq<FeedTransaction>, page: seq<FeedTransaction>)
    requires Imported(rows, front) && Imported(rows, page)
    ensures Imported(rows, front + page)
  {
    forall k | 0 <= k < |front + page| ensures Stored(rows, FingerprintOf((front + page)[k])) {
      if k < |front| {
        assert Stored(rows, FingerprintOf(front[k]));
      } else {
        assert Stored(rows, FingerprintOf(page[k - |front|]));
      }
    }
  }

  lemma SyncCovers(c: Connection, feed: seq<FeedTransaction>)
    requires StartOf(c) <= |feed|
    ensures Covered(Sync(c, feed), feed) == feed[..StartOf(c)] + Fetch(feed, c.cursor).transactions
  {
  }

  lemma PageCovers(c: Connection, feed: seq<FeedTransaction>, longer: seq<FeedTransaction>)
    requires Imported(c.rows, Covered(c, feed)) && feed <= longer && (c.cursor.Some? ==> c.cursor.value <= |feed|)
    ensures Imported(Sync(c, longer).rows, Covered(Sync(c, longer), longer))
  {
    var page, after, front := Fetch(longer, c.cursor).transactions, Sync(c, longer), longer[..StartOf(c)];
    WithNewExtends(c.rows, page);
    WithNewImports(c.rows, page);
    if c.cursor.Some? {
      assert front == feed[..c.cursor.value] == Covered(c, feed);
      ImportedStays(c.rows, after.rows, front);
    }
    ImportedInParts(after.rows, front, page);
    SyncCovers(c, longer);
  }

  lemma {:induction false} WithNewExtends(rows: seq<Row>, txs: seq<FeedTransaction>)
    ensures rows <= WithNew(rows, txs)
    decreases |txs|
  {
    if txs != [] { WithNewExtends(rows, txs[..|txs| - 1]); }
  }

  lemma ImportedStays(rows: seq<Row>, after: seq<Row>, txs: seq<FeedTransaction>)
    requires rows <= after && Imported(rows, txs)
    ensures Imported(after, txs)
  {
    forall k | 0 <= k < |txs| ensures Stored(after, FingerprintOf(txs[k])) {
      assert Stored(rows, FingerprintOf(txs[k]));
      var i :| 0 <= i < |rows| && rows[i].fingerprint == FingerprintOf(txs[k]);
      assert after[i] == rows[i];
    }
  }

  ghost predicate Growing(feeds: seq<seq<FeedTransaction>>) {
    forall i :: 0 <= i < |feeds| - 1 ==> feeds[i] <= feeds[i + 1]
  }

  function SyncAll(c: Connection, feeds: seq<seq<FeedTransaction>>): Connection
    decreases |feeds|
  {
    if feeds == [] then c else Sync(SyncAll(c, feeds[..|feeds| - 1]), feeds[|feeds| - 1])
  }

  // Over any number of syncs of a growing feed, whenever a sync reports no further page every
  // transaction of the feed has a row with its fingerprint, and each fingerprint has one row.
  lemma {:induction false} CompletePassImportsAll(feeds: seq<seq<FeedTransaction>>)
    requires feeds != [] && Growing(feeds)
    ensures var feed, after := feeds[|feeds| - 1], SyncAll(Connection([], None), feeds);
      FeedOk(after, feed) && (after.cursor.None? ==> Imported(after.rows, feed))
    decreases |feeds|
  {
    var n := |feeds| - 1;
    var c := SyncAll(Connection([], None), feeds[..n]);
    if n == 0 {
      assert FeedOk(c, []);
      SyncKeepsFeed(c, [], feeds[0]);
    } else {
      GrowingFront(feeds);
      CompletePassImportsAll(feeds[..n]);
      SyncKeepsFeed(c, feeds[n - 1], feeds[n]);
    }
  }

  lemma GrowingFront(feeds: seq<seq<FeedTransaction>>)
    requires |feeds| >= 2 && Growing(feeds)
    ensures var front := feeds[..|feeds| - 1];
      Growing(front) && front[|front| - 1] == feeds[|feeds| - 2] && feeds[|feeds| - 2] <= feeds[|feeds| - 1]
  {
    var front := feeds[..|feeds| - 1];
    forall i | 0 <= i < |front| - 1 ensures front[i] <= front[i + 1] { assert feeds[i] <= feeds[i + 1]; }
    assert feeds[|feeds| - 2] <= feeds[|feeds| - 2 + 1];
  }

  // ---- When a finished pass stores every transaction ----

  function Elements<T>(xs: seq<T>): set<T> { set i | 0 <= i < |xs| :: xs[i] }

  ghost predicate AllDiffer<T>(xs: seq<T>) { forall i, k :: 0 <= i < k < |xs| ==> xs[i] != xs[k] }

  lemma {:induction false} ElementCount<T>(xs: seq<T>)
    ensures |Elements(xs)| <= |xs| && (|Elements(xs)| == |xs| <==> AllDiffer(xs))
    decreases |xs|
  {
    if xs != [] {
      var front, x := xs[..|xs| - 1], xs[|xs| - 1];
      ElementCount(front);
      assert xs == front + [x];
      assert Elements(xs) == Elements(front) + {x};
      if x in front {
        assert Elements(xs) == Elements(front);
      } else {
        assert AllDiffer(xs) <==> AllDiffer(front);
      }
    }
  }

  function Prints(txs: seq<FeedTransaction>): seq<Fingerprint> {
    seq(|txs|, i requires 0 <= i < |txs| => FingerprintOf(txs[i]))
  }

  function RowPrints(rows: seq<Row>): seq<Fingerprint> {
    seq(|rows|, i requires 0 <= i < |rows| => rows[i].fingerprint)
  }

  lemma SamePrints(rows: seq<Row>, feed: seq<FeedTransaction>)
    requires FromFeed(rows, feed) && Imported(rows, feed)
    ensures Elements(RowPrints(rows)) == Elements(Prints(feed))
  {
    forall i | 0 <= i < |rows| ensures rows[i].fingerprint in Elements(Prints(feed)) {
      assert IsFrom(rows[i], feed);
      var k :| 0 <= k < |feed| && feed[k] == rows[i].transaction;
      assert Prints(feed)[k] == rows[i].fingerprint;
    }
    forall k | 0 <= k < |feed| ensures FingerprintOf(feed[k]) in Elements(RowPrints(rows)) {
      assert Stored(rows, FingerprintOf(feed[k]));
      var i :| 0 <= i < |rows| && rows[i].fingerprint == FingerprintOf(feed[k]);
      assert RowPrints(rows)[i] == FingerprintOf(feed[k]);
    }
  }

  // A finished pass stores at most as many rows as the feed has transactions, and as many exactly when
  // no two transactions have one fingerprint.
  lemma {:induction false} AllStoredIffPrintsDiffer(feeds: seq<seq<FeedTransaction>>)
    requires feeds != [] && Growing(feeds)
    requires SyncAll(Connection([], None), feeds).cursor.None?
    ensures var feed, rows := feeds[|feeds| - 1], SyncAll(Connection([], None), feeds).rows;
      |rows| <= |feed| && (|rows| == |feed| <==> AllDiffer(Prints(feed)))
  {
    var feed, rows := feeds[|feeds| - 1], SyncAll(Connection([], None), feeds).rows;
    CompletePassImportsAll(feeds);
    SamePrints(rows, feed);
    ElementCount(Prints(feed));
    ElementCount(RowPrints(rows));
    assert AllDiffer(RowPrints(rows));
  }

  // Two transfers of one day, amount, direction, reference and narration: the bank tells them apart by
  // their own ids, the import stores one.
  function Twin(id: string): FeedTransaction { FeedTransaction(id, "2024-01-02", 100, true, None, "UPI") }

  lemma TwinStoredOnce()
    ensures Twin("t1") != Twin("t2")
    ensures Sync(Connection([], None), [Twin("t1"), Twin("t2")]) == Connection([RowOf(Twin("t1"))], None)
  {
    var first, second := Twin("t1"), Twin("t2");
    assert Fetch([first, second], None).transactions == [first, second];
    assert first.externalId[1] != second.externalId[1];
    assert [first, second][..1] == [first] && [first][..0] == [];
    assert WithNew([], []) == [] && !Stored([], FingerprintOf(first));
    assert WithNew([], [first]) == [RowOf(first)];
    assert [RowOf(first)][0].fingerprint == FingerprintOf(second);
  }

  // Once everything is stored, syncing the same feed again adds nothing, from any cursor.
  lemma {:induction false} NothingNew(rows: seq<Row>, txs: seq<FeedTransaction>)
    requires Imported(rows, txs)
    ensures WithNew(rows, txs) == rows
    decreases |txs|
  {
    if txs != [] {
      var front := txs[..|txs| - 1];
      assert forall k :: 0 <= k < |front| ==> front[k] == txs[k];
      NothingNew(rows, front);
    }
  }

  lemma ResyncAddsNothing(c: Connection, feed: seq<FeedTransaction>)
    requires Imported(c.rows, feed)
    ensures Sync(c, feed).rows == c.rows
  {
    var page := Fetch(feed, c.cursor);
    var start := Smaller(match c.cursor case None => 0 case Some(at) => at, |feed|);
    assert forall k :: 0 <= k < |page.transactions| ==> page.transactions[k] == feed[start + k];
    NothingNew(c.rows, page.transactions);
  }

  // A sync with more to fetch moves the cursor on by a full page, so every pass ends.
  lemma PassAdvances(c: Connection, feed: seq<FeedTransaction>)
    requires c.cursor.Some? ==> c.cursor.value <= |feed|
    ensures var start, next := StartOf(c), Sync(c, feed).cursor;
      next == if start + 20 < |feed| then Some(start + 20) else None
  {
  }

  // ---- What makes two transactions the same to the import ----

  lemma {:induction false} SamePrintIff(a: FeedTransaction, b: FeedTransaction)
    ensures FingerprintOf(a) == FingerprintOf(b) <==>
      a.date == b.date && a.amount == b.amount && a.inflow == b.inflow && Trim(a.narration) == Trim(b.narration) &&
      (if a.reference.Some? then a.reference.value else "") == (if b.reference.Some? then b.reference.value else "")
  {
  }
}
