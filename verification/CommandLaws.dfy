// A command keyed by an organization, an idempotency key and a type takes effect at most once, and
// every later call under that key gets the recorded result or changes nothing.
module CommandLaws {
  import opened Tables
  import opened CanonicalJson
  import opened CanonicalJsonLaws
  import opened CommandService

  ghost predicate SameCommand(r: Receipt, q: Receipt) {
    r.key.Some? && r.organization == q.organization && r.key == q.key && r.commandType == q.commandType
  }

  ghost predicate ReceiptsUnique(receipts: seq<Receipt>) {
    forall i, k :: 0 <= i < k < |receipts| ==> !SameCommand(receipts[i], receipts[k])
  }

  ghost predicate EventsOnce(outbox: seq<OutboxRow>) {
    forall i, k :: 0 <= i < k < |outbox| ==>
      outbox[i].command != outbox[k].command || !Clash(outbox[i].event, outbox[k].event)
  }

  ghost predicate RowEvidenced(evidence: seq<EvidenceRow>, row: OutboxRow) {
    HasEvidence(evidence, row.organization, row.command, ResultLink(row.command, row.event).relation)
  }

  ghost predicate EventsEvidenced(s: Store) {
    forall i :: 0 <= i < |s.outbox| ==> RowEvidenced(s.evidence, s.outbox[i])
  }

  // Every event of a command is in the outbox once, with its evidence link once.
  ghost predicate EventsLinked(s: Store) {
    EventsOnce(s.outbox) && EventsEvidenced(s) && EvidenceUnique(s.evidence)
  }

  ghost predicate EvidenceUnique(rows: seq<EvidenceRow>) {
    forall i, k :: 0 <= i < k < |rows| ==>
      rows[i].organization != rows[k].organization || rows[i].command != rows[k].command ||
      rows[i].link.relation != rows[k].link.relation
  }

  ghost predicate ReceiptDone(r: Receipt) {
    r.status == Completed && r.result.Some? && Stored(r.result.value) == r.result.value
  }

  ghost predicate StoreOk(s: Store) {
    && ReceiptsUnique(s.receipts)
    && (forall i :: 0 <= i < |s.receipts| ==> ReceiptDone(s.receipts[i]))
    && |s.effects| == |s.receipts|
    && (forall i :: 0 <= i < |s.effects| ==> s.effects[i] == i)
    && (forall i :: 0 <= i < |s.outbox| ==> s.outbox[i].command < |s.receipts|)
    && EventsLinked(s)
  }

  lemma {:induction false} LinksAdded(rows: seq<EvidenceRow>, organization: string, command: nat, links: seq<Link>)
    requires EvidenceUnique(rows)
    ensures var after := WithLinks(rows, organization, command, links);
      EvidenceUnique(after) && rows <= after
    ensures forall k :: 0 <= k < |links| ==>
      HasEvidence(WithLinks(rows, organization, command, links), organization, command, links[k].relation)
    decreases |links|
  {
    if links != [] {
      var init, last := links[..|links| - 1], links[|links| - 1];
      LinksAdded(rows, organization, command, init);
      var before := WithLinks(rows, organization, command, init);
      var after := WithLink(before, organization, command, last);
      if !HasEvidence(before, organization, command, last.relation) {
        assert after[|before|].link.relation == last.relation;
      }
      forall k | 0 <= k < |links| ensures HasEvidence(after, organization, command, links[k].relation) {
        if k < |init| {
          assert HasEvidence(before, organization, command, init[k].relation);
          EvidenceStays(before, after, organization, command, links[k].relation);
        }
      }
    }
  }

  lemma EvidenceStays(before: seq<EvidenceRow>, after: seq<EvidenceRow>, organization: string, command: nat,
      relation: Relation)
    requires before <= after && HasEvidence(before, organization, command, relation)
    ensures HasEvidence(after, organization, command, relation)
  {
    var i :| 0 <= i < |before| && before[i].organization == organization && before[i].command == command &&
      before[i].link.relation == relation;
    assert after[i] == before[i];
  }

  lemma RecordedReceipts(s: Store, input: Input, work: Work)
    requires StoreOk(s) && work.Returns? && Existing(s, input).None?
    ensures var s' := Recorded(s, input, work);
      ReceiptsUnique(s'.receipts) && forall i :: 0 <= i < |s'.receipts| ==> ReceiptDone(s'.receipts[i])
  {
    var receipts, command := Recorded(s, input, work).receipts, |s.receipts|;
    forall i | 0 <= i < command ensures !SameCommand(receipts[i], receipts[command]) {
      if KeyOf(input).Some? { assert !Names(s.receipts[i], input.organization, KeyOf(input).value, input.commandType); }
    }
    StoredIsFixed(work.result);
  }

  lemma RecordedOutbox(s: Store, input: Input, work: Work)
    requires StoreOk(s) && work.Returns? && EventsDiffer(work.events)
    ensures EventsOnce(Recorded(s, input, work).outbox)
  {
  }

  lemma RecordedEvidence(s: Store, input: Input, work: Work)
    requires StoreOk(s) && work.Returns?
    ensures EventsEvidenced(Recorded(s, input, work)) && EvidenceUnique(Recorded(s, input, work).evidence)
  {
    var s', command := Recorded(s, input, work), |s.receipts|;
    var links := work.links + ResultLinks(command, work.events);
    LinksAdded(s.evidence, input.organization, command, links);
    forall i | 0 <= i < |s'.outbox| ensures RowEvidenced(s'.evidence, s'.outbox[i]) {
      var row := s'.outbox[i];
      if i < |s.outbox| {
        assert RowEvidenced(s.evidence, s.outbox[i]);
        EvidenceStays(s.evidence, s'.evidence, row.organization, row.command,
          ResultLink(row.command, row.event).relation);
      } else {
        var k := i - |s.outbox|;
        assert links[|work.links| + k] == ResultLink(command, work.events[k]);
      }
    }
  }

  lemma ExecuteKeepsStore(s: Store, input: Input, work: Work)
    requires StoreOk(s)
    ensures StoreOk(Execute(s, input, work).0)
  {
    if Existing(s, input).None? && work.Returns? && EventsDiffer(work.events) {
      RecordedReceipts(s, input, work);
      RecordedOutbox(s, input, work);
      RecordedEvidence(s, input, work);
    }
  }

  // ---- Runs ----

  datatype Call = Call(input: Input, work: Work)

  function ExecuteAll(s: Store, calls: seq<Call>): Store
    decreases |calls|
  {
    if calls == [] then s else ExecuteAll(Execute(s, calls[0].input, calls[0].work).0, calls[1..])
  }

  lemma {:induction false} RunKeepsStore(s: Store, calls: seq<Call>)
    requires StoreOk(s)
    ensures StoreOk(ExecuteAll(s, calls)) && s.receipts <= ExecuteAll(s, calls).receipts &&
      s.outbox <= ExecuteAll(s, calls).outbox
    decreases |calls|
  {
    if calls != [] {
      ExecuteKeepsStore(s, calls[0].input, calls[0].work);
      RunKeepsStore(Execute(s, calls[0].input, calls[0].work).0, calls[1..]);
    }
  }

  // The receipt a key finds is its only one.
  lemma FindIsUnique(s: Store, command: nat, input: Input)
    requires StoreOk(s) && command < |s.receipts| && KeyOf(input).Some?
    requires Names(s.receipts[command], input.organization, KeyOf(input).value, input.commandType)
    ensures Existing(s, input) == Some(command)
  {
    var found := Existing(s, input);
    assert found.Some?;
    assert found.value < command ==> SameCommand(s.receipts[found.value], s.receipts[command]);
    assert command < found.value ==> SameCommand(s.receipts[command], s.receipts[found.value]);
  }

  // Storing a result twice stores the same: a replay of a replay is no different.
  lemma {:induction false} StoredIsFixed(v: Json)
    ensures Stored(Stored(v)) == Stored(v)
    ensures !Stored(v).JUndefined?
    ensures IsNull(Stored(v)) <==> IsNull(v)
    decreases v, 1
  {
    match v
    case JArray(items) => StoredItemsFixed(items);
    case JObject(fields) => StoredFieldsFixed(fields);
    case _ =>
  }

  lemma {:induction false} StoredItemsFixed(items: seq<Json>)
    ensures StoredItems(StoredItems(items)) == StoredItems(items)
    decreases items, 0
  {
    if items != [] {
      StoredIsFixed(items[0]);
      StoredItemsFixed(items[1..]);
    }
  }

  lemma {:induction false} StoredFieldsFixed(fields: seq<Property>)
    ensures StoredFields(StoredFields(fields)) == StoredFields(fields)
    decreases fields, 0
  {
    if fields != [] {
      StoredFieldsFixed(fields[1..]);
      if fields[0].value.JUndefined? {
        assert StoredFields(fields) == StoredFields(fields[1..]);
      } else {
        StoredIsFixed(fields[0].value);
        var kept := Property(fields[0].key, Stored(fields[0].value));
        assert StoredFields(fields) == [kept] + StoredFields(fields[1..]);
        assert StoredFields([kept] + StoredFields(fields[1..])) == [kept] + StoredFields(StoredFields(fields[1..]));
      }
    }
  }

  // Main theorem. Once a keyed command has been executed, then after any further calls the same key
  // and type change nothing: with the same redacted payload they return the recorded result, unless
  // that is null, and with any other payload they are refused.
  lemma {:induction false} ExecutedOnce(s: Store, first: Input, work: Work, between: seq<Call>, again: Input,
      retry: Work)
    requires StoreOk(s) && KeyOf(first).Some?
    requires Existing(s, first).None? && Execute(s, first, work).1.Done?
    requires again.organization == first.organization && KeyOf(again) == KeyOf(first) &&
      again.commandType == first.commandType
    requires WellFormed(first.payload) && WellFormed(again.payload)
    ensures var later := ExecuteAll(Execute(s, first, work).0, between);
      Execute(later, again, retry) ==
        (later, if !Same(Redact(first.payload, []), Redact(again.payload, [])) then PayloadConflict
                else if IsNull(work.result) then InProgress
                else Done(|s.receipts|, Stored(work.result)))
  {
    var after := Execute(s, first, work).0;
    var later := ExecuteAll(after, between);
    ExecuteKeepsStore(s, first, work);
    RunKeepsStore(after, between);
    assert later.receipts[|s.receipts|] == after.receipts[|s.receipts|];
    FindIsUnique(later, |s.receipts|, again);
    StoredIsFixed(work.result);
    RedactKeepsWellFormed(first.payload, []);
    RedactKeepsWellFormed(again.payload, []);
    CanonicalDecidesSameness(Redact(first.payload, []), Redact(again.payload, []));
  }

  // Any command whose work returned nothing, repeated, would be told that it is in progress.
  lemma NullResultIsNeverReplayed()
    ensures var input := Input("org", "command", JNull, Some("key-1"));
      var work := Returns(JNull, [], []);
      var (after, first) := Execute(Store([], [], [], []), input, work);
      first == Done(0, JNull) && Execute(after, input, work) == (after, InProgress)
  {
    var input := Input("org", "command", JNull, Some("key-1"));
    var after := Execute(Store([], [], [], []), input, Returns(JNull, [], [])).0;
    assert |after.receipts| == 1 && Names(after.receipts[0], "org", "key-1", "command");
  }

  // A failed call leaves nothing behind, and a refused or repeated one neither.
  lemma OnlyDoneChangesStore(s: Store, input: Input, work: Work)
    ensures Execute(s, input, work).0 != s <==> Existing(s, input).None? && Execute(s, input, work).1.Done?
  {
  }

  // ---- What a completed command leaves, in the rows themselves ----

  // Two events of one command differ in their type or their aggregate.
  ghost predicate EventsApart(events: seq<Event>) {
    forall i, k :: 0 <= i < k < |events| ==>
      events[i].eventType != events[k].eventType || events[i].aggregateId != events[k].aggregateId
  }

  // A command without a receipt completes exactly when its work returns events that are apart. It then
  // has one receipt with its organization, key and type, its result as stored, and a row in the outbox for
  // each event, in order.
  lemma {:induction false} CompletedIff(s: Store, input: Input, work: Work)
    requires Existing(s, input).None?
    ensures Execute(s, input, work).1.Done? <==> work.Returns? && EventsApart(work.events)
    ensures work.Returns? && !EventsApart(work.events) ==> Execute(s, input, work) == (s, Failed(422))
    ensures work.Throws? ==> Execute(s, input, work) == (s, Failed(work.status))
    ensures Execute(s, input, work).1.Done? ==>
      var after, c := Execute(s, input, work).0, |s.receipts|;
      |after.receipts| == c + 1 && after.receipts[..c] == s.receipts && after.receipts[c].status == Completed &&
      after.receipts[c].organization == input.organization && after.receipts[c].commandType == input.commandType &&
      after.receipts[c].key == (if input.key == Some("") then None else input.key) &&
      after.receipts[c].payloadHash == CanonicalText(Redact(input.payload, [])) &&
      after.receipts[c].result == Some(Stored(work.result)) && after.effects == s.effects + [c]
    ensures Execute(s, input, work).1.Done? ==>
      var after, c := Execute(s, input, work).0, |s.receipts|;
      |after.outbox| == |s.outbox| + |work.events| && after.outbox[..|s.outbox|] == s.outbox &&
      forall i :: 0 <= i < |work.events| ==>
        after.outbox[|s.outbox| + i] == OutboxRow(input.organization, c, work.events[i])
  {
    if work.Returns? { ApartIff(work.events); }
  }

  lemma ApartIff(events: seq<Event>)
    ensures EventsDiffer(events) <==> EventsApart(events)
  {
    if EventsApart(events) {
      forall i, k | 0 <= i < k < |events| ensures !Clash(events[i], events[k]) {
      }
    }
    if EventsDiffer(events) {
      forall i, k | 0 <= i < k < |events|
        ensures events[i].eventType != events[k].eventType || events[i].aggregateId != events[k].aggregateId
      {
        assert !Clash(events[i], events[k]);
      }
    }
  }

  // A receipt exists for a command with a key when one has its organization, key and type.
  lemma {:induction false} ExistingIff(s: Store, input: Input)
    ensures Existing(s, input).Some? <==>
      input.key.Some? && input.key.value != "" && exists c :: 0 <= c < |s.receipts| && HasKey(s.receipts[c], input)
  {
    if Existing(s, input).Some? { assert HasKey(s.receipts[Existing(s, input).value], input); }
  }

  predicate HasKey(r: Receipt, input: Input) {
    r.organization == input.organization && r.key == input.key && r.commandType == input.commandType
  }

  // Every event of a completed command is linked as its result, and every link of its own is there too.
  lemma {:induction false} LinkedAsResults(s: Store, input: Input, work: Work)
    requires EvidenceUnique(s.evidence) && Existing(s, input).None? && Execute(s, input, work).1.Done?
    ensures forall i :: 0 <= i < |work.events| ==>
      Linked(Execute(s, input, work).0.evidence, input.organization, |s.receipts|, Relation("FinancialCommand",
        CommandRow(|s.receipts|), "RESULTS_IN", work.events[i].aggregateType, work.events[i].aggregateId))
    ensures forall i :: 0 <= i < |work.links| ==>
      Linked(Execute(s, input, work).0.evidence, input.organization, |s.receipts|, work.links[i].relation)
  {
    var c := |s.receipts|;
    var links := work.links + ResultLinks(c, work.events);
    LinksAdded(s.evidence, input.organization, c, links);
    forall i | 0 <= i < |work.events|
      ensures Linked(Execute(s, input, work).0.evidence, input.organization, c, Relation("FinancialCommand",
        CommandRow(c), "RESULTS_IN", work.events[i].aggregateType, work.events[i].aggregateId))
    {
      assert links[|work.links| + i] == ResultLink(c, work.events[i]);
    }
    forall i | 0 <= i < |work.links|
      ensures Linked(Execute(s, input, work).0.evidence, input.organization, c, work.links[i].relation)
    {
      assert links[i] == work.links[i];
    }
  }

  ghost predicate Linked(rows: seq<EvidenceRow>, organization: string, command: nat, relation: Relation) {
    exists i :: 0 <= i < |rows| && rows[i].organization == organization && rows[i].command == command &&
      rows[i].link.relation == relation
  }

  // ---- What the result column keeps ----

  ghost predicate Defined(v: Json)
    decreases v
  {
    match v
    case JArray(items) => forall i :: 0 <= i < |items| ==> Defined(items[i]) || IsNull(items[i])
    case JObject(fields) =>
      forall i :: 0 <= i < |fields| ==> !fields[i].value.JUndefined? && Defined(fields[i].value)
    case _ => true
  }

  // A result without undefined properties comes back as the same value, up to the order of properties.
  lemma {:induction false} StoredIsSame(v: Json)
    requires Defined(v)
    ensures Same(v, Stored(v))
    decreases v, 1
  {
    match v
    case JArray(items) => StoredItemsSame(items);
    case JObject(fields) => StoredFieldsSame(fields);
    case _ =>
  }

  lemma {:induction false} StoredItemsSame(items: seq<Json>)
    requires forall i :: 0 <= i < |items| ==> Defined(items[i]) || IsNull(items[i])
    ensures |StoredItems(items)| == |items| && forall i :: 0 <= i < |items| ==> Same(items[i], StoredItems(items)[i])
    decreases items, 0
  {
    if items != [] {
      StoredIsSame(items[0]);
      StoredItemsSame(items[1..]);
      forall i | 0 <= i < |items| ensures Same(items[i], StoredItems(items)[i]) {
        if i > 0 { assert items[i] == items[1..][i - 1]; }
      }
    }
  }

  lemma {:induction false} StoredFieldsSame(fields: seq<Property>)
    requires forall i :: 0 <= i < |fields| ==> !fields[i].value.JUndefined? && Defined(fields[i].value)
    ensures |StoredFields(fields)| == |fields|
    ensures forall i :: 0 <= i < |fields| ==>
      StoredFields(fields)[i].key == fields[i].key && Same(fields[i].value, StoredFields(fields)[i].value)
    decreases fields, 0
  {
    if fields != [] {
      StoredIsSame(fields[0].value);
      StoredFieldsSame(fields[1..]);
      var kept := [Property(fields[0].key, Stored(fields[0].value))];
      assert StoredFields(fields) == kept + StoredFields(fields[1..]);
      forall i | 0 <= i < |fields|
        ensures StoredFields(fields)[i].key == fields[i].key && Same(fields[i].value, StoredFields(fields)[i].value)
      {
        if i > 0 { assert fields[i] == fields[1..][i - 1]; }
      }
    }
  }
}
