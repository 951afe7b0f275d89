// FinancialCommandService.execute: the receipt of a command, its outbox events and evidence links.
// The SHA-256 of the canonical payload is represented by the canonical text itself.
module CommandService {
  import opened Tables
  import opened CanonicalJson

  // A command returns an object, an array, a number or nothing; never a bare text.
  type Result = v: Json | !v.JString? witness JNull

  datatype Status = Processing | Completed

  datatype Receipt = Receipt(organization: string, key: Option<string>, commandType: string,
                             payloadHash: Text, status: Status, result: Option<Result>)

  datatype Event = Event(eventType: string, aggregateType: string, aggregateId: string, payload: Json)

  datatype SourceId = CommandRow(command: nat) | Named(id: string)

  datatype Relation = Relation(sourceType: string, sourceId: SourceId, relationType: string,
                               targetType: string, targetId: string)

  datatype Link = Link(relation: Relation, metadata: Json)

  datatype OutboxRow = OutboxRow(organization: string, command: nat, event: Event)
  datatype EvidenceRow = EvidenceRow(organization: string, command: nat, link: Link)

  // A command's id is its position in receipts; effects lists the commands whose work was committed.
  datatype Store = Store(receipts: seq<Receipt>, effects: seq<nat>,
                         outbox: seq<OutboxRow>, evidence: seq<EvidenceRow>)

  datatype Input = Input(organization: string, commandType: string, payload: Json, key: Option<string>)

  // What running the command's own work comes to: an exception, or a result with its events and links.
  datatype Work = Throws(status: nat) | Returns(result: Result, events: seq<Event>, links: seq<Link>)

  datatype Response = Done(command: nat, result: Result) | PayloadConflict | InProgress | Failed(status: nat)

  const DUPLICATE_EVENT_STATUS: nat := 422

  // What comes back from the result column: JSON.stringify, and JSON.parse of the stored text. Properties
  // that are undefined are gone, and undefined or non-finite values read null.
  function Stored(v: Json): (stored: Json)
    ensures stored.JString? ==> v.JString?
    decreases v, 1
  {
    match v
    case JUndefined => JNull
    case JNonFinite => JNull
    case JArray(items) => JArray(StoredItems(items))
    case JObject(fields) => JObject(StoredFields(fields))
    case _ => v
  }

  function StoredItems(items: seq<Json>): seq<Json>
    decreases items, 0
  {
    if items == [] then [] else [Stored(items[0])] + StoredItems(items[1..])
  }

  function StoredFields(fields: seq<Property>): seq<Property>
    decreases fields, 0
  {
    if fields == [] then []
    else
      (if fields[0].value.JUndefined? then [] else [Property(fields[0].key, Stored(fields[0].value))]) +
        StoredFields(fields[1..])
  }

  // An empty key counts as no key.
  function KeyOf(input: Input): Option<string> {
    if input.key == Some("") then None else input.key
  }

  function HashOf(payload: Json): Text { CanonicalText(Redact(payload, [])) }

  predicate Names(r: Receipt, organization: string, key: string, commandType: string) {
    r.organization == organization && r.key == Some(key) && r.commandType == commandType
  }

  function Find(receipts: seq<Receipt>, organization: string, key: string, commandType: string): (found: Option<nat>)
    ensures found.Some? ==> found.value < |receipts| && Names(receipts[found.value], organization, key, commandType)
    ensures found.None? ==> forall i :: 0 <= i < |receipts| ==> !Names(receipts[i], organization, key, commandType)
  {
    if receipts == [] then None
    else if Names(receipts[|receipts| - 1], organization, key, commandType) then Some(|receipts| - 1)
    else Find(receipts[..|receipts| - 1], organization, key, commandType)
  }

  function Existing(s: Store, input: Input): (found: Option<nat>)
    ensures found.Some? ==> found.value < |s.receipts|
  {
    match KeyOf(input)
    case None => None
    case Some(key) => Find(s.receipts, input.organization, key, input.commandType)
  }

  // The answer to a command whose receipt exists.
  function Replay(command: nat, r: Receipt, payload: Json): Response {
    if r.payloadHash != HashOf(payload) then PayloadConflict
    else if r.status != Completed || r.result.None? || IsNull(r.result.value) then InProgress
    else Done(command, r.result.value)
  }

  // The outbox refuses two events of one type on one aggregate in one command.
  predicate Clash(e: Event, f: Event) { e.eventType == f.eventType && e.aggregateId == f.aggregateId }

  predicate EventsDiffer(events: seq<Event>) {
    forall i, k :: 0 <= i < k < |events| ==> !Clash(events[i], events[k])
  }

  function ResultLink(command: nat, e: Event): Link {
    Link(Relation("FinancialCommand", CommandRow(command), "RESULTS_IN", e.aggregateType, e.aggregateId),
         JObject([Property([101, 118, 101, 110, 116, 84, 121, 112, 101], JString(TextOf(e.eventType)))]))
  }

  function TextOf(s: string): Text {
    seq(|s|, i requires 0 <= i < |s| => s[i] as int % 0x10000)
  }

  function OutboxRows(organization: string, command: nat, events: seq<Event>): seq<OutboxRow> {
    seq(|events|, i requires 0 <= i < |events| => OutboxRow(organization, command, events[i]))
  }

  function ResultLinks(command: nat, events: seq<Event>): seq<Link> {
    seq(|events|, i requires 0 <= i < |events| => ResultLink(command, events[i]))
  }

  predicate HasEvidence(rows: seq<EvidenceRow>, organization: string, command: nat, relation: Relation) {
    exists i :: 0 <= i < |rows| && rows[i].organization == organization && rows[i].command == command &&
      rows[i].link.relation == relation
  }

  // Insert one evidence link, doing nothing when the relation is already there.
  function WithLink(rows: seq<EvidenceRow>, organization: string, command: nat, link: Link): seq<EvidenceRow> {
    if HasEvidence(rows, organization, command, link.relation) then rows
    else rows + [EvidenceRow(organization, command, link.(metadata := Redact(link.metadata, [])))]
  }

  function WithLinks(rows: seq<EvidenceRow>, organization: string, command: nat, links: seq<Link>): seq<EvidenceRow>
    decreases |links|
  {
    if links == [] then rows
    else WithLink(WithLinks(rows, organization, command, links[..|links| - 1]), organization, command,
      links[|links| - 1])
  }

  function Recorded(s: Store, input: Input, work: Work): Store
    requires work.Returns?
  {
    var command := |s.receipts|;
    Store(s.receipts + [Receipt(input.organization, KeyOf(input), input.commandType, HashOf(input.payload),
                                Completed, Some(Stored(work.result)))],
          s.effects + [command],
          s.outbox + OutboxRows(input.organization, command, work.events),
          WithLinks(s.evidence, input.organization, command, work.links + ResultLinks(command, work.events)))
  }

  function Execute(s: Store, input: Input, work: Work): (Store, Response) {
    match Existing(s, input)
    case Some(command) => (s, Replay(command, s.receipts[command], input.payload))
    case None =>
      if work.Throws? then (s, Failed(work.status))
      else if !EventsDiffer(work.events) then (s, Failed(DUPLICATE_EVENT_STATUS))
      else (Recorded(s, input, work), Done(|s.receipts|, work.result))
  }

  class CommandStore {
    var receipts: seq<Receipt>
    var effects: seq<nat>
    var outbox: seq<OutboxRow>
    var evidence: seq<EvidenceRow>

    function Snapshot(): Store
      reads this
    {
      Store(receipts, effects, outbox, evidence)
    }

    method RollBack(before: Store)
      modifies this
      ensures Snapshot() == before
    {
      receipts, effects, outbox, evidence := before.receipts, before.effects, before.outbox, before.evidence;
    }

    method InsertEvent(organization: string, command: nat, e: Event) returns (ok: bool)
      modifies this`outbox
      ensures ok <==> forall i :: 0 <= i < |old(outbox)| ==>
        old(outbox)[i].command != command || !Clash(old(outbox)[i].event, e)
      ensures outbox == if ok then old(outbox) + [OutboxRow(organization, command, e)] else old(outbox)
    {
      ok := forall i :: 0 <= i < |outbox| ==> outbox[i].command != command || !Clash(outbox[i].event, e);
      if ok { outbox := outbox + [OutboxRow(organization, command, e)]; }
    }

    // The loop over a new command's events, which also makes a link for each.
    method InsertEvents(organization: string, command: nat, events: seq<Event>) returns (ok: bool, links: seq<Link>)
      requires forall i :: 0 <= i < |outbox| ==> outbox[i].command != command
      modifies this`outbox
      ensures ok <==> EventsDiffer(events)
      ensures ok ==>
        outbox == old(outbox) + OutboxRows(organization, command, events) && links == ResultLinks(command, events)
    {
      var n := |outbox|;
      links := [];
      for i := 0 to |events|
        invariant outbox == old(outbox) + OutboxRows(organization, command, events[..i])
        invariant links == ResultLinks(command, events[..i])
        invariant EventsDiffer(events[..i])
      {
        assert forall k :: 0 <= k < i ==> outbox[n + k] == OutboxRow(organization, command, events[k]);
        assert forall k :: 0 <= k < n ==> outbox[k] == old(outbox)[k];
        ok := InsertEvent(organization, command, events[i]);
        if !ok { return false, []; }
        links := links + [ResultLink(command, events[i])];
        assert events[..i + 1] == events[..i] + [events[i]];
      }
      assert events[..|events|] == events;
      ok := true;
    }

    method InsertLinks(organization: string, command: nat, links: seq<Link>)
      modifies this`evidence
      ensures evidence == WithLinks(old(evidence), organization, command, links)
    {
      for i := 0 to |links|
        invariant evidence == WithLinks(old(evidence), organization, command, links[..i])
      {
        assert links[..i + 1][..i] == links[..i];
        evidence := WithLink(evidence, organization, command, links[i]);
      }
      assert links[..|links|] == links;
    }

    // One database transaction; work is what the command's own function does inside it.
    method Run(input: Input, work: Work) returns (response: Response)
      requires forall i :: 0 <= i < |outbox| ==> outbox[i].command < |receipts|
      modifies this
      ensures (Snapshot(), response) == Execute(old(Snapshot()), input, work)
    {
      var before := Snapshot();
      var command := |receipts|;
      if KeyOf(input).Some? {
        var found := Find(receipts, input.organization, KeyOf(input).value, input.commandType);
        if found.Some? { return Replay(found.value, receipts[found.value], input.payload); }
      }
      receipts := receipts + [Receipt(input.organization, KeyOf(input), input.commandType, HashOf(input.payload),
        Processing, None)];
      if work.Throws? {
        RollBack(before);
        return Failed(work.status);
      }
      effects := effects + [command];
      receipts := receipts[command := receipts[command].(status := Completed, result := Some(Stored(work.result)))];
      var ok, resultLinks := InsertEvents(input.organization, command, work.events);
      if !ok {
        RollBack(before);
        return Failed(DUPLICATE_EVENT_STATUS);
      }
      InsertLinks(input.organization, command, work.links + resultLinks);
      assert receipts == Recorded(before, input, work).receipts;
      return Done(command, work.result);
    }
  }
}
