// FinancialDestructiveActionsService.reversePostedJournal: the mirror journal of a posting.
module JournalReversal {
  import opened Tables
  import opened Sums
  import opened PostingEngine

  function Swap(l: Line): Line {
    l.(debit := l.credit, credit := l.debit)
  }

  function Swapped(lines: seq<Line>): seq<Line> {
    seq(|lines|, i requires 0 <= i < |lines| => Swap(lines[i]))
  }

  // An active allocation of the journal other than the exempted one.
  predicate HeldByBank(b: Books, j: Id, allowed: Option<Id>) {
    exists m :: 0 <= m < |b.matches| && b.matches[m].journal == Some(j) && b.matches[m].state == Active &&
      allowed != Some(m)
  }

  predicate Exempt(b: Books, j: Id, m: Id) {
    m < |b.matches| && b.matches[m].journal == Some(j) && b.matches[m].origin == StatementCreation &&
    b.matches[m].state == Active && b.matches[m].identity == Verified
  }

  function ReversalRefusal(b: Books, j: Id, allowed: Option<Id>): Option<Refusal> {
    if HeldByBank(b, j, allowed) then Some(AllocationActive)
    else if allowed.Some? && !Exempt(b, j, allowed.value) then Some(AllocationNotEligible)
    else if j >= |b.journals| then Some(JournalNotFound)
    else
      var original := b.journals[j];
      if original.status != Posted then Some(JournalNotPosted)
      else if original.reversedBy.Some? then Some(AlreadyReversed)
      else if original.reversalOf.Some? then Some(IsReversal)
      else if |original.lines| < 2 then Some(TooFewLines)
      else None
  }

  function ReversalPayload(b: Books, j: Id, number: string, today: Date): Payload
    requires j < |b.journals|
  {
    Payload(number, Some(today), Swapped(b.journals[j].lines), Some(j))
  }

  function Reverse(b: Books, j: Id, number: string, today: Date, allowed: Option<Id>): Outcome {
    var refusal := ReversalRefusal(b, j, allowed);
    if refusal.Some? then Refused(refusal.value)
    else
      match Post(b, ReversalPayload(b, j, number, today))
      case Refused(reason) => Refused(reason)
      case Done(posted, id) =>
        Done(posted.(journals := posted.journals[j := posted.journals[j].(reversedBy := Some(id))]), id)
  }

  method ReversePostedJournal(db: Database, j: Id, number: string, today: Date, allowed: Option<Id>)
    returns (reply: Reply)
    requires |db.accounts| == |db.balances| && |db.banks| == |db.bankBalances|
    modifies db
    ensures Commits(old(db.Snapshot()), db.Snapshot(), reply, Reverse(old(db.Snapshot()), j, number, today, allowed))
  {
    if HeldByBank(db.Snapshot(), j, allowed) { return Rejected(AllocationActive); }
    if allowed.Some? && !Exempt(db.Snapshot(), j, allowed.value) { return Rejected(AllocationNotEligible); }
    if j >= |db.journals| { return Rejected(JournalNotFound); }
    var original := db.journals[j];
    if original.status != Posted { return Rejected(JournalNotPosted); }
    if original.reversedBy.Some? { return Rejected(AlreadyReversed); }
    if original.reversalOf.Some? { return Rejected(IsReversal); }
    if |original.lines| < 2 { return Rejected(TooFewLines); }
    reply := PostEntry(db, Payload(number, Some(today), Swapped(original.lines), Some(j)));
    if reply.Accepted? {
      db.journals := db.journals[j := db.journals[j].(reversedBy := Some(reply.id))];
    }
  }
}
