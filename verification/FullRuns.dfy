// Runs that also hold the operations without every check: dropping a legacy match, and reversing a
// manual journal or the journal of a fixed asset.
module FullRuns {
  import Texts
  import opened Tables
  import opened PostingEngine
  import opened JournalReversal
  import opened LedgerLaws
  import opened BankAllocations
  import opened BankLaws
  import opened StatementReversal
  import opened LedgerSteps
  import opened LegacyMatches
  import opened LegacyLaws
  import opened StatementEntries
  import opened EntryLaws
  import opened LedgerRuns
  import opened ManualReversal

  datatype Move =
    | Checked(op: Op)
    | DropMatch(id: Id)
    | ByHand(journal: Id, today: Date, reason: string, stored: Option<string>)
    | OfAsset(journal: Id, date: Date, reason: string, stored: Option<string>)

  function LandedMirror(b: Books, o: Mirrored): Books { if o.Made? then o.books else b }

  function Play(b: Books, move: Move): Books {
    match move
    case Checked(op) => Step(b, op)
    case DropMatch(m) => LandedMatch(b, Drop(b, m))
    case ByHand(j, today, reason, stored) => LandedMirror(b, ReverseManual(b, j, today, reason, stored))
    case OfAsset(j, date, reason, stored) => LandedMirror(b, ReverseSource(b, j, date, reason, stored))
  }

  function PlayAll(b: Books, moves: seq<Move>): Books
    decreases |moves|
  {
    if moves == [] then b else PlayAll(Play(b, moves[0]), moves[1..])
  }

  // ---- Consistency, exactly ----

  // If the move goes through, the check it leaves out would have passed.
  ghost predicate Sound(b: Books, move: Move) {
    match move
    case Checked(_) => true
    case DropMatch(m) => Drop(b, m).Entered? ==> DropSound(b, m)
    case ByHand(j, today, reason, stored) => ReverseManual(b, j, today, reason, stored).Made? ==> FitToReverse(b, j)
    case OfAsset(j, date, reason, stored) => ReverseSource(b, j, date, reason, stored).Made? ==> FitToReverse(b, j)
  }

  lemma {:induction false} PlayKeepsBooksIff(b: Books, move: Move)
    requires BooksOk(b)
    ensures BooksOk(Play(b, move)) <==> Sound(b, move)
  {
    match move
    case Checked(op) => StepKeepsBooks(b, op);
    case DropMatch(m) => if Drop(b, m).Entered? { DropKeepsBooksIff(b, m); }
    case ByHand(j, today, reason, stored) =>
      if ReverseManual(b, j, today, reason, stored).Made? {
        SourceKeepsBooksIff(b, j, today, Texts.Trim(reason), stored);
      }
    case OfAsset(j, date, reason, stored) =>
      if ReverseSource(b, j, date, reason, stored).Made? { SourceKeepsBooksIff(b, j, date, reason, stored); }
  }

  ghost predicate SoundRun(b: Books, moves: seq<Move>)
    decreases |moves|
  {
    moves == [] || (Sound(b, moves[0]) && SoundRun(Play(b, moves[0]), moves[1..]))
  }

  ghost predicate ConsistentThroughout(b: Books, moves: seq<Move>)
    decreases |moves|
  {
    BooksOk(b) && (moves == [] || ConsistentThroughout(Play(b, moves[0]), moves[1..]))
  }

  // A run stays consistent at every step exactly when every move in it was sound.
  lemma {:induction false} ConsistentIffSound(b: Books, moves: seq<Move>)
    requires BooksOk(b)
    ensures ConsistentThroughout(b, moves) <==> SoundRun(b, moves)
    decreases |moves|
  {
    if moves != [] {
      PlayKeepsBooksIff(b, moves[0]);
      if Sound(b, moves[0]) { ConsistentIffSound(Play(b, moves[0]), moves[1..]); }
    }
  }

  // ---- What no move can break ----

  lemma {:induction false} RemovalKeepsBalances(b: Books, s: Id, named: Option<Id>, reason: string, number: string,
      today: Date)
    requires BalancesOk(b) && RemoveCreated(b, s, named, reason, number, today).Removed?
    ensures BalancesOk(RemoveCreated(b, s, named, reason, number, today).books)
  {
    RemovalParts(b, s, named, reason, number, today);
    var m := Choose(b, s, named).id;
    var j := JournalOf(b.matches[m]).value;
    ReverseKeepsBalances(b, j, number, today, Exempted(b.matches[m], m));
    BalancesKeptByBank(Reverse(b, j, number, today, Exempted(b.matches[m], m)).books,
                       RemoveCreated(b, s, named, reason, number, today).books);
  }

  lemma {:induction false} CreationKeepsBalances(b: Books, s: Id, bankAccount: Option<Id>, target: Id, number: string)
    requires BalancesOk(b) && CreateFromLine(b, s, bankAccount, target, number).Entered?
    ensures BalancesOk(CreateFromLine(b, s, bankAccount, target, number).books)
  {
    var p := CreationPayload(b.statements[s], bankAccount.value, target, number);
    PostKeepsBalances(b, p);
    BalancesKeptByBank(Post(b, p).books, CreateFromLine(b, s, bankAccount, target, number).books);
  }

  lemma {:induction false} StepKeepsBalances(b: Books, op: Op)
    requires BalancesOk(b)
    ensures BalancesOk(Step(b, op))
  {
    match op
    case PostOp(number, date, lines) =>
      if Post(b, Payload(number, date, lines, None)).Done? { PostKeepsBalances(b, Payload(number, date, lines, None)); }
    case DraftOp(j) => if PostDraft(b, j).Done? { DraftKeepsBalances(b, j); }
    case ReverseOp(j, number, today) =>
      if Reverse(b, j, number, today, None).Done? { ReverseKeepsBalances(b, j, number, today, None); }
    case RemoveOp(s, named, reason, number, today) =>
      if RemoveCreated(b, s, named, reason, number, today).Removed? {
        RemovalKeepsBalances(b, s, named, reason, number, today);
      }
    case CreateOp(s, bankAccount, target, number) =>
      if CreateFromLine(b, s, bankAccount, target, number).Entered? {
        CreationKeepsBalances(b, s, bankAccount, target, number);
      }
    case EntryOp(o) =>
      if CreateEntry(b, o).Booked? { EntryKeepsBalances(b, o); }
    case _ => BalancesKeptByBank(b, Step(b, op));
  }

  lemma {:induction false} PlayKeepsBalances(b: Books, move: Move)
    requires BalancesOk(b)
    ensures BalancesOk(Play(b, move))
  {
    match move
    case Checked(op) => StepKeepsBalances(b, op);
    case DropMatch(m) => BalancesKeptByBank(b, Play(b, move));
    case ByHand(j, today, reason, stored) =>
      if ReverseManual(b, j, today, reason, stored).Made? {
        SourceKeepsBalances(b, j, today, Texts.Trim(reason), stored);
      }
    case OfAsset(j, date, reason, stored) =>
      if ReverseSource(b, j, date, reason, stored).Made? { SourceKeepsBalances(b, j, date, reason, stored); }
  }

  // Sound or not, no run separates the cached balances from the posted lines, unbalances the trial
  // balance or repeats a number.
  lemma {:induction false} RunKeepsBalances(b: Books, moves: seq<Move>)
    requires BalancesOk(b)
    ensures BalancesOk(PlayAll(b, moves))
    decreases |moves|
  {
    if moves != [] {
      PlayKeepsBalances(b, moves[0]);
      RunKeepsBalances(Play(b, moves[0]), moves[1..]);
    }
  }

  lemma {:induction false} PlayKeepsMatched(b: Books, move: Move)
    requires MatchedWithin(b)
    ensures MatchedWithin(Play(b, move))
  {
    match move
    case Checked(op) => StepKeepsMatched(b, op);
    case DropMatch(m) => if Drop(b, m).Entered? { DropKeepsMatched(b, m); }
    case _ =>
  }

  // Nor does any run match more than a statement line's amount, allocations and legacy matches together.
  lemma {:induction false} RunKeepsMatched(b: Books, moves: seq<Move>)
    requires MatchedWithin(b)
    ensures MatchedWithin(PlayAll(b, moves))
    decreases |moves|
  {
    if moves != [] {
      PlayKeepsMatched(b, moves[0]);
      RunKeepsMatched(Play(b, moves[0]), moves[1..]);
    }
  }

  lemma {:induction false} MirrorKeepsPlaced(b: Books, j: Id, date: Date, reason: string, stored: Option<string>)
    requires AllocationsPlaced(b) && ReverseSource(b, j, date, reason, stored).Made?
    ensures AllocationsPlaced(ReverseSource(b, j, date, reason, stored).books)
  {
    RowsStayPlaced(b, ReverseSource(b, j, date, reason, stored).books);
  }

  lemma {:induction false} PlayKeepsPlaced(b: Books, move: Move)
    requires AllocationsPlaced(b)
    ensures AllocationsPlaced(Play(b, move))
  {
    match move
    case Checked(op) => StepKeepsPlaced(b, op);
    case DropMatch(m) => if Drop(b, m).Entered? { DropKeepsPlaced(b, m); }
    case ByHand(j, today, reason, stored) =>
      if ReverseManual(b, j, today, reason, stored).Made? {
        MirrorKeepsPlaced(b, j, today, Texts.Trim(reason), stored);
      }
    case OfAsset(j, date, reason, stored) =>
      if ReverseSource(b, j, date, reason, stored).Made? { MirrorKeepsPlaced(b, j, date, reason, stored); }
  }

  // In every run an active allocation lies on a line of its bank's ledger account: on the debit side for
  // money in, on the credit side for money out.
  lemma {:induction false} RunKeepsPlaced(b: Books, moves: seq<Move>)
    requires AllocationsPlaced(b)
    ensures AllocationsPlaced(PlayAll(b, moves))
    decreases |moves|
  {
    if moves != [] {
      PlayKeepsPlaced(b, moves[0]);
      RunKeepsPlaced(Play(b, moves[0]), moves[1..]);
    }
  }

  lemma {:induction false} PlayKeepsHistory(b: Books, move: Move)
    ensures HistoryKept(b.journals, Play(b, move).journals)
  {
    match move
    case Checked(op) => StepKeepsHistory(b, op);
    case _ =>
  }

  lemma {:induction false} RunKeepsHistory(b: Books, moves: seq<Move>)
    ensures HistoryKept(b.journals, PlayAll(b, moves).journals)
    decreases |moves|
  {
    if moves != [] {
      PlayKeepsHistory(b, moves[0]);
      RunKeepsHistory(Play(b, moves[0]), moves[1..]);
    }
  }

  lemma {:induction false} PlayKeepsAsOf(b: Books, move: Move, a: Id, d: Date)
    requires Frozen(b, a, d)
    ensures AsOf(Play(b, move), a, d) == AsOf(b, a, d)
  {
    match move
    case Checked(op) => StepKeepsAsOf(b, op, a, d);
    case DropMatch(m) =>
    case ByHand(j, today, reason, stored) =>
      if ReverseManual(b, j, today, reason, stored).Made? {
        SourceKeepsFrozen(b, j, today, Texts.Trim(reason), stored, a, d);
      }
    case OfAsset(j, date, reason, stored) =>
      if ReverseSource(b, j, date, reason, stored).Made? { SourceKeepsFrozen(b, j, date, reason, stored, a, d); }
  }

  lemma {:induction false} PlayKeepsBarriers(b: Books, move: Move)
    ensures BarriersKept(b, Play(b, move))
  {
    match move
    case Checked(op) => StepKeepsBarriers(b, op);
    case _ =>
  }

  // While a period lock or a bank reconciliation covers day d, no run of any moves changes the balance
  // of the account as of d.
  lemma {:induction false} RunKeepsClosedBalances(b: Books, moves: seq<Move>, a: Id, d: Date)
    requires Frozen(b, a, d)
    ensures AsOf(PlayAll(b, moves), a, d) == AsOf(b, a, d)
    decreases |moves|
  {
    if moves != [] {
      PlayKeepsAsOf(b, moves[0], a, d);
      PlayKeepsBarriers(b, moves[0]);
      SameBarriers(b, Play(b, moves[0]), a, d);
      RunKeepsClosedBalances(Play(b, moves[0]), moves[1..], a, d);
    }
  }

  // ---- One entry per statement line ----

  // A row saying that an entry was created from line s, in force or taken back.
  ghost predicate CreatedRow(b: Books, s: Id, m: Id) {
    s < |b.statements| && m < |b.matches| &&
    b.matches[m].statement == s && Bookkept(b.matches[m]) && b.matches[m].status != RejectedStatus
  }

  lemma {:induction false} RemovalKeepsCreated(b: Books, s: Id, named: Option<Id>, reason: string, number: string,
      today: Date)
    requires RemoveCreated(b, s, named, reason, number, today).Removed?
    ensures forall t, m :: CreatedRow(b, t, m) ==>
      CreatedRow(RemoveCreated(b, s, named, reason, number, today).books, t, m)
  {
    RemovalParts(b, s, named, reason, number, today);
  }

  lemma {:induction false} BankKeepsCreated(b: Books, op: Op)
    requires op.AllocateOp? || op.UnmatchOp? || op.VerifyOp? || op.MatchOp?
    ensures forall s, m :: CreatedRow(b, s, m) ==> CreatedRow(Step(b, op), s, m)
  {
    match op
    case AllocateOp(s, line, amount, actor) =>
    case UnmatchOp(m, actor, reason) =>
    case VerifyOp(s, m, expected, reason, actor) =>
      if Verify(b, s, m, expected, reason, actor).Changed? { VerifyChecked(b, s, m, expected, reason, actor); }
    case MatchOp(s, source, amount, there) =>
  }

  lemma {:induction false} StepKeepsCreated(b: Books, op: Op, s: Id, m: Id)
    requires CreatedRow(b, s, m)
    ensures CreatedRow(Step(b, op), s, m)
  {
    match op
    case RemoveOp(t, named, reason, number, today) =>
      if RemoveCreated(b, t, named, reason, number, today).Removed? {
        RemovalKeepsCreated(b, t, named, reason, number, today);
      }
    case PostOp(_, _, _) =>
    case DraftOp(_) =>
    case ReverseOp(_, _, _) =>
    case CreateOp(_, _, _, _) =>
    case EntryOp(o) => if CreateEntry(b, o).Booked? { BookedParts(b, o); }
    case _ => BankKeepsCreated(b, op);
  }

  lemma {:induction false} PlayKeepsCreated(b: Books, move: Move, s: Id, m: Id)
    requires CreatedRow(b, s, m)
    ensures CreatedRow(Play(b, move), s, m)
  {
    match move
    case Checked(op) => StepKeepsCreated(b, op, s, m);
    case DropMatch(k) =>
    case _ =>
  }

  lemma {:induction false} RunKeepsCreated(b: Books, moves: seq<Move>, s: Id, m: Id)
    requires CreatedRow(b, s, m)
    ensures CreatedRow(PlayAll(b, moves), s, m)
    decreases |moves|
  {
    if moves != [] {
      PlayKeepsCreated(b, moves[0], s, m);
      RunKeepsCreated(Play(b, moves[0]), moves[1..], s, m);
    }
  }

  // Once an entry has been created from a statement line, no run makes it possible again: not by
  // removing the entry, not by dropping matches.
  lemma {:induction false} CreatedAtMostOnce(b: Books, s: Id, bankAccount: Option<Id>, target: Id, number: string,
      moves: seq<Move>)
    requires CreateFromLine(b, s, bankAccount, target, number).Entered?
    ensures var end := PlayAll(CreateFromLine(b, s, bankAccount, target, number).books, moves);
      forall account, other, again :: CreateFromLine(end, s, account, other, again).TurnedDown?
  {
    var after := CreateFromLine(b, s, bankAccount, target, number).books;
    assert CreatedRow(after, s, |b.matches|);
    RunKeepsCreated(after, moves, s, |b.matches|);
    assert NotRejectedOn(PlayAll(after, moves).matches, s);
  }
}
