// A run of three transactions after which a live refund of a vendor note is stranded.
module RefundExample {
  import Texts
  import opened Tables
  import opened Sums
  import opened PostingEngine
  import opened JournalReversal
  import opened LedgerSteps
  import opened LedgerRuns
  import opened Subledger
  import opened SubledgerLaws
  import opened VendorLaws
  import opened VendorRefunds
  import opened FinanceRuns
  import opened BankExamples

  function NoSub(): Sub { Sub([], [], [], [], [], [], [], [], [], [], [], []) }

  function NoJournals(): Books {
    OneLine([], Unmatched).(journals := [], balances := [0, 0], bankBalances := [0], vendors := {0})
  }

  function NoteLines(): seq<Line> { [Line(1, 100, 0, None, None, Some(0)), Line(0, 0, 100, None, None, Some(0))] }

  function NotePosted(): Transaction { LedgerStep(PostOp("VC-1", Some(20240101), NoteLines())) }
  function NotePaidOut(): Transaction { RefundStep(PayOut()) }
  function NoteUndone(): Transaction { UndoStep(Vendors, UndoNote(0), "JV-1", 20240105) }

  // Nothing is posted yet; the vendor note of 100 names the journal that is posted first.
  function Start(): World { World(NoJournals(), NoSub(), OneNote()) }

  lemma Numbers()
    ensures Texts.Trim("VC-1") == "VC-1" && Texts.Trim("JE-1") == "JE-1" && Texts.Trim("JV-1") == "JV-1"
    ensures "VC-1" != "JE-1" && "VC-1" != "JV-1" && "JE-1" != "JV-1"
  {
    assert "VC-1"[0] != "JE-1"[0] && "JE-1"[1] != "JV-1"[1];
  }

  lemma NoJournalsAreOk()
    ensures BooksOk(NoJournals())
  {
    FreshBooksOk(NoJournals());
  }

  lemma NoSubIsOk()
    ensures SubOk(Customers, NoSub())
  {
  }

  lemma PartsMakeWorld(w: World)
    requires BooksOk(w.books) && SubOk(Customers, w.customers) && SubOk(Vendors, w.vendors) && PartiesAgree(w.vendors)
    ensures WorldOk(w)
  {
  }

  lemma {:induction false} StartIsOk(w: World)
    requires w == Start()
    ensures WorldOk(w)
  {
    NoJournalsAreOk();
    NoSubIsOk();
    OneNoteIsConsistent();
    PartsMakeWorld(w);
  }

  // The books of the example after some postings.
  predicate Grown(b: Books, numbers: seq<string>) {
    b == NoJournals().(journals := b.journals, balances := b.balances, bankBalances := b.bankBalances) &&
    |b.journals| == |numbers| && forall j :: 0 <= j < |numbers| ==> b.journals[j].number == numbers[j]
  }

  lemma GrownPosts(b: Books, numbers: seq<string>, p: Payload)
    requires Grown(b, numbers) && p.number !in numbers && p.number != "" && Texts.Trim(p.number) == p.number
    requires p.date.Some? && p.date.value > FIRST_DATE && |p.lines| == 2
    requires forall i :: 0 <= i < 2 ==> p.lines[i].account < 2 && LineOk(p.lines[i])
    requires forall i :: 0 <= i < 2 ==>
      p.lines[i].project.None? && p.lines[i].customer.None? && p.lines[i].vendor == Some(0)
    requires p.lines[0].debit == p.lines[1].credit && p.lines[0].credit == p.lines[1].debit
    ensures Post(b, p).Done? && Post(b, p).id == |numbers| && Grown(Post(b, p).books, numbers + [p.number])
    ensures Post(b, p).books.journals ==
      b.journals + [Journal(p.number, p.date.value, Posted, p.lines, p.reversalOf, None)]
    ensures Post(b, p).books.matches == []
  {
    assert !NumberInUse(b, p.number);
    TwoLinesPost(b, p);
  }

  function NoteJournal(): Journal { Journal("VC-1", 20240101, Posted, NoteLines(), None, None) }

  lemma {:induction false} NoteIsPosted(w: World)
    requires w.books == NoJournals()
    ensures var after := Execute(w, NotePosted());
      after.vendors == w.vendors && Grown(after.books, ["VC-1"]) && after.books.journals == [NoteJournal()]
  {
    Numbers();
    GrownPosts(w.books, [], Payload("VC-1", Some(20240101), NoteLines(), None));
    assert [] + ["VC-1"] == ["VC-1"];
  }

  lemma {:induction false} RefundStepDone(w: World, order: RefundOrder)
    requires RefundProblem(w.vendors, w.books, order).None? && Post(w.books, RefundPayload(order)).Done?
    ensures var posted := Post(w.books, RefundPayload(order));
      Execute(w, RefundStep(order)) == w.(vendors := WithNoteRefund(w.vendors, order, posted.id), books := posted.books)
  {
  }

  lemma NoteIsPayable(s: Sub, b: Books)
    requires s == OneNote() && b.locks == []
    ensures RefundProblem(s, b, PayOut()).None?
  {
  }

  lemma {:induction false} NoteIsPaidOut(w: World)
    requires w.vendors == OneNote() && Grown(w.books, ["VC-1"]) && w.books.journals == [NoteJournal()]
    ensures var after := Execute(w, NotePaidOut());
      after.vendors == WithNoteRefund(OneNote(), PayOut(), 1) &&
      Grown(after.books, ["VC-1", "JE-1"]) && after.books.journals[0] == NoteJournal() && after.books.matches == []
  {
    Numbers();
    NoteIsPayable(w.vendors, w.books);
    GrownPosts(w.books, ["VC-1"], RefundPayload(PayOut()));
    RefundStepDone(w, PayOut());
    assert ["VC-1"] + ["JE-1"] == ["VC-1", "JE-1"];
  }

  lemma {:induction false} NoteIsReversible(b: Books)
    requires Grown(b, ["VC-1", "JE-1"]) && b.journals[0] == NoteJournal() && b.matches == []
    ensures Reverse(b, 0, "JV-1", 20240105, None).Done? && Reverse(b, 0, "JV-1", 20240105, None).id == 2
  {
    var p := ReversalPayload(b, 0, "JV-1", 20240105);
    Numbers();
    assert p.lines == [Line(1, 0, 100, None, None, Some(0)), Line(0, 100, 0, None, None, Some(0))];
    GrownPosts(b, ["VC-1", "JE-1"], p);
  }

  lemma {:induction false} UndoStepDone(w: World, undo: Undo, number: string, today: Date)
    requires PlanOf(Vendors, w.vendors, w.books, undo).Proceed? && PlanOf(Vendors, w.vendors, w.books, undo).late.None?
    requires Reverse(w.books, PlanOf(Vendors, w.vendors, w.books, undo).journal, number, today, None).Done?
    ensures FinanceRuns.Outcome(w, Vendors, undo, number, today).Undid?
    ensures Execute(w, UndoStep(Vendors, undo, number, today)).vendors ==
      PlanOf(Vendors, w.vendors, w.books, undo).after
  {
  }

  lemma {:induction false} NoteIsUndone(w: World)
    requires w.vendors == WithNoteRefund(OneNote(), PayOut(), 1)
    requires Grown(w.books, ["VC-1", "JE-1"]) && w.books.journals[0] == NoteJournal() && w.books.matches == []
    ensures FinanceRuns.Outcome(w, Vendors, UndoNote(0), "JV-1", 20240105).Undid?
    ensures Stranded(Execute(w, NoteUndone()).vendors, 0) &&
      Execute(w, NoteUndone()).vendors.parties == [Party(100, 0, 100)]
  {
    PaidNotePlan(w.vendors, w.books);
    NoteIsReversible(w.books);
    UndoStepDone(w, UndoNote(0), "JV-1", 20240105);
  }

  lemma {:induction false} PaidNotePlan(s: Sub, b: Books)
    requires s == WithNoteRefund(OneNote(), PayOut(), 1)
    ensures var plan := PlanOf(Vendors, s, b, UndoNote(0));
      plan.Proceed? && plan.late.None? && plan.journal == 0 && Stranded(plan.after, 0) &&
        plan.after.parties == [Party(100, 0, 100)]
  {
    PaidOutNoteReversed();
  }

  lemma {:induction false} ThreeSteps(w: World, ts: seq<Transaction>)
    requires |ts| == 3
    ensures ExecuteAll(w, ts) == Execute(Execute(Execute(w, ts[0]), ts[1]), ts[2])
  {
    var first := Execute(w, ts[0]);
    var second := Execute(first, ts[1]);
    assert ExecuteAll(w, ts) == ExecuteAll(first, ts[1..]) == ExecuteAll(second, ts[1..][1..]);
    assert ts[1..][1..] == [ts[2]] && [ts[2]][1..] == [];
    assert ExecuteAll(second, [ts[2]]) == ExecuteAll(Execute(second, ts[2]), []);
  }

  lemma {:induction false} AllThreeDone(w: World)
    requires w == Start()
    ensures var paid := Execute(Execute(w, NotePosted()), NotePaidOut());
      var end := Execute(paid, NoteUndone());
      FinanceRuns.Outcome(paid, Vendors, UndoNote(0), "JV-1", 20240105).Undid? &&
      Stranded(end.vendors, 0) && end.vendors.parties == [Party(100, 0, 100)]
  {
    NoteIsPosted(w);
    NoteIsPaidOut(Execute(w, NotePosted()));
    NoteIsUndone(Execute(Execute(w, NotePosted()), NotePaidOut()));
  }

  lemma {:induction false} RunIsOk(w: World, ts: seq<Transaction>)
    requires w == Start()
    ensures WorldOk(w) && WorldOk(ExecuteAll(w, ts))
  {
    StartIsOk(w);
    RunKeepsWorld(w, ts);
  }

  // The note is posted, paid out and then reversed: each step goes through, the books and both
  // subledgers stay consistent, the vendor keeps 100 unused credits, and the refund is stranded.
  lemma {:induction false} PaidOutNoteIsReversed(w: World, ts: seq<Transaction>)
    requires w == Start() && |ts| == 3 && ts[0] == NotePosted() && ts[1] == NotePaidOut() && ts[2] == NoteUndone()
    ensures WorldOk(w) && WorldOk(ExecuteAll(w, ts))
    ensures Stranded(ExecuteAll(w, ts).vendors, 0) && ExecuteAll(w, ts).vendors.parties == [Party(100, 0, 100)]
  {
    RunIsOk(w, ts);
    AllThreeDone(w);
    ThreeSteps(w, ts);
  }
}
