// One browser tab and one server joined by a network that loses, delays, reorders and duplicates.
module ExactlyOnce {
  import opened Tables
  import opened CanonicalJson
  import opened CommandService
  import opened CommandLaws
  import opened ApiClient

  datatype Command = Command(commandType: string, payload: Json)

  datatype Request = Request(fingerprint: Fingerprint, key: string)
  datatype Answer = Answer(request: nat, response: Response)

  // requests and answers hold everything ever sent; open holds the fetches the tab still waits for;
  // origins names the request that created each receipt.
  datatype Net = Net(tab: Tab, store: Store, requests: seq<Request>, open: set<nat>,
                     answers: seq<Answer>, origins: seq<nat>)

  datatype Step =
    | Send(fp: Fingerprint, provided: Option<string>, newKey: NewKey)
    | Process(request: nat, work: Work)              // the server handles a copy of a request
    | Deliver(answer: nat, readable: bool)           // an answer reaches the fetch it belongs to
    | Interrupt(request: nat, reply: Reply)          // a fetch ends without an answer from the command
    | Reload

  type Router = Fingerprint -> Command

  function Start(storage: bool): Net {
    Net(Tab(map[], map[], storage), Store([], [], [], []), [], {}, [], [])
  }

  function InputOf(route: Router, r: Request): Input {
    var command := route(r.fingerprint);
    Input(r.fingerprint.organization, command.commandType, command.payload, Some(r.key))
  }

  function ReplyOf(response: Response, readable: bool): Reply {
    match response
    case Done(_, _) => HttpReply(200, false, readable)
    case PayloadConflict => HttpReply(409, false, readable)
    case InProgress => HttpReply(409, true, readable)
    case Failed(status) => HttpReply(status, false, readable)
  }

  // The fetch a step ends, and with which reply.
  predicate Ends(n: Net, step: Step) {
    match step
    case Deliver(a, _) => a < |n.answers| && n.answers[a].request in n.open
    case Interrupt(r, reply) => r in n.open && !IsSuccess(reply)
    case _ => false
  }

  function EndedRequest(n: Net, step: Step): nat
    requires Ends(n, step)
  {
    match step
    case Deliver(a, _) => n.answers[a].request
    case Interrupt(r, _) => r
  }

  function EndingReply(n: Net, step: Step): Reply
    requires Ends(n, step)
  {
    match step
    case Deliver(a, readable) => ReplyOf(n.answers[a].response, readable)
    case Interrupt(_, reply) => reply
  }

  // A step that is not possible changes nothing.
  function Next(route: Router, n: Net, step: Step): Net {
    match step
    case Send(fp, provided, newKey) =>
      var key := KeyFor(n.tab, fp, provided, newKey);
      n.(tab := Remembered(n.tab, fp, key), requests := n.requests + [Request(fp, key)],
         open := n.open + {|n.requests|})
    case Process(r, work) =>
      if r >= |n.requests| then n else
      var (store, response) := Execute(n.store, InputOf(route, n.requests[r]), work);
      n.(store := store, answers := n.answers + [Answer(r, response)],
         origins := if |store.receipts| > |n.store.receipts| then n.origins + [r] else n.origins)
    case Deliver(_, _) => Ended(n, step)
    case Interrupt(_, _) => Ended(n, step)
    case Reload => n.(tab := n.tab.(pending := map[]), open := {})
  }

  function Ended(n: Net, step: Step): Net {
    if !Ends(n, step) then n
    else if EndedRequest(n, step) >= |n.requests| then n
    else
      var r := EndedRequest(n, step);
      n.(tab := Settled(n.tab, n.requests[r].fingerprint, EndingReply(n, step)), open := n.open - {r})
  }

  function Run(route: Router, n: Net, steps: seq<Step>): Net
    decreases |steps|
  {
    if steps == [] then n else Run(route, Next(route, n, steps[0]), steps[1..])
  }

  // ---- What holds in every reachable state ----

  ghost predicate KeysKnown(n: Net, keys: map<Fingerprint, string>) {
    forall fp :: fp in keys ==>
      keys[fp] != "" && exists r :: 0 <= r < |n.requests| && n.requests[r] == Request(fp, keys[fp])
  }

  // Receipt c was written for this request's organization, key and command type.
  ghost predicate Concerns(route: Router, q: Receipt, r: Request) {
    var input := InputOf(route, r);
    q.organization == input.organization && q.key == input.key && q.commandType == input.commandType
  }

  // A success carries the recorded result of the one receipt of its request's key.
  ghost predicate Truthful(route: Router, n: Net, a: Answer) {
    a.request < |n.requests| &&
    (a.response.Done? ==>
      a.response.command < |n.store.receipts| &&
      Concerns(route, n.store.receipts[a.response.command], n.requests[a.request]) &&
      n.store.receipts[a.response.command].result == Some(Stored(a.response.result)) &&
      n.store.receipts[a.response.command].payloadHash == HashOf(InputOf(route, n.requests[a.request]).payload))
  }

  ghost predicate NetOk(route: Router, n: Net) {
    && StoreOk(n.store)
    && (forall r :: 0 <= r < |n.requests| ==> n.requests[r].key != "")
    && |n.origins| == |n.store.receipts|
    && (forall c :: 0 <= c < |n.origins| ==>
          n.origins[c] < |n.requests| && Concerns(route, n.store.receipts[c], n.requests[n.origins[c]]))
    && (forall a :: 0 <= a < |n.answers| ==> Truthful(route, n, n.answers[a]))
    && (forall r :: r in n.open ==> r < |n.requests|)
    && KeysKnown(n, n.tab.pending) && KeysKnown(n, n.tab.stored)
    && (n.tab.storage ==> forall fp :: fp in n.tab.pending ==>
         fp in n.tab.stored && n.tab.stored[fp] == n.tab.pending[fp])
  }

  lemma SendKeepsNet(route: Router, n: Net, step: Step)
    requires NetOk(route, n) && step.Send?
    ensures NetOk(route, Next(route, n, step))
  {
    var n' := Next(route, n, step);
    var key := KeyFor(n.tab, step.fp, step.provided, step.newKey);
    assert n'.requests[|n.requests|] == Request(step.fp, key);
    forall a | 0 <= a < |n.answers|
      ensures Truthful(route, n', n.answers[a])
    {
      assert Truthful(route, n, n.answers[a]);
    }
    KeysStayKnown(n, n', n.tab.pending);
    KeysStayKnown(n, n', n.tab.stored);
  }

  lemma KeysStayKnown(n: Net, n': Net, keys: map<Fingerprint, string>)
    requires n.requests <= n'.requests && KeysKnown(n, keys)
    ensures KeysKnown(n', keys)
  {
    forall fp | fp in keys ensures exists r :: 0 <= r < |n'.requests| && n'.requests[r] == Request(fp, keys[fp]) {
      var r :| 0 <= r < |n.requests| && n.requests[r] == Request(fp, keys[fp]);
      assert n'.requests[r] == n.requests[r];
    }
  }

  // What running a command does to the receipts, and whose receipt it answers with.
  lemma ExecuteAnswers(s: Store, input: Input, work: Work)
    requires StoreOk(s) && KeyOf(input) == input.key
    ensures var (s', response) := Execute(s, input, work);
      s.receipts <= s'.receipts && |s'.receipts| <= |s.receipts| + 1 &&
      (|s'.receipts| > |s.receipts| ==>
        var q := s'.receipts[|s.receipts|];
        q.organization == input.organization && q.key == input.key && q.commandType == input.commandType) &&
      (response.Done? ==>
        response.command < |s'.receipts| &&
        var q := s'.receipts[response.command];
        q.organization == input.organization && q.key == input.key && q.commandType == input.commandType &&
        q.result == Some(Stored(response.result)) && q.payloadHash == HashOf(input.payload))
  {
  }

  lemma ProcessKeepsNet(route: Router, n: Net, step: Step)
    requires NetOk(route, n) && step.Process?
    ensures NetOk(route, Next(route, n, step))
  {
    if step.request < |n.requests| {
      var input := InputOf(route, n.requests[step.request]);
      var (store, response) := Execute(n.store, input, step.work);
      ExecuteKeepsStore(n.store, input, step.work);
      ExecuteAnswers(n.store, input, step.work);
      AnswerKeepsNet(route, n, step.request, store, response);
    }
  }

  lemma AnswerKeepsNet(route: Router, n: Net, r: nat, store: Store, response: Response)
    requires NetOk(route, n) && r < |n.requests| && StoreOk(store)
    requires n.store.receipts <= store.receipts && |store.receipts| <= |n.store.receipts| + 1
    requires |store.receipts| > |n.store.receipts| ==>
      Concerns(route, store.receipts[|n.store.receipts|], n.requests[r])
    requires Truthful(route, n.(store := store), Answer(r, response))
    ensures NetOk(route, n.(store := store, answers := n.answers + [Answer(r, response)],
                            origins := if |store.receipts| > |n.store.receipts| then n.origins + [r] else n.origins))
  {
    forall a | 0 <= a < |n.answers| ensures Truthful(route, n.(store := store), n.answers[a]) {
      assert Truthful(route, n, n.answers[a]);
    }
  }

  lemma NextKeepsNet(route: Router, n: Net, step: Step)
    requires NetOk(route, n)
    ensures NetOk(route, Next(route, n, step))
  {
    match step
    case Send(_, _, _) => SendKeepsNet(route, n, step);
    case Process(_, _) => ProcessKeepsNet(route, n, step);
    case _ =>
  }

  // Main theorem, server side. In every reachable state each organization, key and command type has
  // at most one effect, and every success ever answered carries the result recorded with it.
  lemma {:induction false} RunKeepsNet(route: Router, n: Net, steps: seq<Step>)
    requires NetOk(route, n)
    ensures NetOk(route, Run(route, n, steps))
    decreases |steps|
  {
    if steps != [] {
      NextKeepsNet(route, n, steps[0]);
      RunKeepsNet(route, Next(route, n, steps[0]), steps[1..]);
    }
  }

  lemma StartIsOk(route: Router, storage: bool)
    ensures NetOk(route, Start(storage))
  {
  }

  // Any two successes for one organization, key and command type name the same command and send the
  // same JSON text as their result.
  lemma SuccessesAgree(route: Router, n: Net, steps: seq<Step>, a: nat, b: nat)
    requires NetOk(route, n)
    requires a < |Run(route, n, steps).answers| && b < |Run(route, n, steps).answers|
    ensures var end := Run(route, n, steps);
      var p, q := end.answers[a], end.answers[b];
      p.response.Done? && q.response.Done? && p.request < |end.requests| && q.request < |end.requests| &&
      end.requests[p.request].key == end.requests[q.request].key &&
      InputOf(route, end.requests[p.request]).organization == InputOf(route, end.requests[q.request]).organization &&
      InputOf(route, end.requests[p.request]).commandType == InputOf(route, end.requests[q.request]).commandType
      ==> p.response.command == q.response.command && Stored(p.response.result) == Stored(q.response.result)
  {
    RunKeepsNet(route, n, steps);
    var end := Run(route, n, steps);
    var p, q := end.answers[a], end.answers[b];
    assert Truthful(route, end, p) && Truthful(route, end, q);
    if p.response.Done? && q.response.Done? {
      var c, d := p.response.command, q.response.command;
      assert c < d ==> !SameCommand(end.store.receipts[c], end.store.receipts[d]);
      assert d < c ==> !SameCommand(end.store.receipts[d], end.store.receipts[c]);
    }
  }

  // ---- How many effects one request can have ----

  // A server answer after which the outcome is known to the tab, by what the server said.
  predicate Conclusive(response: Response, readable: bool) {
    match response
    case Done(_, _) => readable
    case PayloadConflict => true
    case InProgress => false
    case Failed(status) => status < 200 || 300 <= status < 500 || (status < 300 && readable)
  }

  // An ending that no answer of the command brought about.
  predicate ConclusiveEnd(reply: Reply) {
    reply.HttpReply? && reply.status < 500 && (reply.status != 409 || !reply.inProgress)
  }

  // The ways a tab can come to use another key for a request: a conclusive reply, a key given by the
  // caller, or a reload without session storage.
  function Releases(n: Net, step: Step, fp: Fingerprint): nat {
    match step
    case Send(f, provided, _) => if f == fp && provided.Some? && provided.value != "" then 1 else 0
    case Deliver(a, readable) => if EndsFor(n, step, fp) && Conclusive(n.answers[a].response, readable) then 1 else 0
    case Interrupt(_, reply) => if EndsFor(n, step, fp) && ConclusiveEnd(reply) then 1 else 0
    case Reload => if n.tab.storage then 0 else 1
    case Process(_, _) => 0
  }

  predicate EndsFor(n: Net, step: Step, fp: Fingerprint) {
    Ends(n, step) && EndedRequest(n, step) < |n.requests| && n.requests[EndedRequest(n, step)].fingerprint == fp
  }

  function ReleasesIn(route: Router, n: Net, steps: seq<Step>, fp: Fingerprint): nat
    decreases |steps|
  {
    if steps == [] then 0 else Releases(n, steps[0], fp) + ReleasesIn(route, Next(route, n, steps[0]), steps[1..], fp)
  }

  function KeysSent(requests: seq<Request>, fp: Fingerprint): set<string> {
    set r | 0 <= r < |requests| && requests[r].fingerprint == fp :: requests[r].key
  }

  // The commands that took effect for a request.
  function Effects(n: Net, fp: Fingerprint): set<nat> {
    set c | 0 <= c < |n.origins| && n.origins[c] < |n.requests| && n.requests[n.origins[c]].fingerprint == fp
  }

  function Holding(n: Net, fp: Fingerprint): nat { if HeldKey(n.tab, fp).Some? then 1 else 0 }

  lemma KeysSentGrow(requests: seq<Request>, r: Request, fp: Fingerprint)
    ensures KeysSent(requests + [r], fp) ==
      if r.fingerprint == fp then KeysSent(requests, fp) + {r.key} else KeysSent(requests, fp)
  {
    var more := requests + [r];
    assert forall i :: 0 <= i < |requests| ==> more[i] == requests[i];
    assert more[|requests|] == r;
    forall k | k in KeysSent(requests, fp) ensures k in KeysSent(more, fp) {
      var i :| 0 <= i < |requests| && requests[i].fingerprint == fp && requests[i].key == k;
      assert more[i].fingerprint == fp && more[i].key == k;
    }
  }

  // Each step can add as many new keys as it releases, and one if no key was held.
  lemma NextKeys(route: Router, n: Net, step: Step, fp: Fingerprint)
    requires NetOk(route, n)
    ensures var n' := Next(route, n, step);
      |KeysSent(n'.requests, fp)| + Holding(n, fp) <= |KeysSent(n.requests, fp)| + Releases(n, step, fp) +
        Holding(n', fp)
  {
    if step.Send? { SendKeys(route, n, step, fp); }
  }

  lemma SendKeys(route: Router, n: Net, step: Step, fp: Fingerprint)
    requires NetOk(route, n) && step.Send?
    ensures var n' := Next(route, n, step);
      |KeysSent(n'.requests, fp)| + Holding(n, fp) <= |KeysSent(n.requests, fp)| + Releases(n, step, fp) +
        Holding(n', fp)
  {
    var key := KeyFor(n.tab, step.fp, step.provided, step.newKey);
    KeysSentGrow(n.requests, Request(step.fp, key), fp);
    if step.fp == fp && HeldKey(n.tab, fp) == Some(key) { assert key in KeysSent(n.requests, fp); }
  }

  lemma {:induction false} RunKeys(route: Router, n: Net, steps: seq<Step>, fp: Fingerprint)
    requires NetOk(route, n)
    ensures var end := Run(route, n, steps);
      |KeysSent(end.requests, fp)| + Holding(n, fp) <=
      |KeysSent(n.requests, fp)| + ReleasesIn(route, n, steps, fp) + Holding(end, fp)
    decreases |steps|
  {
    if steps != [] {
      NextKeys(route, n, steps[0], fp);
      NextKeepsNet(route, n, steps[0]);
      RunKeys(route, Next(route, n, steps[0]), steps[1..], fp);
    }
  }

  // Different effects of one request carry different keys.
  lemma {:induction false} EffectsWithinKeys(route: Router, n: Net, fp: Fingerprint, some: set<nat>, keys: set<string>)
    requires NetOk(route, n) && some <= Effects(n, fp)
    requires forall c :: c in some ==> n.requests[n.origins[c]].key in keys
    ensures |some| <= |keys|
    decreases |some|
  {
    if some != {} {
      var c :| c in some;
      var key := n.requests[n.origins[c]].key;
      forall d | d in some - {c} ensures n.requests[n.origins[d]].key in keys - {key} {
        assert Concerns(route, n.store.receipts[c], n.requests[n.origins[c]]);
        assert Concerns(route, n.store.receipts[d], n.requests[n.origins[d]]);
        assert c < d ==> !SameCommand(n.store.receipts[c], n.store.receipts[d]);
        assert d < c ==> !SameCommand(n.store.receipts[d], n.store.receipts[c]);
      }
      EffectsWithinKeys(route, n, fp, some - {c}, keys - {key});
    }
  }

  // Main theorem, both sides. However often a request is sent, lost, duplicated, reordered and
  // retried, it takes effect at most once more than the tab was given leave to use a new key.
  lemma EffectsBounded(route: Router, storage: bool, steps: seq<Step>, fp: Fingerprint)
    ensures |Effects(Run(route, Start(storage), steps), fp)| <= 1 + ReleasesIn(route, Start(storage), steps, fp)
  {
    var n := Start(storage);
    var end := Run(route, n, steps);
    StartIsOk(route, storage);
    RunKeepsNet(route, n, steps);
    RunKeys(route, n, steps, fp);
    assert KeysSent(n.requests, fp) == {};
    EffectsWithinKeys(route, end, fp, Effects(end, fp), KeysSent(end.requests, fp));
  }

  // No attempt of the request has ended conclusively, been given a key, or met a reload that lost it.
  ghost predicate NeverConcluded(route: Router, n: Net, steps: seq<Step>, fp: Fingerprint)
    decreases |steps|
  {
    steps == [] || (NotConcluded(n, steps[0], fp) && NeverConcluded(route, Next(route, n, steps[0]), steps[1..], fp))
  }

  // The command in progress, a server error, or a success the tab could not read.
  ghost predicate Inconclusive(response: Response, readable: bool) {
    response.InProgress? || (response.Done? && !readable) ||
    (response.Failed? && (response.status >= 500 || (200 <= response.status <= 299 && !readable)))
  }

  ghost predicate NotConcluded(n: Net, step: Step, fp: Fingerprint) {
    match step
    case Send(f, provided, _) => f == fp ==> provided in {None, Some("")}
    case Deliver(a, readable) => EndsFor(n, step, fp) ==> Inconclusive(n.answers[a].response, readable)
    case Interrupt(_, reply) => EndsFor(n, step, fp) ==>
      reply.NoReply? || reply.status >= 500 || (reply.status == 409 && reply.inProgress)
    case Reload => n.tab.storage
    case Process(_, _) => true
  }

  lemma {:induction false} NeverConcludedReleasesNothing(route: Router, n: Net, steps: seq<Step>, fp: Fingerprint)
    requires NeverConcluded(route, n, steps, fp)
    ensures ReleasesIn(route, n, steps, fp) == 0
    decreases |steps|
  {
    if steps != [] { NeverConcludedReleasesNothing(route, Next(route, n, steps[0]), steps[1..], fp); }
  }

  // Exactly once: however often it is retried, a request whose attempts all end without a conclusive
  // answer takes effect at most once.
  lemma UncertainRetriesRunOnce(route: Router, storage: bool, steps: seq<Step>, fp: Fingerprint)
    requires NeverConcluded(route, Start(storage), steps, fp)
    ensures |Effects(Run(route, Start(storage), steps), fp)| <= 1
  {
    NeverConcludedReleasesNothing(route, Start(storage), steps, fp);
    EffectsBounded(route, storage, steps, fp);
  }

  // While a request's outcome stays uncertain, every retry carries the key of the first attempt.
  lemma {:induction false} RetriesKeepTheKey(route: Router, n: Net, steps: seq<Step>, fp: Fingerprint, key: string)
    requires NetOk(route, n) && HeldKey(n.tab, fp) == Some(key)
    requires ReleasesIn(route, n, steps, fp) == 0
    ensures var end := Run(route, n, steps);
      HeldKey(end.tab, fp) == Some(key) && n.requests <= end.requests &&
      forall r :: |n.requests| <= r < |end.requests| && end.requests[r].fingerprint == fp ==> end.requests[r].key == key
    decreases |steps|
  {
    if steps != [] {
      NextKeepsNet(route, n, steps[0]);
      NextKeepsTheKey(route, n, steps[0], fp, key);
      RetriesKeepTheKey(route, Next(route, n, steps[0]), steps[1..], fp, key);
    }
  }

  lemma NextKeepsTheKey(route: Router, n: Net, step: Step, fp: Fingerprint, key: string)
    requires NetOk(route, n) && HeldKey(n.tab, fp) == Some(key) && Releases(n, step, fp) == 0
    ensures var n' := Next(route, n, step);
      HeldKey(n'.tab, fp) == Some(key) && n.requests <= n'.requests &&
      forall r :: |n.requests| <= r < |n'.requests| && n'.requests[r].fingerprint == fp ==> n'.requests[r].key == key
  {
  }

  // ---- Overlapping attempts of one request ----

  // The fetch a step ends has a conclusive reply.
  predicate ConcludedBy(n: Net, step: Step)
    requires Ends(n, step)
  {
    match step
    case Deliver(a, readable) => Conclusive(n.answers[a].response, readable)
    case Interrupt(_, reply) => ConclusiveEnd(reply)
  }

  // A reply drops the key another open attempt still relies on exactly when it is a conclusive one for
  // the same request.
  lemma OtherAttemptLosesKey(route: Router, n: Net, step: Step, other: nat)
    requires NetOk(route, n) && Ends(n, step) && other in n.open && other != EndedRequest(n, step)
    requires HeldKey(n.tab, n.requests[other].fingerprint) == Some(n.requests[other].key)
    ensures other in Next(route, n, step).open
    ensures HeldKey(Next(route, n, step).tab, n.requests[other].fingerprint) == Some(n.requests[other].key) <==>
      !(EndsFor(n, step, n.requests[other].fingerprint) && ConcludedBy(n, step))
  {
  }

  lemma {:induction false} RunSnoc(route: Router, n: Net, steps: seq<Step>, last: Step)
    ensures Run(route, n, steps + [last]) == Next(route, Run(route, n, steps), last)
    decreases |steps|
  {
    if steps == [] {
      assert [] + [last] == [last];
      assert Run(route, n, [last]) == Run(route, Next(route, n, last), []);
    } else {
      assert (steps + [last])[1..] == steps[1..] + [last];
      RunSnoc(route, Next(route, n, steps[0]), steps[1..], last);
    }
  }

  // Two clicks send a request under one key, both are processed, and the first answer has arrived.
  function TwoClicks(fp: Fingerprint): seq<Step> {
    var work := Returns(JBool(true), [], []);
    [Send(fp, None, "1"), Send(fp, None, "1"), Process(0, work), Process(1, work), Deliver(0, true)]
  }

  lemma TwoClicksSteps(route: Router, fp: Fingerprint)
    ensures var n := Start(true);
      var all := TwoClicks(fp);
      Run(route, n, all) == Next(route,
        Next(route, Next(route, Next(route, Next(route, n, all[0]), all[1]), all[2]), all[3]), all[4])
  {
    FiveSteps(route, Start(true), TwoClicks(fp));
  }

  lemma FiveSteps(route: Router, n: Net, all: seq<Step>)
    requires |all| == 5
    ensures Run(route, n, all) ==
      Next(route, Next(route, Next(route, Next(route, Next(route, n, all[0]), all[1]), all[2]), all[3]), all[4])
  {
    RunSnoc(route, n, [], all[0]);
    RunSnoc(route, n, all[..1], all[1]);
    RunSnoc(route, n, all[..2], all[2]);
    RunSnoc(route, n, all[..3], all[3]);
    RunSnoc(route, n, all[..4], all[4]);
    assert [] + [all[0]] == all[..1] && all[..1] + [all[1]] == all[..2] && all[..2] + [all[2]] == all[..3];
    assert all[..3] + [all[3]] == all[..4] && all[..4] + [all[4]] == all;
  }

  lemma ProcessStep(route: Router, n: Net, r: nat, work: Work, store: Store, response: Response)
    requires r < |n.requests| && Execute(n.store, InputOf(route, n.requests[r]), work) == (store, response)
    ensures var n' := Next(route, n, Process(r, work));
      n'.tab == n.tab && n'.requests == n.requests && n'.open == n.open && n'.store == store &&
      n'.answers == n.answers + [Answer(r, response)]
  {
  }

  lemma AfterTwoClicks(route: Router, fp: Fingerprint)
    ensures var n := Run(route, Start(true), TwoClicks(fp));
      n.requests == [Request(fp, "1"), Request(fp, "1")] && n.open == {1} && n.tab == Tab(map[], map[], true) &&
      |n.answers| == 2 && n.answers[1].request == 1 && n.answers[1].response.Done?
  {
    TwoClicksSteps(route, fp);
    TwoSends(route, fp);
    TwoAnswers(route, Next(route, Next(route, Start(true), Send(fp, None, "1")), Send(fp, None, "1")),
      Request(fp, "1"));
  }

  // Both copies of a sent request are processed and the first answer is delivered.
  lemma TwoAnswers(route: Router, n: Net, r: Request)
    requires r.key == "1" && n.requests == [r, r] && n.open == {0, 1} && n.store == Store([], [], [], [])
    requires n.answers == [] && n.tab == Tab(map[r.fingerprint := "1"], map[r.fingerprint := "1"], true)
    ensures var work := Returns(JBool(true), [], []);
      var end := Next(route, Next(route, Next(route, n, Process(0, work)), Process(1, work)), Deliver(0, true));
      end.requests == [r, r] && end.open == {1} && end.tab == Tab(map[], map[], true) &&
      |end.answers| == 2 && end.answers[1].request == 1 && end.answers[1].response.Done?
  {
    var work := Returns(JBool(true), [], []);
    var response := BothProcessed(route, n, r, work);
    FirstAnswer(Next(route, Next(route, n, Process(0, work)), Process(1, work)), r, response);
  }

  lemma BothProcessed(route: Router, n: Net, r: Request, work: Work) returns (response: Response)
    requires r.key == "1" && n.requests == [r, r] && n.store == Store([], [], [], []) && n.answers == []
    requires work == Returns(JBool(true), [], [])
    ensures response.Done?
    ensures var n' := Next(route, Next(route, n, Process(0, work)), Process(1, work));
      n'.requests == [r, r] && n'.tab == n.tab && n'.open == n.open &&
      n'.answers == [Answer(0, response), Answer(1, response)]
  {
    var executed := Execute(n.store, InputOf(route, r), work);
    var store := executed.0;
    response := executed.1;
    FirstAndReplay(InputOf(route, r), work);
    ProcessStep(route, n, 0, work, store, response);
    ProcessStep(route, Next(route, n, Process(0, work)), 1, work, store, response);
  }

  lemma TwoSends(route: Router, fp: Fingerprint)
    ensures var n := Next(route, Next(route, Start(true), Send(fp, None, "1")), Send(fp, None, "1"));
      n.requests == [Request(fp, "1"), Request(fp, "1")] && n.open == {0, 1} && n.store == Store([], [], [], []) &&
      n.answers == [] && n.tab == Tab(map[fp := "1"], map[fp := "1"], true)
  {
  }

  lemma FirstAnswer(n: Net, r: Request, response: Response)
    requires n.requests == [r, r] && n.open == {0, 1} && n.answers == [Answer(0, response), Answer(1, response)]
    requires response.Done? && n.tab == Tab(map[r.fingerprint := r.key], map[r.fingerprint := r.key], true)
    ensures Ended(n, Deliver(0, true)) == n.(open := {1}, tab := Tab(map[], map[], true))
  {
  }

  // The first answer dropped the key, a third click draws a new one, and the second answer drops
  // that one while the third attempt is still open.
  lemma LateAnswerDropsNewerKey(route: Router, fp: Fingerprint)
    ensures var before := Run(route, Start(true), TwoClicks(fp) + [Send(fp, None, "2")]);
      2 in before.open && |before.requests| == 3 && before.requests[2] == Request(fp, "2") &&
        HeldKey(before.tab, fp) == Some("2")
    ensures var end := Run(route, Start(true), TwoClicks(fp) + [Send(fp, None, "2")] + [Deliver(1, true)]);
      2 in end.open && |end.requests| == 3 && end.requests[2] == Request(fp, "2") && HeldKey(end.tab, fp) == None
  {
    AfterTwoClicks(route, fp);
    RunSnoc(route, Start(true), TwoClicks(fp), Send(fp, None, "2"));
    RunSnoc(route, Start(true), TwoClicks(fp) + [Send(fp, None, "2")], Deliver(1, true));
  }

  // An empty store answers a command and its repetition alike.
  lemma FirstAndReplay(input: Input, work: Work)
    requires KeyOf(input).Some? && work.Returns? && EventsDiffer(work.events) && !IsNull(work.result)
    requires Stored(work.result) == work.result
    ensures var (s, response) := Execute(Store([], [], [], []), input, work);
      response == Done(0, work.result) && Execute(s, input, work) == (s, response)
  {
  }

  // At most one attempt of each request is open, and its key is held.
  ghost predicate OneAtATime(n: Net) {
    && (forall r, q :: r in n.open && q in n.open && r < |n.requests| && q < |n.requests| && r != q ==>
          n.requests[r].fingerprint != n.requests[q].fingerprint)
    && (forall r :: r in n.open && r < |n.requests| ==>
         HeldKey(n.tab, n.requests[r].fingerprint) == Some(n.requests[r].key))
  }

  predicate Overlaps(n: Net, step: Step) {
    step.Send? && exists r :: r in n.open && r < |n.requests| && n.requests[r].fingerprint == step.fp
  }

  ghost predicate NeverOverlaps(route: Router, n: Net, steps: seq<Step>)
    decreases |steps|
  {
    steps == [] || (!Overlaps(n, steps[0]) && NeverOverlaps(route, Next(route, n, steps[0]), steps[1..]))
  }

  // If attempts of one request never overlap, an open attempt's key is held until its own
  // definitive reply.
  lemma {:induction false} KeyHeldUntilOwnReply(route: Router, n: Net, steps: seq<Step>)
    requires NetOk(route, n) && OneAtATime(n) && NeverOverlaps(route, n, steps)
    ensures OneAtATime(Run(route, n, steps))
    decreases |steps|
  {
    if steps != [] {
      NextKeepsNet(route, n, steps[0]);
      NextKeepsOneAtATime(route, n, steps[0]);
      KeyHeldUntilOwnReply(route, Next(route, n, steps[0]), steps[1..]);
    }
  }

  lemma NextKeepsOneAtATime(route: Router, n: Net, step: Step)
    requires NetOk(route, n) && OneAtATime(n) && !Overlaps(n, step)
    ensures OneAtATime(Next(route, n, step))
  {
    match step
    case Send(_, _, _) => SendKeepsOneAtATime(route, n, step);
    case Process(_, _) =>
    case Reload =>
    case _ => EndKeepsOneAtATime(n, step);
  }

  lemma SendKeepsOneAtATime(route: Router, n: Net, step: Step)
    requires NetOk(route, n) && OneAtATime(n) && step.Send? && !Overlaps(n, step)
    ensures OneAtATime(Next(route, n, step))
  {
    var n' := Next(route, n, step);
    forall r | r in n.open
      ensures n'.requests[r] == n.requests[r] && n.requests[r].fingerprint != step.fp
      ensures HeldKey(n'.tab, n.requests[r].fingerprint) == HeldKey(n.tab, n.requests[r].fingerprint)
    {
    }
  }

  lemma EndKeepsOneAtATime(n: Net, step: Step)
    requires OneAtATime(n)
    ensures OneAtATime(Ended(n, step))
  {
    if Ends(n, step) && EndedRequest(n, step) < |n.requests| {
      var n' := Ended(n, step);
      var ended := EndedRequest(n, step);
      forall r | r in n'.open && r < |n.requests|
        ensures n.requests[r].fingerprint != n.requests[ended].fingerprint
        ensures HeldKey(n'.tab, n.requests[r].fingerprint) == HeldKey(n.tab, n.requests[r].fingerprint)
      {
      }
    }
  }
}
