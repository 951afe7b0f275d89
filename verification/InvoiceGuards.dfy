// The invoice-create guards of one browser tab: addInvoice, status checks, dismissal and reload.
module InvoiceGuards {
  import opened Tables

  datatype Owner = Owner(organization: string, user: string)

  datatype GuardStatus = Pending | NeedsVerification | Committed | Rejected | Conflict

  datatype Guard = Guard(owner: Owner, key: string, requestHash: string, status: GuardStatus)

  datatype Identity = Identity(owner: Owner, generation: nat, storedOrganization: string, token: string)

  // An addInvoice call that waits for its request hash.
  datatype Attempt = Attempt(identity: Identity, key: string)

  // What the server says about a request: the status endpoint, or the response to the request itself.
  datatype Report = Unknown | Processing | RejectedReport | ConflictReport | Completed | Uncertain

  datatype Page = Page(guards: seq<Guard>, stored: seq<Guard>, reservations: set<Owner>,
                       attempts: seq<Attempt>, current: Identity)

  datatype Begun = BeginRefused | Waiting(attempt: nat)
  datatype Sent = NotSent | Dispatched(key: string)

  predicate Owns(guards: seq<Guard>, owner: Owner) { exists i :: 0 <= i < |guards| && guards[i].owner == owner }

  // guards.find(...)
  function FindOwned(guards: seq<Guard>, owner: Owner): (found: Option<Guard>)
    ensures found.None? <==> !Owns(guards, owner)
    ensures found.Some? ==> found.value in guards && found.value.owner == owner
  {
    if guards == [] then None
    else if guards[0].owner == owner then Some(guards[0])
    else
      assert forall i :: 0 < i < |guards| ==> guards[i] == guards[1..][i - 1];
      FindOwned(guards[1..], owner)
  }

  function Without(guards: seq<Guard>, key: string): (left: seq<Guard>)
    ensures forall g :: g in left <==> g in guards && g.key != key
    ensures |left| <= |guards|
  {
    if guards == [] then []
    else if guards[0].key == key then Without(guards[1..], key)
    else [guards[0]] + Without(guards[1..], key)
  }

  function WithStatus(guards: seq<Guard>, key: string, status: GuardStatus): (updated: seq<Guard>)
    ensures |updated| == |guards|
    ensures forall i :: 0 <= i < |guards| ==>
      updated[i] == if guards[i].key == key then guards[i].(status := status) else guards[i]
  {
    seq(|guards|, i requires 0 <= i < |guards| =>
      if guards[i].key == key then guards[i].(status := status) else guards[i])
  }

  // readInvoiceCreateGuards: an unfinished guard comes back as one to verify.
  function Restored(stored: seq<Guard>): (guards: seq<Guard>)
    ensures |guards| == |stored|
    ensures forall i :: 0 <= i < |stored| ==>
      guards[i] ==
        if stored[i].status in {Pending, NeedsVerification} then stored[i].(status := NeedsVerification) else stored[i]
  {
    seq(|stored|, i requires 0 <= i < |stored| =>
      if stored[i].status in {Pending, NeedsVerification} then stored[i].(status := NeedsVerification) else stored[i])
  }

  // persistInvoiceCreateGuards: nothing changes when session storage refuses the write.
  function Persisted(p: Page, next: seq<Guard>, works: bool): Page {
    if works then p.(guards := next, stored := next) else p
  }

  function StatusAfter(report: Report): GuardStatus {
    match report
    case Unknown => NeedsVerification
    case Processing => NeedsVerification
    case Uncertain => NeedsVerification
    case RejectedReport => Rejected
    case ConflictReport => Conflict
    case Completed => Committed
  }

  predicate IdentityMatches(now: Identity, requested: Identity) {
    now.owner == requested.owner && now.generation == requested.generation &&
    now.storedOrganization == requested.owner.organization && now.token == requested.token
  }

  // addInvoice up to the wait for the request hash.
  function Begin(p: Page, key: string): (Page, Begun) {
    var owner := p.current.owner;
    if owner.organization == "" || owner.user == "" || Owns(p.guards, owner) || owner in p.reservations then
      (p, BeginRefused)
    else (p.(reservations := p.reservations + {owner}, attempts := p.attempts + [Attempt(p.current, key)]),
      Waiting(|p.attempts|))
  }

  // addInvoice from the computed hash (None when computing it failed) to the POST. saves and drops
  // say whether session storage takes the new guard, and its removal.
  function Continue(p: Page, attempt: Attempt, hash: Option<string>, saves: bool, drops: bool): (Page, Sent) {
    var owner := attempt.identity.owner;
    var released := p.(reservations := p.reservations - {owner});
    if hash.None? || Owns(p.guards, owner) || !saves then (released, NotSent)
    else
      var saved := Persisted(released, p.guards + [Guard(owner, attempt.key, hash.value, Pending)], true);
      if IdentityMatches(p.current, attempt.identity) then (saved, Dispatched(attempt.key))
      else (Persisted(saved, Without(saved.guards, attempt.key), drops), NotSent)
  }

  // updateInvoiceCreateGuard, after a response to the request or to a status check.
  function Reported(p: Page, key: string, report: Report, works: bool): Page {
    Persisted(p, WithStatus(p.guards, key, StatusAfter(report)), works)
  }

  function Dismiss(p: Page, works: bool): Page {
    match FindOwned(p.guards, p.current.owner)
    case None => p
    case Some(g) => if g.status in {Committed, Rejected} then Persisted(p, Without(p.guards, g.key), works) else p
  }

  // A reload forgets everything but session storage.
  function Reloaded(p: Page): Page { p.(guards := Restored(p.stored), reservations := {}, attempts := []) }

  class Tab {
    var guards: seq<Guard>
    var stored: seq<Guard>
    var reservations: set<Owner>
    var attempts: seq<Attempt>
    var current: Identity

    function Snapshot(): Page
      reads this
    {
      Page(guards, stored, reservations, attempts, current)
    }

    method Persist(next: seq<Guard>, works: bool) returns (ok: bool)
      modifies this`guards, this`stored
      ensures ok == works && Snapshot() == Persisted(old(Snapshot()), next, works)
    {
      if !works { return false; }
      stored := next;
      guards := next;
      return true;
    }

    method BeginInvoice(key: string) returns (begun: Begun)
      modifies this`reservations, this`attempts
      ensures (Snapshot(), begun) == Begin(old(Snapshot()), key)
    {
      var owner := current.owner;
      if owner.organization == "" || owner.user == "" { return BeginRefused; }
      if Owns(guards, owner) || owner in reservations { return BeginRefused; }
      reservations := reservations + {owner};
      attempts := attempts + [Attempt(current, key)];
      return Waiting(|attempts| - 1);
    }

    method ContinueInvoice(attempt: Attempt, hash: Option<string>, saves: bool, drops: bool) returns (sent: Sent)
      modifies this`guards, this`stored, this`reservations
      ensures (Snapshot(), sent) == Continue(old(Snapshot()), attempt, hash, saves, drops)
    {
      var owner := attempt.identity.owner;
      sent := NotSent;
      if hash.Some? && !Owns(guards, owner) {
        var saved := Persist(guards + [Guard(owner, attempt.key, hash.value, Pending)], saves);
        if saved {
          if IdentityMatches(current, attempt.identity) {
            sent := Dispatched(attempt.key);
          } else {
            var _ := Persist(Without(guards, attempt.key), drops);
          }
        }
      }
      reservations := reservations - {owner};
    }

    method UpdateGuard(key: string, report: Report, works: bool)
      modifies this`guards, this`stored
      ensures Snapshot() == Reported(old(Snapshot()), key, report, works)
    {
      var _ := Persist(WithStatus(guards, key, StatusAfter(report)), works);
    }

    method DismissGuard(works: bool)
      modifies this`guards, this`stored
      ensures Snapshot() == Dismiss(old(Snapshot()), works)
    {
      var found := FindOwned(guards, current.owner);
      if found.None? || found.value.status !in {Committed, Rejected} { return; }
      var _ := Persist(Without(guards, found.value.key), works);
    }
  }

  // ---- Runs ----

  // posts lists the requests sent; finished the keys whose guard was dismissed; reports what the
  // server said about each key; keys every key ever drawn.
  datatype Run = Run(page: Page, posts: seq<Attempt>, finished: set<string>, reports: set<(string, Report)>,
      keys: set<string>)

  datatype Event =
    | BeginEvent(key: string)
    | ContinueEvent(attempt: nat, hash: Option<string>, saves: bool, drops: bool)
    | ReportEvent(key: string, report: Report, works: bool)
    | DismissEvent(works: bool)
    | ReloadEvent
    | SwitchEvent(identity: Identity)

  function Start(current: Identity): Run { Run(Page([], [], {}, [], current), [], {}, {}, {}) }

  // Keys are random: a key drawn twice is not considered. A report can only concern a request sent.
  function Next(s: Run, e: Event): Run {
    match e
    case BeginEvent(key) =>
      if key in s.keys then s else s.(page := Begin(s.page, key).0, keys := s.keys + {key})
    case ContinueEvent(a, hash, saves, drops) =>
      if a >= |s.page.attempts| then s
      else
        var attempt := s.page.attempts[a];
        var (page, sent) := Continue(s.page, attempt, hash, saves, drops);
        s.(page := page.(attempts := page.attempts[..a] + page.attempts[a + 1..]),
           posts := if sent.Dispatched? then s.posts + [attempt] else s.posts)
    case ReportEvent(key, report, works) =>
      s.(page := Reported(s.page, key, report, works), reports := s.reports + {(key, report)})
    case DismissEvent(works) =>
      var page := Dismiss(s.page, works);
      s.(page := page, finished := s.finished + set g | g in s.page.guards && g !in page.guards :: g.key)
    case ReloadEvent => s.(page := Reloaded(s.page))
    case SwitchEvent(identity) => s.(page := s.page.(current := identity))
  }

  function After(s: Run, events: seq<Event>): Run
    decreases |events|
  {
    if events == [] then s else After(Next(s, events[0]), events[1..])
  }

  ghost predicate KnownKey(guards: seq<Guard>, key: string) { exists i :: 0 <= i < |guards| && guards[i].key == key }

  // At most one guard for each owner, and no key twice.
  ghost predicate OneGuardEach(guards: seq<Guard>) {
    forall i, k :: 0 <= i < k < |guards| ==> guards[i].owner != guards[k].owner && guards[i].key != guards[k].key
  }

  ghost predicate Guarded(guards: seq<Guard>, owner: Owner, key: string) {
    exists i :: 0 <= i < |guards| && guards[i].owner == owner && guards[i].key == key
  }

  // A guard that can be dismissed was reported on.
  ghost predicate Backed(g: Guard, reports: set<(string, Report)>) {
    (g.status == Committed ==> (g.key, Completed) in reports) &&
      (g.status == Rejected ==> (g.key, RejectedReport) in reports)
  }

  ghost predicate AllBacked(guards: seq<Guard>, reports: set<(string, Report)>) {
    forall i :: 0 <= i < |guards| ==> Backed(guards[i], reports)
  }

  ghost predicate KeysKnown(guards: seq<Guard>, keys: set<string>) {
    forall i :: 0 <= i < |guards| ==> guards[i].key in keys
  }

  // Both copies of the guards hold the same requests.
  ghost predicate SameRequests(guards: seq<Guard>, stored: seq<Guard>) {
    |guards| == |stored| && forall i :: 0 <= i < |guards| ==>
      guards[i].owner == stored[i].owner && guards[i].key == stored[i].key
  }

  ghost predicate Settled(key: string, s: Run) {
    key in s.finished && ((key, Completed) in s.reports || (key, RejectedReport) in s.reports)
  }

  ghost predicate RunOk(s: Run) {
    && OneGuardEach(s.page.guards) && SameRequests(s.page.guards, s.page.stored)
    && AllBacked(s.page.guards, s.reports) && AllBacked(s.page.stored, s.reports)
    && KeysKnown(s.page.guards, s.keys)
    && (forall a :: 0 <= a < |s.page.attempts| ==>
         s.page.attempts[a].key in s.keys && !KnownKey(s.page.guards, s.page.attempts[a].key))
    && (forall a, b :: 0 <= a < b < |s.page.attempts| ==> s.page.attempts[a].key != s.page.attempts[b].key)
    && (forall i :: 0 <= i < |s.posts| ==> s.posts[i].key in s.keys)
    && (forall a, i :: 0 <= a < |s.page.attempts| && 0 <= i < |s.posts| ==> s.page.attempts[a].key != s.posts[i].key)
    // a request sent has its guard, unless the guard was dismissed after a definitive report
    && (forall i :: 0 <= i < |s.posts| ==>
          Guarded(s.page.guards, s.posts[i].identity.owner, s.posts[i].key) || Settled(s.posts[i].key, s))
  }

  // ---- Steps ----

  lemma PersistKeeps(s: Run, next: seq<Guard>, works: bool)
    requires RunOk(s) && OneGuardEach(next) && AllBacked(next, s.reports) && KeysKnown(next, s.keys)
    requires forall a :: 0 <= a < |s.page.attempts| ==> !KnownKey(next, s.page.attempts[a].key)
    requires forall i :: 0 <= i < |s.posts| ==>
      Guarded(next, s.posts[i].identity.owner, s.posts[i].key) || Settled(s.posts[i].key, s)
    ensures RunOk(s.(page := Persisted(s.page, next, works)))
  {
  }

  lemma {:induction false} WithoutOne(guards: seq<Guard>, key: string)
    requires OneGuardEach(guards)
    ensures OneGuardEach(Without(guards, key))
    ensures forall owner, k :: Guarded(guards, owner, k) && k != key ==> Guarded(Without(guards, key), owner, k)
    ensures !KnownKey(Without(guards, key), key)
  {
    var left := Without(guards, key);
    forall owner, k | Guarded(guards, owner, k) && k != key ensures Guarded(left, owner, k) {
      var i :| 0 <= i < |guards| && guards[i].owner == owner && guards[i].key == k;
      assert guards[i] in left;
    }
    if guards != [] {
      WithoutOne(guards[1..], key);
      if guards[0].key != key {
        var rest := Without(guards[1..], key);
        forall i | 0 <= i < |rest| ensures rest[i].owner != guards[0].owner && rest[i].key != guards[0].key {
          assert rest[i] in guards[1..];
          var k :| 0 <= k < |guards[1..]| && guards[1..][k] == rest[i];
          assert guards[k + 1] == rest[i];
        }
        assert OneGuardEach([guards[0]] + rest);
      }
    }
  }

  lemma WithoutBacked(guards: seq<Guard>, key: string, reports: set<(string, Report)>, keys: set<string>)
    requires AllBacked(guards, reports) && KeysKnown(guards, keys)
    ensures AllBacked(Without(guards, key), reports) && KeysKnown(Without(guards, key), keys)
  {
    var left := Without(guards, key);
    forall i | 0 <= i < |left| ensures Backed(left[i], reports) && left[i].key in keys { assert left[i] in guards; }
  }

  lemma WithoutUnknown(guards: seq<Guard>, key: string, other: string)
    requires !KnownKey(guards, other)
    ensures !KnownKey(Without(guards, key), other)
  {
  }

  lemma BeginKeeps(s: Run, key: string)
    requires RunOk(s)
    ensures RunOk(Next(s, BeginEvent(key)))
  {
    if key !in s.keys { assert !KnownKey(s.page.guards, key); }
  }

  // The guards with one more, for an owner without any.
  lemma SaveKeeps(s: Run, attempt: Attempt, hash: string)
    requires RunOk(s) && !Owns(s.page.guards, attempt.identity.owner) && attempt.key in s.keys
    requires !KnownKey(s.page.guards, attempt.key)
    requires forall a :: 0 <= a < |s.page.attempts| ==> s.page.attempts[a].key != attempt.key
    ensures var next := s.page.guards + [Guard(attempt.identity.owner, attempt.key, hash, Pending)];
      RunOk(s.(page := Persisted(s.page, next, true))) && Guarded(next, attempt.identity.owner, attempt.key)
  {
    var guard := Guard(attempt.identity.owner, attempt.key, hash, Pending);
    var next := s.page.guards + [guard];
    assert next[|s.page.guards|] == guard;
    forall owner, k | Guarded(s.page.guards, owner, k) ensures Guarded(next, owner, k) {
      var i :| 0 <= i < |s.page.guards| && s.page.guards[i].owner == owner && s.page.guards[i].key == k;
      assert next[i] == s.page.guards[i];
    }
    PersistKeeps(s, next, true);
  }

  lemma DropKeeps(s: Run, key: string, works: bool)
    requires RunOk(s)
    requires (forall i :: 0 <= i < |s.posts| ==> s.posts[i].key != key) || Settled(key, s)
    ensures RunOk(s.(page := Persisted(s.page, Without(s.page.guards, key), works)))
  {
    var next := Without(s.page.guards, key);
    WithoutOne(s.page.guards, key);
    WithoutBacked(s.page.guards, key, s.reports, s.keys);
    forall a | 0 <= a < |s.page.attempts| ensures !KnownKey(next, s.page.attempts[a].key) {
      WithoutUnknown(s.page.guards, key, s.page.attempts[a].key);
    }
    PersistKeeps(s, next, works);
  }

  function NoLongerWaiting(s: Run, a: nat): Run
    requires a < |s.page.attempts|
  {
    s.(page := s.page.(attempts := s.page.attempts[..a] + s.page.attempts[a + 1..],
                       reservations := s.page.reservations - {s.page.attempts[a].identity.owner}))
  }

  lemma NoLongerWaitingKeeps(s: Run, a: nat)
    requires RunOk(s) && a < |s.page.attempts|
    ensures var waiting := NoLongerWaiting(s, a);
      RunOk(waiting) && forall b :: 0 <= b < |waiting.page.attempts| ==>
        waiting.page.attempts[b].key != s.page.attempts[a].key
  {
    var left := NoLongerWaiting(s, a).page.attempts;
    forall b | 0 <= b < |left|
      ensures left[b] == s.page.attempts[if b < a then b else b + 1]
    {
    }
  }

  lemma SendKeeps(s: Run, attempt: Attempt)
    requires RunOk(s) && Guarded(s.page.guards, attempt.identity.owner, attempt.key) && attempt.key in s.keys
    requires forall b :: 0 <= b < |s.page.attempts| ==> s.page.attempts[b].key != attempt.key
    ensures RunOk(s.(posts := s.posts + [attempt]))
  {
  }

  lemma ContinueKeeps(s: Run, a: nat, hash: Option<string>, saves: bool, drops: bool)
    requires RunOk(s)
    ensures RunOk(Next(s, ContinueEvent(a, hash, saves, drops)))
  {
    if a < |s.page.attempts| {
      var attempt, waiting := s.page.attempts[a], NoLongerWaiting(s, a);
      NoLongerWaitingKeeps(s, a);
      if hash.Some? && !Owns(s.page.guards, attempt.identity.owner) && saves {
        SaveKeeps(waiting, attempt, hash.value);
        var next := s.page.guards + [Guard(attempt.identity.owner, attempt.key, hash.value, Pending)];
        var saved := waiting.(page := Persisted(waiting.page, next, true));
        if IdentityMatches(s.page.current, attempt.identity) {
          SendKeeps(saved, attempt);
        } else {
          DropKeeps(saved, attempt.key, drops);
        }
      }
    }
  }

  lemma ReportKeeps(s: Run, key: string, report: Report, works: bool)
    requires RunOk(s)
    ensures RunOk(Next(s, ReportEvent(key, report, works)))
  {
    var next := WithStatus(s.page.guards, key, StatusAfter(report));
    var told := s.(reports := s.reports + {(key, report)});
    forall i | 0 <= i < |s.posts|
      ensures Guarded(next, s.posts[i].identity.owner, s.posts[i].key) || Settled(s.posts[i].key, told)
    {
      if Guarded(s.page.guards, s.posts[i].identity.owner, s.posts[i].key) {
        var k :| 0 <= k < |s.page.guards| && s.page.guards[k].owner == s.posts[i].identity.owner &&
          s.page.guards[k].key == s.posts[i].key;
        assert next[k].owner == s.posts[i].identity.owner && next[k].key == s.posts[i].key;
      }
    }
    PersistKeeps(told, next, works);
  }

  lemma DismissKeeps(s: Run, works: bool)
    requires RunOk(s)
    ensures RunOk(Next(s, DismissEvent(works)))
  {
    var found := FindOwned(s.page.guards, s.page.current.owner);
    var s' := Next(s, DismissEvent(works));
    if works && found.Some? && found.value.status in {Committed, Rejected} {
      var key := found.value.key;
      assert Backed(found.value, s.reports);
      assert found.value !in s'.page.guards;
      assert key in s'.finished;
      var finished := s.(finished := s'.finished);
      DropKeeps(finished, key, true);
    } else {
      assert s'.page == s.page;
      assert s'.finished == s.finished;
    }
  }

  lemma ReloadKeeps(s: Run)
    requires RunOk(s)
    ensures RunOk(Next(s, ReloadEvent))
  {
    var next := Restored(s.page.stored);
    forall owner, key | Guarded(s.page.guards, owner, key) ensures Guarded(next, owner, key) {
      var i :| 0 <= i < |s.page.guards| && s.page.guards[i].owner == owner && s.page.guards[i].key == key;
      assert next[i].owner == owner && next[i].key == key;
    }
  }

  lemma NextKeeps(s: Run, e: Event)
    requires RunOk(s)
    ensures RunOk(Next(s, e))
  {
    match e
    case BeginEvent(key) => BeginKeeps(s, key);
    case ContinueEvent(a, hash, saves, drops) => ContinueKeeps(s, a, hash, saves, drops);
    case ReportEvent(key, report, works) => ReportKeeps(s, key, report, works);
    case DismissEvent(works) => DismissKeeps(s, works);
    case ReloadEvent => ReloadKeeps(s);
    case SwitchEvent(_) =>
  }

  // Over any run, each owner has at most one guard, and every request sent keeps its guard until the
  // guard is dismissed after the server reported it completed or rejected.
  lemma {:induction false} RunKeeps(s: Run, events: seq<Event>)
    requires RunOk(s)
    ensures RunOk(After(s, events))
    decreases |events|
  {
    if events != [] {
      NextKeeps(s, events[0]);
      RunKeeps(Next(s, events[0]), events[1..]);
    }
  }

  // ---- Main result ----

  // Whenever a request is sent, its guard is in session storage, the identity is the one it was
  // prepared under, and every earlier request of that owner has been settled and dismissed.
  lemma EachRequestFollowsASettledOne(current: Identity, events: seq<Event>, e: Event)
    requires |Next(After(Start(current), events), e).posts| > |After(Start(current), events).posts|
    ensures var before, after := After(Start(current), events), Next(After(Start(current), events), e);
      var n := |before.posts|;
      |after.posts| == n + 1 && after.posts[..n] == before.posts &&
      var sent := after.posts[n];
      Guarded(after.page.stored, sent.identity.owner, sent.key) &&
        IdentityMatches(before.page.current, sent.identity) &&
      forall i :: 0 <= i < n && before.posts[i].identity.owner == sent.identity.owner ==>
        Settled(before.posts[i].key, before)
  {
    var before := After(Start(current), events);
    RunKeeps(Start(current), events);
    var attempt := before.page.attempts[e.attempt];
    assert Next(before, e).page.stored[|before.page.guards|].key == attempt.key;
    forall i | 0 <= i < |before.posts| && before.posts[i].identity.owner == attempt.identity.owner
      ensures Settled(before.posts[i].key, before)
    {
      assert !Guarded(before.page.guards, attempt.identity.owner, before.posts[i].key);
    }
  }

  // ---- When a request is begun, sent and dismissed ----

  ghost predicate HasGuard(guards: seq<Guard>, owner: Owner) {
    exists i :: 0 <= i < |guards| && guards[i].owner == owner
  }

  lemma {:induction false} BegunIff(p: Page, key: string)
    ensures Begin(p, key).1.Waiting? <==>
      p.current.owner.organization != "" && p.current.owner.user != "" && !HasGuard(p.guards, p.current.owner) &&
      p.current.owner !in p.reservations
  {
  }

  // A prepared request is sent exactly when its hash is known, its owner has no guard, the new guard was
  // saved, and organization, user, session generation, stored organization and token are all still the
  // ones it was prepared under.
  lemma {:induction false} SentIff(p: Page, attempt: Attempt, hash: Option<string>, saves: bool, drops: bool)
    ensures Continue(p, attempt, hash, saves, drops).1.Dispatched? <==>
      hash.Some? && !HasGuard(p.guards, attempt.identity.owner) && saves &&
      p.current.owner.organization == attempt.identity.owner.organization &&
      p.current.owner.user == attempt.identity.owner.user && p.current.generation == attempt.identity.generation &&
      p.current.storedOrganization == attempt.identity.owner.organization && p.current.token == attempt.identity.token
    ensures Continue(p, attempt, hash, saves, drops).1.Dispatched? ==>
      Continue(p, attempt, hash, saves, drops).1.key == attempt.key &&
      Continue(p, attempt, hash, saves, drops).0.guards ==
        p.guards + [Guard(attempt.identity.owner, attempt.key, hash.value, Pending)]
    ensures forall owner :: owner in Continue(p, attempt, hash, saves, drops).0.reservations <==>
      owner in p.reservations && owner != attempt.identity.owner
  {
  }

  // A report settles a guard as committed or rejected only if it says so; a conflict stays a conflict and
  // everything else is to be verified.
  lemma {:induction false} ReportedStatus(p: Page, key: string, report: Report, i: nat)
    requires i < |p.guards|
    ensures |Reported(p, key, report, true).guards| == |p.guards|
    ensures var status := Reported(p, key, report, true).guards[i].status;
      (p.guards[i].key != key ==> status == p.guards[i].status) &&
      (p.guards[i].key == key ==>
        (status == Committed <==> report == Completed) && (status == Rejected <==> report == RejectedReport) &&
        (status == Conflict <==> report == ConflictReport) &&
        (status == NeedsVerification <==> report in {Unknown, Processing, Uncertain}))
  {
  }

  // A guard is dismissed when it belongs to the current owner, who has only one, is committed or rejected,
  // and storage takes the change.
  lemma {:induction false} DismissedIff(p: Page, works: bool, i: nat)
    requires OneGuardEach(p.guards) && i < |p.guards|
    ensures p.guards[i] !in Dismiss(p, works).guards <==>
      works && p.guards[i].owner == p.current.owner && p.guards[i].status in {Committed, Rejected}
  {
    var found := FindOwned(p.guards, p.current.owner);
    if found.Some? {
      var k :| 0 <= k < |p.guards| && p.guards[k] == found.value;
      assert i != k ==> p.guards[i].owner != p.guards[k].owner && p.guards[i].key != p.guards[k].key;
    }
  }
}
