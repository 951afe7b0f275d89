// The life of an approval request over any run of submissions, decisions, edits, invalidations,
// rule changes and consumptions.
module ApprovalLaws {
  import opened Tables
  import opened Approvals

  datatype Op =
    | DoSubmit(entity: Entity, user: string, at: nat, amount: Option<Cents>, given: Given)
    | DoApprove(request: nat, actor: Actor)
    | DoReject(request: nat, actor: Actor)
    | DoInvalidate(entity: Entity)                          // a document lifecycle hook
    | DoEdit(entity: Entity, document: Option<Document>)    // any change of a document, hook or not
    | DoConfigure(kind: EntityType, required: bool, threshold: Option<Cents>, role: string, selfApproval: bool)
    | DoConsume(entity: Entity, current: Given, request: nat)  // request is the newest one found

  function After(d: Desk, verdict: Verdict): Desk { if verdict.Accepted? then verdict.desk else d }

  function Step(d: Desk, op: Op): Desk {
    match op
    case DoSubmit(entity, user, at, amount, given) => Submit(d, entity, user, at, amount, given)
    case DoApprove(q, actor) => After(d, Approve(d, q, actor))
    case DoReject(q, actor) => After(d, Reject(d, q, actor))
    case DoInvalidate(entity) => Invalidate(d, entity)
    case DoEdit(entity, document) =>
      d.(documents := if document.Some? then d.documents[entity := document.value] else d.documents - {entity})
    case DoConfigure(kind, required, threshold, role, selfApproval) =>
      Configure(d, kind, required, threshold, role, selfApproval)
    case DoConsume(entity, current, q) => if IsLatest(d, entity, q) then After(d, ConsumeAt(d, q, current)) else d
  }

  // The desks a run of operations passes through; desks[n] is the one after n operations.
  ghost predicate IsStep(desks: seq<Desk>, ops: seq<Op>, n: nat) {
    n < |ops| && n + 1 < |desks| && desks[n + 1] == Step(desks[n], ops[n])
  }

  ghost predicate IsRun(desks: seq<Desk>, ops: seq<Op>) {
    |desks| == |ops| + 1 && desks[0].requests == [] && forall n :: 0 <= n < |ops| ==> IsStep(desks, ops, n)
  }

  // ---- One step ----

  // Every stored status change is an allowed transition, and nothing but status, approver and
  // pinned hash ever changes.
  lemma StepTransitions(d: Desk, op: Op, q: nat)
    requires q < |d.requests|
    ensures q < |Step(d, op).requests|
    ensures var r, r' := d.requests[q], Step(d, op).requests[q];
      r'.status == r.status || IsValidTransition(r.status, r'.status)
    ensures SameRequest(d.requests[q], Step(d, op).requests[q])
  {
  }

  ghost predicate SameRequest(r: Request, r': Request) {
    r'.entity == r.entity && r'.submittedBy == r.submittedBy && r'.submittedAt == r.submittedAt && r'.amount == r.amount
  }

  lemma {:induction false} RequestsStay(desks: seq<Desk>, ops: seq<Op>, m: nat, n: nat, q: nat)
    requires IsRun(desks, ops) && m <= n <= |ops| && q < |desks[m].requests|
    ensures q < |desks[n].requests| && SameRequest(desks[m].requests[q], desks[n].requests[q])
    ensures desks[m].requests[q].status == Consumed ==> desks[n].requests[q].status == Consumed
    decreases n - m
  {
    if m < n {
      RequestsStay(desks, ops, m, n - 1, q);
      assert IsStep(desks, ops, n - 1);
      StepTransitions(desks[n - 1], ops[n - 1], q);
    }
  }

  // ---- The story of a request ----

  // Operation i submitted request q, which reads r later on.
  ghost predicate SubmittedAt(desks: seq<Desk>, ops: seq<Op>, q: nat, i: nat, r: Request) {
    i < |ops| && i < |desks| && ops[i].DoSubmit? && |desks[i].requests| == q &&
    ops[i].entity == r.entity && ops[i].user == r.submittedBy && ops[i].at == r.submittedAt
  }

  // Operation j approved request q: an actor with the rule's role, not the submitter unless the rule
  // lets submitters approve, and a document with the submitted amount and hash.
  ghost predicate ApprovedAt(desks: seq<Desk>, ops: seq<Op>, q: nat, j: nat, r: Request) {
    j < |ops| && j < |desks| && ops[j].DoApprove? && ops[j].request == q && Eligible(desks[j], q, ops[j].actor, r)
  }

  ghost predicate Eligible(d: Desk, q: nat, actor: Actor, r: Request) {
    q < |d.requests| && d.requests[q].status == Submitted && SameRequest(d.requests[q], r) &&
    actor.role == RequiredRole(d, r.entity.kind) &&
    (SelfApprovalAllowed(d, r.entity.kind) || actor.userId != r.submittedBy) &&
    r.approvedBy == Some(actor.userId) &&
    (Resolve(d, r.entity).Some? && r.amount.Some? ==>
      !AmountsDiffer(r.amount.value, Resolve(d, r.entity).value.amount)) &&
    (ResolvedHash(d, r.entity).Some? ==> r.hash == ResolvedHash(d, r.entity)) &&
    (d.requests[q].hash.Some? ==> r.hash == d.requests[q].hash)
  }

  // Operation k consumed request q, the newest one of its entity, with a hash equal to the pinned one.
  ghost predicate ConsumedAt(desks: seq<Desk>, ops: seq<Op>, q: nat, k: nat, r: Request) {
    k < |ops| && k < |desks| && ops[k].DoConsume? && ops[k].request == q &&
      Consumable(desks[k], q, ops[k].entity, ops[k].current, r)
  }

  ghost predicate Consumable(d: Desk, q: nat, entity: Entity, current: Given, r: Request) {
    entity == r.entity && IsLatest(d, entity, q) &&
    d.requests[q].status == Approved && SameRequest(d.requests[q], r) && d.requests[q].hash == r.hash &&
    (r.hash.Some? && CurrentHash(d, entity, current).Some? ==> CurrentHash(d, entity, current) == r.hash)
  }

  // Operation k rejected request q: a decision by an actor with the rule's role on a submitted request,
  // or a lifecycle hook of its entity on one submitted or approved.
  ghost predicate RejectedAt(desks: seq<Desk>, ops: seq<Op>, q: nat, k: nat, r: Request) {
    k < |ops| && k < |desks| && RejectsTo(desks[k], ops[k], q, r)
  }

  ghost predicate RejectsTo(d: Desk, op: Op, q: nat, r: Request) {
    q < |d.requests| && SameRequest(d.requests[q], r) &&
    ((op.DoReject? && op.request == q && d.requests[q].status == Submitted &&
      op.actor.role == RequiredRole(d, r.entity.kind)) ||
     (op == DoInvalidate(r.entity) && d.requests[q].status in {Submitted, Approved}))
  }

  // No lifecycle hook fired for the entity during operations m to n - 1.
  ghost predicate Quiet(ops: seq<Op>, entity: Entity, m: nat, n: nat) {
    forall t :: m <= t < n && t < |ops| ==> ops[t] != DoInvalidate(entity)
  }

  ghost predicate Story(desks: seq<Desk>, ops: seq<Op>, n: nat, q: nat, r: Request, i: nat, j: nat, k: nat) {
    match r.status
    case Drafted => false
    case Submitted => i < n && SubmittedAt(desks, ops, q, i, r) && Quiet(ops, r.entity, i, n)
    case Approved =>
      i < j < n && SubmittedAt(desks, ops, q, i, r) && ApprovedAt(desks, ops, q, j, r) && Quiet(ops, r.entity, i, n)
    case Consumed =>
      i < j < k < n && SubmittedAt(desks, ops, q, i, r) && ApprovedAt(desks, ops, q, j, r) &&
        ConsumedAt(desks, ops, q, k, r) &&
      Quiet(ops, r.entity, i, k)
    case Rejected =>
      i < k < n && SubmittedAt(desks, ops, q, i, r) && RejectedAt(desks, ops, q, k, r) && Quiet(ops, r.entity, i, k)
  }

  ghost predicate ApprovesTo(d: Desk, op: Op, q: nat, r: Request, r': Request) {
    op.DoApprove? && op.request == q && r.status == Submitted && r'.status == Approved &&
    Eligible(d, q, op.actor, r') && SameRequest(r, r')
  }

  ghost predicate ConsumesTo(d: Desk, op: Op, q: nat, r: Request, r': Request) {
    op.DoConsume? && op.request == q && Consumable(d, q, op.entity, op.current, r') && r' == r.(status := Consumed)
  }

  // The four things one operation can do to a request.
  lemma StepKinds(d: Desk, op: Op, q: nat)
    requires q < |d.requests|
    ensures q < |Step(d, op).requests|
    ensures var r, r' := d.requests[q], Step(d, op).requests[q];
      || (r' == r && (op == DoInvalidate(r.entity) ==> r.status !in {Submitted, Approved}))
      || (r' == r.(status := Rejected) && RejectsTo(d, op, q, r'))
      || ApprovesTo(d, op, q, r, r')
      || ConsumesTo(d, op, q, r, r')
  {
  }

  lemma NewRequest(d: Desk, op: Op, q: nat)
    requires |d.requests| <= q < |Step(d, op).requests|
    ensures q == |d.requests| && op.DoSubmit?
    ensures var r := Step(d, op).requests[q];
      r.status == Submitted && r.entity == op.entity && r.submittedBy == op.user && r.submittedAt == op.at
  {
  }

  lemma {:induction false} EveryRequestHasAStory(desks: seq<Desk>, ops: seq<Op>, n: nat, q: nat)
    returns (i: nat, j: nat, k: nat)
    requires IsRun(desks, ops) && n <= |ops| && q < |desks[n].requests|
    ensures Story(desks, ops, n, q, desks[n].requests[q], i, j, k)
    decreases n
  {
    assert IsStep(desks, ops, n - 1);
    if q >= |desks[n - 1].requests| {
      NewRequest(desks[n - 1], ops[n - 1], q);
      i, j, k := n - 1, 0, 0;
    } else {
      i, j, k := EveryRequestHasAStory(desks, ops, n - 1, q);
      StepKinds(desks[n - 1], ops[n - 1], q);
      var r, r' := desks[n - 1].requests[q], desks[n].requests[q];
      if ApprovesTo(desks[n - 1], ops[n - 1], q, r, r') {
        j := n - 1;
      } else if ConsumesTo(desks[n - 1], ops[n - 1], q, r, r') || (r' != r && r'.status == Rejected) {
        k := n - 1;
      }
    }
  }

  // Main theorem. A consumed approval was submitted, then approved by an eligible actor, then
  // consumed, in this order and with no invalidating hook in between, and from approval to
  // consumption it was the same document.
  lemma ConsumedWasApproved(desks: seq<Desk>, ops: seq<Op>, q: nat) returns (i: nat, j: nat, k: nat)
    requires IsRun(desks, ops) && q < |desks[|ops|].requests| && desks[|ops|].requests[q].status == Consumed
    ensures i < j < k < |ops|
    ensures var r := desks[|ops|].requests[q];
      SubmittedAt(desks, ops, q, i, r) && ApprovedAt(desks, ops, q, j, r) && ConsumedAt(desks, ops, q, k, r) &&
        Quiet(ops, r.entity, i, k)
    ensures var r := desks[|ops|].requests[q];
      !ops[k].current.GivenHash? && ResolvedHash(desks[j], r.entity).Some? && ResolvedHash(desks[k], r.entity).Some?
      ==> desks[j].documents[r.entity].hash == desks[k].documents[r.entity].hash
  {
    i, j, k := EveryRequestHasAStory(desks, ops, |ops|, q);
  }

  lemma ConsumptionEnds(desks: seq<Desk>, ops: seq<Op>, q: nat, k: nat, r: Request)
    requires IsRun(desks, ops) && ConsumedAt(desks, ops, q, k, r)
    ensures q < |desks[k + 1].requests| && desks[k + 1].requests[q].status == Consumed
  {
    assert IsStep(desks, ops, k);
  }

  // A request is consumed by at most one operation.
  lemma ConsumedOnce(desks: seq<Desk>, ops: seq<Op>, q: nat, k: nat, m: nat, r: Request, r': Request)
    requires IsRun(desks, ops) && ConsumedAt(desks, ops, q, k, r) && ConsumedAt(desks, ops, q, m, r')
    ensures k == m
  {
    ConsumptionEnds(desks, ops, q, k, r);
    ConsumptionEnds(desks, ops, q, m, r');
    if k < m { RequestsStay(desks, ops, k + 1, m, q); }
    if m < k { RequestsStay(desks, ops, m + 1, k, q); }
  }

  // Requests are submitted at increasing times.
  ghost predicate ClockAdvances(d: Desk) {
    forall a, b :: 0 <= a < b < |d.requests| ==> d.requests[a].submittedAt < d.requests[b].submittedAt
  }

  lemma {:induction false} RequestsGrow(desks: seq<Desk>, ops: seq<Op>, m: nat, n: nat)
    requires IsRun(desks, ops) && m <= n <= |ops|
    ensures |desks[m].requests| <= |desks[n].requests|
    decreases n - m
  {
    if m < n {
      RequestsGrow(desks, ops, m, n - 1);
      assert IsStep(desks, ops, n - 1);
    }
  }

  // Of two consumptions for one entity, the later one is of a request submitted after the earlier.
  lemma LaterConsumptionIsNewer(desks: seq<Desk>, ops: seq<Op>, q: nat, k: nat, q': nat, k': nat, r: Request,
      r': Request)
    requires IsRun(desks, ops) && ClockAdvances(desks[|ops|]) && k < k' && r.entity == r'.entity
    requires ConsumedAt(desks, ops, q, k, r) && ConsumedAt(desks, ops, q', k', r')
    ensures |desks[k].requests| <= q'
  {
    ConsumptionEnds(desks, ops, q, k, r);
    RequestsStay(desks, ops, k + 1, k', q);
    RequestsStay(desks, ops, k, k', q);
    RequestsStay(desks, ops, k', |ops|, q);
    RequestsStay(desks, ops, k', |ops|, q');
    assert desks[k'].requests[q].submittedAt <= desks[k'].requests[q'].submittedAt;
    assert q < q';
    if q' < |desks[k].requests| { RequestsStay(desks, ops, k, k', q'); }
  }

  // Two consumptions for one entity are separated by a submission and an approval of the second.
  lemma EachConsumptionNeedsNewApproval(desks: seq<Desk>, ops: seq<Op>, q: nat, k: nat, q': nat, k': nat, r: Request,
      r': Request)
    returns (i: nat, j: nat)
    requires IsRun(desks, ops) && ClockAdvances(desks[|ops|]) && k < k' && r.entity == r'.entity
    requires ConsumedAt(desks, ops, q, k, r) && ConsumedAt(desks, ops, q', k', r')
    ensures k < i < j < k'
    ensures SubmittedAt(desks, ops, q', i, r') && ApprovedAt(desks, ops, q', j, desks[k'].requests[q'])
  {
    LaterConsumptionIsNewer(desks, ops, q, k, q', k', r, r');
    ghost var n;
    i, j, n := EveryRequestHasAStory(desks, ops, k', q');
    if i <= k {
      RequestsGrow(desks, ops, i, k);
      assert q' == |desks[k].requests|;
      StoryIsLater(desks, ops, q', i, k);
    }
  }

  // Right after its submission a request exists.
  lemma StoryIsLater(desks: seq<Desk>, ops: seq<Op>, q: nat, i: nat, k: nat)
    requires IsRun(desks, ops) && i <= k < |ops| && ops[i].DoSubmit? && ops[k].DoConsume?
    requires |desks[i].requests| == q
    ensures q < |desks[k].requests|
  {
    assert IsStep(desks, ops, i);
    RequestsGrow(desks, ops, i + 1, k);
  }

  // ---- Who approves, in the rules themselves ----

  // The entry's role, the finance manager if it names none or the type has no entry, and while no rule
  // exists at all the owner for period reopenings.
  ghost predicate HoldsRole(d: Desk, kind: EntityType, role: string) {
    (d.rules == map[] ==> role == if kind == PeriodReopening then "Owner" else "Finance Manager") &&
    (d.rules != map[] && kind !in d.rules ==> role == "Finance Manager") &&
    (kind in d.rules && d.rules[kind].role == "" ==> role == "Finance Manager") &&
    (kind in d.rules && d.rules[kind].role != "" ==> role == d.rules[kind].role)
  }

  // An approver other than the submitter, unless the type has an entry that allows submitters.
  ghost predicate MayDecide(d: Desk, kind: EntityType, actor: Actor, submitter: string) {
    HoldsRole(d, kind, actor.role) && (actor.userId == submitter ==> kind in d.rules && d.rules[kind].selfApproval)
  }

  // The document as it stands has the submitted amount, to a cent, and the submitted hash, as far as
  // both are known. Three types resolve to nothing but an amount of zero.
  ghost predicate DocumentAgrees(d: Desk, r: Request) {
    if r.entity.kind in {CreditNote, PeriodReopening, EmployeeClaim} then
      r.amount.Some? ==> -1 <= r.amount.value <= 1
    else
      r.entity in d.documents ==>
        (r.amount.Some? ==> -1 <= r.amount.value - d.documents[r.entity].amount <= 1) &&
        (r.hash.Some? && d.documents[r.entity].hash != "" ==> r.hash.value == d.documents[r.entity].hash)
  }

  // A request is approved exactly when it is submitted, its document agrees and the actor may decide.
  lemma {:induction false} ApprovedIff(d: Desk, q: nat, actor: Actor)
    ensures Approve(d, q, actor).Accepted? <==>
      q < |d.requests| && d.requests[q].status == Submitted && DocumentAgrees(d, d.requests[q]) &&
      MayDecide(d, d.requests[q].entity.kind, actor, d.requests[q].submittedBy)
    ensures Approve(d, q, actor).Accepted? ==>
      var r := d.requests[q];
      var known := r.entity.kind !in {CreditNote, PeriodReopening, EmployeeClaim} && r.entity in d.documents &&
        d.documents[r.entity].hash != "";
      Approve(d, q, actor).desk == d.(requests := d.requests[q := r.(status := Approved,
        approvedBy := Some(actor.userId), hash := if known then Some(d.documents[r.entity].hash) else r.hash)])
  {
  }

  // And rejected by anyone who holds the role, as long as it is submitted.
  lemma {:induction false} RejectedIff(d: Desk, q: nat, actor: Actor)
    ensures Reject(d, q, actor).Accepted? <==>
      q < |d.requests| && d.requests[q].status == Submitted && HoldsRole(d, d.requests[q].entity.kind, actor.role)
  {
  }

  // Why an approval or a rejection is refused: first the status, then the document, then the actor.
  lemma {:induction false} RefusedBecause(d: Desk, q: nat, actor: Actor)
    ensures q < |d.requests| ==>
      var status, approval, rejection := d.requests[q].status, Approve(d, q, actor), Reject(d, q, actor);
      (approval == Refused(AlreadyApproved) <==> status == Approved) &&
      (approval == Refused(AlreadyRejected) <==> status == Rejected) &&
      (approval == Refused(NotSubmitted) <==> status == Drafted || status == Consumed) &&
      (rejection == Refused(AlreadyApproved) <==> status == Approved) &&
      (rejection == Refused(NotSubmitted) <==> status != Approved && status != Submitted)
    ensures q < |d.requests| && d.requests[q].status == Submitted ==>
      var r, approval := d.requests[q], Approve(d, q, actor);
      (approval in {Refused(AmountAltered), Refused(AlteredSinceSubmission)} <==> !DocumentAgrees(d, r)) &&
      (approval == Refused(WrongRole) <==> DocumentAgrees(d, r) && !HoldsRole(d, r.entity.kind, actor.role)) &&
      (approval == Refused(SelfApproval) <==>
        DocumentAgrees(d, r) && HoldsRole(d, r.entity.kind, actor.role) &&
        !MayDecide(d, r.entity.kind, actor, r.submittedBy)) &&
      (Reject(d, q, actor) == Refused(WrongRole) <==> !HoldsRole(d, r.entity.kind, actor.role))
  {
  }

  // The table of transitions has besides the four changes a draft's submission and a resubmission.
  lemma {:induction false} TransitionTable(from: ApprovalStatus, to: ApprovalStatus)
    ensures IsValidTransition(from, to) <==>
      (from, to) in {(Drafted, Submitted), (Submitted, Approved), (Submitted, Rejected), (Approved, Rejected),
                     (Approved, Consumed), (Rejected, Submitted)}
  {
  }

  // Approval is required of a type with an entry that says so, from the entry's threshold on, and while
  // no rule exists of period reopenings.
  lemma {:induction false} RequiredIff(d: Desk, kind: EntityType, amount: Option<Cents>)
    ensures RequiresApproval(d, kind, amount) <==>
      if d.rules == map[] then kind == PeriodReopening && (amount.Some? ==> amount.value >= 0)
      else
        kind in d.rules && d.rules[kind].required &&
        (d.rules[kind].threshold.Some? && amount.Some? ==> amount.value >= d.rules[kind].threshold.value)
  {
  }

  // What configuring a type demands of it from then on; an empty role and a threshold of zero count as
  // none given.
  lemma {:induction false} ConfiguredRule(d: Desk, kind: EntityType, required: bool, threshold: Option<Cents>,
      role: string, selfApproval: bool)
    ensures var d' := Configure(d, kind, required, threshold, role, selfApproval);
      d'.requests == d.requests && d'.documents == d.documents && d'.rules.Keys == d.rules.Keys + {kind} &&
      (forall other :: other in d.rules && other != kind ==> d'.rules[other] == d.rules[other]) &&
      (forall amount :: RequiresApproval(d', kind, amount) <==>
        required && (threshold.Some? && threshold.value != 0 && amount.Some? ==> amount.value >= threshold.value)) &&
      (forall actor, submitter :: MayDecide(d', kind, actor, submitter) <==>
        actor.role == (if role == "" then "Finance Manager" else role) &&
        (actor.userId == submitter ==> selfApproval))
  {
    var d' := Configure(d, kind, required, threshold, role, selfApproval);
    assert kind in d'.rules && d'.rules != map[];
  }

  // A new request is submitted with the amount it names, unless that is zero, and the hash it is given or
  // else that of the document as it stands.
  lemma {:induction false} SubmittedRow(d: Desk, entity: Entity, submitter: string, at: nat, amount: Option<Cents>,
      given: Given)
    ensures var known := entity.kind !in {CreditNote, PeriodReopening, EmployeeClaim} && entity in d.documents;
      var hash := match given
        case GivenHash(h) => h
        case GivenDocument(h) => h
        case NothingGiven => if known then d.documents[entity].hash else "";
      Submit(d, entity, submitter, at, amount, given) == d.(requests := d.requests +
        [Request(entity, submitter, at, Submitted, None, if amount == Some(0) then None else amount,
                 if hash == "" then None else Some(hash))])
  {
  }

  // The four changes a stored status can make.
  lemma {:induction false} StatusChanges(d: Desk, op: Op, q: nat)
    requires q < |d.requests|
    ensures q < |Step(d, op).requests|
    ensures var from, to := d.requests[q].status, Step(d, op).requests[q].status;
      from == to || (from == Submitted && to in {Approved, Rejected}) ||
        (from == Approved && to in {Rejected, Consumed})
  {
  }

  // In every run, an approved or consumed request was approved by someone who, by the rules of that
  // moment, held the role and was not its submitter unless the type's entry allowed that.
  lemma {:induction false} ApprovalFollowedTheRules(desks: seq<Desk>, ops: seq<Op>, n: nat, q: nat) returns (j: nat)
    requires IsRun(desks, ops) && n <= |ops| && q < |desks[n].requests|
    requires desks[n].requests[q].status in {Approved, Consumed}
    ensures j < n && ops[j].DoApprove? && ops[j].request == q
    ensures var r := desks[n].requests[q];
      MayDecide(desks[j], r.entity.kind, ops[j].actor, r.submittedBy) && r.approvedBy == Some(ops[j].actor.userId)
  {
    var i, k;
    i, j, k := EveryRequestHasAStory(desks, ops, n, q);
  }

  // A consumption compares the pinned hash with the text handed in, or else with the document's own hash,
  // or else with that of the document handed in; an unknown one is not compared.
  lemma {:induction false} ConsumedIff(d: Desk, q: nat, current: Given)
    requires q < |d.requests|
    ensures ConsumeAt(d, q, current).Accepted? <==>
      d.requests[q].status == Approved && (d.requests[q].hash.Some? ==>
        var r := d.requests[q];
        var known := r.entity.kind !in {CreditNote, PeriodReopening, EmployeeClaim} && r.entity in d.documents &&
          d.documents[r.entity].hash != "";
        match current
        case GivenHash(h) => h == "" || h == r.hash.value
        case GivenDocument(h) =>
          if known then d.documents[r.entity].hash == r.hash.value else h == "" || h == r.hash.value
        case NothingGiven => known ==> d.documents[r.entity].hash == r.hash.value)
  {
  }

  // ---- Entity types without a table ----

  // A credit note, claim or period reopening request can be approved exactly when its amount is
  // within a cent of zero, besides the role and self-approval rules.
  lemma TablelessApprovable(d: Desk, q: nat, actor: Actor)
    requires q < |d.requests| && !HasTable(d.requests[q].entity.kind)
    ensures var r := d.requests[q];
      Approve(d, q, actor).Accepted? <==>
        r.status == Submitted && (r.amount.None? || -1 <= r.amount.value <= 1) &&
        actor.role == RequiredRole(d, r.entity.kind) &&
        (SelfApprovalAllowed(d, r.entity.kind) || r.submittedBy != actor.userId)
  {
  }

  lemma {:induction false} TablelessNeverApproved(desks: seq<Desk>, ops: seq<Op>, n: nat, q: nat)
    requires IsRun(desks, ops) && n <= |ops| && q < |desks[n].requests|
    requires var r := desks[n].requests[q];
      !HasTable(r.entity.kind) && r.amount.Some? && AmountsDiffer(r.amount.value, 0)
    ensures desks[n].requests[q].status in {Submitted, Rejected}
    decreases n
  {
    assert IsStep(desks, ops, n - 1);
    if q < |desks[n - 1].requests| {
      StepTransitions(desks[n - 1], ops[n - 1], q);
      TablelessNeverApproved(desks, ops, n - 1, q);
    }
  }

  // ---- Default rules ----

  // Configuring a rule for one type leaves what another type requires as it was exactly when the
  // organization had rules already, or the default of the other type asked for nothing.
  lemma ConfiguringOneTypeKeepsAnother(d: Desk, kind: EntityType, required: bool, threshold: Option<Cents>,
      role: string,
                                       selfApproval: bool, other: EntityType)
    requires other != kind
    ensures (forall amount ::
      RequiresApproval(Configure(d, kind, required, threshold, role, selfApproval), other, amount) ==
                              RequiresApproval(d, other, amount)) <==>
      d.rules != map[] || !DefaultRule(other).required
  {
    var d' := Configure(d, kind, required, threshold, role, selfApproval);
    assert kind in d'.rules && d'.rules != map[];
    assert other in d'.rules <==> other in d.rules;
    if d.rules == map[] && DefaultRule(other).required {
      assert RequiresApproval(d, other, None) && !RequiresApproval(d', other, None);
    }
  }

  // What an organization's rules decide about an entity type.
  ghost predicate SameRules(d: Desk, d': Desk, kind: EntityType) {
    (forall amount :: RequiresApproval(d, kind, amount) == RequiresApproval(d', kind, amount)) &&
    RequiredRole(d, kind) == RequiredRole(d', kind) && SelfApprovalAllowed(d, kind) == SelfApprovalAllowed(d', kind)
  }

  // The approver of another type stays the same exactly when rules existed already or that type's
  // default approver is the finance manager; whether submitters may approve it always stays the same.
  lemma ConfiguringOneTypeKeepsApprover(d: Desk, kind: EntityType, required: bool, threshold: Option<Cents>,
      role: string,
                                        selfApproval: bool, other: EntityType)
    requires other != kind
    ensures var d' := Configure(d, kind, required, threshold, role, selfApproval);
      (RequiredRole(d', other) == RequiredRole(d, other) <==>
        d.rules != map[] || DefaultRule(other).role == FINANCE_MANAGER) &&
      SelfApprovalAllowed(d', other) == SelfApprovalAllowed(d, other)
  {
    var d' := Configure(d, kind, required, threshold, role, selfApproval);
    assert kind in d'.rules && d'.rules != map[];
    assert other in d'.rules <==> other in d.rules;
    assert "Owner" != FINANCE_MANAGER;
  }

  // In all, only period reopenings can lose their rules, and do so exactly with the first rule of
  // another type.
  lemma ConfiguringDropsOnlyReopenings(d: Desk, kind: EntityType, required: bool, threshold: Option<Cents>,
      role: string,
                                       selfApproval: bool, other: EntityType)
    requires other != kind
    ensures SameRules(d, Configure(d, kind, required, threshold, role, selfApproval), other) <==>
      d.rules != map[] || other != PeriodReopening
  {
    ConfiguringOneTypeKeepsAnother(d, kind, required, threshold, role, selfApproval, other);
    ConfiguringOneTypeKeepsApprover(d, kind, required, threshold, role, selfApproval, other);
  }

  // Configuring any rule first turns off the owner's approval of period reopenings.
  lemma ReopeningApprovalIsDropped(d: Desk)
    requires d.rules == map[]
    ensures RequiresApproval(d, PeriodReopening, None) && RequiredRole(d, PeriodReopening) == "Owner"
    ensures var d' := Configure(d, Invoice, true, Some(1), "Owner", false);
      !RequiresApproval(d', PeriodReopening, None) && RequiredRole(d', PeriodReopening) == FINANCE_MANAGER
  {
    assert Invoice in Configure(d, Invoice, true, Some(1), "Owner", false).rules;
  }
}
