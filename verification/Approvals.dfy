// ApprovalWorkflowService and DocumentLifecycleHelper over the approval tables of one organization.
// A document's hash is represented by the canonical text it is the SHA-256 of.
module Approvals {
  import opened Tables

  datatype EntityType =
    | PurchaseOrder | VendorBill | Payment | CustomerPayment | Invoice | CreditNote
    | ManualJournal | PeriodReopening | ExpenseEntity | EmployeeClaim

  datatype ApprovalStatus = Drafted | Submitted | Approved | Rejected | Consumed

  type Hash = string

  datatype Entity = Entity(kind: EntityType, id: string)

  // submittedAt is the clock reading the source orders requests by.
  datatype Request = Request(entity: Entity, submittedBy: string, submittedAt: nat, status: ApprovalStatus,
                             approvedBy: Option<string>, amount: Option<Cents>, hash: Option<Hash>)

  datatype Rule = Rule(required: bool, threshold: Option<Cents>, role: string, selfApproval: bool)

  datatype Document = Document(amount: Cents, hash: Hash)

  datatype Desk = Desk(requests: seq<Request>, rules: map<EntityType, Rule>, documents: map<Entity, Document>)

  datatype Actor = Actor(userId: string, role: string)

  datatype Given = GivenHash(hash: Hash) | GivenDocument(canonical: Hash) | NothingGiven

  datatype Refusal =
    | RequestNotFound | AlreadyApproved | AlreadyRejected | NotSubmitted | AmountAltered
    | AlteredSinceSubmission | WrongRole | SelfApproval | ApprovalRequired | AlteredAfterApproval

  datatype Verdict = Accepted(desk: Desk, request: nat) | Refused(reason: Refusal)

  const FINANCE_MANAGER: string := "Finance Manager"

  // ---- Registry ----

  // COMMON_TRANSITIONS
  function AllowedTargets(status: ApprovalStatus): set<ApprovalStatus> {
    match status
    case Drafted => {Submitted}
    case Submitted => {Approved, Rejected}
    case Approved => {Rejected, Consumed}
    case Rejected => {Submitted}
    case Consumed => {}
  }

  predicate IsValidTransition(from: ApprovalStatus, to: ApprovalStatus) { to in AllowedTargets(from) }

  function DefaultThreshold(kind: EntityType): Cents {
    match kind
    case PurchaseOrder => 5000000
    case VendorBill => 10000000
    case Payment => 5000000
    case CustomerPayment => 5000000
    case Invoice => 10000000
    case CreditNote => 2500000
    case ManualJournal => 10000000
    case PeriodReopening => 0
    case ExpenseEntity => 1000000
    case EmployeeClaim => 500000
  }

  function DefaultRule(kind: EntityType): Rule {
    Rule(kind.PeriodReopening?, Some(DefaultThreshold(kind)),
      if kind.PeriodReopening? then "Owner" else FINANCE_MANAGER, false)
  }

  // ---- Rules ----

  // The registry's defaults apply only while the organization has configured no rule at all.
  function RuleFor(d: Desk, kind: EntityType): Option<Rule> {
    if d.rules == map[] then Some(DefaultRule(kind))
    else if kind in d.rules then Some(d.rules[kind]) else None
  }

  function RequiredRole(d: Desk, kind: EntityType): string {
    match RuleFor(d, kind)
    case Some(rule) => if rule.role == "" then FINANCE_MANAGER else rule.role
    case None => FINANCE_MANAGER
  }

  predicate SelfApprovalAllowed(d: Desk, kind: EntityType) {
    RuleFor(d, kind).Some? && RuleFor(d, kind).value.selfApproval
  }

  predicate RequiresApproval(d: Desk, kind: EntityType, amount: Option<Cents>) {
    match RuleFor(d, kind)
    case None => false
    case Some(rule) =>
      rule.required && (rule.threshold.Some? && amount.Some? ==> amount.value >= rule.threshold.value)
  }

  function NonZero(amount: Option<Cents>): Option<Cents> { if amount == Some(0) then None else amount }

  function Configure(d: Desk, kind: EntityType, required: bool, threshold: Option<Cents>, role: string,
      selfApproval: bool): Desk {
    var approver := if role == "" then FINANCE_MANAGER else role;
    d.(rules := d.rules[kind := Rule(required, NonZero(threshold), approver, selfApproval)])
  }

  // ---- Resolving the document ----

  datatype Resolved = Resolved(amount: Cents, hash: Option<Hash>)

  // Types whose document lockAndResolveEntity does not know resolve to amount 0 and no hash.
  predicate HasTable(kind: EntityType) { kind !in {CreditNote, PeriodReopening, EmployeeClaim} }

  function Resolve(d: Desk, entity: Entity): Option<Resolved> {
    if !HasTable(entity.kind) then Some(Resolved(0, None))
    else if entity in d.documents then
      Some(Resolved(d.documents[entity].amount, NonEmpty(Some(d.documents[entity].hash))))
    else None
  }

  function NonEmpty(hash: Option<Hash>): Option<Hash> { if hash == Some("") then None else hash }

  function ResolvedHash(d: Desk, entity: Entity): Option<Hash> {
    match Resolve(d, entity)
    case Some(found) => found.hash
    case None => None
  }

  // ---- Operations ----

  // A given text counts as a hash when it has 64 characters; GivenHash stands for those.
  function Submit(d: Desk, entity: Entity, submitter: string, at: nat, amount: Option<Cents>, given: Given): Desk {
    var hash := match given
      case GivenHash(h) => Some(h)
      case GivenDocument(h) => Some(h)
      case NothingGiven => ResolvedHash(d, entity);
    d.(requests := d.requests + [Request(entity, submitter, at, Submitted, None, NonZero(amount), NonEmpty(hash))])
  }

  predicate AmountsDiffer(amount: Cents, other: Cents) { amount - other > 1 || other - amount > 1 }

  function ApproveRefusal(d: Desk, q: nat, actor: Actor): Option<Refusal> {
    if q >= |d.requests| then Some(RequestNotFound) else
    var r := d.requests[q];
    var found := Resolve(d, r.entity);
    if r.status == Approved then Some(AlreadyApproved)
    else if r.status == Rejected then Some(AlreadyRejected)
    else if r.status != Submitted then Some(NotSubmitted)
    else if found.Some? && r.amount.Some? && AmountsDiffer(r.amount.value, found.value.amount) then Some(AmountAltered)
    else if found.Some? && r.hash.Some? && found.value.hash.Some? && r.hash != found.value.hash then
      Some(AlteredSinceSubmission)
    else if actor.role != RequiredRole(d, r.entity.kind) then Some(WrongRole)
    else if !SelfApprovalAllowed(d, r.entity.kind) && r.submittedBy == actor.userId then Some(SelfApproval)
    else None
  }

  function PinnedHash(d: Desk, r: Request): Option<Hash> {
    if ResolvedHash(d, r.entity).Some? then ResolvedHash(d, r.entity) else r.hash
  }

  function Approve(d: Desk, q: nat, actor: Actor): Verdict {
    match ApproveRefusal(d, q, actor)
    case Some(reason) => Refused(reason)
    case None =>
      var r := d.requests[q];
      Accepted(d.(requests := d.requests[q := r.(status := Approved, approvedBy := Some(actor.userId),
        hash := PinnedHash(d, r))]), q)
  }

  function Reject(d: Desk, q: nat, actor: Actor): Verdict {
    if q >= |d.requests| then Refused(RequestNotFound)
    else if d.requests[q].status == Approved then Refused(AlreadyApproved)
    else if d.requests[q].status != Submitted then Refused(NotSubmitted)
    else if actor.role != RequiredRole(d, d.requests[q].entity.kind) then Refused(WrongRole)
    else Accepted(d.(requests := d.requests[q := d.requests[q].(status := Rejected)]), q)
  }

  predicate Active(r: Request, entity: Entity) { r.entity == entity && r.status in {Submitted, Approved} }

  function Invalidated(r: Request, entity: Entity): Request { if Active(r, entity) then r.(status := Rejected) else r }

  function Invalidate(d: Desk, entity: Entity): Desk {
    d.(requests := seq(|d.requests|, i requires 0 <= i < |d.requests| => Invalidated(d.requests[i], entity)))
  }

  // q is a newest request for the entity; requests submitted at the same instant are in no fixed order.
  predicate IsLatest(d: Desk, entity: Entity, q: nat) {
    q < |d.requests| && d.requests[q].entity == entity &&
    forall k :: 0 <= k < |d.requests| && d.requests[k].entity == entity ==>
      d.requests[k].submittedAt <= d.requests[q].submittedAt
  }

  // The hash consumption compares with: one handed in as text, the document's own, or that of a
  // document handed in. An empty text means no comparison.
  function CurrentHash(d: Desk, entity: Entity, current: Given): Option<Hash> {
    match current
    case GivenHash(h) => NonEmpty(Some(h))
    case GivenDocument(h) => if ResolvedHash(d, entity).Some? then ResolvedHash(d, entity) else NonEmpty(Some(h))
    case NothingGiven => ResolvedHash(d, entity)
  }

  // Consumption when q is the newest request found.
  function ConsumeAt(d: Desk, q: nat, current: Given): Verdict
    requires q < |d.requests|
  {
    var r := d.requests[q];
    var hash := CurrentHash(d, r.entity, current);
    if r.status != Approved then Refused(ApprovalRequired)
    else if r.hash.Some? && hash.Some? && r.hash != hash then Refused(AlteredAfterApproval)
    else Accepted(d.(requests := d.requests[q := r.(status := Consumed)]), q)
  }

  predicate HasRequest(d: Desk, entity: Entity) {
    exists k :: 0 <= k < |d.requests| && d.requests[k].entity == entity
  }

  datatype Outcome = Done(request: nat) | Failed(reason: Refusal)

  // What one transaction does: on acceptance the desk becomes the new one, otherwise it stays.
  ghost predicate Commits(before: Desk, after: Desk, outcome: Outcome, verdict: Verdict) {
    match verdict
    case Accepted(desk, q) => after == desk && outcome == Done(q)
    case Refused(reason) => after == before && outcome == Failed(reason)
  }

  class ApprovalDesk {
    var requests: seq<Request>
    var rules: map<EntityType, Rule>
    var documents: map<Entity, Document>

    function Snapshot(): Desk
      reads this
    {
      Desk(requests, rules, documents)
    }

    method SubmitForApproval(entity: Entity, submittedBy: string, now: nat, amount: Option<Cents>,
        given: Given) returns (q: nat)
      modifies this`requests
      ensures Snapshot() == Submit(old(Snapshot()), entity, submittedBy, now, amount, given)
      ensures q == |old(requests)|
    {
      var hash: Option<Hash>;
      if given.NothingGiven? {
        hash := ResolvedHash(Snapshot(), entity);
      } else {
        hash := Some(if given.GivenHash? then given.hash else given.canonical);
      }
      q := |requests|;
      requests := requests + [Request(entity, submittedBy, now, Submitted, None, NonZero(amount), NonEmpty(hash))];
    }

    method ApproveRequestById(q: nat, actor: Actor) returns (outcome: Outcome)
      modifies this`requests
      ensures Commits(old(Snapshot()), Snapshot(), outcome, Approve(old(Snapshot()), q, actor))
    {
      if q >= |requests| { return Failed(RequestNotFound); }
      var r := requests[q];
      if r.status == Approved { return Failed(AlreadyApproved); }
      if r.status == Rejected { return Failed(AlreadyRejected); }
      if r.status != Submitted { return Failed(NotSubmitted); }
      var found := Resolve(Snapshot(), r.entity);
      if found.Some? && r.amount.Some? && AmountsDiffer(r.amount.value, found.value.amount) {
        return Failed(AmountAltered);
      }
      if found.Some? && r.hash.Some? && found.value.hash.Some? && r.hash != found.value.hash {
        return Failed(AlteredSinceSubmission);
      }
      var rule := RuleFor(Snapshot(), r.entity.kind);
      var role := if rule.Some? && rule.value.role != "" then rule.value.role else FINANCE_MANAGER;
      if actor.role != role { return Failed(WrongRole); }
      if !(rule.Some? && rule.value.selfApproval) && r.submittedBy == actor.userId { return Failed(SelfApproval); }
      var hash := if found.Some? && found.value.hash.Some? then found.value.hash else r.hash;
      requests := requests[q := r.(status := Approved, approvedBy := Some(actor.userId), hash := hash)];
      return Done(q);
    }

    method RejectRequestById(q: nat, actor: Actor) returns (outcome: Outcome)
      modifies this`requests
      ensures Commits(old(Snapshot()), Snapshot(), outcome, Reject(old(Snapshot()), q, actor))
    {
      if q >= |requests| { return Failed(RequestNotFound); }
      if requests[q].status == Approved { return Failed(AlreadyApproved); }
      if requests[q].status != Submitted { return Failed(NotSubmitted); }
      if actor.role != RequiredRole(Snapshot(), requests[q].entity.kind) { return Failed(WrongRole); }
      requests := requests[q := requests[q].(status := Rejected)];
      return Done(q);
    }

    // Also the whole effect of onDocumentModified, onDocumentVoided, onDocumentReversed and
    // onDocumentCancelled, which differ only in the reason they record.
    method InvalidateApproval(entity: Entity)
      modifies this`requests
      ensures Snapshot() == Invalidate(old(Snapshot()), entity)
    {
      for i := 0 to |requests|
        invariant |requests| == |old(requests)|
        invariant forall k :: 0 <= k < i ==> requests[k] == Invalidated(old(requests)[k], entity)
        invariant forall k :: i <= k < |requests| ==> requests[k] == old(requests)[k]
      {
        if requests[i].entity == entity && (requests[i].status == Submitted || requests[i].status == Approved) {
          requests := requests[i := requests[i].(status := Rejected)];
        }
      }
      assert requests == Invalidate(old(Snapshot()), entity).requests;
    }

    method LatestRequest(entity: Entity) returns (found: Option<nat>)
      ensures found.None? <==> !HasRequest(Snapshot(), entity)
      ensures found.Some? ==> IsLatest(Snapshot(), entity, found.value)
    {
      found := None;
      for i := 0 to |requests|
        invariant found.None? <==> forall k :: 0 <= k < i ==> requests[k].entity != entity
        invariant found.Some? ==> found.value < i && requests[found.value].entity == entity
        invariant found.Some? ==> forall k :: 0 <= k < i && requests[k].entity == entity ==>
          requests[k].submittedAt <= requests[found.value].submittedAt
      {
        if requests[i].entity == entity &&
          (found.None? || requests[found.value].submittedAt < requests[i].submittedAt) {
          found := Some(i);
        }
      }
    }

    method ConsumeApproval(entity: Entity, current: Given) returns (outcome: Outcome)
      modifies this`requests
      ensures !HasRequest(old(Snapshot()), entity) ==>
        Snapshot() == old(Snapshot()) && outcome == Failed(ApprovalRequired)
      ensures HasRequest(old(Snapshot()), entity) ==>
        exists q :: IsLatest(old(Snapshot()), entity, q) &&
          Commits(old(Snapshot()), Snapshot(), outcome, ConsumeAt(old(Snapshot()), q, current))
    {
      var latest := LatestRequest(entity);
      if latest.None? { return Failed(ApprovalRequired); }
      var q := latest.value;
      ghost var before := Snapshot();
      assert IsLatest(before, entity, q);
      var r := requests[q];
      if r.status != Approved {
        assert Commits(before, Snapshot(), Failed(ApprovalRequired), ConsumeAt(before, q, current));
        return Failed(ApprovalRequired);
      }
      if r.hash.Some? {
        var hash := CurrentHash(Snapshot(), entity, current);
        if hash.Some? && hash != r.hash {
          assert Commits(before, Snapshot(), Failed(AlteredAfterApproval), ConsumeAt(before, q, current));
          return Failed(AlteredAfterApproval);
        }
      }
      requests := requests[q := r.(status := Consumed)];
      assert Commits(before, Snapshot(), Done(q), ConsumeAt(before, q, current));
      return Done(q);
    }
  }
}
