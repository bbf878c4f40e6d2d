/** The in-process governance kernel: one lifecycle record per request, over the effect broker. */
module GovernanceKernel {
  import opened Records
  import opened EvidenceChain
  import opened EffectStore
  import opened EffectProtocol
  import opened EffectLedger
  import opened EffectBroker
  import opened GrantIssue
  import LifecycleStore

  datatype Phase =
    | Denied | ApprovalRequired | PolicyAuthorized | Approved | GrantIssued | EffectSucceeded | EffectIndeterminate

  datatype LifecycleRecord = LifecycleRecord(
    request: Request, policy: Policy, phase: Phase, approval: Option<Approval>, grant: Option<Grant>,
    outcome: Option<Outcome>)

  datatype Bound = Bound(idempotency: Idempotency, requestId: Id, requestDigest: Digest)

  datatype KernelState = KernelState(
    broker: BrokerState, records: map<RowKey, LifecycleRecord>, bindings: map<BindingKey, Bound>,
    usedApprovals: set<GrantKey>)

  /** The rule that the policy set chose for a request. */
  datatype Rule = Rule(decision: Decision, constraints: seq<Constraint>, isolation: Id)

  predicate ParsedActor(a: ActorContext) { Aligned(a.issuedAt) && Aligned(a.expiresAt) && a.issuedAt < a.expiresAt }

  predicate ParsedToolRequest(actor: ActorContext, r: Request) {
    Aligned(r.requestedAt) && r.tenant == actor.tenant && r.idempotency.tenant == actor.tenant
  }

  predicate ParsedApprovalRecord(tenant: Id, a: Approval) {
    Aligned(a.issuedAt) && Aligned(a.expiresAt) && a.issuedAt < a.expiresAt && a.tenant == tenant
  }

  /** `_validate_identity`. */
  predicate IdentityValid(actor: ActorContext, r: Request, trusted: bool, now: int) {
    && trusted && actor.issuedAt <= now < actor.expiresAt
    && actor.tenant == r.tenant && actor.actor == r.actor && r.actorDigest == OfActor(actor)
    && actor.issuedAt <= r.requestedAt <= actor.expiresAt && r.requestedAt <= now
  }

  /** A rule is configured with one of three decisions, and may have effects only in an isolation
      profile that has them. */
  predicate RuleConfigured(rule: Rule) {
    && (rule.decision == Authorize || rule.decision == Deny || rule.decision == RequireApproval)
    && (rule.decision == Deny <==> rule.isolation == NO_EFFECT)
  }

  function InitialPhase(d: Decision): Phase {
    match d
    case Authorize => Phase.PolicyAuthorized
    case RequireApproval => Phase.ApprovalRequired
    case _ => Phase.Denied
  }

  function Decided(r: Request, rule: Rule, decisionId: Id, now: int): Policy {
    Policy(r.tenant, decisionId, r.requestId, OfRequest(r), rule.decision, rule.constraints, rule.isolation,
           TruncateToMillis(now))
  }

  function RecordKey(r: Request): RowKey { (r.tenant, r.requestId) }

  function Noted(s: KernelState, r: Request, p: Policy, kind: Id, w: Writing): (KernelState, Option<Event>) {
    var x := LedgerAppend(s.broker.ledger,
                          Draft(r.tenant, r.runId, w.envelopeId, PolicyRef(p), OtherPayload(r.actor, kind, None)),
                          w.clock);
    (s.(broker := s.broker.(ledger := x.0)), x.1)
  }

  /** `submit`. */
  function Submit(s: KernelState, actor: ActorContext, r: Request, rule: Rule, decisionId: Id,
                  registry: set<ConstraintKey>, trusted: bool, now: int,
                  w: Writing): (KernelState, Option<LifecycleRecord>) {
    var b := KeyOfBinding(r.idempotency);
    if !ParsedActor(actor) || !ParsedToolRequest(actor, r) || !IdentityValid(actor, r, trusted, now) then (s, None)
    else if b in s.bindings then
      var bound := s.bindings[b];
      if bound.idempotency == r.idempotency && bound.requestDigest == OfRequest(r)
         && (r.tenant, bound.requestId) in s.records
      then (s, Some(s.records[(r.tenant, bound.requestId)])) else (s, None)
    else if RecordKey(r) in s.records || !RuleConfigured(rule) || !SupportedBy(rule.constraints, registry)
    then (s, None)
    else
      var p := Decided(r, rule, decisionId, now);
      var (v, e) := Noted(s, r, p, "kernel.policy_decided", w);
      if e.None? then (v, None)
      else
        var record := LifecycleRecord(r, p, InitialPhase(p.decision), None, None, None);
        (v.(records := s.records[RecordKey(r) := record],
            bindings := s.bindings[b := Bound(r.idempotency, r.requestId, OfRequest(r))]),
         Some(record))
  }

  function ApprovalKey(a: Approval): GrantKey { (a.tenant, a.approvalId, OfApproval(a)) }

  /** `accept_approval`. */
  function AcceptApproval(s: KernelState, tenant: Id, id: Id, a: Approval, registry: set<ConstraintKey>,
                          trusted: bool, now: int, w: Writing)
    : (KernelState, Option<LifecycleRecord>) {
    var k := (tenant, id);
    if k !in s.records || !ParsedApprovalRecord(tenant, a) then (s, None)
    else
      var c := s.records[k];
      if c.phase != Phase.ApprovalRequired || !ApprovalBinds(a, c.policy, c.request)
         || !SupportedBy(a.constraints, registry)
         || !a.approved || (a.dutiesRequired && !a.dutiesSatisfied) || now < a.issuedAt || a.expiresAt <= now
         || !trusted
         || ApprovalKey(a) in s.usedApprovals then (s, None)
      else
        var (v, e) := Noted(s, c.request, c.policy, "kernel.approval_accepted", w);
        if e.None? then (v, None)
        else
          var next := c.(phase := Phase.Approved, approval := Some(a));
          (v.(records := s.records[k := next], usedApprovals := s.usedApprovals + {ApprovalKey(a)}), Some(next))
  }

  /** The constraints of the policy and, if there is one, of the approval. */
  function ConstraintLists(c: LifecycleRecord): seq<seq<Constraint>> {
    [c.policy.constraints] + (if c.approval.Some? then [c.approval.value.constraints] else [])
  }

  /** What merging them gives: nothing if two conflict, else each once, where it occurs first. */
  function MergedOf(c: LifecycleRecord): Option<seq<Constraint>> {
    var all := Flatten(ConstraintLists(c));
    if Conflicting(all) then None else Some(FirstOccurrences(all))
  }

  /** The environment of one issuance: ids and nonce, the clock (read on entry and again), the
      verdict of the issuer and of proof verification, and the ledger. */
  datatype Issue = Issue(grantId: Id, nonce: Id, registry: set<ConstraintKey>, verified: set<Digest>, trusted: bool,
                         enteredAt: int, now: int, w: Writing)

  /** `_issue_grant_locked`, after the actor's identity was checked. */
  function IssueLocked(s: KernelState, actor: ActorContext, k: RowKey, x: Issue): (KernelState, Option<LifecycleRecord>)
    requires k in s.records
  {
    var c := s.records[k];
    if c.grant.Some? && (c.phase == Phase.GrantIssued || c.phase == Phase.EffectSucceeded
                         || c.phase == Phase.EffectIndeterminate) then (s, Some(c))
    else if c.phase != Phase.PolicyAuthorized && c.phase != Phase.Approved then (s, None)
    else if (c.phase == Phase.Approved) != c.approval.Some? then (s, None)
    else if !IdentityValid(actor, c.request, x.trusted, x.now) || ExpiryLimit(x.now, actor, c.approval) <= x.now
            || MergedOf(c).None? then (s, None)
    else
      var g := BuildGrant(actor, c.request, c.policy, c.approval, MergedOf(c).value, x.grantId, x.nonce, x.now);
      if !GrantValid(g, c.request, c.policy, AsList(c.approval), x.registry, x.verified) then (s, None)
      else
        var (v, e) := Noted(s, c.request, c.policy, "kernel.authorization_grant_issued", x.w);
        if e.None? then (v, None)
        else
          var next := c.(phase := Phase.GrantIssued, grant := Some(g));
          (v.(records := s.records[k := next]), Some(next))
  }

  /** `issue_grant`. */
  function IssueGrant(s: KernelState, actor: ActorContext, id: Id, x: Issue): (KernelState, Option<LifecycleRecord>) {
    var k := (actor.tenant, id);
    if !ParsedActor(actor) || k !in s.records || s.records[k].request.actor != actor.actor
       || !IdentityValid(actor, s.records[k].request, x.trusted, x.enteredAt) then (s, None)
    else IssueLocked(s, actor, k, x)
  }

  /** `execute_effect`: issue the grant when there is none, dispatch, and note the outcome. */
  function ExecuteEffect(s: KernelState, actor: ActorContext, id: Id, capable: bool, x: Issue,
                         t: Trial): (KernelState, Option<LifecycleRecord>) {
    var k := (actor.tenant, id);
    if !ParsedActor(actor) || k !in s.records || s.records[k].request.actor != actor.actor
       || !IdentityValid(actor, s.records[k].request, x.trusted, x.enteredAt) then (s, None)
    else if s.records[k].phase == Phase.EffectSucceeded || s.records[k].phase == Phase.EffectIndeterminate
    then (s, Some(s.records[k]))
    else
      var fresh_phase := s.records[k].phase == Phase.PolicyAuthorized || s.records[k].phase == Phase.Approved;
      if fresh_phase && !capable then (s, None)
      else
        var (v, issued) := if fresh_phase then IssueLocked(s, actor, k, x) else (s, Some(s.records[k]));
        if issued.None? || issued.value.phase != Phase.GrantIssued || issued.value.grant.None? then (v, None)
        else DispatchRecord(v, actor, k, issued.value, t)
  }

  function AuthorityOf(actor: ActorContext, c: LifecycleRecord): Authority
    requires c.grant.Some?
  {
    Authority(actor, c.request, c.policy, AsList(c.approval), c.grant.value)
  }

  function DispatchRecord(s: KernelState, actor: ActorContext, k: RowKey, c: LifecycleRecord,
                          t: Trial): (KernelState, Option<LifecycleRecord>)
    requires c.grant.Some?
  {
    var (b, execution) := DispatchOnce(s.broker, AuthorityOf(actor, c), t);
    match execution
    case None => (s.(broker := b), None)
    case Some(x) =>
      var next := c.(phase := if x.outcome.status == Succeeded then Phase.EffectSucceeded
                     else Phase.EffectIndeterminate, outcome := Some(x.outcome));
      (s.(broker := b, records := s.records[k := next]), Some(next))
  }

  // ---- The invariant ----

  /** Which fields a phase comes with. */
  predicate PhaseOk(c: LifecycleRecord) {
    match c.phase
    case Denied => c.policy.decision == Deny && c.approval.None? && c.grant.None?
    case ApprovalRequired => c.policy.decision == RequireApproval && c.approval.None? && c.grant.None?
    case PolicyAuthorized => c.policy.decision == Authorize && c.approval.None? && c.grant.None?
    case Approved => c.policy.decision == RequireApproval && c.approval.Some? && c.grant.None?
    case _ => c.grant.Some? && c.policy.decision == (if c.approval.Some? then RequireApproval else Authorize)
  }

  predicate RecordBinds(c: LifecycleRecord) {
    && c.request.idempotency.tenant == c.request.tenant
    && PolicyBinds(c.policy, c.request) && Aligned(c.policy.decidedAt) && c.request.requestedAt <= c.policy.decidedAt
    && (c.policy.decision == Deny <==> c.policy.isolation == NO_EFFECT)
    && (c.approval.Some? ==>
          && ApprovalBinds(c.approval.value, c.policy, c.request) && c.approval.value.approved
          && (c.approval.value.dutiesRequired ==> c.approval.value.dutiesSatisfied)
          && Aligned(c.approval.value.issuedAt) && Aligned(c.approval.value.expiresAt))
    && (c.grant.Some? ==> c.grant.value.tenant == c.request.tenant && c.grant.value.requestId == c.request.requestId)
  }

  ghost predicate RecordOk(s: KernelState, k: RowKey)
    requires k in s.records
  {
    var c := s.records[k];
    && RecordKey(c.request) == k && RecordBinds(c) && PhaseOk(c)
    && KeyOfBinding(c.request.idempotency) in s.bindings
    && s.bindings[KeyOfBinding(c.request.idempotency)].requestId == k.1
  }

  ghost predicate CallRecorded(s: KernelState, a: Authority) {
    var k := RecordKey(a.request);
    k in s.records && s.records[k].request == a.request && s.records[k].grant == Some(a.grant)
  }

  /** A bound idempotency key names the record that it was bound for. */
  ghost predicate BindingOk(s: KernelState, b: BindingKey)
    requires b in s.bindings
  {
    var k := (b.0, s.bindings[b].requestId);
    && k in s.records && KeyOfBinding(s.records[k].request.idempotency) == b
    && s.bindings[b].idempotency == s.records[k].request.idempotency
    && s.bindings[b].requestDigest == OfRequest(s.records[k].request)
  }

  ghost predicate KernelInv(s: KernelState) {
    && BrokerInv(s.broker)
    && (forall b | b in s.bindings :: BindingOk(s, b))
    && (forall k | k in s.records :: RecordOk(s, k))
    && (forall i | 0 <= i < |s.broker.calls| :: CallRecorded(s, s.broker.calls[i]))
  }

  /** Records keep their requests, and their grants once they have one. */
  predicate RecordsGrow(s: KernelState, v: KernelState) {
    forall k | k in s.records ::
      && k in v.records && v.records[k].request == s.records[k].request
      && (s.records[k].grant.Some? ==> v.records[k].grant == s.records[k].grant)
  }

  lemma BindingsStay(s: KernelState, v: KernelState)
    requires (forall b | b in s.bindings :: BindingOk(s, b)) && RecordsGrow(s, v)
    requires forall b | b in v.bindings :: (b in s.bindings && v.bindings[b] == s.bindings[b]) || BindingOk(v, b)
    ensures forall b | b in v.bindings :: BindingOk(v, b)
  {
    forall b | b in v.bindings ensures BindingOk(v, b) {
      if b in s.bindings && v.bindings[b] == s.bindings[b] {
        assert BindingOk(s, b);
      }
    }
  }

  lemma CallsStayRecorded(s: KernelState, v: KernelState, calls: seq<Authority>)
    requires (forall i | 0 <= i < |calls| :: CallRecorded(s, calls[i])) && RecordsGrow(s, v)
    ensures forall i | 0 <= i < |calls| :: CallRecorded(v, calls[i])
  {
    forall i | 0 <= i < |calls| ensures CallRecorded(v, calls[i]) { assert CallRecorded(s, calls[i]); }
  }

  /** The records change only in place or by a new key, and calls keep their records. */
  lemma NewRecordKeeps(s: KernelState, v: KernelState, k: RowKey)
    requires KernelInv(s) && BrokerInv(v.broker) && v.broker.calls == s.broker.calls
    requires k in v.records && v.records == s.records[k := v.records[k]] && RecordOk(v, k)
    requires forall b | b in s.bindings :: b in v.bindings && v.bindings[b] == s.bindings[b]
    requires forall b | b in v.bindings :: b in s.bindings || BindingOk(v, b)
    requires k in s.records ==>
               v.records[k].request == s.records[k].request
                 && (s.records[k].grant.Some? ==> v.records[k].grant == s.records[k].grant)
    ensures KernelInv(v)
  {
    hide BrokerInv, RecordBinds, PhaseOk, BindingOk, CallRecorded;
    BindingsStay(s, v);
    CallsStayRecorded(s, v, s.broker.calls);
    forall j | j in v.records ensures RecordOk(v, j) {
      if j != k {
        assert RecordOk(s, j);
      }
    }
  }

  lemma NotedBroker(s: KernelState, r: Request, p: Policy, kind: Id, w: Writing)
    requires BrokerInv(s.broker)
    ensures BrokerInv(Noted(s, r, p, kind, w).0.broker)
    ensures Noted(s, r, p, kind, w).0 == s.(broker := s.broker.(ledger := Noted(s, r, p, kind, w).0.broker.ledger))
  {
    hide BrokerInv, LedgerAppend;
    OtherAppendKeeps(s.broker,
                     Draft(r.tenant, r.runId, w.envelopeId, PolicyRef(p), OtherPayload(r.actor, kind, None)),
                     w.clock);
  }

  lemma BrokerOnly(s: KernelState, v: KernelState)
    requires KernelInv(s) && v == s.(broker := v.broker) && BrokerInv(v.broker) && v.broker.calls == s.broker.calls
    ensures KernelInv(v)
  {
    hide BrokerInv, RecordBinds, PhaseOk;
    forall j | j in v.records ensures RecordOk(v, j) { assert RecordOk(s, j); }
    forall b | b in v.bindings ensures BindingOk(v, b) { assert BindingOk(s, b); }
    forall i | 0 <= i < |v.broker.calls| ensures CallRecorded(v, v.broker.calls[i]) {
      assert CallRecorded(s, s.broker.calls[i]);
    }
  }

  lemma SubmittedRecordOk(actor: ActorContext, r: Request, rule: Rule, decisionId: Id, trusted: bool, now: int)
    requires ParsedToolRequest(actor, r) && IdentityValid(actor, r, trusted, now) && RuleConfigured(rule)
    ensures var p := Decided(r, rule, decisionId, now);
            var c := LifecycleRecord(r, p, InitialPhase(p.decision), None, None, None);
            RecordBinds(c) && PhaseOk(c)
  {
    AlignedBelow(r.requestedAt, now);
  }

  lemma SubmitKeepsInv(s: KernelState, actor: ActorContext, r: Request, rule: Rule, decisionId: Id,
                       registry: set<ConstraintKey>, trusted: bool, now: int, w: Writing)
    requires KernelInv(s)
    ensures KernelInv(Submit(s, actor, r, rule, decisionId, registry, trusted, now, w).0)
  {
    hide KernelInv, Noted, RecordBinds, PhaseOk, Decided, RuleConfigured, ParsedToolRequest, IdentityValid, SupportedBy;
    var v := Submit(s, actor, r, rule, decisionId, registry, trusted, now, w).0;
    var p := Decided(r, rule, decisionId, now);
    BrokerOf(s);
    NotedBroker(s, r, p, "kernel.policy_decided", w);
    if v.records != s.records {
      SubmittedRecordOk(actor, r, rule, decisionId, trusted, now);
      NewRecordKeeps(s, v, RecordKey(r));
    } else if v != s {
      BrokerOnly(s, v);
    }
  }

  lemma BrokerOf(s: KernelState)
    requires KernelInv(s)
    ensures BrokerInv(s.broker) && forall k | k in s.records :: RecordOk(s, k)
  {
    hide BrokerInv, RecordOk, BindingOk, CallRecorded;
  }

  lemma ApprovedRecordOk(c: LifecycleRecord, tenant: Id, a: Approval)
    requires RecordBinds(c) && PhaseOk(c) && c.phase == Phase.ApprovalRequired
    requires ParsedApprovalRecord(tenant, a) && ApprovalBinds(a, c.policy, c.request) && a.approved
             && (a.dutiesRequired ==> a.dutiesSatisfied)
    ensures RecordBinds(c.(phase := Phase.Approved, approval := Some(a)))
            && PhaseOk(c.(phase := Phase.Approved, approval := Some(a)))
  {
    hide ApprovalBinds, PolicyBinds;
  }

  lemma AcceptKeepsInv(s: KernelState, tenant: Id, id: Id, a: Approval, registry: set<ConstraintKey>, trusted: bool,
                       now: int, w: Writing)
    requires KernelInv(s)
    ensures KernelInv(AcceptApproval(s, tenant, id, a, registry, trusted, now, w).0)
  {
    hide KernelInv, Noted, RecordBinds, PhaseOk, ApprovalBinds, ParsedApprovalRecord, SupportedBy;
    var v, k := AcceptApproval(s, tenant, id, a, registry, trusted, now, w).0, (tenant, id);
    if k in s.records {
      var c := s.records[k];
      BrokerOf(s);
      assert RecordOk(s, k);
      NotedBroker(s, c.request, c.policy, "kernel.approval_accepted", w);
      if v.records != s.records {
        ApprovedRecordOk(c, tenant, a);
        NewRecordKeeps(s, v, k);
      } else if v != s {
        BrokerOnly(s, v);
      }
    }
  }

  lemma IssuedRecordOk(c: LifecycleRecord, g: Grant)
    requires RecordBinds(c) && PhaseOk(c) && (c.phase == Phase.PolicyAuthorized || c.phase == Phase.Approved)
    requires g.tenant == c.request.tenant && g.requestId == c.request.requestId
    ensures RecordBinds(c.(phase := Phase.GrantIssued, grant := Some(g)))
            && PhaseOk(c.(phase := Phase.GrantIssued, grant := Some(g)))
    ensures c.grant.None?
  {
  }

  lemma IssueKeepsInv(s: KernelState, actor: ActorContext, k: RowKey, x: Issue)
    requires KernelInv(s) && k in s.records
    ensures var (v, r) := IssueLocked(s, actor, k, x);
            && KernelInv(v) && v.broker.calls == s.broker.calls && v.bindings == s.bindings
            && (r.Some? ==> k in v.records && r.value == v.records[k])
  {
    hide KernelInv, Noted, GrantValid, IdentityValid, RecordBinds, PhaseOk;
    var v, c := IssueLocked(s, actor, k, x).0, s.records[k];
    BrokerOf(s);
    assert RecordOk(s, k);
    NotedBroker(s, c.request, c.policy, "kernel.authorization_grant_issued", x.w);
    if v.records != s.records {
      IssuedRecordOk(c, v.records[k].grant.value);
      NewRecordKeeps(s, v, k);
    } else if v != s {
      BrokerOnly(s, v);
    }
  }

  lemma ClosedRecordOk(c: LifecycleRecord, next: LifecycleRecord)
    requires RecordBinds(c) && PhaseOk(c) && c.phase == Phase.GrantIssued
    requires next == c.(phase := next.phase, outcome := next.outcome)
             && (next.phase == Phase.EffectSucceeded || next.phase == Phase.EffectIndeterminate)
    ensures RecordBinds(next) && PhaseOk(next)
  {
  }

  lemma DispatchKeepsKernel(s: KernelState, actor: ActorContext, k: RowKey, c: LifecycleRecord, t: Trial)
    requires KernelInv(s) && k in s.records && s.records[k] == c && c.grant.Some? && c.phase == Phase.GrantIssued
    ensures KernelInv(DispatchRecord(s, actor, k, c, t).0)
  {
    hide BrokerInv, DispatchOnce, Dispatchable, IntentFor, OutcomeFor, RecordBinds, PhaseOk, BindingOk, CallRecorded;
    var v, a := DispatchRecord(s, actor, k, c, t).0, AuthorityOf(actor, c);
    DispatchKeepsInv(s.broker, a, t);
    assert RecordOk(s, k);
    BindingsStay(s, v);
    CallsStayRecorded(s, v, s.broker.calls);
    if v.broker.calls != s.broker.calls {
      DispatchOrder(s.broker, a, t);
      NewCallRecorded(v, a);
    }
    if v.records[k] != c {
      ClosedRecordOk(c, v.records[k]);
    }
    forall j | j in v.records ensures RecordOk(v, j) {
      assert RecordOk(s, j);
    }
  }

  lemma NewCallRecorded(v: KernelState, a: Authority)
    requires RecordKey(a.request) in v.records && v.records[RecordKey(a.request)].request == a.request
    requires v.records[RecordKey(a.request)].grant == Some(a.grant)
    ensures CallRecorded(v, a)
  {
  }

  lemma ExecuteKeepsInv(s: KernelState, actor: ActorContext, id: Id, capable: bool, x: Issue, t: Trial)
    requires KernelInv(s)
    ensures KernelInv(ExecuteEffect(s, actor, id, capable, x, t).0)
  {
    hide KernelInv, IssueLocked, DispatchRecord, IdentityValid;
    var k := (actor.tenant, id);
    if k in s.records {
      IssueKeepsInv(s, actor, k, x);
      var (v, r) := IssueLocked(s, actor, k, x);
      if r.Some? && r.value.phase == Phase.GrantIssued && r.value.grant.Some? {
        DispatchKeepsKernel(v, actor, k, r.value, t);
      }
      if s.records[k].phase == Phase.GrantIssued && s.records[k].grant.Some? {
        DispatchKeepsKernel(s, actor, k, s.records[k], t);
      }
    }
  }

  // ---- Runs ----

  datatype KernelStep =
    | Submitting(actor: ActorContext, request: Request, rule: Rule, decisionId: Id, registry: set<ConstraintKey>,
                 trusted: bool, now: int, w: Writing)
    | Approving(tenant: Id, id: Id, approval: Approval, registry: set<ConstraintKey>, trusted: bool, now: int,
                w: Writing)
    | Issuing(actor: ActorContext, id: Id, issue: Issue)
    | Executing(actor: ActorContext, id: Id, capable: bool, issue: Issue, trial: Trial)

  function KernelApply(s: KernelState, step: KernelStep): KernelState {
    match step
    case Submitting(actor, r, rule, decisionId, registry, trusted, now, w) =>
      Submit(s, actor, r, rule, decisionId, registry, trusted, now, w).0
    case Approving(tenant, id, a, registry, trusted, now, w) =>
      AcceptApproval(s, tenant, id, a, registry, trusted, now, w).0
    case Issuing(actor, id, x) => IssueGrant(s, actor, id, x).0
    case Executing(actor, id, capable, x, t) => ExecuteEffect(s, actor, id, capable, x, t).0
  }

  const IDLE := KernelState(FRESH, map[], map[], {})

  /** The state after some more calls. */
  function KernelFrom(s: KernelState, steps: seq<KernelStep>): KernelState
    decreases |steps|
  {
    if steps == [] then s else KernelApply(KernelFrom(s, steps[..|steps| - 1]), steps[|steps| - 1])
  }

  function KernelRun(steps: seq<KernelStep>): KernelState { KernelFrom(IDLE, steps) }

  lemma StepKeepsKernel(s: KernelState, step: KernelStep)
    requires KernelInv(s)
    ensures KernelInv(KernelApply(s, step))
  {
    hide KernelInv, Submit, AcceptApproval, IssueLocked, ExecuteEffect, IdentityValid;
    match step
    case Submitting(actor, r, rule, decisionId, registry, trusted, now, w) =>
      SubmitKeepsInv(s, actor, r, rule, decisionId, registry, trusted, now, w);
    case Approving(tenant, id, a, registry, trusted, now, w) =>
      AcceptKeepsInv(s, tenant, id, a, registry, trusted, now, w);
    case Issuing(actor, id, x) => if (actor.tenant, id) in s.records { IssueKeepsInv(s, actor, (actor.tenant, id), x); }
    case Executing(actor, id, capable, x, t) => ExecuteKeepsInv(s, actor, id, capable, x, t);
  }

  lemma {:induction false} ReachableKernel(steps: seq<KernelStep>)
    ensures KernelInv(KernelRun(steps))
    decreases |steps|
  {
    hide KernelApply, BrokerInv;
    if steps == [] {
      FreshInv();
    } else {
      ReachableKernel(steps[..|steps| - 1]);
      StepKeepsKernel(KernelRun(steps[..|steps| - 1]), steps[|steps| - 1]);
    }
  }

  // ---- Guarantees ----

  /** Some sequence of kernel calls leads to this state. */
  ghost predicate KernelReachable(s: KernelState) { exists steps :: KernelRun(steps) == s }

  lemma KernelFacts(s: KernelState)
    requires KernelReachable(s)
    ensures KernelInv(s)
  {
    hide KernelInv, KernelRun;
    var steps :| KernelRun(steps) == s;
    ReachableKernel(steps);
  }

  /** Over every run, two executor calls never share a tenant and an idempotency key, a request, or
      a grant, even after dispatches that failed. */
  lemma AtMostOneCallPerKey(s: KernelState, i: nat, j: nat)
    requires KernelReachable(s) && i < j < |s.broker.calls|
    ensures var a, b := s.broker.calls[i], s.broker.calls[j];
            && KeyOfBinding(a.request.idempotency) != KeyOfBinding(b.request.idempotency)
            && RecordKey(a.request) != RecordKey(b.request) && a.grant != b.grant
  {
    hide KernelReachable, RecordBinds, PhaseOk, GrantOk;
    KernelFacts(s);
    var a, b := s.broker.calls[i], s.broker.calls[j];
    assert CallRecorded(s, a) && CallRecorded(s, b);
    assert RecordOk(s, RecordKey(a.request)) && RecordOk(s, RecordKey(b.request));
    DifferentGrants(s.broker, i, j);
  }

  lemma DifferentGrants(b: BrokerState, i: nat, j: nat)
    requires BrokerInv(b) && i < j < |b.calls|
    ensures b.calls[i].grant != b.calls[j].grant
  {
  }

  /** In every reachable state a submission under a bound key returns the record of that key and
      changes nothing, exactly when it is the very request the key was bound for. */
  lemma ReplayedSubmissionsExactly(s: KernelState, actor: ActorContext, r: Request, rule: Rule, decisionId: Id,
                                   registry: set<ConstraintKey>, trusted: bool, now: int, w: Writing)
    requires KernelReachable(s) && KeyOfBinding(r.idempotency) in s.bindings
    requires ParsedActor(actor) && ParsedToolRequest(actor, r) && IdentityValid(actor, r, trusted, now)
    ensures var k := (r.tenant, s.bindings[KeyOfBinding(r.idempotency)].requestId);
            && k in s.records
            && Submit(s, actor, r, rule, decisionId, registry, trusted, now, w)
               == (s, if r == s.records[k].request then Some(s.records[k]) else None)
  {
    hide KernelReachable, BrokerInv, RecordBinds, PhaseOk, IdentityValid;
    KernelFacts(s);
    assert BindingOk(s, KeyOfBinding(r.idempotency));
  }

  /** After every kernel call, the effect of a grant is active exactly when a succeeded outcome of
      it is in the ledger, or its revert failed.  So without failed reverts the ledger tells. */
  lemma EffectsMatchLedger(s: KernelState, grant: Grant)
    requires KernelReachable(s)
    ensures var b, g := s.broker, OfGrant(grant);
            var events := EventsOf(b.ledger, grant.tenant);
            && (Active(b, g) <==> SucceededIn(events, g) || g in b.stuck)
            && (g in b.stuck ==> Outcomes(events, g) == 0)
            && Outcomes(events, g) <= Intents(events, g) <= 1
            && (Intents(events, g) == 1 <==> KeyOfGrant(grant) in b.consumed)
            && (KeyOfGrant(grant) in b.consumed <==> exists i | 0 <= i < |b.calls| :: b.calls[i].grant == grant)
            && LedgerLinked(b.ledger)
  {
    hide KernelReachable, LedgerLinked;
    KernelFacts(s);
    assert GrantOk(s.broker, grant);
  }

  /** Every executor call was made for a request that policy authorised, or that required an
      approval and had a fitting one. */
  lemma CallsWereAuthorised(s: KernelState, i: nat)
    requires KernelReachable(s) && i < |s.broker.calls|
    ensures var a := s.broker.calls[i];
            && RecordKey(a.request) in s.records
            && var c := s.records[RecordKey(a.request)];
               && c.request == a.request && c.grant == Some(a.grant)
               && (c.approval.None? ==> c.policy.decision == Authorize)
               && (c.approval.Some? ==>
                     var p := c.approval.value;
                     && c.policy.decision == RequireApproval && ApprovalBinds(p, c.policy, c.request)
                     && p.approved && (p.dutiesRequired ==> p.dutiesSatisfied))
  {
    hide KernelReachable, BrokerInv, GrantOk;
    KernelFacts(s);
    assert CallRecorded(s, s.broker.calls[i]);
    assert RecordOk(s, RecordKey(s.broker.calls[i].request));
  }

  lemma StepKeepsUsedApprovals(s: KernelState, step: KernelStep)
    ensures s.usedApprovals <= KernelApply(s, step).usedApprovals
  {
    hide IdentityValid, GrantValid, DispatchOnce, ApprovalBinds, SupportedBy, LedgerAppend, BuildGrant;
  }

  lemma {:induction false} UsedApprovalsStay(s: KernelState, steps: seq<KernelStep>)
    ensures s.usedApprovals <= KernelFrom(s, steps).usedApprovals
    decreases |steps|
  {
    if steps != [] {
      hide KernelApply;
      UsedApprovalsStay(s, steps[..|steps| - 1]);
      StepKeepsUsedApprovals(KernelFrom(s, steps[..|steps| - 1]), steps[|steps| - 1]);
    }
  }

  lemma AcceptanceUses(s: KernelState, tenant: Id, id: Id, a: Approval, registry: set<ConstraintKey>, trusted: bool,
                       now: int, w: Writing)
    ensures var (v, r) := AcceptApproval(s, tenant, id, a, registry, trusted, now, w);
            r.Some? ==> ApprovalKey(a) !in s.usedApprovals && ApprovalKey(a) in v.usedApprovals
  {
    hide LedgerAppend, ApprovalBinds, SupportedBy;
  }

  /** Once an approval was accepted, no call ever accepts that record again, for this request or any
      other, whatever calls come in between. */
  lemma ApprovalsUsedOnce(s: KernelState, accepting: KernelStep, steps: seq<KernelStep>, again: KernelStep)
    requires accepting.Approving? && again.Approving? && again.approval == accepting.approval
    requires Accepts(s, accepting)
    ensures !Accepts(KernelFrom(KernelApply(s, accepting), steps), again)
  {
    hide KernelFrom, AcceptApproval;
    var x, y := accepting, again;
    var v := KernelFrom(KernelApply(s, x), steps);
    AcceptanceUses(s, x.tenant, x.id, x.approval, x.registry, x.trusted, x.now, x.w);
    UsedApprovalsStay(KernelApply(s, x), steps);
    AcceptanceUses(v, y.tenant, y.id, y.approval, y.registry, y.trusted, y.now, y.w);
  }

  predicate Accepts(s: KernelState, step: KernelStep)
    requires step.Approving?
  {
    AcceptApproval(s, step.tenant, step.id, step.approval, step.registry, step.trusted, step.now, step.w).1.Some?
  }

  /** No two records of a reachable state hold the same approval. */
  lemma ApprovalsHeldOnce(s: KernelState, j: RowKey, k: RowKey)
    requires KernelReachable(s) && j in s.records && k in s.records && j != k && s.records[j].approval.Some?
    ensures s.records[j].approval != s.records[k].approval
  {
    hide KernelReachable, BrokerInv, PhaseOk;
    KernelFacts(s);
    assert RecordOk(s, j) && RecordOk(s, k);
  }

  /** In every reachable state, with a clock that has not gone back, supported constraints and
      trusted proofs, the kernel issues a grant for an issuable record exactly when a positive
      window remains, no constraints conflict, no key is listed twice by the policy or by the
      approval, and the ledger accepts the clock: its own validator never refuses a grant for any
      other reason. */
  lemma KernelIssuesExactly(s: KernelState, actor: ActorContext, k: RowKey, x: Issue)
    requires KernelReachable(s) && k in s.records
    requires var c := s.records[k];
             && (c.phase == Phase.PolicyAuthorized || c.phase == Phase.Approved)
             && ParsedActor(actor) && IdentityValid(actor, c.request, x.trusted, x.now)
             && c.policy.decidedAt <= x.now && (c.approval.Some? ==> c.approval.value.issuedAt <= x.now)
             && (c.approval.Some? ==> OfApproval(c.approval.value) in x.verified)
             && (MergedOf(c).Some? ==>
                   var g := BuildGrant(actor, c.request, c.policy, c.approval, MergedOf(c).value, x.grantId, x.nonce,
                                       x.now);
                   SupportedBy(MergedOf(c).value, x.registry) && OfGrant(g) in x.verified)
    ensures var c := s.records[k];
            IssueLocked(s, actor, k, x).1.Some? <==>
              && x.now < ExpiryLimit(x.now, actor, c.approval)
              && !Conflicting(Flatten(ConstraintLists(c))) && DistinctConstraints(c.policy.constraints)
              && (c.approval.Some? ==> DistinctConstraints(c.approval.value.constraints))
              && Noted(s, c.request, c.policy, "kernel.authorization_grant_issued", x.w).1.Some?
  {
    hide KernelReachable, BrokerInv, IdentityValid, GrantValid, Noted, SupportedBy, DistinctConstraints, Flatten,
         Conflicting, FirstOccurrences;
    KernelFacts(s);
    var c := s.records[k];
    assert RecordOk(s, k);
    assert Issuable(actor, c.request, c.policy, c.approval, x.now);
    if MergedOf(c).Some? && x.now < ExpiryLimit(x.now, actor, c.approval) {
      FirstOccurrencesOnce(Flatten(ConstraintLists(c)));
      FirstOccurrencesDistinct(Flatten(ConstraintLists(c)));
      IssuedGrantPassesExactly(actor, c.request, c.policy, c.approval, MergedOf(c).value, x.grantId, x.nonce, x.now,
                               x.registry, x.verified);
    }
  }

  /** The durable store's initial states agree with the kernel's exactly on the decisions to deny
      and to require an approval; it stores no run that policy authorised outright. */
  lemma DurableStartsAgreeExactly(d: Decision)
    requires d == Authorize || d == Deny || d == RequireApproval
    ensures (LifecycleStore.InitialState(d) == Some(DurableName(InitialPhase(d)))) <==> d != Authorize
  {
  }

  /** `KernelLifecycle(...).value` as the durable table spells it. */
  function DurableName(p: Phase): LifecycleState {
    match p
    case Denied => LifecycleState.Denied
    case ApprovalRequired => LifecycleState.ApprovalRequired
    case PolicyAuthorized => LifecycleState.PolicyAuthorized
    case Approved => LifecycleState.Approved
    case _ => LifecycleState.GrantIssued
  }

  // ---- The kernel object ----

  class InProcessKernel {
    const ledger: InMemoryEvidenceLedger
    const broker: InMemoryEffectBroker
    var records: map<RowKey, LifecycleRecord>
    var idempotency: map<BindingKey, Bound>
    var consumedApprovals: set<GrantKey>

    ghost predicate Valid()
      reads this
    {
      broker.ledger == ledger
    }

    ghost function State(): KernelState
      reads this, broker, broker.ledger
    {
      KernelState(broker.State(), records, idempotency, consumedApprovals)
    }

    constructor (ledger: InMemoryEvidenceLedger)
      requires ledger.byTenant == map[]
      ensures Valid() && this.ledger == ledger && fresh(broker) && State() == IDLE
    {
      this.ledger := ledger;
      broker := new InMemoryEffectBroker(ledger);
      records, idempotency, consumedApprovals := map[], map[], {};
    }

    method Note(r: Request, p: Policy, kind: Id, w: Writing) returns (e: Option<Event>)
      requires Valid()
      modifies ledger
      ensures (State(), e) == Noted(old(State()), r, p, kind, w)
    {
      e := ledger.Append(Draft(r.tenant, r.runId, w.envelopeId, PolicyRef(p), OtherPayload(r.actor, kind, None)),
                         w.clock);
    }

    method SubmitRequest(actor: ActorContext, r: Request, rule: Rule, decisionId: Id, registry: set<ConstraintKey>,
                         trusted: bool, now: int, w: Writing)
      returns (record: Option<LifecycleRecord>)
      requires Valid()
      modifies this, ledger
      ensures (State(), record) == Submit(old(State()), actor, r, rule, decisionId, registry, trusted, now, w)
    {
      hide LedgerAppend, IdentityValid, SupportedBy;
      if !ParsedActor(actor) || !ParsedToolRequest(actor, r) || !IdentityValid(actor, r, trusted, now) {
        return None;
      }
      var b := KeyOfBinding(r.idempotency);
      if b in idempotency {
        var bound := idempotency[b];
        if bound.idempotency == r.idempotency && bound.requestDigest == OfRequest(r)
           && (r.tenant, bound.requestId) in records {
          return Some(records[(r.tenant, bound.requestId)]);
        }
        return None;
      }
      if RecordKey(r) in records || !RuleConfigured(rule) || !SupportedBy(rule.constraints, registry) {
        return None;
      }
      var p := Decided(r, rule, decisionId, now);
      var e := Note(r, p, "kernel.policy_decided", w);
      if e.None? {
        return None;
      }
      var next := LifecycleRecord(r, p, InitialPhase(p.decision), None, None, None);
      idempotency := idempotency[b := Bound(r.idempotency, r.requestId, OfRequest(r))];
      records := records[RecordKey(r) := next];
      record := Some(next);
    }

    method Approve(tenant: Id, id: Id, a: Approval, registry: set<ConstraintKey>, trusted: bool, now: int, w: Writing)
      returns (record: Option<LifecycleRecord>)
      requires Valid()
      modifies this, ledger
      ensures (State(), record) == AcceptApproval(old(State()), tenant, id, a, registry, trusted, now, w)
    {
      hide LedgerAppend, ApprovalBinds, SupportedBy;
      var k := (tenant, id);
      if k !in records || !ParsedApprovalRecord(tenant, a) {
        return None;
      }
      var c := records[k];
      if c.phase != Phase.ApprovalRequired || !ApprovalBinds(a, c.policy, c.request)
         || !SupportedBy(a.constraints, registry)
         || !a.approved || (a.dutiesRequired && !a.dutiesSatisfied) || now < a.issuedAt || a.expiresAt <= now
         || !trusted
         || ApprovalKey(a) in consumedApprovals {
        return None;
      }
      var e := Note(c.request, c.policy, "kernel.approval_accepted", w);
      if e.None? {
        return None;
      }
      var next := c.(phase := Phase.Approved, approval := Some(a));
      consumedApprovals := consumedApprovals + {ApprovalKey(a)};
      records := records[k := next];
      record := Some(next);
    }

    method IssueGrantLocked(actor: ActorContext, k: RowKey, x: Issue)
        returns (record: Option<LifecycleRecord>)
      requires Valid() && k in records
      modifies this, ledger
      ensures (State(), record) == IssueLocked(old(State()), actor, k, x)
    {
      hide LedgerAppend, IdentityValid, GrantValid, DistinctConstraints, Conflicting;
      var c := records[k];
      var m := MergeConstraints(ConstraintLists(c));
      if c.grant.Some? && (c.phase == Phase.GrantIssued || c.phase == Phase.EffectSucceeded
                           || c.phase == Phase.EffectIndeterminate) {
        return Some(c);
      }
      if (c.phase != Phase.PolicyAuthorized && c.phase != Phase.Approved)
         || (c.phase == Phase.Approved) != c.approval.Some? {
        return None;
      }
      if !IdentityValid(actor, c.request, x.trusted, x.now) || ExpiryLimit(x.now, actor, c.approval) <= x.now
         || m.None? {
        return None;
      }
      var g := BuildGrant(actor, c.request, c.policy, c.approval, m.value, x.grantId, x.nonce, x.now);
      var ok := ValidateGrantBinding(g, c.request, c.policy, AsList(c.approval), x.registry, x.verified);
      if !ok {
        return None;
      }
      var e := Note(c.request, c.policy, "kernel.authorization_grant_issued", x.w);
      if e.None? {
        return None;
      }
      var next := c.(phase := Phase.GrantIssued, grant := Some(g));
      records := records[k := next];
      record := Some(next);
    }

    method Execute(actor: ActorContext, id: Id, capable: bool, x: Issue, t: Trial)
        returns (record: Option<LifecycleRecord>)
      requires Valid()
      modifies this, ledger, broker
      ensures (State(), record) == ExecuteEffect(old(State()), actor, id, capable, x, t)
    {
      hide LedgerAppend, IdentityValid, GrantValid, DispatchOnce, IssueLocked;
      var k := (actor.tenant, id);
      if !ParsedActor(actor) || k !in records || records[k].request.actor != actor.actor
         || !IdentityValid(actor, records[k].request, x.trusted, x.enteredAt) {
        return None;
      }
      var current := records[k];
      if current.phase == Phase.EffectSucceeded || current.phase == Phase.EffectIndeterminate {
        return Some(current);
      }
      if current.phase == Phase.PolicyAuthorized || current.phase == Phase.Approved {
        if !capable {
          return None;
        }
        record := IssueGrantLocked(actor, k, x);
        if record.None? {
          return;
        }
        current := record.value;
      }
      if current.phase != Phase.GrantIssued || current.grant.None? {
        return None;
      }
      var execution := broker.DispatchEffect(AuthorityOf(actor, current), t);
      if execution.None? {
        return None;
      }
      var next := current.(phase := if execution.value.outcome.status == Succeeded then Phase.EffectSucceeded
                           else Phase.EffectIndeterminate, outcome := Some(execution.value.outcome));
      records := records[k := next];
      record := Some(next);
    }
  }
}
