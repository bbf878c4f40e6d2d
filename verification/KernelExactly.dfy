/** What each kernel call does, in terms of what it is given and of the state it finds. */
module KernelExactly {
  import opened Records
  import opened EvidenceChain
  import opened EffectStore
  import opened EffectProtocol
  import opened EffectBroker
  import opened GrantIssue
  import opened GovernanceKernel
  import opened BrokerExactly

  // ---- Submissions ----

  /** Milliseconds, in microseconds. */
  function Millis(t: int): int { t - t % 1000 }

  lemma MillisExactly(t: int)
    ensures TruncateToMillis(t) == Millis(t) && Millis(t) % 1000 == 0 && Millis(t) <= t < Millis(t) + 1000
  {
  }

  /** The tenant's ledger is empty or its last event is not later than the clock. */
  predicate TenantTakes(s: KernelState, tenant: Id, clock: int) {
    var events := EventsOf(s.broker.ledger, tenant);
    events == [] || events[|events| - 1].recordedAt <= Millis(clock)
  }

  /** The actor speaks for itself, in its time, about a request that it makes. */
  predicate Speaks(actor: ActorContext, r: Request, trusted: bool, now: int) {
    && trusted && actor.issuedAt <= now && now < actor.expiresAt
    && actor.issuedAt <= r.requestedAt && r.requestedAt <= actor.expiresAt && r.requestedAt <= now
    && r.tenant == actor.tenant && r.idempotency.tenant == actor.tenant && r.actor == actor.actor
    && r.actorDigest == OfActor(actor)
  }

  predicate MayAsk(actor: ActorContext, r: Request, trusted: bool, now: int) {
    && Speaks(actor, r, trusted, now)
    && actor.issuedAt % 1000 == 0 && actor.expiresAt % 1000 == 0 && r.requestedAt % 1000 == 0
  }

  /** The rule is complete, and its constraints are supported. */
  predicate RuleUsable(rule: Rule, registry: set<ConstraintKey>) {
    && (rule.decision == Authorize || rule.decision == Deny || rule.decision == RequireApproval)
    && (rule.decision == Deny <==> rule.isolation == "no_effect")
    && forall c | c in rule.constraints :: (c.id, c.version) in registry
  }

  predicate FollowsRule(c: LifecycleRecord, r: Request, rule: Rule) {
    && c.request == r && c.policy.tenant == r.tenant && c.policy.requestId == r.requestId
    && c.policy.requestDigest == OfRequest(r)
    && c.policy.decision == rule.decision && c.policy.constraints == rule.constraints
    && c.policy.isolation == rule.isolation
  }

  /** A first submission, under an unbound key, is accepted exactly when the actor may ask, the rule is
      usable, the request id is new and the ledger takes the clock.  Its record then says what the rule
      says, about this request, decided at the given time, and waits for what the rule demands. */
  lemma SubmissionExactly(s: KernelState, actor: ActorContext, r: Request, rule: Rule, decisionId: Id,
                          registry: set<ConstraintKey>, trusted: bool, now: int, w: Writing)
    requires (r.idempotency.tenant, r.idempotency.key) !in s.bindings
    ensures var (v, c) := Submit(s, actor, r, rule, decisionId, registry, trusted, now, w);
            && (c.Some? <==>
                  && MayAsk(actor, r, trusted, now) && RuleUsable(rule, registry)
                  && (r.tenant, r.requestId) !in s.records && TenantTakes(s, r.tenant, w.clock))
            && (c.None? ==> v.records == s.records && v.bindings == s.bindings)
            && (c.Some? ==>
                  && FollowsRule(c.value, r, rule) && c.value.policy.decisionId == decisionId
                  && c.value.policy.decidedAt == Millis(now)
                  && c.value.phase == (match rule.decision
                                       case Authorize => Phase.PolicyAuthorized
                                       case RequireApproval => Phase.ApprovalRequired
                                       case _ => Phase.Denied)
                  && c.value.approval == None && c.value.grant == None && c.value.outcome == None
                  && v.records == s.records[(r.tenant, r.requestId) := c.value]
                  && v.bindings == s.bindings[(r.idempotency.tenant, r.idempotency.key) :=
                                              Bound(r.idempotency, r.requestId, OfRequest(r))]
                  && v.usedApprovals == s.usedApprovals
                  && OneNoted(s.broker, v.broker, r, c.value.policy, w))
  {
    hide Noted, OneNoted, TenantTakes, Millis, TruncateToMillis;
    NotedExactly(s, r, Decided(r, rule, decisionId, now), "kernel.policy_decided", w);
    MillisExactly(now);
    var e := Noted(s, r, Decided(r, rule, decisionId, now), "kernel.policy_decided", w).1;
    assert e.Some? <==> TenantTakes(s, r.tenant, w.clock);
    assert ParsedActor(actor) && ParsedToolRequest(actor, r) && IdentityValid(actor, r, trusted, now)
           <==> MayAsk(actor, r, trusted, now);
    assert RuleConfigured(rule) && SupportedBy(rule.constraints, registry) <==> RuleUsable(rule, registry);
  }

  /** The tenant's ledger has one more event, of the request's run, under its policy. */
  ghost predicate OneNoted(s: BrokerState, v: BrokerState, r: Request, p: Policy, w: Writing) {
    var events, more := EventsOf(s.ledger, r.tenant), EventsOf(v.ledger, r.tenant);
    && |more| == |events| + 1 && more[..|events|] == events
    && var e := more[|events|];
       && e.tenant == r.tenant && e.run == r.runId && e.recordedAt == Millis(w.clock) && e.envelopeId == w.envelopeId
       && e.policyRef == Ref(p.decisionId, OfPolicy(p)) && e.payload.OtherPayload? && e.payload.writer == r.actor
       && v == s.(ledger := v.ledger)
       && forall t: Id | t != r.tenant :: EventsOf(v.ledger, t) == EventsOf(s.ledger, t)
  }

  lemma NotedExactly(s: KernelState, r: Request, p: Policy, kind: Id, w: Writing)
    ensures var (v, e) := Noted(s, r, p, kind, w);
            && (e.Some? <==> TenantTakes(s, r.tenant, w.clock))
            && (e.Some? ==> OneNoted(s.broker, v.broker, r, p, w))
            && v.records == s.records && v.bindings == s.bindings && v.usedApprovals == s.usedApprovals
  {
  }

  // ---- Approvals ----

  /** An approval is accepted exactly when the request waits for one, it approves, in its time, exactly
      this request and decision, with its duties satisfied where required, its constraints are
      supported, it is trusted, it was not used before, and the ledger takes the clock. */
  lemma ApprovalExactly(s: KernelState, tenant: Id, id: Id, a: Approval, registry: set<ConstraintKey>, trusted: bool,
                        now: int, w: Writing)
    requires KernelReachable(s)
    ensures var (v, next) := AcceptApproval(s, tenant, id, a, registry, trusted, now, w);
            var k := (tenant, id);
            && (next.Some? <==>
                  && k in s.records && s.records[k].phase == Phase.ApprovalRequired && trusted
                  && var c := s.records[k];
                     && a.tenant == tenant && a.requestId == id && a.requestDigest == OfRequest(c.request)
                     && a.decisionId == c.policy.decisionId && a.policyDigest == OfPolicy(c.policy)
                     && a.approved && (a.dutiesRequired ==> a.dutiesSatisfied)
                     && a.issuedAt % 1000 == 0 && a.expiresAt % 1000 == 0 && a.issuedAt <= now && now < a.expiresAt
                     && (forall e | e in a.constraints :: (e.id, e.version) in registry)
                     && (a.tenant, a.approvalId, OfApproval(a)) !in s.usedApprovals
                     && TenantTakes(s, tenant, w.clock))
            && (next.None? ==> v.records == s.records && v.usedApprovals == s.usedApprovals)
            && (next.Some? ==>
                  && next.value == s.records[k].(phase := Phase.Approved, approval := Some(a))
                  && v.records == s.records[k := next.value] && v.bindings == s.bindings
                  && v.usedApprovals == s.usedApprovals + {(a.tenant, a.approvalId, OfApproval(a))}
                  && OneNoted(s.broker, v.broker, s.records[k].request, s.records[k].policy, w))
  {
    hide Noted, OneNoted, TenantTakes, KernelReachable, BrokerInv, BindingOk, CallRecorded;
    KernelFacts(s);
    if (tenant, id) in s.records {
      var c := s.records[(tenant, id)];
      assert RecordOk(s, (tenant, id));
      NotedExactly(s, c.request, c.policy, "kernel.approval_accepted", w);
      var e := Noted(s, c.request, c.policy, "kernel.approval_accepted", w).1;
      assert e.Some? <==> TenantTakes(s, tenant, w.clock);
      assert ApprovalKey(a) == (a.tenant, a.approvalId, OfApproval(a));
    }
  }

  // ---- Grants ----

  /** A list without repetition of just these, in the order in which they occur first. */
  ghost predicate ListsOnce(cs: seq<Constraint>, all: seq<Constraint>) {
    && (forall i, j | 0 <= i < j < |cs| :: cs[i] != cs[j]) && (forall e :: e in cs <==> e in all)
    && InFirstOrder(cs, all)
  }

  /** What the policy lists, and then the approval if there is one. */
  function AllConstraints(c: LifecycleRecord): seq<Constraint> {
    c.policy.constraints + (match c.approval case None => [] case Some(a) => a.constraints)
  }

  /** What the grant of a record says. */
  ghost predicate GrantSays(g: Grant, actor: ActorContext, c: LifecycleRecord, x: Issue) {
    var r, p := c.request, c.policy;
    && g.tenant == r.tenant && g.grantId == x.grantId && g.nonce == x.nonce && g.actor == r.actor && g.runId == r.runId
    && g.requestId == r.requestId && g.requestDigest == OfRequest(r)
    && g.toolId == r.toolId && g.toolVersion == r.toolVersion && g.idempotency == r.idempotency
    && g.decisionId == p.decisionId && g.policyDigest == OfPolicy(p) && g.isolation == p.isolation
    && g.approvalRefs == (match c.approval case None => [] case Some(a) => [Ref(a.approvalId, OfApproval(a))])
    && ListsOnce(g.constraints, AllConstraints(c))
    && g.issuedAt == Millis(x.now)
    && g.expiresAt <= Millis(x.now) + 300_000_000 && g.expiresAt <= Millis(actor.expiresAt)
    && (c.approval.Some? ==> g.expiresAt <= Millis(c.approval.value.expiresAt))
    && (|| g.expiresAt == Millis(x.now) + 300_000_000 || g.expiresAt == Millis(actor.expiresAt)
        || (c.approval.Some? && g.expiresAt == Millis(c.approval.value.expiresAt)))
  }

  lemma ListsAre(c: LifecycleRecord)
    ensures Flatten(ConstraintLists(c)) == AllConstraints(c)
  {
    match c.approval
    case None => FlattenOne(c.policy.constraints);
    case Some(a) =>
      assert [c.policy.constraints] + [a.constraints] == [c.policy.constraints, a.constraints];
      FlattenTwo(c.policy.constraints, a.constraints);
  }

  function GrantOf(actor: ActorContext, c: LifecycleRecord, x: Issue): Grant
    requires MergedOf(c).Some?
  {
    BuildGrant(actor, c.request, c.policy, c.approval, MergedOf(c).value, x.grantId, x.nonce, x.now)
  }

  lemma BuiltGrantSays(actor: ActorContext, c: LifecycleRecord, x: Issue)
    requires MergedOf(c).Some?
    ensures GrantSays(GrantOf(actor, c, x), actor, c, x)
  {
    hide Flatten, FirstOccurrences, Conflicting, InFirstOrder;
    ListsAre(c);
    FirstOccurrencesOnce(Flatten(ConstraintLists(c)));
    FirstOccurrencesInOrder(Flatten(ConstraintLists(c)));
    TtlAligned(x.now);
    ExpiryIsLeast(actor, c, x);
  }

  lemma ExpiryIsLeast(actor: ActorContext, c: LifecycleRecord, x: Issue)
    ensures var e := TruncateToMillis(ExpiryLimit(x.now, actor, c.approval));
            && e <= Millis(x.now) + 300_000_000 && e <= Millis(actor.expiresAt)
            && (c.approval.Some? ==> e <= Millis(c.approval.value.expiresAt))
            && (|| e == Millis(x.now) + 300_000_000 || e == Millis(actor.expiresAt)
                || (c.approval.Some? && e == Millis(c.approval.value.expiresAt)))
  {
  }

  /** Constraints of one key are the same. */
  predicate Agree(cs: seq<Constraint>) {
    forall i, j | 0 <= i < j < |cs| && (cs[i].id, cs[i].version) == (cs[j].id, cs[j].version) :: cs[i] == cs[j]
  }

  /** The record may have a grant now: the actor may ask, decision and approval are in their time, the
      constraints agree, none is listed twice by one record, all are supported, and the grant that they
      ask for and the approval are properly signed. */
  ghost predicate MayIssue(actor: ActorContext, c: LifecycleRecord, x: Issue) {
    && Speaks(actor, c.request, x.trusted, x.now) && c.policy.decidedAt <= x.now
    && (c.approval.Some? ==>
          var a := c.approval.value;
          a.issuedAt <= x.now && x.now < a.expiresAt && KeysOnce(a.constraints) && OfApproval(a) in x.verified)
    && Agree(AllConstraints(c)) && KeysOnce(c.policy.constraints)
    && (forall e | e in AllConstraints(c) :: (e.id, e.version) in x.registry)
    && MergedOf(c).Some? && OfGrant(GrantOf(actor, c, x)) in x.verified
  }

  lemma IssuableGrant(s: KernelState, actor: ActorContext, k: RowKey, x: Issue)
    requires KernelReachable(s) && k in s.records && ParsedActor(actor)
    requires s.records[k].phase == Phase.PolicyAuthorized || s.records[k].phase == Phase.Approved
    requires IdentityValid(actor, s.records[k].request, x.trusted, x.now)
    requires ExpiryLimit(x.now, actor, s.records[k].approval) > x.now && MergedOf(s.records[k]).Some?
    ensures var c := s.records[k];
            GrantValid(GrantOf(actor, c, x), c.request, c.policy, AsList(c.approval), x.registry, x.verified)
            <==> MayIssue(actor, c, x)
  {
    hide KernelReachable, BrokerInv, BindingOk, CallRecorded, GrantValid, Flatten, FirstOccurrences, Conflicting,
         SupportedBy, DistinctConstraints, InFirstOrder;
    KernelFacts(s);
    var c := s.records[k];
    assert RecordOk(s, k);
    ListsAre(c);
    FirstOccurrencesOnce(Flatten(ConstraintLists(c)));
    FirstOccurrencesDistinct(Flatten(ConstraintLists(c)));
    KeysMean(c);
    if GrantValid(GrantOf(actor, c, x), c.request, c.policy, AsList(c.approval), x.registry, x.verified) {
      ValidGrantMeans(actor, c, x);
    }
    if SupportedBy(MergedOf(c).value, x.registry) && OfGrant(GrantOf(actor, c, x)) in x.verified
       && (c.approval.Some? ==> OfApproval(c.approval.value) in x.verified)
       && Issuable(actor, c.request, c.policy, c.approval, x.now) {
      IssuedGrantPassesExactly(actor, c.request, c.policy, c.approval, MergedOf(c).value, x.grantId, x.nonce, x.now,
                               x.registry, x.verified);
    }
    SupportMeans(MergedOf(c).value, AllConstraints(c), x.registry);
  }

  lemma SupportMeans(merged: seq<Constraint>, all: seq<Constraint>, registry: set<ConstraintKey>)
    requires forall e :: e in merged <==> e in all
    ensures SupportedBy(merged, registry) <==> forall e | e in all :: (e.id, e.version) in registry
  {
  }

  lemma KeysMean(c: LifecycleRecord)
    ensures KeysOnce(c.policy.constraints) <==> DistinctConstraints(c.policy.constraints)
    ensures c.approval.Some? ==>
              (KeysOnce(c.approval.value.constraints) <==> DistinctConstraints(c.approval.value.constraints))
    ensures Agree(AllConstraints(c)) <==> !Conflicting(AllConstraints(c))
  {
  }

  lemma ValidGrantMeans(actor: ActorContext, c: LifecycleRecord, x: Issue)
    requires MergedOf(c).Some?
    requires GrantValid(GrantOf(actor, c, x), c.request, c.policy, AsList(c.approval), x.registry, x.verified)
    ensures c.policy.decidedAt <= Millis(x.now) && OfGrant(GrantOf(actor, c, x)) in x.verified
    ensures SupportedBy(MergedOf(c).value, x.registry)
    ensures c.approval.Some? ==>
              c.approval.value.issuedAt <= Millis(x.now) && OfApproval(c.approval.value) in x.verified
    ensures DistinctConstraints(c.policy.constraints)
            && (c.approval.Some? ==> DistinctConstraints(c.approval.value.constraints))
  {
    if c.approval.Some? {
      var g, a := GrantOf(actor, c, x), c.approval.value;
      assert g.approvalRefs == [ApprovalRef(a)] && ApprovalRef(a) in g.approvalRefs;
    }
  }

  /** In a reachable state a grant is issued for a record that waits for one exactly when it may have one
      now and the ledger takes the clock.  The record then has just that grant. */
  lemma IssueExactly(s: KernelState, actor: ActorContext, k: RowKey, x: Issue)
    requires KernelReachable(s) && k in s.records && actor.issuedAt % 1000 == 0 && actor.expiresAt % 1000 == 0
    requires s.records[k].phase == Phase.PolicyAuthorized || s.records[k].phase == Phase.Approved
    ensures var (v, next) := IssueLocked(s, actor, k, x);
            var c := s.records[k];
            && (next.Some? <==> MayIssue(actor, c, x) && TenantTakes(s, c.request.tenant, x.w.clock))
            && (next.None? ==> v.records == s.records)
            && (next.Some? ==>
                  && next.value == c.(phase := Phase.GrantIssued, grant := next.value.grant) && next.value.grant.Some?
                  && GrantSays(next.value.grant.value, actor, c, x)
                  && v.records == s.records[k := next.value] && v.bindings == s.bindings
                  && v.usedApprovals == s.usedApprovals && OneNoted(s.broker, v.broker, c.request, c.policy, x.w))
  {
    hide KernelReachable, BrokerInv, BindingOk, CallRecorded, GrantValid, Noted, OneNoted, TenantTakes, GrantSays,
         MayIssue, MergedOf, BuildGrant, RecordBinds;
    KernelFacts(s);
    var c := s.records[k];
    assert RecordOk(s, k);
    NotedExactly(s, c.request, c.policy, "kernel.authorization_grant_issued", x.w);
    assert Noted(s, c.request, c.policy, "kernel.authorization_grant_issued", x.w).1.Some?
           <==> TenantTakes(s, c.request.tenant, x.w.clock);
    if MayIssue(actor, c, x) {
      MayIssueMeans(s, actor, k, x);
    }
    if IdentityValid(actor, c.request, x.trusted, x.now) && ExpiryLimit(x.now, actor, c.approval) > x.now
       && MergedOf(c).Some? {
      IssuableGrant(s, actor, k, x);
      BuiltGrantSays(actor, c, x);
      assert BuildGrant(actor, c.request, c.policy, c.approval, MergedOf(c).value, x.grantId, x.nonce, x.now)
             == GrantOf(actor, c, x);
    }
  }

  lemma MayIssueMeans(s: KernelState, actor: ActorContext, k: RowKey, x: Issue)
    requires k in s.records && MayIssue(actor, s.records[k], x)
    ensures var c := s.records[k];
            && IdentityValid(actor, c.request, x.trusted, x.now) && ExpiryLimit(x.now, actor, c.approval) > x.now
            && MergedOf(c).Some? && actor.issuedAt < actor.expiresAt
  {
    hide MergedOf, BuildGrant, AllConstraints;
  }
}
