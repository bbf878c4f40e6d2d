/** Where every record of a kernel run comes from, and under what rule every executor call was made. */
module KernelRuns {
  import opened Records
  import opened EvidenceChain
  import opened EffectStore
  import opened EffectProtocol
  import opened EffectBroker
  import opened GrantIssue
  import opened GovernanceKernel
  import opened KernelExactly
  import BrokerExactly

  // ---- Records only grow ----

  /** Requests and policies stay; an approval stays, and nothing joins a grant or replaces it. */
  predicate Evolves(c: LifecycleRecord, next: LifecycleRecord) {
    && next.request == c.request && next.policy == c.policy
    && (c.approval.Some? ==> next.approval == c.approval)
    && (c.grant.Some? ==> next.grant == c.grant && next.approval == c.approval)
  }

  /** The step creates the record, approves it or issues its grant, or leaves all three alone. */
  ghost predicate RecordStep(s: KernelState, step: KernelStep, v: KernelState, k: RowKey)
    requires k in v.records
  {
    if k !in s.records then Creates(s, step, v.records[k]) && (step.request.tenant, step.request.requestId) == k
    else
      var c, next := s.records[k], v.records[k];
      && Evolves(c, next)
      && (next.approval != c.approval ==>
            && step.Approving? && (step.tenant, step.id) == k && Accepts(s, step)
            && next.approval == Some(step.approval)
            && next.grant == c.grant && c.grant.None?)
      && (next.grant != c.grant ==>
            && (step.Issuing? || step.Executing?) && (step.actor.tenant, step.id) == k
            && next.grant.Some? && MayIssue(step.actor, c, step.issue)
            && GrantSays(next.grant.value, step.actor, c, step.issue))
  }

  /** A first submission that is accepted. */
  predicate Creates(s: KernelState, step: KernelStep, c: LifecycleRecord) {
    && step.Submitting? && (step.request.tenant, step.request.requestId) !in s.records
    && MayAsk(step.actor, step.request, step.trusted, step.now) && RuleUsable(step.rule, step.registry)
    && FollowsRule(c, step.request, step.rule)
    && c.policy.decisionId == step.decisionId && c.policy.decidedAt == Millis(step.now)
    && c.approval.None? && c.grant.None?
  }

  lemma SubmittingMeans(s: KernelState, step: KernelStep, k: RowKey)
    requires step.Submitting? && k in KernelApply(s, step).records
    ensures RecordStep(s, step, KernelApply(s, step), k)
  {
    hide Submit, FollowsRule, MayAsk, RuleUsable, TenantTakes, OneNoted;
    var r := step.request;
    if (r.idempotency.tenant, r.idempotency.key) in s.bindings {
      BoundSubmission(s, step);
    } else {
      SubmissionExactly(s, step.actor, r, step.rule, step.decisionId, step.registry, step.trusted, step.now, step.w);
    }
  }

  lemma BoundSubmission(s: KernelState, step: KernelStep)
    requires step.Submitting?
    requires (step.request.idempotency.tenant, step.request.idempotency.key) in s.bindings
    ensures KernelApply(s, step) == s
  {
    hide IdentityValid, ParsedToolRequest, Noted;
    assert KeyOfBinding(step.request.idempotency)
           == (step.request.idempotency.tenant, step.request.idempotency.key);
  }

  lemma ApprovingMeans(s: KernelState, step: KernelStep, k: RowKey)
    requires KernelReachable(s) && step.Approving? && k in KernelApply(s, step).records
    ensures RecordStep(s, step, KernelApply(s, step), k)
  {
    hide AcceptApproval, TenantTakes, OneNoted, KernelReachable, BrokerInv, RecordBinds, BindingOk, CallRecorded;
    ApprovalExactly(s, step.tenant, step.id, step.approval, step.registry, step.trusted, step.now, step.w);
    KernelFacts(s);
    if (step.tenant, step.id) in s.records {
      assert RecordOk(s, (step.tenant, step.id));
    }
  }

  lemma LockedMeans(s: KernelState, actor: ActorContext, k: RowKey, x: Issue)
    requires KernelReachable(s) && k in s.records && ParsedActor(actor)
    ensures var (v, next) := IssueLocked(s, actor, k, x);
            && v.broker.calls == s.broker.calls && v.broker.results == s.broker.results
            && (v.records == s.records
                || (k in v.records && v.records == s.records[k := v.records[k]]
                    && var c, d := s.records[k], v.records[k];
                       && d == c.(phase := d.phase, grant := d.grant) && c.grant.None? && d.grant.Some?
                       && MayIssue(actor, c, x) && GrantSays(d.grant.value, actor, c, x)))
            && (next.Some? ==> k in v.records && v.records[k] == next.value)
  {
    hide GrantValid, IdentityValid, TenantTakes, GrantSays, MayIssue, KernelReachable, BrokerInv, RecordBinds,
         BindingOk, CallRecorded, BuildGrant, MergedOf;
    KernelFacts(s);
    assert RecordOk(s, k);
    var c := s.records[k];
    if c.phase == Phase.PolicyAuthorized || c.phase == Phase.Approved {
      IssueExactly(s, actor, k, x);
      NotedExactly(s, c.request, c.policy, "kernel.authorization_grant_issued", x.w);
    }
  }

  /** Dispatching changes no more of a record than its phase and outcome. */
  lemma DispatchingMeans(s: KernelState, actor: ActorContext, k: RowKey, c: LifecycleRecord, t: Trial, j: RowKey)
    requires k in s.records && s.records[k] == c && c.grant.Some?
    requires j in DispatchRecord(s, actor, k, c, t).0.records
    ensures j in s.records
            && var d := DispatchRecord(s, actor, k, c, t).0.records[j];
               d == s.records[j].(phase := d.phase, outcome := d.outcome)
  {
    hide DispatchOnce;
  }

  lemma GrantingMeans(s: KernelState, step: KernelStep, k: RowKey)
    requires KernelReachable(s) && (step.Issuing? || step.Executing?) && k in KernelApply(s, step).records
    ensures RecordStep(s, step, KernelApply(s, step), k)
  {
    hide KernelReachable, GrantSays, MayIssue, IssueLocked, DispatchRecord, IdentityValid, Creates;
    var j := (step.actor.tenant, step.id);
    if j in s.records && ParsedActor(step.actor) {
      LockedMeans(s, step.actor, j, step.issue);
      var (v, next) := IssueLocked(s, step.actor, j, step.issue);
      if step.Executing? {
        if next.Some? && next.value.grant.Some?
           && k in DispatchRecord(v, step.actor, j, next.value, step.trial).0.records {
          DispatchingMeans(v, step.actor, j, next.value, step.trial, k);
        }
        if s.records[j].grant.Some? && k in DispatchRecord(s, step.actor, j, s.records[j], step.trial).0.records {
          DispatchingMeans(s, step.actor, j, s.records[j], step.trial, k);
        }
      }
    }
  }

  lemma StepMeans(s: KernelState, step: KernelStep, k: RowKey)
    requires KernelReachable(s) && k in KernelApply(s, step).records
    ensures RecordStep(s, step, KernelApply(s, step), k)
  {
    hide KernelReachable, KernelApply, RecordStep;
    match step
    case Submitting(_, _, _, _, _, _, _, _) => SubmittingMeans(s, step, k);
    case Approving(_, _, _, _, _, _, _) => ApprovingMeans(s, step, k);
    case _ => GrantingMeans(s, step, k);
  }

  lemma RecordsStay(s: KernelState, step: KernelStep, k: RowKey)
    requires k in s.records
    ensures k in KernelApply(s, step).records
  {
    hide IdentityValid, GrantValid, DispatchOnce, ApprovalBinds, SupportedBy, LedgerAppend, BuildGrant;
  }

  // ---- Origins ----

  /** The record's first submission, as the `i`th call. */
  ghost predicate SubmittedAt(steps: seq<KernelStep>, i: nat, k: RowKey, c: LifecycleRecord)
    requires i < |steps|
  {
    && steps[i].Submitting? && (steps[i].request.tenant, steps[i].request.requestId) == k
    && k !in KernelRun(steps[..i]).records
    && MayAsk(steps[i].actor, c.request, steps[i].trusted, steps[i].now)
    && RuleUsable(steps[i].rule, steps[i].registry) && FollowsRule(c, steps[i].request, steps[i].rule)
    && c.policy.decisionId == steps[i].decisionId && c.policy.decidedAt == Millis(steps[i].now)
  }

  /** The `i`th call accepted this approval of the request. */
  ghost predicate ApprovedAt(steps: seq<KernelStep>, i: nat, k: RowKey, a: Approval)
    requires i < |steps|
  {
    && steps[i].Approving? && (steps[i].tenant, steps[i].id) == k && steps[i].approval == a
    && Accepts(KernelRun(steps[..i]), steps[i])
  }

  /** The `i`th call issued the record's grant, which the record might have then. */
  ghost predicate IssuedAt(steps: seq<KernelStep>, i: nat, k: RowKey, c: LifecycleRecord)
    requires i < |steps|
  {
    && (steps[i].Issuing? || steps[i].Executing?) && (steps[i].actor.tenant, steps[i].id) == k
    && c.grant.Some? && MayIssue(steps[i].actor, c, steps[i].issue)
    && GrantSays(c.grant.value, steps[i].actor, c, steps[i].issue)
  }

  /** First a submission, then the approval if there is one, then the grant if there is one. */
  ghost predicate Origin(steps: seq<KernelStep>, k: RowKey, c: LifecycleRecord) {
    exists i: nat ::
      && i < |steps| && SubmittedAt(steps, i, k, c)
      && (c.approval.Some? ==> exists j: nat :: i < j < |steps| && ApprovedAt(steps, j, k, c.approval.value))
      && (c.grant.Some? ==> exists m: nat :: i < m < |steps| && IssuedAt(steps, m, k, c))
  }

  lemma PrefixesShared(steps: seq<KernelStep>, i: nat)
    requires i < |steps|
    ensures i < |steps| - 1 ==> steps[..|steps| - 1][..i] == steps[..i]
    ensures steps[..|steps| - 1][..|steps| - 1] == steps[..|steps| - 1]
  {
  }

  lemma OriginStays(steps: seq<KernelStep>, k: RowKey, c: LifecycleRecord, d: LifecycleRecord)
    requires steps != [] && Origin(steps[..|steps| - 1], k, c) && Evolves(c, d)
    requires d.approval != c.approval ==> d.approval.Some? && ApprovedAt(steps, |steps| - 1, k, d.approval.value)
    requires d.grant != c.grant ==> IssuedAt(steps, |steps| - 1, k, d)
    ensures Origin(steps, k, d)
  {
    hide MayAsk, RuleUsable, MayIssue, GrantSays, Accepts, KernelRun;
    var before := steps[..|steps| - 1];
    var i: nat :| i < |before| && SubmittedAt(before, i, k, c)
      && (c.approval.Some? ==> exists j: nat :: i < j < |before| && ApprovedAt(before, j, k, c.approval.value))
      && (c.grant.Some? ==> exists m: nat :: i < m < |before| && IssuedAt(before, m, k, c));
    PrefixesShared(steps, i);
    assert SubmittedAt(steps, i, k, d);
    if d.approval.Some? && d.approval == c.approval {
      var j: nat :| i < j < |before| && ApprovedAt(before, j, k, c.approval.value);
      PrefixesShared(steps, j);
      assert ApprovedAt(steps, j, k, d.approval.value);
    }
    if d.grant.Some? && d.grant == c.grant {
      var m: nat :| i < m < |before| && IssuedAt(before, m, k, c);
      SameIssue(steps[m].actor, c, d, steps[m].issue);
      assert IssuedAt(steps, m, k, d);
    }
  }

  lemma SameIssue(actor: ActorContext, c: LifecycleRecord, d: LifecycleRecord, x: Issue)
    requires d.request == c.request && d.policy == c.policy && d.approval == c.approval
    ensures MayIssue(actor, c, x) ==> MayIssue(actor, d, x)
    ensures forall g: Grant :: GrantSays(g, actor, c, x) ==> GrantSays(g, actor, d, x)
  {
    hide Flatten, FirstOccurrences, Conflicting, InFirstOrder, ListsOnce, Agree, BrokerExactly.KeysOnce;
    assert ConstraintLists(d) == ConstraintLists(c) && AllConstraints(d) == AllConstraints(c);
    assert MergedOf(d) == MergedOf(c);
  }

  /** Every record of every run comes from its first submission, and its approval and its grant from
      calls that came after that. */
  lemma {:induction false} RecordsOriginate(steps: seq<KernelStep>, k: RowKey)
    requires k in KernelRun(steps).records
    ensures Origin(steps, k, KernelRun(steps).records[k])
    decreases |steps|
  {
    hide KernelApply, Origin, MayIssue, GrantSays, MayAsk, RuleUsable, FollowsRule, Accepts;
    if steps != [] {
      var before, last := steps[..|steps| - 1], steps[|steps| - 1];
      var s, d := KernelRun(before), KernelRun(steps).records[k];
      StepMeans(s, last, k);
      if k in s.records {
        RecordsOriginate(before, k);
        LastStep(steps, k, s.records[k], d);
        OriginStays(steps, k, s.records[k], d);
      } else {
        FreshOrigin(steps, k, d);
      }
    }
  }

  lemma FreshOrigin(steps: seq<KernelStep>, k: RowKey, d: LifecycleRecord)
    requires steps != [] && k !in KernelRun(steps[..|steps| - 1]).records
    requires var last := steps[|steps| - 1];
             Creates(KernelRun(steps[..|steps| - 1]), last, d) && (last.request.tenant, last.request.requestId) == k
    ensures Origin(steps, k, d)
  {
    hide MayAsk, RuleUsable, KernelRun;
    assert SubmittedAt(steps, |steps| - 1, k, d);
  }

  lemma LastStep(steps: seq<KernelStep>, k: RowKey, c: LifecycleRecord, d: LifecycleRecord)
    requires steps != []
    requires k in KernelRun(steps[..|steps| - 1]).records && KernelRun(steps[..|steps| - 1]).records[k] == c
    requires k in KernelRun(steps).records && KernelRun(steps).records[k] == d
    requires RecordStep(KernelRun(steps[..|steps| - 1]), steps[|steps| - 1], KernelRun(steps), k)
    ensures Evolves(c, d)
    ensures d.approval != c.approval ==> d.approval.Some? && ApprovedAt(steps, |steps| - 1, k, d.approval.value)
    ensures d.grant != c.grant ==> IssuedAt(steps, |steps| - 1, k, d)
  {
    hide MayIssue, GrantSays, Accepts, KernelRun, Creates;
    if d.grant != c.grant {
      SameIssue(steps[|steps| - 1].actor, c, d, steps[|steps| - 1].issue);
    }
  }

  // ---- Calls ----

  /** The call is made for the record as it stands: same request, decision, approval and grant. */
  predicate MadeFor(a: Authority, c: LifecycleRecord) {
    a.request == c.request && a.policy == c.policy && a.approvals == AsList(c.approval) && c.grant == Some(a.grant)
  }

  /** A broker may have been called once more, for this record, and may have stored a result for it. */
  predicate BrokerStep(b: BrokerState, v: BrokerState, actor: ActorContext, c: LifecycleRecord) {
    && (v.calls == b.calls || (c.grant.Some? && v.calls == b.calls + [AuthorityOf(actor, c)]))
    && forall x | x in v.results ::
         x in b.results || (v.calls != b.calls && x == KeyOfBinding(c.request.idempotency))
  }

  lemma DispatchStep(b: BrokerState, a: Authority, t: Trial)
    ensures var v := DispatchOnce(b, a, t).0;
            && (v.calls == b.calls || v.calls == b.calls + [a])
            && forall x | x in v.results ::
                 x in b.results || (v.calls != b.calls && x == KeyOfBinding(a.request.idempotency))
  {
    hide DispatchOnce, BrokerExactly.WrittenFor, BrokerExactly.IsIntent, BrokerExactly.IsOutcome, BrokerExactly.Tells,
         OutcomeOf;
    if DispatchOnce(b, a, t).0.calls != b.calls {
      BrokerExactly.DispatchExactly(b, a, t);
      assert KeyOfBinding(a.request.idempotency) == (a.request.idempotency.tenant, a.request.idempotency.key);
    } else {
      BrokerExactly.NoCallNoResult(b, a, t);
    }
  }

  lemma ExecutingStep(s: KernelState, step: KernelStep)
    requires KernelReachable(s) && step.Executing?
    ensures var v, k := KernelApply(s, step), (step.actor.tenant, step.id);
            if k in v.records then BrokerStep(s.broker, v.broker, step.actor, v.records[k])
            else v.broker.calls == s.broker.calls && v.broker.results == s.broker.results
  {
    hide KernelReachable, GrantSays, MayIssue, IssueLocked, DispatchOnce, IdentityValid;
    var k := (step.actor.tenant, step.id);
    if k in s.records && ParsedActor(step.actor) {
      LockedMeans(s, step.actor, k, step.issue);
      var (v, next) := IssueLocked(s, step.actor, k, step.issue);
      if next.Some? && next.value.grant.Some? {
        DispatchStep(v.broker, AuthorityOf(step.actor, next.value), step.trial);
      }
      if s.records[k].grant.Some? {
        DispatchStep(s.broker, AuthorityOf(step.actor, s.records[k]), step.trial);
      }
    }
  }

  lemma OtherSteps(s: KernelState, step: KernelStep)
    requires KernelReachable(s) && !step.Executing?
    ensures KernelApply(s, step).broker.calls == s.broker.calls
    ensures KernelApply(s, step).broker.results == s.broker.results
  {
    hide KernelReachable, IdentityValid, ApprovalBinds, SupportedBy, LedgerAppend, IssueLocked, GrantSays, MayIssue,
         Decided;
    if step.Issuing? && (step.actor.tenant, step.id) in s.records && ParsedActor(step.actor) {
      LockedMeans(s, step.actor, (step.actor.tenant, step.id), step.issue);
    }
  }

  /** Each call was made for a record as it still stands, and a stored result is one of a call. */
  ghost predicate CallsHeld(s: KernelState) {
    && (forall i | 0 <= i < |s.broker.calls| ::
          var a := s.broker.calls[i];
          (a.request.tenant, a.request.requestId) in s.records
          && MadeFor(a, s.records[(a.request.tenant, a.request.requestId)]))
    && forall b | b in s.broker.results ::
         exists i :: 0 <= i < |s.broker.calls| && KeyOfBinding(s.broker.calls[i].request.idempotency) == b
  }

  lemma StepHolds(s: KernelState, step: KernelStep)
    requires KernelReachable(s) && CallsHeld(s)
    ensures CallsHeld(KernelApply(s, step))
  {
    hide KernelReachable, KernelApply, Creates, MayIssue, GrantSays, Accepts;
    var v := KernelApply(s, step);
    if step.Executing? { ExecutingStep(s, step); } else { OtherSteps(s, step); }
    forall i | 0 <= i < |v.broker.calls|
      ensures var a := v.broker.calls[i];
              (a.request.tenant, a.request.requestId) in v.records
              && MadeFor(a, v.records[(a.request.tenant, a.request.requestId)])
    {
      var a := v.broker.calls[i];
      if i < |s.broker.calls| {
        assert a == s.broker.calls[i];
        RecordsStay(s, step, (a.request.tenant, a.request.requestId));
        StepMeans(s, step, (a.request.tenant, a.request.requestId));
      } else {
        RecordHome(v, s, step, (step.actor.tenant, step.id));
      }
    }
    forall b | b in v.broker.results
      ensures exists i :: 0 <= i < |v.broker.calls| && KeyOfBinding(v.broker.calls[i].request.idempotency) == b
    {
      if b in s.broker.results {
        var i :| 0 <= i < |s.broker.calls| && KeyOfBinding(s.broker.calls[i].request.idempotency) == b;
        assert v.broker.calls[i] == s.broker.calls[i];
      } else {
        assert KeyOfBinding(v.broker.calls[|s.broker.calls|].request.idempotency) == b;
      }
    }
  }

  lemma RecordHome(v: KernelState, s: KernelState, step: KernelStep, k: RowKey)
    requires KernelReachable(s) && v == KernelApply(s, step) && k in v.records
    ensures (v.records[k].request.tenant, v.records[k].request.requestId) == k
  {
    hide KernelReachable, KernelApply, BrokerInv, RecordBinds, PhaseOk;
    KernelFacts(s);
    StepKeepsKernel(s, step);
    assert RecordOk(v, k);
  }

  lemma {:induction false} RunHolds(steps: seq<KernelStep>)
    ensures CallsHeld(KernelRun(steps))
    decreases |steps|
  {
    hide KernelApply, CallsHeld;
    if steps == [] {
      assert CallsHeld(IDLE) by { StartHolds(); }
    } else {
      RunHolds(steps[..|steps| - 1]);
      assert KernelReachable(KernelRun(steps[..|steps| - 1]));
      StepHolds(KernelRun(steps[..|steps| - 1]), steps[|steps| - 1]);
    }
  }

  lemma StartHolds()
    ensures CallsHeld(IDLE)
  {
  }

  /** One call of the run submitted this very request, under whose rule its policy was decided; either
      the rule said to authorise, and the approvals are none; or it said to require an approval, and they
      are one that a later call accepted for the request.  A later call too issued the grant. */
  ghost predicate RuledBy(steps: seq<KernelStep>, i: nat, c: LifecycleRecord)
    requires i < |steps|
  {
    var k := (c.request.tenant, c.request.requestId);
    && SubmittedAt(steps, i, k, c) && (exists m: nat :: i < m < |steps| && IssuedAt(steps, m, k, c))
    && match c.approval
       case None => steps[i].rule.decision == Authorize
       case Some(a) =>
         steps[i].rule.decision == RequireApproval && exists j: nat :: i < j < |steps| && ApprovedAt(steps, j, k, a)
  }

  /** Over every run: each executor call is made for a request that one call of the run submitted, under a
      decision that says what the rule of that call said, and with an accepted approval if the rule
      required one. */
  lemma CallsFollowRules(steps: seq<KernelStep>, n: nat)
    requires n < |KernelRun(steps).broker.calls|
    ensures exists i: nat, c: LifecycleRecord ::
              i < |steps| && RuledBy(steps, i, c) && MadeFor(KernelRun(steps).broker.calls[n], c)
  {
    hide KernelRun, KernelReachable, BrokerInv, SubmittedAt, ApprovedAt, IssuedAt;
    var s := KernelRun(steps);
    var a := s.broker.calls[n];
    var k := (a.request.tenant, a.request.requestId);
    RunHolds(steps);
    var c := s.records[k];
    RecordsOriginate(steps, k);
    var i: nat :| i < |steps| && SubmittedAt(steps, i, k, c)
      && (c.approval.Some? ==> exists j: nat :: i < j < |steps| && ApprovedAt(steps, j, k, c.approval.value))
      && (c.grant.Some? ==> exists m: nat :: i < m < |steps| && IssuedAt(steps, m, k, c));
    ReachableBy(steps);
    GrantedDecision(s, k);
    DecidedByRule(steps, i, k, c);
    assert RuledBy(steps, i, c);
  }

  lemma GrantedDecision(s: KernelState, k: RowKey)
    requires KernelReachable(s) && k in s.records && s.records[k].grant.Some?
    ensures s.records[k].policy.decision == if s.records[k].approval.Some? then RequireApproval else Authorize
  {
    hide KernelReachable, BrokerInv, RecordBinds, BindingOk, CallRecorded;
    KernelFacts(s);
    assert RecordOk(s, k);
  }

  lemma DecidedByRule(steps: seq<KernelStep>, i: nat, k: RowKey, c: LifecycleRecord)
    requires i < |steps| && SubmittedAt(steps, i, k, c)
    ensures steps[i].Submitting? && steps[i].rule.decision == c.policy.decision
    ensures k == (c.request.tenant, c.request.requestId)
  {
    hide KernelRun, MayAsk, RuleUsable;
  }

  lemma ReachableBy(steps: seq<KernelStep>)
    ensures KernelReachable(KernelRun(steps))
  {
  }

  // ---- An issued grant can be dispatched ----

  /** What of a valid grant may change with time: the supported constraints and the verified records. */
  lemma StandsAgainExactly(g: Grant, r: Request, p: Policy, approval: Option<Approval>, registry: set<ConstraintKey>,
                           verified: set<Digest>, now_registry: set<ConstraintKey>, now_verified: set<Digest>)
    requires BrokerExactly.GrantStands(g, r, p, AsList(approval), registry, verified)
    requires g.approvalRefs == (match approval case None => [] case Some(a) => [Ref(a.approvalId, OfApproval(a))])
    ensures BrokerExactly.GrantStands(g, r, p, AsList(approval), now_registry, now_verified) <==>
              && (forall e | e in g.constraints :: (e.id, e.version) in now_registry) && OfGrant(g) in now_verified
              && (approval.Some? ==> OfApproval(approval.value) in now_verified)
  {
    hide BrokerExactly.KeysOnce;
    match approval
    case None =>
    case Some(a) =>
      var ref := Ref(a.approvalId, OfApproval(a));
      assert ref in g.approvalRefs && a in AsList(approval);
      assert BrokerExactly.Upholds(a, g, r, p, registry, verified);
      assert BrokerExactly.Known(g.constraints, now_registry) && OfApproval(a) in now_verified
             ==> BrokerExactly.Upholds(a, g, r, p, now_registry, now_verified);
  }

  /** The record of an issuable request has no result and no consumed grant. */
  lemma NothingStored(s: KernelState, k: RowKey, g: Grant)
    requires KernelReachable(s) && k in s.records && s.records[k].grant.None?
    requires (g.tenant, g.requestId) == k
    ensures KeyOfBinding(s.records[k].request.idempotency) !in s.broker.results && KeyOfGrant(g) !in s.broker.consumed
  {
    hide KernelReachable, KernelInv;
    KernelFacts(s);
    ReachableHolds(s);
    NoResult(s, k);
    NotConsumed(s, k, g);
  }

  lemma NoResult(s: KernelState, k: RowKey)
    requires KernelInv(s) && CallsHeld(s) && k in s.records && s.records[k].grant.None?
    ensures KeyOfBinding(s.records[k].request.idempotency) !in s.broker.results
  {
    hide BrokerInv, PhaseOk, BindingOk, CallRecorded, PolicyBinds, ApprovalBinds, MadeFor;
    assert RecordOk(s, k);
    var b := KeyOfBinding(s.records[k].request.idempotency);
    if b in s.broker.results {
      var i :| 0 <= i < |s.broker.calls| && KeyOfBinding(s.broker.calls[i].request.idempotency) == b;
      CalledRecord(s, i);
    }
  }

  lemma NotConsumed(s: KernelState, k: RowKey, g: Grant)
    requires KernelInv(s) && CallsHeld(s) && k in s.records && s.records[k].grant.None?
    requires (g.tenant, g.requestId) == k
    ensures KeyOfGrant(g) !in s.broker.consumed
  {
    hide RecordOk, BindingOk, CallRecorded, CallsHeld, LedgerLinked;
    if KeyOfGrant(g) in s.broker.consumed {
      assert GrantOk(s.broker, g);
      var i :| 0 <= i < |s.broker.calls| && s.broker.calls[i].grant == g;
      CalledRecord(s, i);
    }
  }

  lemma ReachableHolds(s: KernelState)
    requires KernelReachable(s)
    ensures CallsHeld(s)
  {
    hide KernelRun, CallsHeld;
    var steps :| KernelRun(steps) == s;
    RunHolds(steps);
  }

  /** The record of a call has its grant, and is the one that its key is bound to. */
  lemma CalledRecord(s: KernelState, i: nat)
    requires KernelInv(s) && CallsHeld(s) && i < |s.broker.calls|
    ensures var a := s.broker.calls[i];
            var b, j := KeyOfBinding(a.request.idempotency), RecordKey(a.request);
            && j in s.records && s.records[j].grant.Some? && j == (a.grant.tenant, a.grant.requestId)
            && b in s.bindings && j == (b.0, s.bindings[b].requestId)
  {
    hide BrokerInv, PhaseOk, BindingOk, CallRecorded;
    assert RecordOk(s, RecordKey(s.broker.calls[i].request));
  }

  /** A grant that the kernel has just issued is carried out, at any later time within the grant's and
      the actor's, exactly when the executor can, the constraints are still supported, grant and approval
      still verify, and the ledger's clock has not gone back: nothing else that the kernel wrote down
      stands in the way. */
  lemma IssuedGrantDispatches(s: KernelState, actor: ActorContext, k: RowKey, x: Issue, t: Trial)
    requires KernelReachable(s) && k in s.records && ParsedActor(actor)
    requires s.records[k].phase == Phase.PolicyAuthorized || s.records[k].phase == Phase.Approved
    requires IssueLocked(s, actor, k, x).1.Some?
    ensures var c := IssueLocked(s, actor, k, x).1.value;
            var b := IssueLocked(s, actor, k, x).0.broker;
            && c.grant.Some?
            && (DispatchOnce(b, AuthorityOf(actor, c), t).0.calls != b.calls <==>
                  && t.capable && t.now < actor.expiresAt
                  && c.grant.value.issuedAt <= t.now && t.now < c.grant.value.expiresAt
                  && (forall e | e in AllConstraints(c) :: (e.id, e.version) in t.registry)
                  && OfGrant(c.grant.value) in t.verified
                  && (c.approval.Some? ==> OfApproval(c.approval.value) in t.verified)
                  && Millis(x.w.clock) <= Millis(t.intent.clock))
  {
    hide KernelReachable, IssueLocked, DispatchOnce, MayIssue, OneNoted, GrantSays, TenantTakes,
         BrokerExactly.BoundTogether, BrokerExactly.GrantStands, BrokerExactly.Takes;
    var (v, next) := IssueLocked(s, actor, k, x);
    IssueExactly(s, actor, k, x);
    LockedMeans(s, actor, k, x);
    FreshRecord(s, actor, k, x);
    var c, a := next.value, AuthorityOf(actor, next.value);
    BrokerExactly.CallExactly(v.broker, a, t);
    IssuedStands(s, actor, k, x);
    IssuedRefs(actor, s.records[k], c, x);
    IssuedBinds(s, actor, k, c, x, t.now);
    NothingStored(s, k, c.grant.value);
    NextTakes(s.broker, v.broker, c, x.w, t.intent.clock);
    StandsAgainExactly(c.grant.value, c.request, c.policy, c.approval, x.registry, x.verified, t.registry, t.verified);
  }

  lemma FreshRecord(s: KernelState, actor: ActorContext, k: RowKey, x: Issue)
    requires KernelReachable(s) && k in s.records && ParsedActor(actor)
    requires s.records[k].phase == Phase.PolicyAuthorized || s.records[k].phase == Phase.Approved
    ensures s.records[k].grant.None? && (s.records[k].request.tenant, s.records[k].request.requestId) == k
  {
    hide KernelReachable, BrokerInv, RecordBinds, BindingOk, CallRecorded;
    KernelFacts(s);
    assert RecordOk(s, k);
  }

  lemma IssuedStands(s: KernelState, actor: ActorContext, k: RowKey, x: Issue)
    requires k in s.records && s.records[k].grant.None? && IssueLocked(s, actor, k, x).1.Some?
    ensures var c := IssueLocked(s, actor, k, x).1.value;
            && c.grant.Some?
            && BrokerExactly.GrantStands(c.grant.value, c.request, c.policy, AsList(c.approval), x.registry, x.verified)
            && IdentityValid(actor, c.request, x.trusted, x.now)
  {
    hide IdentityValid, GrantValid, BrokerExactly.GrantStands, BuildGrant, MergedOf, LedgerAppend, ExpiryLimit;
    var c := IssueLocked(s, actor, k, x).1.value;
    BrokerExactly.StandsExactly(c.grant.value, c.request, c.policy, AsList(c.approval), x.registry, x.verified);
  }

  lemma IssuedRefs(actor: ActorContext, was: LifecycleRecord, c: LifecycleRecord, x: Issue)
    requires c == was.(phase := c.phase, grant := c.grant) && c.grant.Some?
    requires GrantSays(c.grant.value, actor, was, x)
    ensures var g := c.grant.value;
            && g.approvalRefs == (match c.approval case None => [] case Some(a) => [Ref(a.approvalId, OfApproval(a))])
            && (forall e :: e in g.constraints <==> e in AllConstraints(c))
            && g.tenant == c.request.tenant && g.requestId == c.request.requestId
  {
    hide InFirstOrder;
    assert AllConstraints(c) == AllConstraints(was);
  }

  lemma IssuedBinds(s: KernelState, actor: ActorContext, k: RowKey, c: LifecycleRecord, x: Issue, now: int)
    requires KernelReachable(s) && k in s.records && c == s.records[k].(phase := c.phase, grant := c.grant)
    requires c.grant.Some? && GrantSays(c.grant.value, actor, s.records[k], x)
    requires IdentityValid(actor, c.request, x.trusted, x.now)
    ensures BrokerExactly.BoundTogether(AuthorityOf(actor, c), now) <==>
              now < actor.expiresAt && c.grant.value.issuedAt <= now && now < c.grant.value.expiresAt
  {
    hide KernelReachable, BrokerInv, PhaseOk, BindingOk, CallRecorded, ListsOnce;
    KernelFacts(s);
    assert RecordOk(s, k);
  }

  lemma NextTakes(b: BrokerState, v: BrokerState, c: LifecycleRecord, w: Writing, clock: int)
    requires OneNoted(b, v, c.request, c.policy, w)
    ensures BrokerExactly.Takes(v, c.request.tenant, clock) <==> Millis(w.clock) <= Millis(clock)
    ensures v.results == b.results && v.consumed == b.consumed
  {
  }

  // ---- What an execution leaves behind ----

  /** The record of a dispatch that called the executor: it ends as the executor answered, exactly when the
      dispatch returns, and stays in its phase otherwise. */
  lemma DispatchTells(s: KernelState, actor: ActorContext, k: RowKey, c: LifecycleRecord, t: Trial)
    requires c.grant.Some? && k in s.records && s.records[k] == c
    requires DispatchRecord(s, actor, k, c, t).0.broker.calls != s.broker.calls
    ensures Ended(s.broker, DispatchRecord(s, actor, k, c, t).0.broker, DispatchRecord(s, actor, k, c, t).1, actor, c,
                  DispatchRecord(s, actor, k, c, t).0.records[k], t)
    ensures DispatchRecord(s, actor, k, c, t).0.records
            == s.records[k := DispatchRecord(s, actor, k, c, t).0.records[k]]
  {
    hide DispatchOnce, BrokerExactly.WrittenFor, BrokerExactly.IsIntent, BrokerExactly.IsOutcome;
    BrokerExactly.DispatchExactly(s.broker, AuthorityOf(actor, c), t);
  }

  predicate Ended(b: BrokerState, v: BrokerState, r: Option<LifecycleRecord>, actor: ActorContext,
                  c: LifecycleRecord, next: LifecycleRecord, t: Trial) {
    && c.grant.Some? && v.calls == b.calls + [AuthorityOf(actor, c)]
    && (r.Some? <==>
          && (t.attempted.Answers? || t.reverts) && t.buildOk
          && actor.issuedAt <= Millis(t.stamp.clock) && Millis(t.stamp.clock) <= actor.expiresAt
          && Millis(t.intent.clock) <= Millis(t.outcome.clock))
    && (r.None? ==> next == c)
    && (r.Some? ==>
          && r.value == next && next == c.(phase := next.phase, outcome := next.outcome)
          && next.phase == (if t.attempted.Answers? then Phase.EffectSucceeded else Phase.EffectIndeterminate)
          && next.outcome.Some? && BrokerExactly.Tells(next.outcome.value, t.attempted)
          && next.outcome.value.outcomeId == t.stamp.outcomeId
          && next.outcome.value.occurredAt == Millis(t.stamp.clock)
          && next.outcome.value.scopeUntil == actor.expiresAt)
  }

  /** A kernel call that reaches the executor calls it once, for the record with its grant, which is one
      just issued if there was none; and the record then says what the executor answered. */
  lemma ExecutionTells(s: KernelState, actor: ActorContext, id: Id, capable: bool, x: Issue, t: Trial)
    requires KernelReachable(s)
    requires ExecuteEffect(s, actor, id, capable, x, t).0.broker.calls != s.broker.calls
    ensures var (v, r) := ExecuteEffect(s, actor, id, capable, x, t);
            var k := (actor.tenant, id);
            && k in s.records && k in v.records && v.records == s.records[k := v.records[k]]
            && v.records[k].grant.Some?
            && var c := s.records[k].(phase := Phase.GrantIssued, grant := v.records[k].grant);
               && (c == s.records[k]
                   || (s.records[k].grant.None? && MayIssue(actor, s.records[k], x)
                       && GrantSays(c.grant.value, actor, s.records[k], x)))
               && Ended(s.broker, v.broker, r, actor, c, v.records[k], t)
  {
    hide KernelReachable, GrantSays, MayIssue, IssueLocked, DispatchRecord, IdentityValid, Ended, BrokerInv,
         RecordBinds, BindingOk, CallRecorded;
    var k := (actor.tenant, id);
    var c := s.records[k];
    LockedMeans(s, actor, k, x);
    var (v, next) := IssueLocked(s, actor, k, x);
    if c.phase == Phase.PolicyAuthorized || c.phase == Phase.Approved {
      FreshRecord(s, actor, k, x);
      DispatchTells(v, actor, k, next.value, t);
      EndedFrom(s.broker, v.broker, DispatchRecord(v, actor, k, next.value, t).0.broker,
                DispatchRecord(v, actor, k, next.value, t).1, actor, next.value,
                DispatchRecord(v, actor, k, next.value, t).0.records[k], t);
    } else {
      DispatchTells(s, actor, k, c, t);
      KeptGrant(s.broker, DispatchRecord(s, actor, k, c, t).0.broker, DispatchRecord(s, actor, k, c, t).1, actor, c,
                DispatchRecord(s, actor, k, c, t).0.records[k], t);
    }
  }

  lemma KeptGrant(b: BrokerState, v: BrokerState, r: Option<LifecycleRecord>, actor: ActorContext,
                  c: LifecycleRecord, next: LifecycleRecord, t: Trial)
    requires Ended(b, v, r, actor, c, next, t)
    ensures next.grant == c.grant
  {
  }

  lemma EndedFrom(b: BrokerState, same: BrokerState, v: BrokerState, r: Option<LifecycleRecord>, actor: ActorContext,
                  c: LifecycleRecord, next: LifecycleRecord, t: Trial)
    requires Ended(same, v, r, actor, c, next, t) && same.calls == b.calls
    ensures Ended(b, v, r, actor, c, next, t) && next.grant == c.grant
  {
  }

  predicate HasEnded(c: LifecycleRecord) {
    c.phase == Phase.EffectSucceeded || c.phase == Phase.EffectIndeterminate
  }

  lemma EndedSubmission(s: KernelState, step: KernelStep, k: RowKey)
    requires k in s.records && step.Submitting?
    ensures k in KernelApply(s, step).records && KernelApply(s, step).records[k] == s.records[k]
  {
    hide IdentityValid, SupportedBy, LedgerAppend, Decided;
  }

  lemma EndedApproval(s: KernelState, step: KernelStep, k: RowKey)
    requires k in s.records && HasEnded(s.records[k]) && step.Approving?
    ensures k in KernelApply(s, step).records && KernelApply(s, step).records[k] == s.records[k]
  {
    hide ApprovalBinds, SupportedBy, LedgerAppend;
  }

  lemma EndedGrant(s: KernelState, step: KernelStep, k: RowKey)
    requires KernelReachable(s) && k in s.records && HasEnded(s.records[k]) && (step.Issuing? || step.Executing?)
    ensures k in KernelApply(s, step).records && KernelApply(s, step).records[k] == s.records[k]
    ensures step.Executing? && (step.actor.tenant, step.id) == k ==> KernelApply(s, step) == s
  {
    if (step.actor.tenant, step.id) == k {
      EndedItself(s, step, k);
    } else {
      EndedBeside(s, step, k);
    }
  }

  lemma EndedItself(s: KernelState, step: KernelStep, k: RowKey)
    requires KernelReachable(s) && k in s.records && HasEnded(s.records[k]) && (step.Issuing? || step.Executing?)
    requires (step.actor.tenant, step.id) == k
    ensures KernelApply(s, step) == s
  {
    hide KernelReachable, DispatchRecord, IdentityValid, BrokerInv, RecordBinds, BindingOk, CallRecorded, BuildGrant,
         MergedOf, GrantValid, LedgerAppend;
    KernelFacts(s);
    assert RecordOk(s, k);
  }

  lemma EndedBeside(s: KernelState, step: KernelStep, k: RowKey)
    requires KernelReachable(s) && k in s.records && (step.Issuing? || step.Executing?)
    requires (step.actor.tenant, step.id) != k
    ensures k in KernelApply(s, step).records && KernelApply(s, step).records[k] == s.records[k]
  {
    hide KernelReachable, GrantSays, MayIssue, DispatchOnce, IssueLocked, IdentityValid;
    var j := (step.actor.tenant, step.id);
    if j in s.records && ParsedActor(step.actor) {
      LockedMeans(s, step.actor, j, step.issue);
    }
  }

  /** An ended record never changes again, and another execution of it returns it and calls nothing. */
  lemma EndedForGood(s: KernelState, step: KernelStep, k: RowKey)
    requires KernelReachable(s) && k in s.records
    requires s.records[k].phase == Phase.EffectSucceeded || s.records[k].phase == Phase.EffectIndeterminate
    ensures k in KernelApply(s, step).records && KernelApply(s, step).records[k] == s.records[k]
    ensures step.Executing? && (step.actor.tenant, step.id) == k ==> KernelApply(s, step) == s
  {
    hide KernelReachable, KernelApply, RecordStep;
    match step
    case Submitting(_, _, _, _, _, _, _, _) => EndedSubmission(s, step, k);
    case Approving(_, _, _, _, _, _, _) => EndedApproval(s, step, k);
    case _ => EndedGrant(s, step, k);
  }
}
