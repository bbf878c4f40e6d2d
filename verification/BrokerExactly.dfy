/** What one dispatch of the in-process broker does and returns, field by field, and that it returns the
    same for ever after. */
module BrokerExactly {
  import opened Records
  import opened EvidenceChain
  import opened EffectStore
  import opened EffectProtocol
  import opened EffectLedger
  import opened EffectBroker
  import GrantIssue
  import opened BrokerRuns

  // ---- When the executor is called ----

  /** All inputs are of one tenant, the request is the actor's own, and the grant is for it and its
      decision, in both their times. */
  predicate BoundTogether(a: Authority, now: int) {
    var tenant, r, g := a.actor.tenant, a.request, a.grant;
    && r.tenant == tenant && r.idempotency.tenant == tenant && a.policy.tenant == tenant && g.tenant == tenant
    && (forall p | p in a.approvals :: p.tenant == tenant)
    && r.actor == a.actor.actor && r.actorDigest == OfActor(a.actor)
    && g.actor == r.actor && g.runId == r.runId && g.idempotency == r.idempotency
    && g.requestId == r.requestId && g.requestDigest == OfRequest(r)
    && g.decisionId == a.policy.decisionId && g.policyDigest == OfPolicy(a.policy)
    && now < a.actor.expiresAt && g.issuedAt <= now && now < g.expiresAt
  }

  /** No key is listed twice. */
  predicate KeysOnce(cs: seq<Constraint>) {
    forall i, j | 0 <= i < j < |cs| :: (cs[i].id, cs[i].version) != (cs[j].id, cs[j].version)
  }

  predicate Known(cs: seq<Constraint>, registry: set<(Id, Id)>) { forall c | c in cs :: (c.id, c.version) in registry }

  /** An approval that the grant may refer to: signed, approving, duties done, for this request and
      decision, in its time for all of the grant's, with its constraints in the grant. */
  predicate Upholds(a: Approval, g: Grant, r: Request, p: Policy, registry: set<(Id, Id)>, verified: set<Digest>) {
    && OfApproval(a) in verified && a.approved && (a.dutiesRequired ==> a.dutiesSatisfied)
    && a.tenant == r.tenant && a.requestId == r.requestId && a.requestDigest == OfRequest(r)
    && a.decisionId == p.decisionId && a.policyDigest == OfPolicy(p)
    && a.issuedAt <= g.issuedAt && g.issuedAt <= a.expiresAt && g.expiresAt <= a.expiresAt
    && KeysOnce(a.constraints) && Known(a.constraints, registry)
    && (forall c | c in a.constraints :: c in g.constraints)
  }

  /** A signed grant for just this request and decision, which lets effects happen, with the decision's
      constraints, and with the approvals it names when one is required. */
  predicate GrantStands(g: Grant, r: Request, p: Policy, approvals: seq<Approval>, registry: set<(Id, Id)>,
                        verified: set<Digest>) {
    && OfGrant(g) in verified
    && p.tenant == r.tenant && p.requestId == r.requestId && p.requestDigest == OfRequest(r)
    && g.tenant == r.tenant && g.actor == r.actor && g.runId == r.runId && g.requestId == r.requestId
    && g.requestDigest == OfRequest(r) && g.toolId == r.toolId && g.toolVersion == r.toolVersion
    && g.decisionId == p.decisionId && g.policyDigest == OfPolicy(p)
    && (p.decision == Authorize || (p.decision == RequireApproval && g.approvalRefs != []))
    && p.isolation != "no_effect" && g.isolation == p.isolation
    && r.requestedAt <= p.decidedAt && p.decidedAt <= g.issuedAt
    && KeysOnce(g.constraints) && KeysOnce(p.constraints) && Known(g.constraints, registry)
    && (forall c | c in p.constraints :: c in g.constraints)
    && (forall i, j | 0 <= i < j < |approvals| :: approvals[i].approvalId != approvals[j].approvalId)
    && forall ref | ref in g.approvalRefs ::
         exists a | a in approvals :: Ref(a.approvalId, OfApproval(a)) == ref && Upholds(a, g, r, p, registry, verified)
  }

  lemma StandsExactly(g: Grant, r: Request, p: Policy, approvals: seq<Approval>, registry: set<(Id, Id)>,
                      verified: set<Digest>)
    ensures GrantStands(g, r, p, approvals, registry, verified)
            <==> GrantIssue.GrantValid(g, r, p, approvals, registry, verified)
  {
    hide GrantIssue.ApprovalSupports, Upholds;
    forall a: Approval, ref: Ref | a.approvalId == ref.id && GrantIssue.PolicyBinds(p, r)
      ensures GrantIssue.ApprovalSupports(a, ref, g, p, r, registry, verified)
              <==> Ref(a.approvalId, OfApproval(a)) == ref && Upholds(a, g, r, p, registry, verified)
    {
      UpholdsExactly(a, ref, g, r, p, registry, verified);
    }
  }

  lemma UpholdsExactly(a: Approval, ref: Ref, g: Grant, r: Request, p: Policy, registry: set<(Id, Id)>,
                       verified: set<Digest>)
    requires a.approvalId == ref.id && GrantIssue.PolicyBinds(p, r)
    ensures GrantIssue.ApprovalSupports(a, ref, g, p, r, registry, verified)
            <==> Ref(a.approvalId, OfApproval(a)) == ref && Upholds(a, g, r, p, registry, verified)
  {
  }

  /** The tenant's ledger is empty or its last event is not later than the clock. */
  predicate Takes(s: BrokerState, tenant: Id, clock: int) {
    var events := EventsOf(s.ledger, tenant);
    events == [] || events[|events| - 1].recordedAt <= clock - clock % 1000
  }

  lemma DispatchableExactly(a: Authority, t: Trial)
    ensures Dispatchable(a, t) <==>
              && BoundTogether(a, t.now) && t.capable
              && GrantStands(a.grant, a.request, a.policy, a.approvals, t.registry, t.verified)
  {
    hide GrantIssue.GrantValid, GrantStands;
    StandsExactly(a.grant, a.request, a.policy, a.approvals, t.registry, t.verified);
  }

  /** The executor is called exactly when the inputs belong together, the grant is valid, the executor
      can, nothing is stored under the idempotency key, the grant is unconsumed and the ledger takes
      the clock. */
  lemma CallExactly(s: BrokerState, a: Authority, t: Trial)
    ensures DispatchOnce(s, a, t).0.calls != s.calls <==>
              && BoundTogether(a, t.now) && t.capable
              && GrantStands(a.grant, a.request, a.policy, a.approvals, t.registry, t.verified)
              && (a.request.idempotency.tenant, a.request.idempotency.key) !in s.results
              && (a.grant.tenant, a.grant.grantId, OfGrant(a.grant)) !in s.consumed
              && Takes(s, a.grant.tenant, t.intent.clock)
  {
    hide GrantStands, BoundTogether, DispatchOnce, Dispatchable, LedgerAppend, IntentPayload;
    CallsExactly(s, a, t);
    DispatchableExactly(a, t);
    TakesClock(s.ledger, IntentDraft(a, t.intent), t.intent.clock);
    assert KeyOfBinding(a.request.idempotency) == (a.request.idempotency.tenant, a.request.idempotency.key);
    assert KeyOfGrant(a.grant) == (a.grant.tenant, a.grant.grantId, OfGrant(a.grant));
  }

  // ---- What it returns ----

  /** The outcome says what the executor answered, or that it broke and was undone. */
  predicate Tells(o: Outcome, attempted: Attempted) {
    match attempted
    case Answers(result) => o.status == Succeeded && o.result == result
    case Fails(_) => o.status == StatusIndeterminate && o.result == "executor_result_indeterminate"
  }

  /** The event of a write: in the grant's run, under the policy, at this time. */
  predicate WrittenFor(e: Event, a: Authority, w: Writing) {
    && e.tenant == a.grant.tenant && e.run == a.grant.runId && e.envelopeId == w.envelopeId
    && e.recordedAt == w.clock - w.clock % 1000 && e.policyRef == Ref(a.policy.decisionId, OfPolicy(a.policy))
  }

  predicate IsIntent(e: Event, a: Authority) {
    e.payload == EffectIntent(a.actor.actor, OfRequest(a.request), OfPolicy(a.policy), OfGrant(a.grant),
                              a.request.effectClasses, a.grant.isolation)
  }

  predicate IsOutcome(e: Event, a: Authority, o: Outcome) {
    e.payload == EffectOutcome(a.actor.actor, OfRequest(a.request), OfGrant(a.grant), OfOutcome(o), o.status, false)
  }

  /** A dispatch that calls the executor appends its intent first.  It returns exactly when nothing
      goes wrong afterwards: then it has appended the outcome too, and stored and returned an execution
      that says what the executor answered. */
  lemma DispatchExactly(s: BrokerState, a: Authority, t: Trial)
    requires DispatchOnce(s, a, t).0.calls != s.calls
    ensures var (v, r) := DispatchOnce(s, a, t);
            var key := (a.request.idempotency.tenant, a.request.idempotency.key);
            var events, more := EventsOf(s.ledger, a.grant.tenant), EventsOf(v.ledger, a.grant.tenant);
            var n := |events|;
            && n < |more| && more[..n] == events && WrittenFor(more[n], a, t.intent) && IsIntent(more[n], a)
            && v.calls == s.calls + [a]
            && v.consumed == s.consumed + {(a.grant.tenant, a.grant.grantId, OfGrant(a.grant))}
            && (r.Some? <==>
                  && (t.attempted.Answers? || t.reverts) && t.buildOk
                  && a.actor.issuedAt <= t.stamp.clock - t.stamp.clock % 1000
                  && t.stamp.clock - t.stamp.clock % 1000 <= a.actor.expiresAt
                  && t.intent.clock - t.intent.clock % 1000 <= t.outcome.clock - t.outcome.clock % 1000)
            && (r.None? ==> |more| == n + 1 && v.results == s.results)
            && (r.Some? ==>
                  var x := r.value;
                  && |more| == n + 2 && x.intent == more[n] && x.outcomeEvidence == more[n + 1]
                  && WrittenFor(more[n + 1], a, t.outcome) && IsOutcome(more[n + 1], a, x.outcome)
                  && Tells(x.outcome, t.attempted) && OutcomeOf(x.outcome, a, more[n], t.stamp)
                  && v.results == s.results[key := StoredResult(a.request.idempotency, OfRequest(a.request),
                                                                OfPolicy(a.policy), OfGrant(a.grant), x)])
  {
    hide Dispatchable, LedgerAppend, Recorded, IntentPayload;
    CallsExactly(s, a, t);
    AppendExactly(s.ledger, IntentDraft(a, t.intent), t.intent.clock);
    var x := LedgerAppend(s.ledger, IntentDraft(a, t.intent), t.intent.clock);
    IntentSays(a, t.intent, x.1.value);
    var called := Called(s, a, t);
    match t.attempted
    case Answers(result) =>
      RecordExactly(called.(world := s.world[OfGrant(a.grant) := true]), a, t, x.1.value, Succeeded, result);
    case Fails(_) =>
      RecordExactly(called.(world := s.world[OfGrant(a.grant) := false]), a, t, x.1.value, StatusIndeterminate,
                    BROKEN_RESULT);
  }

  lemma AppendExactly(ledger: map<Id, seq<Event>>, d: Draft, clock: int)
    ensures var (next, x) := LedgerAppend(ledger, d, clock);
            var events := EventsOf(ledger, d.tenant);
            && (x.Some? <==> events == [] || events[|events| - 1].recordedAt <= clock - clock % 1000)
            && EventsOf(next, d.tenant) == events + (match x case None => [] case Some(e) => [e])
            && (x.Some? ==>
                  var e := x.value;
                  && e.tenant == d.tenant && e.run == d.run && e.envelopeId == d.envelopeId
                  && e.policyRef == d.policyRef
                  && e.payload == d.payload && e.recordedAt == clock - clock % 1000)
  {
  }

  lemma IntentSays(a: Authority, w: Writing, e: Event)
    requires e.payload == IntentDraft(a, w).payload
    ensures IsIntent(e, a)
  {
  }

  /** The recording half. */
  lemma RecordExactly(s: BrokerState, a: Authority, t: Trial, intent: Event, status: Status, result: Id)
    requires var events := EventsOf(s.ledger, a.grant.tenant);
             events != [] && events[|events| - 1].recordedAt == t.intent.clock - t.intent.clock % 1000
    ensures var (v, r) := Recorded(s, a, t, intent, status, result);
            var key := (a.request.idempotency.tenant, a.request.idempotency.key);
            var events, more := EventsOf(s.ledger, a.grant.tenant), EventsOf(v.ledger, a.grant.tenant);
            && v.calls == s.calls && v.consumed == s.consumed
            && (r.Some? <==>
                  && t.buildOk && a.actor.issuedAt <= t.stamp.clock - t.stamp.clock % 1000
                  && t.stamp.clock - t.stamp.clock % 1000 <= a.actor.expiresAt
                  && t.intent.clock - t.intent.clock % 1000 <= t.outcome.clock - t.outcome.clock % 1000)
            && (r.None? ==> more == events && v.results == s.results)
            && (r.Some? ==>
                  var x := r.value;
                  && more == events + [x.outcomeEvidence] && x.intent == intent
                  && WrittenFor(x.outcomeEvidence, a, t.outcome) && IsOutcome(x.outcomeEvidence, a, x.outcome)
                  && x.outcome.status == status && x.outcome.result == result
                  && OutcomeOf(x.outcome, a, intent, t.stamp)
                  && v.results == s.results[key := StoredResult(a.request.idempotency, OfRequest(a.request),
                                                                OfPolicy(a.policy), OfGrant(a.grant), x)])
  {
    hide LedgerAppend, BuildOutcome, OutcomeOf, ScopeDerivable;
    var o := BuildOutcome(a, intent, status, result, t.stamp);
    BuiltSays(a, intent, status, result, t.stamp);
    AppendExactly(s.ledger, OutcomeDraft(a, o, t.outcome), t.outcome.clock);
    var events := EventsOf(s.ledger, a.grant.tenant);
    assert events + [] == events;
    assert KeyOfBinding(a.request.idempotency) == (a.request.idempotency.tenant, a.request.idempotency.key);
    OutcomeSays(a, o, t.outcome);
    ScopeExactly(a.actor, t.stamp.clock);
    var e := LedgerAppend(s.ledger, OutcomeDraft(a, o, t.outcome), t.outcome.clock).1;
    assert e.Some? <==> t.intent.clock - t.intent.clock % 1000 <= t.outcome.clock - t.outcome.clock % 1000;
    assert Recorded(s, a, t, intent, status, result).1.Some?
           <==> t.buildOk && ScopeDerivable(a.actor, t.stamp.clock) && e.Some?;
  }

  lemma OutcomeSays(a: Authority, o: Outcome, w: Writing)
    ensures var d := OutcomeDraft(a, o, w);
            && d.tenant == a.grant.tenant && d.run == a.grant.runId && d.envelopeId == w.envelopeId
            && d.policyRef == Ref(a.policy.decisionId, OfPolicy(a.policy))
            && d.payload == EffectOutcome(a.actor.actor, OfRequest(a.request), OfGrant(a.grant), OfOutcome(o),
                                          o.status, false)
  {
  }

  // ---- Replays ----

  /** A dispatch under a key that has a stored result returns that very execution exactly when it brings
      the same request, policy and grant, and changes nothing in any case. */
  lemma ReplayExactly(s: BrokerState, a: Authority, t: Trial)
    requires (a.request.idempotency.tenant, a.request.idempotency.key) in s.results
    ensures var stored := s.results[(a.request.idempotency.tenant, a.request.idempotency.key)];
            && DispatchOnce(s, a, t).0 == s
            && (DispatchOnce(s, a, t).1.Some? <==>
                  && BoundTogether(a, t.now) && t.capable
                  && GrantStands(a.grant, a.request, a.policy, a.approvals, t.registry, t.verified)
                  && stored.idempotency == a.request.idempotency && stored.requestDigest == OfRequest(a.request)
                  && stored.policyDigest == OfPolicy(a.policy) && stored.grantDigest == OfGrant(a.grant))
            && (DispatchOnce(s, a, t).1.Some? ==> DispatchOnce(s, a, t).1.value == stored.execution)
  {
    hide GrantStands, BoundTogether, Dispatchable, LedgerAppend, Executed;
    DispatchableExactly(a, t);
    assert KeyOfBinding(a.request.idempotency) == (a.request.idempotency.tenant, a.request.idempotency.key);
  }

  lemma ResultsStay(s: BrokerState, x: Presented, b: BindingKey)
    requires b in s.results
    ensures var v := DispatchOnce(s, x.auth, x.trial).0; b in v.results && v.results[b] == s.results[b]
  {
    hide GrantIssue.GrantValid, Dispatchable, LedgerAppend, DispatchOnce;
    if DispatchOnce(s, x.auth, x.trial).0.calls != s.calls {
      CallExactly(s, x.auth, x.trial);
      DispatchExactly(s, x.auth, x.trial);
    } else {
      NoCallNoResult(s, x.auth, x.trial);
    }
  }

  lemma NoCallNoResult(s: BrokerState, a: Authority, t: Trial)
    requires DispatchOnce(s, a, t).0.calls == s.calls
    ensures DispatchOnce(s, a, t).0.results == s.results
  {
    hide BrokerAuthority, GrantIssue.GrantValid, Recorded, LedgerAppend;
    CallsExactly(s, a, t);
  }

  /** The broker after more dispatches. */
  function BrokerFrom(s: BrokerState, attempts: seq<Presented>): BrokerState
    decreases |attempts|
  {
    if attempts == [] then s
    else
      var last := attempts[|attempts| - 1];
      DispatchOnce(BrokerFrom(s, attempts[..|attempts| - 1]), last.auth, last.trial).0
  }

  lemma {:induction false} ResultsStayAlong(s: BrokerState, attempts: seq<Presented>, b: BindingKey)
    requires b in s.results
    ensures b in BrokerFrom(s, attempts).results && BrokerFrom(s, attempts).results[b] == s.results[b]
    decreases |attempts|
  {
    if attempts != [] {
      hide DispatchOnce;
      ResultsStayAlong(s, attempts[..|attempts| - 1], b);
      ResultsStay(BrokerFrom(s, attempts[..|attempts| - 1]), attempts[|attempts| - 1], b);
    }
  }

  /** Once a dispatch has called the executor and returned, every later dispatch of the same request,
      policy and grant that is valid at its time returns the same execution and calls nothing. */
  lemma DispatchedForGood(s: BrokerState, a: Authority, t: Trial, between: seq<Presented>, u: Trial)
    requires DispatchOnce(s, a, t).0.calls != s.calls && DispatchOnce(s, a, t).1.Some?
    requires BoundTogether(a, u.now) && u.capable
             && GrantStands(a.grant, a.request, a.policy, a.approvals, u.registry, u.verified)
    ensures var v := BrokerFrom(DispatchOnce(s, a, t).0, between);
            DispatchOnce(v, a, u) == (v, DispatchOnce(s, a, t).1)
  {
    hide GrantStands, BoundTogether, DispatchOnce, Tells, OutcomeOf, WrittenFor, IsIntent, IsOutcome;
    DispatchExactly(s, a, t);
    var key := (a.request.idempotency.tenant, a.request.idempotency.key);
    ResultsStayAlong(DispatchOnce(s, a, t).0, between, key);
    ReplayExactly(BrokerFrom(DispatchOnce(s, a, t).0, between), a, u);
  }
}
