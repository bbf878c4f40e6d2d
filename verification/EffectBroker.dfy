/** The in-process effect broker: intent evidence, then consumption of the grant, then the
    executor, then outcome evidence, with the effect reverted when the outcome cannot be recorded. */
module EffectBroker {
  import opened Records
  import opened EvidenceChain
  import opened EffectStore
  import opened EffectProtocol
  import opened EffectLedger
  import GrantIssue

  type GrantKey = (Id, Id, Digest)
  type BindingKey = (Id, Id)

  datatype Execution = Execution(outcome: Outcome, intent: Event, outcomeEvidence: Event)

  datatype StoredResult = StoredResult(
    idempotency: Idempotency, requestDigest: Digest, policyDigest: Digest, grantDigest: Digest, execution: Execution)

  /** `world` says of each grant the executor has seen whether its effect is active; `stuck` holds
      the grants whose active effect could not be reverted; `calls` lists the executor calls. */
  datatype BrokerState = BrokerState(
    ledger: map<Id, seq<Event>>, consumed: set<GrantKey>, results: map<BindingKey, StoredResult>,
    world: map<Digest, bool>, stuck: set<Digest>, calls: seq<Authority>)

  datatype Attempted = Answers(result: Id) | Fails(applied: bool)

  /** The environment of one dispatch: the time of validation, the supported constraints, the
      records whose proofs verify, the executor's capabilities, its behaviour and its revert, and
      the clocks of the two evidence writes. */
  datatype Trial = Trial(
    now: int, registry: set<GrantIssue.ConstraintKey>, verified: set<Digest>, capable: bool, intent: Writing,
    attempted: Attempted, buildOk: bool, stamp: Stamp, outcome: Writing, reverts: bool)

  function KeyOfGrant(g: Grant): GrantKey { (g.tenant, g.grantId, OfGrant(g)) }

  function KeyOfBinding(i: Idempotency): BindingKey { (i.tenant, i.key) }

  /** The bindings that `_validate_authority` and `validate_grant_binding` demand. */
  predicate BrokerAuthority(a: Authority) {
    && ParsedForTenant(a)
    && a.request.actor == a.actor.actor && a.request.actorDigest == OfActor(a.actor)
    && a.grant.idempotency == a.request.idempotency
    && a.grant.actor == a.request.actor && a.grant.runId == a.request.runId
    && a.grant.requestId == a.request.requestId && a.grant.requestDigest == OfRequest(a.request)
    && a.grant.decisionId == a.policy.decisionId && a.grant.policyDigest == OfPolicy(a.policy)
  }

  /** What a dispatch checks before it looks at its own state. */
  predicate Dispatchable(a: Authority, t: Trial) {
    && BrokerAuthority(a)
    && t.now < a.actor.expiresAt && a.grant.issuedAt <= t.now < a.grant.expiresAt
    && GrantIssue.GrantValid(a.grant, a.request, a.policy, a.approvals, t.registry, t.verified)
    && t.capable
  }

  function IntentDraft(a: Authority, w: Writing): Draft {
    Draft(a.grant.tenant, a.grant.runId, w.envelopeId, PolicyRef(a.policy), IntentPayload(a))
  }

  function OutcomeDraft(a: Authority, o: Outcome, w: Writing): Draft {
    Draft(a.grant.tenant, a.grant.runId, w.envelopeId, PolicyRef(a.policy), OutcomePayload(a, o, false))
  }

  /** An active effect that cannot be recorded is reverted, if the executor can. */
  function Reverted(s: BrokerState, g: Digest, reverts: bool): BrokerState {
    if reverts then s.(world := s.world[g := false]) else s.(stuck := s.stuck + {g})
  }

  /** `dispatch` once intent is recorded and the grant consumed. */
  function Executed(s: BrokerState, a: Authority, t: Trial, intent: Event): (BrokerState, Option<Execution>) {
    var g := OfGrant(a.grant);
    var called := s.(calls := s.calls + [a]);
    match t.attempted
    case Fails(applied) =>
      if !t.reverts then
        (called.(world := s.world[g := applied], stuck := if applied then s.stuck + {g} else s.stuck), None)
      else Recorded(called.(world := s.world[g := false]), a, t, intent, StatusIndeterminate, BROKEN_RESULT)
    case Answers(result) =>
      Recorded(called.(world := s.world[g := true]), a, t, intent, Succeeded, result)
  }

  /** The recording half: build the outcome, append it, store the result. */
  function Recorded(s: BrokerState, a: Authority, t: Trial, intent: Event, status: Status,
                    result: Id): (BrokerState, Option<Execution>) {
    var g := OfGrant(a.grant);
    var undone := if status == Succeeded then Reverted(s, g, t.reverts) else s;
    if !t.buildOk || !ScopeDerivable(a.actor, t.stamp.clock) then (undone, None)
    else
      var o := BuildOutcome(a, intent, status, result, t.stamp);
      var (ledger, evidence) := LedgerAppend(s.ledger, OutcomeDraft(a, o, t.outcome), t.outcome.clock);
      match evidence
      case None => (undone.(ledger := ledger), None)
      case Some(e) =>
        var x := Execution(o, intent, e);
        (s.(ledger := ledger, results := s.results[KeyOfBinding(a.request.idempotency) :=
              StoredResult(a.request.idempotency, OfRequest(a.request), OfPolicy(a.policy), g, x)]), Some(x))
  }

  /** `dispatch` without a durable store. */
  function DispatchOnce(s: BrokerState, a: Authority, t: Trial): (BrokerState, Option<Execution>) {
    var b := KeyOfBinding(a.request.idempotency);
    if !Dispatchable(a, t) then (s, None)
    else if b in s.results then
      var r := s.results[b];
      if r.idempotency == a.request.idempotency && r.requestDigest == OfRequest(a.request)
         && r.policyDigest == OfPolicy(a.policy) && r.grantDigest == OfGrant(a.grant)
      then (s, Some(r.execution)) else (s, None)
    else if KeyOfGrant(a.grant) in s.consumed then (s, None)
    else
      var (ledger, intent) := LedgerAppend(s.ledger, IntentDraft(a, t.intent), t.intent.clock);
      match intent
      case None => (s.(ledger := ledger), None)
      case Some(e) => Executed(s.(ledger := ledger, consumed := s.consumed + {KeyOfGrant(a.grant)}), a, t, e)
  }

  // ---- The invariant ----

  ghost predicate SucceededIn(events: seq<Event>, g: Digest) {
    exists i | 0 <= i < |events| :: OutcomeFor(events[i], g) && events[i].payload.status == Succeeded
  }

  predicate Active(s: BrokerState, g: Digest) { g in s.world && s.world[g] }

  ghost predicate GrantOk(s: BrokerState, grant: Grant) {
    var g, events, used := OfGrant(grant), EventsOf(s.ledger, grant.tenant), KeyOfGrant(grant) in s.consumed;
    && Intents(events, g) == (if used then 1 else 0)
    && Outcomes(events, g) <= Intents(events, g)
    && (Active(s, g) <==> SucceededIn(events, g) || g in s.stuck)
    && (g in s.stuck ==> Outcomes(events, g) == 0 && used)
    && (g in s.world ==> used)
    && (used <==> exists i | 0 <= i < |s.calls| :: s.calls[i].grant == grant)
  }

  ghost predicate BrokerInv(s: BrokerState) {
    && LedgerLinked(s.ledger)
    && (forall grant: Grant :: GrantOk(s, grant))
    && (forall i, j | 0 <= i < j < |s.calls| :: s.calls[i].grant != s.calls[j].grant)
    && (forall i | 0 <= i < |s.calls| :: BrokerAuthority(s.calls[i]))
  }

  const FRESH := BrokerState(map[], {}, map[], map[], {}, [])

  lemma FreshInv()
    ensures BrokerInv(FRESH)
  {
  }

  // ---- Appends ----

  lemma AppendedEvents(ledger: map<Id, seq<Event>>, d: Draft, clock: int, tenant: Id)
    ensures var (next, e) := LedgerAppend(ledger, d, clock);
            EventsOf(next, tenant) ==
            if tenant == d.tenant && e.Some? then EventsOf(ledger, tenant) + [e.value] else EventsOf(ledger, tenant)
    ensures var (next, e) := LedgerAppend(ledger, d, clock); e.Some? ==> e.value.payload == d.payload
  {
    var events := EventsOf(ledger, d.tenant);
    assert events + [] == events;
  }

  lemma SucceededAppended(events: seq<Event>, e: Event, g: Digest)
    ensures SucceededIn(events + [e], g)
            <==> SucceededIn(events, g) || (OutcomeFor(e, g) && e.payload.status == Succeeded)
  {
    if SucceededIn(events, g) {
      var i :| 0 <= i < |events| && OutcomeFor(events[i], g) && events[i].payload.status == Succeeded;
      assert (events + [e])[i] == events[i];
    }
    if OutcomeFor(e, g) && e.payload.status == Succeeded {
      assert (events + [e])[|events|] == e;
    }
  }

  lemma {:induction false} NoOutcomeNoSuccess(events: seq<Event>, g: Digest)
    requires Outcomes(events, g) == 0
    ensures !SucceededIn(events, g)
    decreases |events|
  {
    if events != [] {
      NoOutcomeNoSuccess(events[..|events| - 1], g);
      assert events == events[..|events| - 1] + [events[|events| - 1]];
      SucceededAppended(events[..|events| - 1], events[|events| - 1], g);
    }
  }

  /** An appended event that is not about a grant leaves everything about the grant as it is. */
  lemma UnrelatedAppend(s: BrokerState, d: Draft, clock: int, grant: Grant)
    requires GrantOk(s, grant)
    requires EffectKind(d.payload) ==> d.payload.grantDigest != OfGrant(grant)
    ensures GrantOk(s.(ledger := LedgerAppend(s.ledger, d, clock).0), grant)
  {
    AppendedEvents(s.ledger, d, clock, grant.tenant);
    var e := LedgerAppend(s.ledger, d, clock).1;
    if e.Some? {
      CountAppended(EventsOf(s.ledger, grant.tenant), e.value, OfGrant(grant));
      SucceededAppended(EventsOf(s.ledger, grant.tenant), e.value, OfGrant(grant));
    }
  }

  /** Evidence of other kinds keeps the broker in order. */
  lemma OtherAppendKeeps(s: BrokerState, d: Draft, clock: int)
    requires BrokerInv(s) && !EffectKind(d.payload)
    ensures BrokerInv(s.(ledger := LedgerAppend(s.ledger, d, clock).0))
  {
    hide GrantOk, LedgerLinked;
    LedgerAppendLinked(s.ledger, d, clock);
    forall grant: Grant ensures GrantOk(s.(ledger := LedgerAppend(s.ledger, d, clock).0), grant) {
      UnrelatedAppend(s, d, clock, grant);
    }
  }

  // ---- One dispatch ----

  /** Intent is recorded, the grant consumed, and the executor called. */
  function Called(s: BrokerState, a: Authority, t: Trial): BrokerState {
    s.(ledger := LedgerAppend(s.ledger, IntentDraft(a, t.intent), t.intent.clock).0,
       consumed := s.consumed + {KeyOfGrant(a.grant)}, calls := s.calls + [a])
  }

  lemma CalledKeepsGrant(s: BrokerState, a: Authority, t: Trial, grant: Grant)
    requires GrantOk(s, grant) && BrokerAuthority(a) && KeyOfGrant(a.grant) !in s.consumed && GrantOk(s, a.grant)
    requires LedgerAppend(s.ledger, IntentDraft(a, t.intent), t.intent.clock).1.Some?
    ensures GrantOk(Called(s, a, t), grant)
    ensures Outcomes(EventsOf(Called(s, a, t).ledger, a.grant.tenant), OfGrant(a.grant)) == 0
  {
    var v, d := Called(s, a, t), IntentDraft(a, t.intent);
    AppendedEvents(s.ledger, d, t.intent.clock, grant.tenant);
    AppendedEvents(s.ledger, d, t.intent.clock, a.grant.tenant);
    var e := LedgerAppend(s.ledger, d, t.intent.clock).1.value;
    CountAppended(EventsOf(s.ledger, grant.tenant), e, OfGrant(grant));
    CountAppended(EventsOf(s.ledger, a.grant.tenant), e, OfGrant(a.grant));
    SucceededAppended(EventsOf(s.ledger, grant.tenant), e, OfGrant(grant));
    CallsAppended(s.calls, a, grant);
  }

  lemma CallsAppended(calls: seq<Authority>, a: Authority, grant: Grant)
    ensures (exists i | 0 <= i < |calls + [a]| :: (calls + [a])[i].grant == grant)
            <==> (exists i | 0 <= i < |calls| :: calls[i].grant == grant) || a.grant == grant
  {
    if i :| 0 <= i < |calls| && calls[i].grant == grant {
      assert (calls + [a])[i].grant == grant;
    }
    if a.grant == grant {
      assert (calls + [a])[|calls|].grant == grant;
    }
  }

  lemma CalledKeeps(s: BrokerState, a: Authority, t: Trial)
    requires BrokerInv(s) && BrokerAuthority(a) && KeyOfGrant(a.grant) !in s.consumed
    requires LedgerAppend(s.ledger, IntentDraft(a, t.intent), t.intent.clock).1.Some?
    ensures BrokerInv(Called(s, a, t))
            && Outcomes(EventsOf(Called(s, a, t).ledger, a.grant.tenant), OfGrant(a.grant)) == 0
  {
    hide LedgerLinked, BrokerAuthority, GrantOk, LedgerAppend, Outcomes, IntentDraft;
    LedgerAppendLinked(s.ledger, IntentDraft(a, t.intent), t.intent.clock);
    assert GrantOk(s, a.grant);
    forall grant: Grant ensures GrantOk(Called(s, a, t), grant) { CalledKeepsGrant(s, a, t, grant); }
    CalledKeepsGrant(s, a, t, a.grant);
    UnusedIsUncalled(s, a.grant);
  }

  lemma UnusedIsUncalled(s: BrokerState, grant: Grant)
    requires GrantOk(s, grant) && KeyOfGrant(grant) !in s.consumed
    ensures forall i | 0 <= i < |s.calls| :: s.calls[i].grant != grant
  {
  }

  /** A called grant without an outcome so far, and not stuck. */
  predicate Unsettled(s: BrokerState, grant: Grant) {
    Outcomes(EventsOf(s.ledger, grant.tenant), OfGrant(grant)) == 0 && OfGrant(grant) !in s.stuck
  }

  /** A called dispatch ends without an outcome: its effect is undone, or active and stuck. */
  ghost predicate EndsSilently(s: BrokerState, v: BrokerState, a: Authority, active: bool) {
    var g := OfGrant(a.grant);
    && v.consumed == s.consumed && v.calls == s.calls && LedgerLinked(v.ledger)
    && (forall tenant: Id :: EventsOf(v.ledger, tenant) == EventsOf(s.ledger, tenant))
    && v.world == s.world[g := active] && v.stuck == if active then s.stuck + {g} else s.stuck
  }

  /** Or its outcome is recorded, and the effect is active exactly when it succeeded. */
  ghost predicate EndsRecorded(s: BrokerState, v: BrokerState, a: Authority, status: Status, d: Draft, clock: int) {
    && v.consumed == s.consumed && v.calls == s.calls
    && d.tenant == a.grant.tenant && d.payload.EffectOutcome? && d.payload.grantDigest == OfGrant(a.grant)
    && d.payload.status == status
    && LedgerAppend(s.ledger, d, clock).1.Some? && v.ledger == LedgerAppend(s.ledger, d, clock).0
    && v.world == s.world[OfGrant(a.grant) := status == Succeeded] && v.stuck == s.stuck
  }

  lemma SilentKeepsGrant(s: BrokerState, v: BrokerState, a: Authority, active: bool, grant: Grant)
    requires GrantOk(s, grant) && KeyOfGrant(a.grant) in s.consumed && Unsettled(s, a.grant)
             && EndsSilently(s, v, a, active)
    ensures GrantOk(v, grant)
  {
    hide LedgerLinked;
    if grant == a.grant {
      NoOutcomeNoSuccess(EventsOf(s.ledger, grant.tenant), OfGrant(grant));
    }
  }

  lemma RecordedKeepsOwn(s: BrokerState, v: BrokerState, a: Authority, status: Status, d: Draft, clock: int)
    requires GrantOk(s, a.grant) && KeyOfGrant(a.grant) in s.consumed && Unsettled(s, a.grant)
             && EndsRecorded(s, v, a, status, d, clock)
    ensures GrantOk(v, a.grant)
  {
    hide LedgerLinked, LedgerAppend;
    var g, events := OfGrant(a.grant), EventsOf(s.ledger, a.grant.tenant);
    AppendedEvents(s.ledger, d, clock, a.grant.tenant);
    var e := LedgerAppend(s.ledger, d, clock).1.value;
    CountAppended(events, e, g);
    SucceededAppended(events, e, g);
    NoOutcomeNoSuccess(events, g);
  }

  lemma RecordedKeepsGrant(s: BrokerState, v: BrokerState, a: Authority, status: Status, d: Draft, clock: int,
                           grant: Grant)
    requires GrantOk(s, grant) && KeyOfGrant(a.grant) in s.consumed && Unsettled(s, a.grant)
             && EndsRecorded(s, v, a, status, d, clock)
    ensures GrantOk(v, grant)
  {
    hide LedgerLinked, LedgerAppend;
    if grant == a.grant {
      RecordedKeepsOwn(s, v, a, status, d, clock);
    } else {
      UnrelatedAppend(s, d, clock, grant);
    }
  }

  lemma EndKeeps(s: BrokerState, v: BrokerState, a: Authority, active: bool, status: Status, d: Draft, clock: int)
    requires BrokerInv(s) && KeyOfGrant(a.grant) in s.consumed && Unsettled(s, a.grant)
    requires EndsSilently(s, v, a, active) || EndsRecorded(s, v, a, status, d, clock)
    ensures BrokerInv(v)
  {
    hide GrantOk, LedgerLinked, Unsettled, BrokerAuthority;
    forall grant: Grant ensures GrantOk(v, grant) {
      if EndsSilently(s, v, a, active) {
        SilentKeepsGrant(s, v, a, active, grant);
      } else {
        RecordedKeepsGrant(s, v, a, status, d, clock, grant);
      }
    }
    LedgerAppendLinked(s.ledger, d, clock);
  }

  lemma SilentLedger(ledger: map<Id, seq<Event>>, d: Draft, clock: int)
    requires LedgerLinked(ledger) && LedgerAppend(ledger, d, clock).1.None?
    ensures var next := LedgerAppend(ledger, d, clock).0;
            LedgerLinked(next) && forall tenant: Id :: EventsOf(next, tenant) == EventsOf(ledger, tenant)
  {
    LedgerAppendLinked(ledger, d, clock);
    forall tenant: Id ensures EventsOf(LedgerAppend(ledger, d, clock).0, tenant) == EventsOf(ledger, tenant) {
      AppendedEvents(ledger, d, clock, tenant);
    }
  }

  /** `base` is the called state before the executor touched the world. */
  lemma RecordedEnds(base: BrokerState, a: Authority, t: Trial, intent: Event, status: Status, result: Id)
    requires BrokerInv(base) && KeyOfGrant(a.grant) in base.consumed && Unsettled(base, a.grant)
    ensures BrokerInv(Recorded(base.(world := base.world[OfGrant(a.grant) := status == Succeeded]), a, t, intent,
                               status, result).0)
  {
    hide GrantOk, LedgerLinked, Unsettled, BrokerAuthority, BuildOutcome, ScopeDerivable, BrokerInv, LedgerAppend;
    var g := OfGrant(a.grant);
    var s := base.(world := base.world[g := status == Succeeded]);
    var v := Recorded(s, a, t, intent, status, result).0;
    var active := status == Succeeded && !t.reverts;
    var o := BuildOutcome(a, intent, status, result, t.stamp);
    var d := OutcomeDraft(a, o, t.outcome);
    OutcomeStatus(a, intent, status, result, t.stamp);
    LinkedBroker(base);
    assert base.world[g := status == Succeeded][g := false] == base.world[g := false];
    if LedgerAppend(base.ledger, d, t.outcome.clock).1.None? {
      SilentLedger(base.ledger, d, t.outcome.clock);
    }
    EndKeeps(base, v, a, active, status, d, t.outcome.clock);
  }

  lemma OutcomeStatus(a: Authority, intent: Event, status: Status, result: Id, s: Stamp)
    ensures BuildOutcome(a, intent, status, result, s).status == status
  {
  }

  lemma LinkedBroker(s: BrokerState)
    requires BrokerInv(s)
    ensures LedgerLinked(s.ledger)
  {
  }

  lemma DispatchKeepsInv(s: BrokerState, a: Authority, t: Trial)
    requires BrokerInv(s)
    ensures BrokerInv(DispatchOnce(s, a, t).0)
  {
    hide GrantOk, LedgerLinked, GrantIssue.GrantValid, BrokerAuthority, BrokerInv, LedgerAppend, Recorded;
    var v := DispatchOnce(s, a, t).0;
    var d := IntentDraft(a, t.intent);
    LinkedBroker(s);
    if Dispatchable(a, t) && KeyOfBinding(a.request.idempotency) !in s.results && KeyOfGrant(a.grant) !in s.consumed {
      var x := LedgerAppend(s.ledger, d, t.intent.clock);
      if x.1.None? {
        OtherGrants(s, a, t);
      } else {
        CalledKeeps(s, a, t);
        var base := Called(s, a, t);
        UnusedNotStuck(s, a.grant);
        match t.attempted
        case Answers(result) => RecordedEnds(base, a, t, x.1.value, Succeeded, result);
        case Fails(applied) =>
          if t.reverts {
            RecordedEnds(base, a, t, x.1.value, StatusIndeterminate, BROKEN_RESULT);
          } else {
            LinkedBroker(base);
            EndKeeps(base, v, a, applied, Succeeded, d, 0);
          }
      }
    }
  }

  lemma UnusedNotStuck(s: BrokerState, grant: Grant)
    requires BrokerInv(s) && KeyOfGrant(grant) !in s.consumed
    ensures OfGrant(grant) !in s.stuck
  {
    assert GrantOk(s, grant);
  }

  lemma OtherGrants(s: BrokerState, a: Authority, t: Trial)
    requires BrokerInv(s) && LedgerAppend(s.ledger, IntentDraft(a, t.intent), t.intent.clock).1.None?
    ensures BrokerInv(s.(ledger := LedgerAppend(s.ledger, IntentDraft(a, t.intent), t.intent.clock).0))
  {
    hide LedgerLinked, LedgerAppend;
    SilentLedger(s.ledger, IntentDraft(a, t.intent), t.intent.clock);
    var v := s.(ledger := LedgerAppend(s.ledger, IntentDraft(a, t.intent), t.intent.clock).0);
    forall grant: Grant ensures GrantOk(v, grant) { assert GrantOk(s, grant); }
  }

  // ---- Order, and how often ----

  lemma OneAppend(ledger: map<Id, seq<Event>>, d: Draft, clock: int)
    ensures var x := LedgerAppend(ledger, d, clock);
            EventsOf(x.0, d.tenant) == EventsOf(ledger, d.tenant) + (match x.1 case None => [] case Some(e) => [e])
            && (x.1.Some? ==> x.1.value.payload == d.payload)
  {
  }

  lemma RecordedOrder(s: BrokerState, a: Authority, t: Trial, intent: Event, status: Status, result: Id)
    ensures var v, g := Recorded(s, a, t, intent, status, result).0, OfGrant(a.grant);
            var events, more := EventsOf(s.ledger, a.grant.tenant), EventsOf(v.ledger, a.grant.tenant);
            && v.calls == s.calls && v.consumed == s.consumed
            && (more == events || (|more| == |events| + 1 && more[..|events|] == events
                                   && OutcomeFor(more[|events|], g)))
  {
    hide BuildOutcome, ScopeDerivable, LedgerAppend, IntentPayload;
    OneAppend(s.ledger, OutcomeDraft(a, BuildOutcome(a, intent, status, result, t.stamp), t.outcome), t.outcome.clock);
  }

  /** One dispatch calls the executor at most once.  When it does, the intent is in the ledger and
      the grant was unconsumed and is consumed; the outcome, if any, comes after the intent. */
  lemma DispatchOrder(s: BrokerState, a: Authority, t: Trial)
    requires DispatchOnce(s, a, t).0.calls != s.calls
    ensures var v, g := DispatchOnce(s, a, t).0, OfGrant(a.grant);
            var events, more := EventsOf(s.ledger, a.grant.tenant), EventsOf(v.ledger, a.grant.tenant);
            && v.calls == s.calls + [a] && Dispatchable(a, t)
            && KeyOfGrant(a.grant) !in s.consumed && v.consumed == s.consumed + {KeyOfGrant(a.grant)}
            && |events| < |more| <= |events| + 2 && more[..|events|] == events
            && IntentFor(more[|events|], g) && (|more| == |events| + 2 ==> OutcomeFor(more[|events| + 1], g))
  {
    hide BrokerAuthority, GrantIssue.GrantValid, Recorded, LedgerAppend;
    var d := IntentDraft(a, t.intent);
    OneAppend(s.ledger, d, t.intent.clock);
    var called := Called(s, a, t);
    var x := LedgerAppend(s.ledger, d, t.intent.clock);
    match t.attempted
    case Answers(result) => RecordedOrder(called.(world := s.world[OfGrant(a.grant) := true]), a, t, x.1.value,
                                          Succeeded, result);
    case Fails(applied) => RecordedOrder(called.(world := s.world[OfGrant(a.grant) := false]), a, t, x.1.value,
                                         StatusIndeterminate, BROKEN_RESULT);
  }

  /** Exactly when a dispatch calls the executor.  The idempotency key guards it only through a
      stored result: after a failed dispatch the broker alone would let the same key through with
      another grant. */
  lemma CallsExactly(s: BrokerState, a: Authority, t: Trial)
    ensures DispatchOnce(s, a, t).0.calls != s.calls <==>
              && Dispatchable(a, t)
              && KeyOfBinding(a.request.idempotency) !in s.results
              && KeyOfGrant(a.grant) !in s.consumed
              && LedgerAppend(s.ledger, IntentDraft(a, t.intent), t.intent.clock).1.Some?
  {
    hide BrokerAuthority, GrantIssue.GrantValid, Recorded, LedgerAppend;
    var x := LedgerAppend(s.ledger, IntentDraft(a, t.intent), t.intent.clock);
    if x.1.Some? {
      var called := Called(s, a, t);
      RecordedCalls(called.(world := s.world[OfGrant(a.grant) := true]), a, t, x.1.value);
      RecordedCalls(called.(world := s.world[OfGrant(a.grant) := false]), a, t, x.1.value);
    }
  }

  lemma RecordedCalls(s: BrokerState, a: Authority, t: Trial, intent: Event)
    ensures forall status, result :: Recorded(s, a, t, intent, status, result).0.calls == s.calls
  {
    forall status, result ensures Recorded(s, a, t, intent, status, result).0.calls == s.calls {
      RecordedOrder(s, a, t, intent, status, result);
    }
  }

  /** The broker object; `world`, `stuck` and `calls` are what the executor saw. */
  class InMemoryEffectBroker {
    const ledger: InMemoryEvidenceLedger
    var consumedGrants: set<GrantKey>
    var results: map<BindingKey, StoredResult>
    ghost var world: map<Digest, bool>
    ghost var stuck: set<Digest>
    ghost var calls: seq<Authority>

    ghost function State(): BrokerState
      reads this, ledger
    {
      BrokerState(ledger.byTenant, consumedGrants, results, world, stuck, calls)
    }

    constructor (ledger: InMemoryEvidenceLedger)
      ensures this.ledger == ledger
      ensures State() == FRESH.(ledger := ledger.byTenant)
    {
      this.ledger := ledger;
      consumedGrants, results := {}, map[];
      world, stuck, calls := map[], {}, [];
    }

    /** `_revert_synthetic`. */
    method Revert(a: Authority, reverts: bool)
      modifies this
      ensures State() == Reverted(old(State()), OfGrant(a.grant), reverts)
    {
      if reverts {
        world := world[OfGrant(a.grant) := false];
      } else {
        stuck := stuck + {OfGrant(a.grant)};
      }
    }

    method RecordOutcome(a: Authority, t: Trial, intent: Event, status: Status, result: Id)
        returns (r: Option<Execution>)
      modifies this, ledger
      ensures (State(), r) == Recorded(old(State()), a, t, intent, status, result)
    {
      if !t.buildOk || !ScopeDerivable(a.actor, t.stamp.clock) {
        if status == Succeeded {
          Revert(a, t.reverts);
        }
        return None;
      }
      var o := BuildOutcome(a, intent, status, result, t.stamp);
      var e := ledger.Append(OutcomeDraft(a, o, t.outcome), t.outcome.clock);
      if e.None? {
        if status == Succeeded {
          Revert(a, t.reverts);
        }
        return None;
      }
      var x := Execution(o, intent, e.value);
      results := results[KeyOfBinding(a.request.idempotency) :=
                         StoredResult(a.request.idempotency, OfRequest(a.request), OfPolicy(a.policy),
                                      OfGrant(a.grant), x)];
      r := Some(x);
    }

    method DispatchEffect(a: Authority, t: Trial) returns (r: Option<Execution>)
      modifies this, ledger
      ensures (State(), r) == DispatchOnce(old(State()), a, t)
    {
      hide BrokerAuthority, GrantIssue.GrantValid, LedgerAppend, Recorded, BuildOutcome;
      if !BrokerAuthority(a) || a.actor.expiresAt <= t.now || t.now < a.grant.issuedAt || a.grant.expiresAt <= t.now {
        return None;
      }
      var valid := GrantIssue.ValidateGrantBinding(a.grant, a.request, a.policy, a.approvals, t.registry, t.verified);
      if !valid || !t.capable {
        return None;
      }
      var key := KeyOfBinding(a.request.idempotency);
      if key in results {
        var stored := results[key];
        if stored.idempotency == a.request.idempotency && stored.requestDigest == OfRequest(a.request)
           && stored.policyDigest == OfPolicy(a.policy) && stored.grantDigest == OfGrant(a.grant) {
          return Some(stored.execution);
        }
        return None;
      }
      if KeyOfGrant(a.grant) in consumedGrants {
        return None;
      }
      var intent := ledger.Append(IntentDraft(a, t.intent), t.intent.clock);
      if intent.None? {
        return None;
      }
      consumedGrants := consumedGrants + {KeyOfGrant(a.grant)};
      calls := calls + [a];
      match t.attempted {
        case Answers(result) =>
          world := world[OfGrant(a.grant) := true];
          r := RecordOutcome(a, t, intent.value, Succeeded, result);
        case Fails(applied) =>
          if !t.reverts {
            world := world[OfGrant(a.grant) := applied];
            stuck := if applied then stuck + {OfGrant(a.grant)} else stuck;
            return None;
          }
          world := world[OfGrant(a.grant) := false];
          r := RecordOutcome(a, t, intent.value, StatusIndeterminate, BROKEN_RESULT);
      }
    }
  }
}
