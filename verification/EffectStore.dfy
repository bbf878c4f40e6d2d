/** The durable authority store of governed effects: its rows, its transactions, and the
    compare-and-set statements that the transactions end in.

    A transaction that raises leaves the database as it was.  `Reply` carries the database after
    the call and the value returned, `None` standing for a raised exception. */
module EffectStore {
  import opened Records
  import opened EvidenceChain

  datatype EffectState = Prepared | Executing | Completed | Failed | Indeterminate

  datatype Row = Row(
    auth: Authority, binding: Digest, state: EffectState, version: nat, intent: Event,
    outcome: Option<Outcome>, outcomeEvent: Option<Event>, attempt: Id, generation: nat,
    leaseExpires: int, lastRenewed: int)

  /** Tenant and run; tenant and request. */
  type RunKey = (Id, Id)
  type RowKey = (Id, Id)

  datatype EffectDb = EffectDb(runs: map<RunKey, RunLog>, effects: map<RowKey, Row>)

  datatype Reply<+T> = Reply(db: EffectDb, value: Option<T>)

  datatype Preparation = Preparation(row: Row, created: bool)

  function KeyOf(a: Authority): RowKey { (a.actor.tenant, a.request.requestId) }

  predicate Live(s: EffectState) { s == Prepared || s == Executing }

  function IntentPayload(a: Authority): Payload {
    EffectIntent(a.actor.actor, OfRequest(a.request), OfPolicy(a.policy), OfGrant(a.grant),
                 a.request.effectClasses, a.grant.isolation)
  }

  function OutcomePayload(a: Authority, o: Outcome, recovery: bool): Payload {
    EffectOutcome(a.actor.actor, OfRequest(a.request), OfGrant(a.grant), OfOutcome(o), o.status, recovery)
  }

  // ---- Validation of what is read back ----

  /** The tenant checks that parsing any set of inputs makes. */
  predicate ParsedForTenant(a: Authority) {
    && a.request.tenant == a.actor.tenant
    && a.request.idempotency.tenant == a.actor.tenant
    && a.policy.tenant == a.actor.tenant
    && a.grant.tenant == a.actor.tenant
    && a.grant.idempotency.tenant == a.actor.tenant
    && forall p | p in a.approvals :: p.tenant == a.actor.tenant
  }

  predicate ApprovalBindsStored(p: Approval, a: Authority) {
    && p.requestId == a.request.requestId
    && p.requestDigest == OfRequest(a.request)
    && p.decisionId == a.policy.decisionId
    && p.policyDigest == OfPolicy(a.policy)
    && p.approved && p.dutiesSatisfied
    && p.constraints == a.policy.constraints
  }

  /** Decision, approvals in order, grant: issue times never go back, and nothing had expired
      when the grant was issued. */
  predicate Chronological(a: Authority) {
    && (forall i | 0 <= i < |a.approvals| ::
          && a.policy.decidedAt <= a.approvals[i].issuedAt <= a.grant.issuedAt
          && a.grant.issuedAt <= a.approvals[i].expiresAt)
    && (forall i, j | 0 <= i < j < |a.approvals| :: a.approvals[i].issuedAt <= a.approvals[j].issuedAt)
    && a.policy.decidedAt <= a.grant.issuedAt <= a.grant.expiresAt
  }

  predicate StoredInputsValid(a: Authority) {
    && ParsedForTenant(a)
    && a.request.actorDigest == OfActor(a.actor)
    && a.request.actor == a.actor.actor
    && a.policy.requestId == a.request.requestId
    && a.policy.requestDigest == OfRequest(a.request)
    && a.policy.decision == RequireApproval
    && a.policy.constraints == a.grant.constraints
    && a.policy.isolation == a.grant.isolation
    && a.grant.toolId == a.request.toolId && a.grant.toolVersion == a.request.toolVersion
    && (forall p | p in a.approvals :: ApprovalBindsStored(p, a))
    && a.grant.requestId == a.request.requestId
    && a.grant.requestDigest == OfRequest(a.request)
    && a.grant.decisionId == a.policy.decisionId
    && a.grant.policyDigest == OfPolicy(a.policy)
    && a.grant.approvalRefs == ApprovalRefs(a.approvals)
    && a.grant.idempotency == a.request.idempotency
    && a.grant.actor == a.actor.actor
    && a.grant.runId == a.request.runId
    && Chronological(a)
  }

  predicate OutcomeBinds(a: Authority, intent: Event, o: Outcome) {
    && o.requestRef == RequestRef(a.request)
    && o.policyRef == PolicyRef(a.policy)
    && o.intentDigest == OfEvent(intent)
    && o.reviewerRefs == ApprovalRefs(a.approvals)
    && o.scopeActor == OfActor(a.actor)
    && o.provenance == OfProvenance(OfGrant(a.grant), OfEvent(intent), o.result)
    && o.idempotency == a.request.idempotency
    && o.runId == a.request.runId
  }

  predicate OutcomeEventBinds(a: Authority, o: Outcome, e: Event) {
    && e.run == a.request.runId
    && (e.payload == OutcomePayload(a, o, false) || e.payload == OutcomePayload(a, o, true))
  }

  /** What `_row` demands of a row before it hands it out. */
  predicate Readable(row: Row) {
    && StoredInputsValid(row.auth)
    && row.intent.run == row.auth.request.runId && row.intent.payload == IntentPayload(row.auth)
    && 1 <= row.version && row.binding == BindingDigest(row.auth)
    && row.attempt != "" && 1 <= row.generation
    && (Live(row.state) ==> row.outcome.None? && row.outcomeEvent.None?)
    && (!Live(row.state) ==>
          && row.outcome.Some? && row.outcomeEvent.Some?
          && OutcomeBinds(row.auth, row.intent, row.outcome.value)
          && OutcomeEventBinds(row.auth, row.outcome.value, row.outcomeEvent.value)
          && (row.outcome.value.status == Succeeded <==> row.state == Completed))
  }

  // ---- Reads ----

  /** `effect_by_request`, scoped to the actor. */
  function RowByRequest(db: EffectDb, actor: ActorContext, requestId: Id): Option<Row> {
    var k := (actor.tenant, requestId);
    if k in db.effects && db.effects[k].auth.actor.actor == actor.actor then Some(db.effects[k]) else None
  }

  datatype Read = Missing | Unreadable | Found(row: Row)

  function Lookup(db: EffectDb, actor: ActorContext, requestId: Id): Read {
    match RowByRequest(db, actor, requestId)
    case None => Missing
    case Some(row) => if Readable(row) then Found(row) else Unreadable
  }

  /** `effect_by_binding`: any row of the actor that shares the key, the grant or the request. */
  function RowsByBinding(db: EffectDb, a: Authority): (keys: set<RowKey>)
    ensures keys <= db.effects.Keys
  {
    set k | k in db.effects && k.0 == a.actor.tenant && db.effects[k].auth.actor.actor == a.actor.actor
            && (|| db.effects[k].auth.request.idempotency.key == a.request.idempotency.key
                || db.effects[k].auth.grant.grantId == a.grant.grantId
                || k.1 == a.request.requestId)
  }

  predicate ExactReplay(row: Row, a: Authority) {
    && row.binding == BindingDigest(a)
    && row.auth.request.idempotency == a.request.idempotency
    && OfRequest(row.auth.request) == OfRequest(a.request)
    && row.auth.grant.grantId == a.grant.grantId
    && OfGrant(row.auth.grant) == OfGrant(a.grant)
  }

  datatype Selection = Fresh | Existing(row: Row) | Conflict

  /** `_select_for_binding` and `_require_exact`.  A single row of another request has another
      request digest, so it conflicts like several rows do. */
  function SelectForBinding(db: EffectDb, a: Authority): Selection {
    var keys := RowsByBinding(db, a);
    if keys == {} then Fresh
    else if keys != {KeyOf(a)} then Conflict
    else
      var row := db.effects[KeyOf(a)];
      if Readable(row) && ExactReplay(row, a) then Existing(row) else Conflict
  }

  // ---- Evidence ----

  function LogOf(runs: map<RunKey, RunLog>, k: RunKey, owner: Id): RunLog {
    if k in runs then runs[k] else EmptyLog(owner)
  }

  function EventsIn(runs: map<RunKey, RunLog>, r: RunKey): seq<Event> { if r in runs then runs[r].events else [] }

  /** The events of a run that came through the generic append, as a history variable records them. */
  function OthersIn(others: map<RunKey, seq<Event>>, r: RunKey): seq<Event> { if r in others then others[r] else [] }

  /** `_append_evidence`: lock the run head in actor scope, build the envelope, commit it. */
  function AppendEvidence(runs: map<RunKey, RunLog>, actor: ActorContext, run: Id, envelopeId: Id,
                          ref: Ref, payload: Payload, clock: int): Option<(map<RunKey, RunLog>, Event)> {
    var k := (actor.tenant, run);
    var log := LogOf(runs, k, actor.actor);
    if log.owner != actor.actor then None
    else
      match BuildEnvelope(StoreWriter, log.head, Draft(actor.tenant, run, envelopeId, ref, payload), clock)
      case None => None
      case Some(e) => Some((runs[k := Commit(log, e)], e))
  }

  /** `next` has one more event, `e`, in run `r`. */
  ghost predicate Appended(runs: map<RunKey, RunLog>, next: map<RunKey, RunLog>, r: RunKey, e: Event) {
    && r in next && next == runs[r := next[r]]
    && next[r].events == (if r in runs then runs[r].events else []) + [e]
    && ((r in runs ==> WellFormed(runs[r])) ==> WellFormed(next[r]))
    && (r in runs ==> next[r].owner == runs[r].owner)
    && e.sequence + 1 == |next[r].events|
  }

  lemma AppendEvidenceAppends(runs: map<RunKey, RunLog>, actor: ActorContext, run: Id, envelopeId: Id, ref: Ref,
                              payload: Payload, clock: int)
    requires var r := (actor.tenant, run); r in runs ==> WellFormed(runs[r])
    ensures var x := AppendEvidence(runs, actor, run, envelopeId, ref, payload, clock);
            x.Some? ==>
              && Appended(runs, x.value.0, (actor.tenant, run), x.value.1) && x.value.1.payload == payload
              && x.value.1.policyRef == ref
              && x.value.0[(actor.tenant, run)].owner == actor.actor
  {
    var r := (actor.tenant, run);
    AppendKeepsChain(StoreWriter, LogOf(runs, r, actor.actor), Draft(actor.tenant, run, envelopeId, ref, payload),
                     clock);
  }

  /** The evidence clock of a run is not behind its head. */
  predicate ClockPasses(runs: map<RunKey, RunLog>, r: RunKey, clock: int) {
    r in runs && (runs[r].head.lastRecordedAt.Some? ==> runs[r].head.lastRecordedAt.value <= clock)
  }

  // ---- Prepare ----

  /** The table's CHECK and UNIQUE constraints.  Uniqueness is per tenant, not per actor. */
  predicate RowChecks(a: Authority) {
    && a.request.tenant == a.actor.tenant && a.request.actor == a.actor.actor
    && a.grant.tenant == a.actor.tenant && a.grant.actor == a.actor.actor
    && a.grant.runId == a.request.runId && a.grant.requestId == a.request.requestId
  }

  predicate Clashes(k: RowKey, row: Row, a: Authority) {
    && k.0 == a.actor.tenant
    && (|| k.1 == a.request.requestId
        || row.auth.request.idempotency.key == a.request.idempotency.key
        || row.auth.grant.grantId == a.grant.grantId)
  }

  predicate InsertAllowed(db: EffectDb, a: Authority) {
    RowChecks(a) && forall k | k in db.effects :: !Clashes(k, db.effects[k], a)
  }

  function NewRow(a: Authority, intent: Event, attempt: Id, now: int, lease: nat): Row {
    Row(a, BindingDigest(a), Prepared, 1, intent, None, None, attempt, 1, now + lease, now)
  }

  /** The inserting half of `prepare`: intent evidence, the row and the grant consumption. */
  function PrepareInsert(db: EffectDb, a: Authority, envelopeId: Id, clock: int, attempt: Id, now: int,
                         lease: nat): Reply<Row> {
    match AppendEvidence(db.runs, a.actor, a.request.runId, envelopeId, PolicyRef(a.policy), IntentPayload(a), clock)
    case None => Reply(db, None)
    case Some((runs, intent)) =>
      if attempt == "" || !InsertAllowed(db, a) then Reply(db, None)
      else
        var row := NewRow(a, intent, attempt, now, lease);
        Reply(EffectDb(runs, db.effects[KeyOf(a) := row]), Some(row))
  }

  function Prepare(db: EffectDb, a: Authority, envelopeId: Id, clock: int, attempt: Id, now: int,
                   lease: nat): Reply<Preparation> {
    if !ParsedForTenant(a) then Reply(db, None)
    else
      match SelectForBinding(db, a)
      case Conflict => Reply(db, None)
      case Existing(row) => Reply(db, Some(Preparation(row, false)))
      case Fresh =>
        var r := PrepareInsert(db, a, envelopeId, clock, attempt, now, lease);
        match r.value
        case None => Reply(db, None)
        case Some(row) => Reply(r.db, Some(Preparation(row, true)))
  }

  // ---- Renew ----

  predicate Holds(row: Row, attempt: Id, generation: nat) {
    Live(row.state) && row.attempt == attempt && row.generation == generation
  }

  /** The live fenced owner extends its lease; the version stays. */
  function Renew(db: EffectDb, actor: ActorContext, requestId: Id, attempt: Id, generation: nat, now: int,
                 lease: nat): Reply<Row> {
    match RowByRequest(db, actor, requestId)
    case None => Reply(db, None)
    case Some(row) =>
      if !Holds(row, attempt, generation) || row.leaseExpires <= now then Reply(db, None)
      else
        var renewed := row.(state := Executing, leaseExpires := now + lease, lastRenewed := now);
        Reply(db.(effects := db.effects[(actor.tenant, requestId) := renewed]),
              if Readable(renewed) then Some(renewed) else None)
  }

  // ---- Complete ----

  datatype Verdict = Refuse | Replay(row: Row) | Proceed(stored: Row)

  function TerminalState(status: Status): EffectState {
    if status == Succeeded then Completed else Indeterminate
  }

  /** What `complete` decides from the row it read.  The terminal state follows the status. */
  function CompleteVerdict(db: EffectDb, actor: ActorContext, requestId: Id, expectedVersion: nat,
                           attempt: Id, generation: nat, outcome: Outcome): Verdict {
    match Lookup(db, actor, requestId)
    case Missing => Refuse
    case Unreadable => Refuse
    case Found(row) =>
      if !Holds(row, attempt, generation) || row.version != expectedVersion then
        if row.state == TerminalState(outcome.status) && row.version == expectedVersion + 1
           && row.outcome == Some(outcome) && row.outcomeEvent.Some? then Replay(row)
        else Refuse
      else if !OutcomeBinds(row.auth, row.intent, outcome) then Refuse
      else Proceed(row)
  }

  function Completion(row: Row, outcome: Outcome, event: Event): Row {
    row.(state := TerminalState(outcome.status), version := row.version + 1,
         outcome := Some(outcome), outcomeEvent := Some(event))
  }

  /** The writing half of `complete`: outcome evidence and the compare-and-set. */
  function CompleteCommit(db: EffectDb, actor: ActorContext, requestId: Id, stored: Row, expectedVersion: nat,
                          attempt: Id, generation: nat, outcome: Outcome, envelopeId: Id, clock: int,
                          now: int): Reply<Row> {
    var a := stored.auth;
    match AppendEvidence(db.runs, actor, a.request.runId, envelopeId, PolicyRef(a.policy),
                         OutcomePayload(a, outcome, false), clock)
    case None => Reply(db, None)
    case Some((runs, event)) =>
      match RowByRequest(db, actor, requestId)
      case None => Reply(db, None)
      case Some(row) =>
        if !Holds(row, attempt, generation) || row.version != expectedVersion || row.leaseExpires <= now
        then Reply(db, None)
        else
          Reply(EffectDb(runs, db.effects[(actor.tenant, requestId) := Completion(row, outcome, event)]),
                Some(stored.(state := TerminalState(outcome.status), version := expectedVersion + 1,
                             outcome := Some(outcome), outcomeEvent := Some(event))))
  }

  function Complete(db: EffectDb, actor: ActorContext, requestId: Id, expectedVersion: nat, attempt: Id,
                    generation: nat, outcome: Outcome, envelopeId: Id, clock: int, now: int): Reply<Row> {
    match CompleteVerdict(db, actor, requestId, expectedVersion, attempt, generation, outcome)
    case Refuse => Reply(db, None)
    case Replay(row) => Reply(db, Some(row))
    case Proceed(stored) => CompleteCommit(db, actor, requestId, stored, expectedVersion, attempt, generation,
                                           outcome, envelopeId, clock, now)
  }

  // ---- Recover ----

  function Recovery(row: Row, outcome: Outcome, event: Event): Row {
    row.(state := Indeterminate, version := row.version + 1, generation := row.generation + 1,
         outcome := Some(outcome), outcomeEvent := Some(event))
  }

  function RecoverVerdict(db: EffectDb, actor: ActorContext, requestId: Id, outcome: Outcome, now: int): Verdict {
    if outcome.status != StatusIndeterminate then Refuse
    else
      match Lookup(db, actor, requestId)
      case Missing => Refuse
      case Unreadable => Refuse
      case Found(row) =>
        if !Live(row.state) then Replay(row)
        else if now < row.leaseExpires || !OutcomeBinds(row.auth, row.intent, outcome) then Refuse
        else Proceed(row)
  }

  /** The writing half of `recover_expired`: fence the owner and record the outcome. */
  function RecoverCommit(db: EffectDb, actor: ActorContext, requestId: Id, stored: Row, outcome: Outcome,
                         envelopeId: Id, clock: int, now: int): Reply<Row> {
    var a := stored.auth;
    match AppendEvidence(db.runs, actor, a.request.runId, envelopeId, PolicyRef(a.policy),
                         OutcomePayload(a, outcome, true), clock)
    case None => Reply(db, None)
    case Some((runs, event)) =>
      match RowByRequest(db, actor, requestId)
      case None => Reply(db, None)
      case Some(row) =>
        if !Holds(row, stored.attempt, stored.generation) || now < row.leaseExpires then Reply(db, None)
        else
          Reply(EffectDb(runs, db.effects[(actor.tenant, requestId) := Recovery(row, outcome, event)]),
                Some(Recovery(stored, outcome, event)))
  }

  function Recover(db: EffectDb, actor: ActorContext, requestId: Id, outcome: Outcome, envelopeId: Id, clock: int,
                   now: int): Reply<Row> {
    match RecoverVerdict(db, actor, requestId, outcome, now)
    case Refuse => Reply(db, None)
    case Replay(row) => Reply(db, Some(row))
    case Proceed(stored) => RecoverCommit(db, actor, requestId, stored, outcome, envelopeId, clock, now)
  }

  /** The store object.  Each method runs one transaction statement by statement against the
      tables and undoes it when a statement raises. */
  class PostgresEffectStore {
    var runs: map<RunKey, RunLog>
    var effects: map<RowKey, Row>

    function Db(): EffectDb
      reads this
    {
      EffectDb(runs, effects)
    }

    constructor ()
      ensures Db() == EffectDb(map[], map[])
    {
      runs, effects := map[], map[];
    }

    method AppendEvidenceRow(actor: ActorContext, run: Id, envelopeId: Id, ref: Ref, payload: Payload, clock: int)
      returns (r: Option<Event>)
      modifies this`runs
      ensures var spec := AppendEvidence(old(runs), actor, run, envelopeId, ref, payload, clock);
              && (spec.None? ==> r == None && runs == old(runs))
              && (spec.Some? ==> r == Some(spec.value.1) && runs == spec.value.0)
    {
      var k := (actor.tenant, run);
      var before := runs;
      if k !in runs {
        runs := runs[k := EmptyLog(actor.actor)];
      }
      if runs[k].owner != actor.actor {
        runs := before;
        return None;
      }
      r := BuildEnvelope(StoreWriter, runs[k].head, Draft(actor.tenant, run, envelopeId, ref, payload), clock);
      if r.None? {
        runs := before;
        return;
      }
      runs := runs[k := Commit(runs[k], r.value)];
      assert runs == before[k := Commit(LogOf(before, k, actor.actor), r.value)];
    }

    method PrepareEffect(a: Authority, envelopeId: Id, clock: int, attempt: Id, now: int, lease: nat)
        returns (r: Option<Preparation>)
      modifies this
      ensures Reply(Db(), r) == Prepare(old(Db()), a, envelopeId, clock, attempt, now, lease)
    {
      if !ParsedForTenant(a) {
        return None;
      }
      var keys := RowsByBinding(Db(), a);
      if keys != {} {
        if keys != {KeyOf(a)} {
          return None;
        }
        assert KeyOf(a) in keys;
        var existing := effects[KeyOf(a)];
        if !Readable(existing) || !ExactReplay(existing, a) {
          return None;
        }
        return Some(Preparation(existing, false));
      }
      var before := runs;
      var intent := AppendEvidenceRow(a.actor, a.request.runId, envelopeId, PolicyRef(a.policy), IntentPayload(a),
                                      clock);
      if intent.None? {
        return None;
      }
      if attempt == "" || !RowChecks(a) || exists k | k in effects :: Clashes(k, effects[k], a) {
        runs := before;
        return None;
      }
      var row := NewRow(a, intent.value, attempt, now, lease);
      effects := effects[KeyOf(a) := row];
      r := Some(Preparation(row, true));
    }

    method RenewLease(actor: ActorContext, requestId: Id, attempt: Id, generation: nat, now: int, lease: nat)
        returns (r: Option<Row>)
      modifies this
      ensures Reply(Db(), r) == Renew(old(Db()), actor, requestId, attempt, generation, now, lease)
    {
      var k := (actor.tenant, requestId);
      if k !in effects || effects[k].auth.actor.actor != actor.actor
         || !Holds(effects[k], attempt, generation) || effects[k].leaseExpires <= now {
        return None;
      }
      effects := effects[k := effects[k].(state := Executing, leaseExpires := now + lease, lastRenewed := now)];
      r := if Readable(effects[k]) then Some(effects[k]) else None;
    }

    method CompareAndComplete(actor: ActorContext, requestId: Id, stored: Row, expectedVersion: nat, attempt: Id,
                              generation: nat, outcome: Outcome, envelopeId: Id, clock: int, now: int)
        returns (r: Option<Row>)
      modifies this
      ensures Reply(Db(), r) == CompleteCommit(old(Db()), actor, requestId, stored, expectedVersion, attempt,
                                               generation, outcome, envelopeId, clock, now)
    {
      var k, a, before := (actor.tenant, requestId), stored.auth, runs;
      var event := AppendEvidenceRow(actor, a.request.runId, envelopeId, PolicyRef(a.policy),
                                     OutcomePayload(a, outcome, false), clock);
      if event.None? {
        return None;
      }
      if k !in effects || effects[k].auth.actor.actor != actor.actor || !Holds(effects[k], attempt, generation)
         || effects[k].version != expectedVersion || effects[k].leaseExpires <= now {
        runs := before;
        return None;
      }
      var target := TerminalState(outcome.status);
      effects := effects[k := effects[k].(state := target, version := effects[k].version + 1,
                                          outcome := Some(outcome), outcomeEvent := event)];
      r := Some(stored.(state := target, version := expectedVersion + 1, outcome := Some(outcome),
                        outcomeEvent := event));
    }

    method CompleteEffect(actor: ActorContext, requestId: Id, expectedVersion: nat, attempt: Id, generation: nat,
                          outcome: Outcome, envelopeId: Id, clock: int, now: int) returns (r: Option<Row>)
      modifies this
      ensures Reply(Db(), r) == Complete(old(Db()), actor, requestId, expectedVersion, attempt, generation, outcome,
                                         envelopeId, clock, now)
    {
      hide Readable, OutcomeBinds, CompleteCommit;
      var k := (actor.tenant, requestId);
      if k !in effects || effects[k].auth.actor.actor != actor.actor || !Readable(effects[k]) {
        return None;
      }
      var stored := effects[k];
      if !Live(stored.state) || stored.version != expectedVersion || stored.attempt != attempt
         || stored.generation != generation {
        if stored.state == TerminalState(outcome.status) && stored.version == expectedVersion + 1
           && stored.outcome == Some(outcome) && stored.outcomeEvent.Some? {
          return Some(stored);
        }
        return None;
      }
      if !OutcomeBinds(stored.auth, stored.intent, outcome) {
        return None;
      }
      r := CompareAndComplete(actor, requestId, stored, expectedVersion, attempt, generation, outcome, envelopeId,
                              clock, now);
    }

    method CompareAndRecover(actor: ActorContext, requestId: Id, stored: Row, outcome: Outcome, envelopeId: Id,
                             clock: int, now: int)
      returns (r: Option<Row>)
      modifies this
      ensures Reply(Db(), r) == RecoverCommit(old(Db()), actor, requestId, stored, outcome, envelopeId, clock, now)
    {
      var k, a, before := (actor.tenant, requestId), stored.auth, runs;
      var event := AppendEvidenceRow(actor, a.request.runId, envelopeId, PolicyRef(a.policy),
                                     OutcomePayload(a, outcome, true), clock);
      if event.None? {
        return None;
      }
      if k !in effects || effects[k].auth.actor.actor != actor.actor
         || !Holds(effects[k], stored.attempt, stored.generation)
         || now < effects[k].leaseExpires {
        runs := before;
        return None;
      }
      effects := effects[k := effects[k].(state := Indeterminate, version := effects[k].version + 1,
                                          generation := effects[k].generation + 1,
                                          outcome := Some(outcome), outcomeEvent := event)];
      r := Some(Recovery(stored, outcome, event.value));
    }

    method RecoverExpired(actor: ActorContext, requestId: Id, outcome: Outcome, envelopeId: Id, clock: int, now: int)
        returns (r: Option<Row>)
      modifies this
      ensures Reply(Db(), r) == Recover(old(Db()), actor, requestId, outcome, envelopeId, clock, now)
    {
      hide Readable, OutcomeBinds, RecoverCommit;
      var k := (actor.tenant, requestId);
      if outcome.status != StatusIndeterminate || k !in effects || effects[k].auth.actor.actor != actor.actor
         || !Readable(effects[k]) {
        return None;
      }
      var stored := effects[k];
      if !Live(stored.state) {
        return Some(stored);
      }
      if now < stored.leaseExpires || !OutcomeBinds(stored.auth, stored.intent, outcome) {
        return None;
      }
      r := CompareAndRecover(actor, requestId, stored, outcome, envelopeId, clock, now);
    }
  }
}
