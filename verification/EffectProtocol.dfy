/** Any number of brokers against one effect store, as a step function.

    A process is one call of `dispatch` or `recover`.  Between any two of its database calls
    every other process may take any number of steps.  Inside a transaction the read and the
    write are separate steps too, because the store relies on its compare-and-set and its unique
    constraints rather than on the read.  Everything the environment may choose (clocks, lost
    acknowledgements, executor behaviour, crashes) is a parameter of the step, so a schedule is a
    sequence of steps and a claim about every schedule is a claim about every run.  A step that
    its process cannot take leaves the world unchanged. */
module EffectProtocol {
  import opened Records
  import opened EvidenceChain
  import opened EffectStore

  type Pid = nat

  datatype Pc =
    | Looking | Validating | Selecting | Inserting | Renewing | Ready
    | Ran(status: Status, result: Id)
    | Finishing(outcome: Outcome)
    | Committing(outcome: Outcome, stored: Row)
    | Reconciling(outcome: Outcome)
    | Reverting
    | Outlining(target: Row)
    | RecoverReady(outcome: Outcome)
    | RecoverCommitting(outcome: Outcome, stored: Row)
    | Done(outcome: Outcome)
    | Raised
    | Crashed

  /** `held` is what a dispatch got back from `prepare` and then from its first renewal. */
  datatype Process =
    | Dispatch(auth: Authority, held: Option<Row>, pc: Pc)
    | Recovery(actor: ActorContext, requestId: Id, pc: Pc)

  /** The outside world's view of what one dispatch did, and which executor call it made. */
  datatype Effect = Effect(call: nat, active: bool, reverted: bool)

  datatype Call = Call(pid: Pid, auth: Authority)

  /** A completing transaction whose COMMIT is on its way while its client has given up on it. */
  datatype InFlight = InFlight(stored: Row, outcome: Outcome)

  /** `creators` and `others` are history variables: which dispatch inserted a row, and which events
      of a run came through the generic append. */
  datatype World = World(
    db: EffectDb, now: int, procs: map<Pid, Process>, effects: map<Pid, Effect>, calls: seq<Call>,
    pending: map<Pid, InFlight>, creators: map<RowKey, Pid>, others: map<RunKey, seq<Event>>)

  datatype Acknowledgement = Acknowledged | Lost | StillInFlight | NotSent

  datatype Behaviour =
    | Returns(result: Id)
    | Breaks(applied: bool, reverted: bool)

  datatype Stamp = Stamp(outcomeId: Id, clock: int)

  datatype Writing = Writing(envelopeId: Id, clock: int)

  datatype Step =
    | Tick(amount: nat)
    | AppendOther(actor: ActorContext, run: Id, ref: Ref, payload: Payload, w: Writing)
    | Begin(pid: Pid, auth: Authority)
    | BeginRecovery(pid: Pid, actor: ActorContext, requestId: Id)
    | LookUp(pid: Pid, ok: bool)
    | Validate(pid: Pid, ok: bool)
    | Select(pid: Pid, ok: bool)
    | Insert(pid: Pid, w: Writing, attempt: Id, lease: nat, ack: bool)
    | RenewFirst(pid: Pid, lease: nat, ack: bool)
    | Heartbeat(pid: Pid, lease: nat)
    | Execute(pid: Pid, behaviour: Behaviour)
    | Build(pid: Pid, ok: bool, stamp: Stamp)
    | CheckComplete(pid: Pid, ok: bool)
    | Commit(pid: Pid, w: Writing, reply: Acknowledgement)
    | LateCommit(pid: Pid, w: Writing, at: int)
    | LateAbort(pid: Pid)
    | Reconcile(pid: Pid, ok: bool)
    | Revert(pid: Pid, ok: bool)
    | CheckRecover(pid: Pid, ok: bool)
    | CommitRecover(pid: Pid, w: Writing, ack: bool)
    | Crash(pid: Pid)

  const START := World(EffectDb(map[], map[]), 0, map[], map[], [], map[], map[], map[])

  predicate Terminal(row: Row) { row.state == Completed || row.state == Indeterminate }

  predicate EffectKind(p: Payload) { p.EffectIntent? || p.EffectOutcome? }

  /** `_build_outcome` derives an actor scope that starts now and must lie in the actor context. */
  predicate ScopeDerivable(actor: ActorContext, clock: int) {
    actor.issuedAt <= TruncateToMillis(clock) <= actor.expiresAt
  }

  function BuildOutcome(a: Authority, intent: Event, status: Status, result: Id, s: Stamp): Outcome {
    Outcome(s.outcomeId, OfActor(a.actor), TruncateToMillis(s.clock), a.actor.expiresAt, a.request.runId,
            RequestRef(a.request), status, OfEvent(intent), OfProvenance(OfGrant(a.grant), OfEvent(intent), result),
            result, PolicyRef(a.policy), ApprovalRefs(a.approvals), a.request.idempotency, TruncateToMillis(s.clock))
  }

  /** The outcome is about just this authority and intent. */
  predicate About(o: Outcome, a: Authority, intent: Event) {
    && o.scopeActor == OfActor(a.actor)
    && o.runId == a.request.runId && o.requestRef == Ref(a.request.requestId, OfRequest(a.request))
    && o.policyRef == Ref(a.policy.decisionId, OfPolicy(a.policy)) && |o.reviewerRefs| == |a.approvals|
    && (forall i | 0 <= i < |a.approvals| ::
          o.reviewerRefs[i] == Ref(a.approvals[i].approvalId, OfApproval(a.approvals[i])))
    && o.idempotency == a.request.idempotency && o.intentDigest == OfEvent(intent)
    && o.provenance == OfProvenance(OfGrant(a.grant), OfEvent(intent), o.result)
  }

  /** An outcome about this authority and this intent, made at this time, for the rest of the actor
      context. */
  predicate OutcomeOf(o: Outcome, a: Authority, intent: Event, s: Stamp) {
    && o.outcomeId == s.outcomeId && o.occurredAt == s.clock - s.clock % 1000
    && o.scopeFrom == s.clock - s.clock % 1000 && o.scopeUntil == a.actor.expiresAt && About(o, a, intent)
  }

  lemma BuiltSays(a: Authority, intent: Event, status: Status, result: Id, s: Stamp)
    ensures var o := BuildOutcome(a, intent, status, result, s);
            OutcomeOf(o, a, intent, s) && o.status == status && o.result == result
  {
  }

  lemma ScopeExactly(actor: ActorContext, clock: int)
    ensures ScopeDerivable(actor, clock) <==>
              actor.issuedAt <= clock - clock % 1000 && clock - clock % 1000 <= actor.expiresAt
  {
  }

  const BROKEN_RESULT := "executor_result_indeterminate"
  const RECOVERED_RESULT := "prepared_execution_outcome_unknown"

  function At(w: World, p: Pid, pc: Pc): World
    requires p in w.procs
  {
    w.(procs := w.procs[p := w.procs[p].(pc := pc)])
  }

  /** Where the first look at the database takes a process. */
  function LookedUp(db: EffectDb, c: Process): Pc {
    match c
    case Dispatch(a, _, _) =>
      (match Lookup(db, a.actor, a.request.requestId)
       case Missing => Validating
       case Unreadable => Raised
       case Found(row) =>
         if row.binding == BindingDigest(a) && Terminal(row) && row.outcome.Some? then Done(row.outcome.value)
         else Raised)
    case Recovery(actor, requestId, _) =>
      (match Lookup(db, actor, requestId)
       case Missing => Raised
       case Unreadable => Raised
       case Found(row) =>
         if row.auth.actor != actor then Raised
         else if Terminal(row) then (if row.outcome.Some? then Done(row.outcome.value) else Raised)
         else Outlining(row))
  }

  function DoLookUp(w: World, p: Pid, ok: bool): World
    requires p in w.procs
  {
    if w.procs[p].pc != Looking then w else At(w, p, if ok then LookedUp(w.db, w.procs[p]) else Raised)
  }

  function Chosen(db: EffectDb, a: Authority): Pc {
    match SelectForBinding(db, a)
    case Conflict => Raised
    case Fresh => Inserting
    case Existing(row) => if Terminal(row) && row.outcome.Some? then Done(row.outcome.value) else Raised
  }

  function DoSelect(w: World, p: Pid, ok: bool): World
    requires p in w.procs
  {
    if w.procs[p].Recovery? || w.procs[p].pc != Selecting then w
    else At(w, p, if ok then Chosen(w.db, w.procs[p].auth) else Raised)
  }

  function DoInsert(w: World, p: Pid, x: Writing, attempt: Id, lease: nat, ack: bool): World
    requires p in w.procs
  {
    if w.procs[p].Recovery? || w.procs[p].pc != Inserting then w
    else
      var a := w.procs[p].auth;
      var r := PrepareInsert(w.db, a, x.envelopeId, x.clock, attempt, w.now, lease);
      match r.value
      case None => At(w, p, Raised)
      case Some(row) =>
        w.(db := r.db, creators := w.creators[KeyOf(a) := p],
           procs := w.procs[p := if ack then Dispatch(a, Some(row), Renewing) else Dispatch(a, None, Raised)])
  }

  /** The renewal before the executor is called. */
  function DoRenewFirst(w: World, p: Pid, lease: nat, ack: bool): World
    requires p in w.procs
  {
    if w.procs[p].Recovery? || w.procs[p].pc != Renewing || w.procs[p].held.None? then w
    else
      var a, held := w.procs[p].auth, w.procs[p].held.value;
      var r := Renew(w.db, a.actor, a.request.requestId, held.attempt, held.generation, w.now, lease);
      if ack && r.value.Some? then w.(db := r.db, procs := w.procs[p := Dispatch(a, r.value, Ready)])
      else At(w.(db := r.db), p, Raised)
  }

  /** The heartbeat thread may still renew after its dispatch has moved on or returned. */
  function DoHeartbeat(w: World, p: Pid, lease: nat): World
    requires p in w.procs
  {
    if w.procs[p].Recovery? || w.procs[p].held.None? then w
    else
      var a, held := w.procs[p].auth, w.procs[p].held.value;
      w.(db := Renew(w.db, a.actor, a.request.requestId, held.attempt, held.generation, w.now, lease).db)
  }

  /** `_invoke_executor`: an executor that breaks may or may not have acted before it broke. */
  function DoExecute(w: World, p: Pid, b: Behaviour): World
    requires p in w.procs
  {
    if w.procs[p].Recovery? || w.procs[p].pc != Ready then w
    else
      var called := w.(calls := w.calls + [Call(p, w.procs[p].auth)]);
      match b
      case Returns(result) => At(called.(effects := w.effects[p := Effect(|w.calls|, true, false)]), p,
                                 Ran(Succeeded, result))
      case Breaks(applied, reverted) =>
        At(called.(effects := w.effects[p := Effect(|w.calls|, applied && !reverted, reverted)]), p,
           if reverted then Ran(StatusIndeterminate, BROKEN_RESULT) else Raised)
  }

  function DoBuild(w: World, p: Pid, ok: bool, s: Stamp): World
    requires p in w.procs
  {
    match w.procs[p]
    case Dispatch(a, Some(held), Ran(status, result)) =>
      At(w, p,
         if ok && ScopeDerivable(a.actor, s.clock) then Finishing(BuildOutcome(a, held.intent, status, result, s))
         else if status == Succeeded then Reverting else Raised)
    case Recovery(actor, _, Outlining(row)) =>
      At(w, p,
         if ok && ScopeDerivable(row.auth.actor, s.clock)
         then RecoverReady(BuildOutcome(row.auth, row.intent, StatusIndeterminate, RECOVERED_RESULT, s)) else Raised)
    case _ => w
  }

  function Checked(db: EffectDb, a: Authority, held: Row, outcome: Outcome): Pc {
    match CompleteVerdict(db, a.actor, a.request.requestId, held.version, held.attempt, held.generation, outcome)
    case Refuse => Reconciling(outcome)
    case Replay(row) => Done(outcome)
    case Proceed(stored) => Committing(outcome, stored)
  }

  function DoCheckComplete(w: World, p: Pid, ok: bool): World
    requires p in w.procs
  {
    match w.procs[p]
    case Dispatch(a, Some(held), Finishing(outcome)) =>
      At(w, p, if ok then Checked(w.db, a, held, outcome) else Reconciling(outcome))
    case _ => w
  }

  function DoCommit(w: World, p: Pid, x: Writing, reply: Acknowledgement): World
    requires p in w.procs
  {
    match w.procs[p]
    case Dispatch(a, Some(held), Committing(outcome, stored)) =>
      (match reply
       case NotSent => At(w, p, Reconciling(outcome))
       case StillInFlight => At(w.(pending := w.pending[p := InFlight(stored, outcome)]), p, Reconciling(outcome))
       case _ =>
         var r := CompleteCommit(w.db, a.actor, a.request.requestId, stored, held.version, held.attempt,
                                 held.generation, outcome, x.envelopeId, x.clock, w.now);
         At(w.(db := r.db), p, if r.value.Some? && reply == Acknowledged then Done(outcome) else Reconciling(outcome)))
    case _ => w
  }

  /** The server finishes a transaction of a client that is gone.  Its lease test ran at `at`. */
  function DoLateCommit(w: World, p: Pid, x: Writing, at: int): World
    requires p in w.procs
  {
    match w.procs[p]
    case Dispatch(a, Some(held), _) =>
      if p !in w.pending || w.now < at then w
      else
        var t := w.pending[p];
        w.(db := CompleteCommit(w.db, a.actor, a.request.requestId, t.stored, held.version, held.attempt,
                                held.generation, t.outcome, x.envelopeId, x.clock, at).db,
           pending := w.pending - {p})
    case _ => w
  }

  /** Where the re-read after a failed completion takes a dispatch. */
  function Reread(db: EffectDb, a: Authority, outcome: Outcome): Pc {
    match Lookup(db, a.actor, a.request.requestId)
    case Unreadable => Raised
    case Missing => if outcome.status == Succeeded then Reverting else Raised
    case Found(row) =>
      if Terminal(row) then (if row.outcome == Some(outcome) then Done(outcome) else Raised)
      else if outcome.status == Succeeded then Reverting else Raised
  }

  function DoReconcile(w: World, p: Pid, ok: bool): World
    requires p in w.procs
  {
    match w.procs[p]
    case Dispatch(a, Some(held), Reconciling(outcome)) => At(w, p, if ok then Reread(w.db, a, outcome) else Raised)
    case _ => w
  }

  function DoRevert(w: World, p: Pid, ok: bool): World
    requires p in w.procs
  {
    if w.procs[p].Recovery? || w.procs[p].pc != Reverting then w
    else if ok && p in w.effects
    then At(w.(effects := w.effects[p := w.effects[p].(active := false, reverted := true)]), p, Raised)
    else At(w, p, Raised)
  }

  function RecoveryChecked(db: EffectDb, actor: ActorContext, requestId: Id, outcome: Outcome, now: int): Pc {
    match RecoverVerdict(db, actor, requestId, outcome, now)
    case Refuse => Raised
    case Replay(row) => if row.outcome.Some? then Done(row.outcome.value) else Raised
    case Proceed(stored) => RecoverCommitting(outcome, stored)
  }

  function DoCheckRecover(w: World, p: Pid, ok: bool): World
    requires p in w.procs
  {
    match w.procs[p]
    case Recovery(actor, requestId, RecoverReady(outcome)) =>
      At(w, p, if ok then RecoveryChecked(w.db, actor, requestId, outcome, w.now) else Raised)
    case _ => w
  }

  function DoCommitRecover(w: World, p: Pid, x: Writing, ack: bool): World
    requires p in w.procs
  {
    match w.procs[p]
    case Recovery(actor, requestId, RecoverCommitting(outcome, stored)) =>
      var r := RecoverCommit(w.db, actor, requestId, stored, outcome, x.envelopeId, x.clock, w.now);
      At(w.(db := r.db), p, if r.value.Some? && ack then Done(outcome) else Raised)
    case _ => w
  }

  /** Other writers of the same run: lifecycle evidence and the generic append, which takes effect
      events too, from whoever has a connection. */
  function DoAppendOther(w: World, actor: ActorContext, run: Id, ref: Ref, payload: Payload, x: Writing): World {
    match AppendEvidence(w.db.runs, actor, run, x.envelopeId, ref, payload, x.clock)
    case None => w
    case Some((runs, e)) =>
      var r := (actor.tenant, run);
      w.(db := w.db.(runs := runs), others := w.others[r := OthersIn(w.others, r) + [e]])
  }

  function Apply(w: World, s: Step): World {
    match s
    case Tick(amount) => w.(now := w.now + amount)
    case AppendOther(actor, run, ref, payload, x) => DoAppendOther(w, actor, run, ref, payload, x)
    case Begin(p, a) =>
      if p in w.procs || !ParsedForTenant(a) then w else w.(procs := w.procs[p := Dispatch(a, None, Looking)])
    case BeginRecovery(p, actor, requestId) =>
      if p in w.procs then w else w.(procs := w.procs[p := Recovery(actor, requestId, Looking)])
    case _ =>
      if s.pid !in w.procs then w
      else
        var p := s.pid;
        match s
        case LookUp(_, ok) => DoLookUp(w, p, ok)
        case Validate(_, ok) =>
          if w.procs[p].pc == Validating then At(w, p, if ok then Selecting else Raised) else w
        case Select(_, ok) => DoSelect(w, p, ok)
        case Insert(_, x, attempt, lease, ack) => DoInsert(w, p, x, attempt, lease, ack)
        case RenewFirst(_, lease, ack) => DoRenewFirst(w, p, lease, ack)
        case Heartbeat(_, lease) => DoHeartbeat(w, p, lease)
        case Execute(_, b) => DoExecute(w, p, b)
        case Build(_, ok, stamp) => DoBuild(w, p, ok, stamp)
        case CheckComplete(_, ok) => DoCheckComplete(w, p, ok)
        case Commit(_, x, reply) => DoCommit(w, p, x, reply)
        case LateCommit(_, x, at) => DoLateCommit(w, p, x, at)
        case LateAbort(_) => w.(pending := w.pending - {p})
        case Reconcile(_, ok) => DoReconcile(w, p, ok)
        case Revert(_, ok) => DoRevert(w, p, ok)
        case CheckRecover(_, ok) => DoCheckRecover(w, p, ok)
        case CommitRecover(_, x, ack) => DoCommitRecover(w, p, x, ack)
        case Crash(_) => if w.procs[p].pc.Done? || w.procs[p].pc.Raised? then w else At(w, p, Crashed)
        case _ => w
  }

  /** The world after a schedule. */
  function Run(schedule: seq<Step>): World
    decreases |schedule|
  {
    if schedule == [] then START
    else Apply(Run(schedule[..|schedule| - 1]), schedule[|schedule| - 1])
  }

  /** Some schedule leads to this world. */
  ghost predicate Reachable(w: World) { exists schedule :: Run(schedule) == w }

  ghost predicate Next(w: World, v: World) { exists s: Step :: Apply(w, s) == v }

  ghost predicate Path(worlds: seq<World>) {
    worlds != [] && forall i | 0 < i < |worlds| :: Next(worlds[i - 1], worlds[i])
  }

  /** Steps lead from `w` to `v`. */
  ghost predicate Later(w: World, v: World) {
    exists worlds :: Path(worlds) && worlds[0] == w && worlds[|worlds| - 1] == v
  }
}
