/** What recorded and returned outcomes say: what the executor of just that dispatch answered, or that it
    broke and was undone, or that nobody knows; and about whom, when and for how long they say it. */
module EffectOutcomes {
  import opened Records
  import opened EvidenceChain
  import opened EffectStore
  import opened EffectProtocol
  import opened EffectInvariant

  // ---- What happened to a process ----

  /** What the executor of a dispatch answered, and the stamp with which a process built its outcome. */
  datatype History = History(answers: map<Pid, Behaviour>, stamps: map<Pid, Stamp>)

  /** The executor is called in `Ready`; an outcome is built for what ran, or for what a recovery found. */
  function Observed(h: History, w: World, s: Step): History {
    match s
    case Execute(p, b) =>
      if p in w.procs && w.procs[p].Dispatch? && w.procs[p].pc.Ready? then h.(answers := h.answers[p := b]) else h
    case Build(p, _, stamp) =>
      if p in w.procs && (w.procs[p].pc.Ran? || w.procs[p].pc.Outlining?) then h.(stamps := h.stamps[p := stamp]) else h
    case _ => h
  }

  function HistoryOf(schedule: seq<Step>): History
    decreases |schedule|
  {
    if schedule == [] then History(map[], map[])
    else
      var before := schedule[..|schedule| - 1];
      Observed(HistoryOf(before), Run(before), schedule[|schedule| - 1])
  }

  // ---- What an outcome says ----

  /** The executor answered with this result; or it broke, and its effect was undone. */
  predicate Tells(status: Status, result: Id, b: Behaviour) {
    match b
    case Returns(answer) => status == Succeeded && result == answer
    case Breaks(_, reverted) => reverted && status == StatusIndeterminate && result == "executor_result_indeterminate"
  }

  predicate InContext(o: Outcome, a: Authority) {
    a.actor.issuedAt <= o.occurredAt && o.occurredAt <= a.actor.expiresAt
  }

  /** What dispatch `p` says of its own call, at the time it said it. */
  predicate ToldBy(h: History, p: Pid, a: Authority, intent: Event, o: Outcome) {
    p in h.answers && p in h.stamps && Tells(o.status, o.result, h.answers[p]) && OutcomeOf(o, a, intent, h.stamps[p])
      && InContext(o, a)
  }

  /** What recovery `q` says of a call that it knows nothing about. */
  predicate GivenUpBy(h: History, q: Pid, a: Authority, intent: Event, o: Outcome) {
    q in h.stamps && o.status == StatusIndeterminate && o.result == "prepared_execution_outcome_unknown"
      && OutcomeOf(o, a, intent, h.stamps[q]) && InContext(o, a)
  }

  // ---- The invariant ----

  predicate Stamped(c: Process) {
    match c
    case Dispatch(_, _, pc) => pc.Finishing? || pc.Committing? || pc.Reconciling? || pc.Reverting? || Over(pc)
    case Recovery(_, _, pc) => pc.RecoverReady? || pc.RecoverCommitting? || Over(pc)
  }

  predicate HasOutcome(pc: Pc) { pc.Finishing? || pc.Committing? || pc.Reconciling? }

  /** What a process has in hand was told by itself. */
  ghost predicate ProcTold(w: World, h: History, p: Pid, c: Process) {
    && (p in h.stamps ==> Stamped(c))
    && match c
       case Dispatch(a, held, pc) =>
         && (pc.Ran? ==> p in h.answers && Tells(pc.status, pc.result, h.answers[p]))
         && (HasOutcome(pc) ==> held.Some? && ToldBy(h, p, a, held.value.intent, pc.outcome))
         && (p in w.pending ==> held.Some? && ToldBy(h, p, a, held.value.intent, w.pending[p].outcome))
       case Recovery(_, _, pc) =>
         pc.RecoverReady? || pc.RecoverCommitting? ==>
           KeyOfProcess(c) in w.db.effects
           && var row := w.db.effects[KeyOfProcess(c)]; GivenUpBy(h, p, row.auth, row.intent, pc.outcome)
  }

  /** The evidence of a row's outcome is about this actor, request, grant and outcome, and tells whether it
      comes from a recovery. */
  predicate Evidenced(row: Row, o: Outcome) {
    && row.outcomeEvent.Some? && row.outcomeEvent.value.payload
       == EffectOutcome(row.auth.actor.actor, OfRequest(row.auth.request), OfGrant(row.auth.grant), OfOutcome(o),
                        o.status, row.generation != 1)
  }

  /** The outcome of a row was told by its own dispatch, or given up by some recovery of it. */
  ghost predicate RowTold(w: World, h: History, k: RowKey)
    requires k in w.db.effects
  {
    var row := w.db.effects[k];
    row.outcome.Some? ==>
      Evidenced(row, row.outcome.value) &&
      if row.generation == 1 then k in w.creators && ToldBy(h, w.creators[k], row.auth, row.intent, row.outcome.value)
      else exists q :: q in w.procs && w.procs[q].Recovery? && KeyOfProcess(w.procs[q]) == k
                       && GivenUpBy(h, q, row.auth, row.intent, row.outcome.value)
  }

  ghost predicate Told(w: World, h: History) {
    && h.answers.Keys == w.effects.Keys && h.stamps.Keys <= w.procs.Keys
    && (forall p | p in w.procs :: ProcTold(w, h, p, w.procs[p]))
    && (forall k | k in w.db.effects :: RowTold(w, h, k))
  }

  // ---- Frames ----

  /** History is written once, and here only that of `p`. */
  predicate Grows(h: History, g: History, p: Pid) {
    && (forall q | q in h.answers :: q in g.answers && g.answers[q] == h.answers[q])
    && (forall q | q in h.stamps :: q in g.stamps && g.stamps[q] == h.stamps[q])
    && (forall q | q in g.answers && q != p :: q in h.answers) && (forall q | q in g.stamps && q != p :: q in h.stamps)
  }

  lemma ObservedGrows(w: World, h: History, s: Step)
    requires !s.Tick? && !s.AppendOther?
             && (s.pid in w.procs ==> ProcOk(w, s.pid) && ProcTold(w, h, s.pid, w.procs[s.pid]))
    requires h.answers.Keys == w.effects.Keys
    ensures Grows(h, Observed(h, w, s), s.pid)
  {
    hide OutcomeOf, LinkOk, StoredInputsValid, ParsedForTenant, Settled;
  }

  /** A process keeps what it has told while another one steps. */
  lemma ProcStays(w: World, v: World, h: History, g: History, p: Pid, q: Pid)
    requires Extends(w, v, p) && q != p && q in w.procs && ProcTold(w, h, q, w.procs[q]) && Grows(h, g, p)
    ensures q in v.procs && ProcTold(v, g, q, v.procs[q])
  {
    hide OutcomeOf;
  }

  predicate SameOutcome(row: Row, next: Row) {
    next.auth == row.auth && next.intent == row.intent && next.outcome == row.outcome
      && next.generation == row.generation && next.outcomeEvent == row.outcomeEvent
  }

  lemma SameEvidence(row: Row, next: Row, o: Outcome)
    requires SameOutcome(row, next)
    ensures Evidenced(row, o) == Evidenced(next, o)
  {
  }

  lemma ToldGrows(h: History, g: History, p: Pid)
    requires Grows(h, g, p)
    ensures forall q, a, intent, o :: ToldBy(h, q, a, intent, o) ==> ToldBy(g, q, a, intent, o)
    ensures forall q, a, intent, o :: GivenUpBy(h, q, a, intent, o) ==> GivenUpBy(g, q, a, intent, o)
  {
    hide OutcomeOf, InContext;
  }

  /** A row told by someone stays told. */
  lemma RowStays(w: World, v: World, h: History, g: History, p: Pid, k: RowKey)
    requires k in w.db.effects && k in v.db.effects && RowTold(w, h, k) && Extends(w, v, p) && Grows(h, g, p)
    requires SameOutcome(w.db.effects[k], v.db.effects[k])
    requires p in w.procs ==> p in v.procs && SameOwner(w.procs[p], v.procs[p])
    ensures RowTold(v, g, k)
  {
    hide ToldBy, GivenUpBy, Evidenced, Grows;
    var row := w.db.effects[k];
    ToldGrows(h, g, p);
    if row.outcome.Some? {
      SameEvidence(row, v.db.effects[k], row.outcome.value);
      if row.generation != 1 {
        var q :| q in w.procs && w.procs[q].Recovery? && KeyOfProcess(w.procs[q]) == k
          && GivenUpBy(h, q, row.auth, row.intent, row.outcome.value);
        assert q in v.procs && KeyOfProcess(v.procs[q]) == k && v.procs[q].Recovery?;
      }
    }
  }

  /** What has to be checked about a step of `p`: what it tells, and the rows whose outcome changes. */
  lemma KeepsTold(w: World, v: World, h: History, g: History, p: Pid)
    requires Told(w, h) && Extends(w, v, p) && Grows(h, g, p) && p in v.procs && ProcTold(v, g, p, v.procs[p])
    requires g.answers.Keys == v.effects.Keys && g.stamps.Keys <= v.procs.Keys
    requires p in w.procs ==> SameOwner(w.procs[p], v.procs[p])
    requires forall k | k in v.db.effects ::
               || (k in w.db.effects && SameOutcome(w.db.effects[k], v.db.effects[k])) || RowTold(v, g, k)
    ensures Told(v, g)
  {
    hide RowTold, ProcTold, Extends, Grows, SameOutcome, SameOwner;
    forall q | q in v.procs ensures ProcTold(v, g, q, v.procs[q]) {
      if q != p {
        OthersThere(w, v, p, q);
        ProcStays(w, v, h, g, p, q);
      }
    }
    forall k | k in v.db.effects ensures RowTold(v, g, k) {
      if k in w.db.effects && SameOutcome(w.db.effects[k], v.db.effects[k]) {
        RowStays(w, v, h, g, p, k);
      }
    }
  }

  lemma OthersThere(w: World, v: World, p: Pid, q: Pid)
    requires Extends(w, v, p) && q in v.procs && q != p
    ensures q in w.procs
  {
  }

  // ---- The process that steps ----

  /** Steps that only move their process, and give it no outcome that it did not have. */
  ghost predicate QuietMove(w: World, v: World, p: Pid)
    requires p in w.procs
  {
    && p in v.procs && SameOwner(w.procs[p], v.procs[p]) && (Stamped(w.procs[p]) ==> Stamped(v.procs[p]))
    && (v.procs[p].Dispatch? ==>
          && (w.procs[p].held.Some? ==>
                v.procs[p].held.Some? && v.procs[p].held.value.intent == w.procs[p].held.value.intent)
          && (v.procs[p].pc.Ran? ==> v.procs[p].pc == w.procs[p].pc)
          && (HasOutcome(v.procs[p].pc) ==> HasOutcome(w.procs[p].pc) && v.procs[p].pc.outcome == w.procs[p].pc.outcome)
          && (p in v.pending ==>
                || (p in w.pending && v.pending[p] == w.pending[p])
                || (HasOutcome(w.procs[p].pc) && v.pending[p].outcome == w.procs[p].pc.outcome)))
    && (v.procs[p].pc.RecoverReady? || v.procs[p].pc.RecoverCommitting? ==>
          (w.procs[p].pc.RecoverReady? || w.procs[p].pc.RecoverCommitting?)
          && v.procs[p].pc.outcome == w.procs[p].pc.outcome)
  }

  lemma QuietTold(w: World, v: World, h: History, p: Pid)
    requires p in w.procs && ProcTold(w, h, p, w.procs[p]) && QuietMove(w, v, p) && Extends(w, v, p)
    ensures ProcTold(v, h, p, v.procs[p])
  {
    hide OutcomeOf;
  }

  predicate NoBuild(s: Step) {
    !s.Tick? && !s.AppendOther? && !s.Begin? && !s.BeginRecovery? && !s.Execute? && !s.Build?
  }

  lemma LookUpQuiet(w: World, p: Pid, ok: bool)
    requires p in w.procs
    ensures QuietMove(w, DoLookUp(w, p, ok), p)
  {
    hide Lookup, BindingDigest;
  }

  lemma SelectQuiet(w: World, p: Pid, ok: bool)
    requires p in w.procs
    ensures QuietMove(w, DoSelect(w, p, ok), p)
  {
    hide SelectForBinding;
  }

  lemma PlainSteps(w: World, p: Pid, ok: bool)
    requires p in w.procs
    ensures Apply(w, Validate(p, ok)) == if w.procs[p].pc == Validating
            then At(w, p, if ok then Selecting else Raised) else w
    ensures Apply(w, LateAbort(p)) == w.(pending := w.pending - {p})
    ensures Apply(w, Crash(p)) == if w.procs[p].pc.Done? || w.procs[p].pc.Raised? then w else At(w, p, Crashed)
  {
    hide At;
  }

  lemma PlainQuiet(w: World, p: Pid, ok: bool)
    requires p in w.procs
    ensures QuietMove(w, Apply(w, Validate(p, ok)), p)
    ensures QuietMove(w, Apply(w, LateAbort(p)), p) && QuietMove(w, Apply(w, Crash(p)), p)
  {
    hide Apply;
    PlainSteps(w, p, ok);
  }

  lemma EarlyHoldsNothing(w: World, p: Pid)
    requires p in w.procs && ProcOk(w, p) && Early(w.procs[p].pc) && w.procs[p].Dispatch?
    ensures w.procs[p].held.None?
  {
    hide LinkOk, StoredInputsValid, ParsedForTenant, Settled;
  }

  lemma InsertQuiet(w: World, p: Pid, x: Writing, attempt: Id, lease: nat, ack: bool)
    requires p in w.procs && ProcOk(w, p)
    ensures QuietMove(w, DoInsert(w, p, x, attempt, lease, ack), p)
  {
    hide PrepareInsert, ProcOk;
    if w.procs[p].Dispatch? && w.procs[p].pc == Inserting {
      EarlyHoldsNothing(w, p);
    }
  }

  lemma RenewQuiet(w: World, p: Pid, lease: nat, ack: bool)
    requires p in w.procs && ProcOk(w, p)
    ensures QuietMove(w, DoRenewFirst(w, p, lease, ack), p) && QuietMove(w, DoHeartbeat(w, p, lease), p)
  {
    hide Readable, StoredInputsValid, ParsedForTenant, Settled, OutcomeBinds;
    if w.procs[p].Dispatch? && w.procs[p].held.Some? {
      RenewKeepsIntent(w, p, lease);
    }
  }

  lemma RenewKeepsIntent(w: World, p: Pid, lease: nat)
    requires p in w.procs && ProcOk(w, p) && w.procs[p].Dispatch? && w.procs[p].held.Some?
    ensures var a, held := w.procs[p].auth, w.procs[p].held.value;
            var r := Renew(w.db, a.actor, a.request.requestId, held.attempt, held.generation, w.now, lease);
            r.value.Some? ==> r.value.value.intent == held.intent
  {
    hide Readable, StoredInputsValid, ParsedForTenant, Settled, OutcomeBinds, LocalOk;
  }

  lemma CheckQuiet(w: World, p: Pid, ok: bool)
    requires p in w.procs
    ensures QuietMove(w, DoCheckComplete(w, p, ok), p)
  {
    hide CompleteVerdict;
  }

  lemma CheckRecoverQuiet(w: World, p: Pid, ok: bool)
    requires p in w.procs
    ensures QuietMove(w, DoCheckRecover(w, p, ok), p)
  {
    hide RecoverVerdict;
  }

  lemma CommitQuiet(w: World, p: Pid, x: Writing, reply: Acknowledgement)
    requires p in w.procs
    ensures QuietMove(w, DoCommit(w, p, x, reply), p)
  {
    hide CompleteCommit;
  }

  lemma LateQuiet(w: World, p: Pid, x: Writing, at: int)
    requires p in w.procs
    ensures QuietMove(w, DoLateCommit(w, p, x, at), p)
  {
    hide CompleteCommit;
  }

  lemma CommitRecoverQuiet(w: World, p: Pid, x: Writing, ack: bool)
    requires p in w.procs
    ensures QuietMove(w, DoCommitRecover(w, p, x, ack), p)
  {
    hide RecoverCommit;
  }

  lemma ReconcileQuiet(w: World, p: Pid, ok: bool)
    requires p in w.procs && ProcOk(w, p)
    ensures QuietMove(w, DoReconcile(w, p, ok), p) && QuietMove(w, DoRevert(w, p, ok), p)
  {
    hide Lookup, LinkOk, StoredInputsValid, ParsedForTenant, Settled;
  }

  lemma MovesQuietly(w: World, s: Step)
    requires NoBuild(s) && s.pid in w.procs && ProcOk(w, s.pid)
    ensures QuietMove(w, Apply(w, s), s.pid)
  {
    hide ProcOk, QuietMove, DoLookUp, DoSelect, DoInsert, DoRenewFirst, DoHeartbeat, DoCheckComplete, DoCommit,
         DoLateCommit, DoReconcile, DoRevert, DoCheckRecover, DoCommitRecover;
    var p := s.pid;
    match s
    case LookUp(_, ok) => LookUpQuiet(w, p, ok);
    case Validate(_, ok) => PlainQuiet(w, p, ok);
    case Select(_, ok) => SelectQuiet(w, p, ok);
    case Insert(_, x, attempt, lease, ack) => InsertQuiet(w, p, x, attempt, lease, ack);
    case RenewFirst(_, lease, ack) => RenewQuiet(w, p, lease, ack);
    case Heartbeat(_, lease) => RenewQuiet(w, p, lease, true);
    case CheckComplete(_, ok) => CheckQuiet(w, p, ok);
    case Commit(_, x, reply) => CommitQuiet(w, p, x, reply);
    case LateCommit(_, x, at) => LateQuiet(w, p, x, at);
    case LateAbort(_) => PlainQuiet(w, p, true);
    case Reconcile(_, ok) => ReconcileQuiet(w, p, ok);
    case Revert(_, ok) => ReconcileQuiet(w, p, ok);
    case CheckRecover(_, ok) => CheckRecoverQuiet(w, p, ok);
    case CommitRecover(_, x, ack) => CommitRecoverQuiet(w, p, x, ack);
    case Crash(_) => PlainQuiet(w, p, true);
  }

  // ---- Rows whose outcome changes ----

  /** Every row keeps its outcome, or is new and has none. */
  ghost predicate OutcomesKept(w: World, v: World) {
    forall k | k in v.db.effects ::
      if k in w.db.effects then SameOutcome(w.db.effects[k], v.db.effects[k]) else v.db.effects[k].outcome.None?
  }

  lemma InsertKeepsOutcomes(w: World, p: Pid, x: Writing, attempt: Id, lease: nat, ack: bool)
    requires p in w.procs
    ensures OutcomesKept(w, DoInsert(w, p, x, attempt, lease, ack))
  {
    hide AppendEvidence, BindingDigest, IntentPayload;
    if w.procs[p].Dispatch? && KeyOf(w.procs[p].auth) in w.db.effects {
      assert Clashes(KeyOf(w.procs[p].auth), w.db.effects[KeyOf(w.procs[p].auth)], w.procs[p].auth);
    }
  }

  lemma RenewKeepsOutcomes(w: World, p: Pid, lease: nat, ack: bool)
    requires p in w.procs
    ensures OutcomesKept(w, DoRenewFirst(w, p, lease, ack)) && OutcomesKept(w, DoHeartbeat(w, p, lease))
  {
    hide Readable;
  }

  lemma TouchesNoRow(w: World, s: Step)
    requires NoBuild(s) && s.pid in w.procs && !s.Insert? && !s.RenewFirst? && !s.Heartbeat? && !s.Commit?
             && !s.LateCommit? && !s.CommitRecover?
    ensures Apply(w, s).db == w.db
  {
    hide LookedUp, Chosen, Checked, Reread, RecoveryChecked;
  }

  /** What a completing transaction does to the row of its dispatch. */
  predicate Completes(db: EffectDb, next: EffectDb, k: RowKey, a: Authority, o: Outcome) {
    next.effects == db.effects
    || (k in db.effects && k in next.effects && next.effects == db.effects[k := next.effects[k]]
        && var row := next.effects[k];
           row.auth == db.effects[k].auth && row.intent == db.effects[k].intent && row.outcome == Some(o)
           && row.generation == db.effects[k].generation && Live(db.effects[k].state)
           && row.outcomeEvent.Some? && row.outcomeEvent.value.payload == OutcomePayload(a, o, false))
  }

  lemma AppendedPayload(runs: map<RunKey, RunLog>, actor: ActorContext, run: Id, envelopeId: Id, ref: Ref,
                        payload: Payload, clock: int)
    ensures var x := AppendEvidence(runs, actor, run, envelopeId, ref, payload, clock);
            x.Some? ==> x.value.1.payload == payload
  {
  }

  lemma CommitCompletes(db: EffectDb, actor: ActorContext, id: Id, stored: Row, version: nat, attempt: Id,
                        generation: nat, o: Outcome, x: Writing, now: int)
    ensures Completes(db, CompleteCommit(db, actor, id, stored, version, attempt, generation, o, x.envelopeId, x.clock,
                                         now).db, (actor.tenant, id), stored.auth, o)
  {
    hide AppendEvidence, OutcomePayload;
    AppendedPayload(db.runs, actor, stored.auth.request.runId, x.envelopeId, PolicyRef(stored.auth.policy),
                    OutcomePayload(stored.auth, o, false), x.clock);
  }

  /** What a recovering transaction does to its row. */
  predicate Fences(db: EffectDb, next: EffectDb, k: RowKey, a: Authority, o: Outcome) {
    next.effects == db.effects
    || (k in db.effects && k in next.effects && next.effects == db.effects[k := next.effects[k]]
        && var row := next.effects[k];
           row.auth == db.effects[k].auth && row.intent == db.effects[k].intent && row.outcome == Some(o)
           && row.generation == db.effects[k].generation + 1
           && row.outcomeEvent.Some? && row.outcomeEvent.value.payload == OutcomePayload(a, o, true))
  }

  lemma CommitFences(db: EffectDb, actor: ActorContext, id: Id, stored: Row, o: Outcome, x: Writing, now: int)
    ensures Fences(db, RecoverCommit(db, actor, id, stored, o, x.envelopeId, x.clock, now).db, (actor.tenant, id),
                   stored.auth, o)
  {
    hide AppendEvidence, OutcomePayload;
    AppendedPayload(db.runs, actor, stored.auth.request.runId, x.envelopeId, PolicyRef(stored.auth.policy),
                    OutcomePayload(stored.auth, o, true), x.clock);
  }

  /** A dispatch that holds a row created it, with its own authority and intent. */
  lemma HeldRow(w: World, p: Pid)
    requires p in w.procs && ProcOk(w, p) && w.procs[p].Dispatch? && w.procs[p].held.Some?
    ensures var k := KeyOf(w.procs[p].auth);
            && k in w.db.effects && k in w.creators && w.creators[k] == p
            && w.db.effects[k].auth == w.procs[p].auth && w.db.effects[k].intent == w.procs[p].held.value.intent
  {
    hide LocalOk, Settled, OutcomeBinds;
  }

  lemma LiveGeneration(w: World, k: RowKey)
    requires Inv(w) && k in w.db.effects
    ensures 1 <= w.db.effects[k].generation && (Live(w.db.effects[k].state) ==> w.db.effects[k].generation == 1)
  {
    hide RowsUnique, CallsOk, Fits, BoundShape;
    assert RowOk(w, k);
  }

  /** After a completion by `p` each row keeps its outcome or was told by `p`. */
  lemma CompletedTold(w: World, v: World, h: History, p: Pid, o: Outcome)
    requires Inv(w) && p in w.procs && ProcOk(w, p) && w.procs[p].Dispatch? && w.procs[p].held.Some?
    requires v.creators == w.creators
    requires ToldBy(h, p, w.procs[p].auth, w.procs[p].held.value.intent, o)
    requires Completes(w.db, v.db, KeyOf(w.procs[p].auth), w.procs[p].auth, o)
    ensures forall k | k in v.db.effects ::
              (k in w.db.effects && SameOutcome(w.db.effects[k], v.db.effects[k])) || RowTold(v, h, k)
  {
    hide Inv, ProcOk, OutcomeOf;
    HeldRow(w, p);
    LiveGeneration(w, KeyOf(w.procs[p].auth));
  }

  lemma FencedTold(w: World, v: World, h: History, p: Pid, o: Outcome)
    requires Inv(w) && p in w.procs && w.procs[p].Recovery? && KeyOfProcess(w.procs[p]) in w.db.effects
    requires p in v.procs && SameOwner(w.procs[p], v.procs[p])
    requires var row := w.db.effects[KeyOfProcess(w.procs[p])]; GivenUpBy(h, p, row.auth, row.intent, o)
    requires Fences(w.db, v.db, KeyOfProcess(w.procs[p]), w.db.effects[KeyOfProcess(w.procs[p])].auth, o)
    ensures forall k | k in v.db.effects ::
              (k in w.db.effects && SameOutcome(w.db.effects[k], v.db.effects[k])) || RowTold(v, h, k)
  {
    hide Inv, OutcomeOf;
    LiveGeneration(w, KeyOfProcess(w.procs[p]));
  }

  // ---- Steps ----

  lemma WrittenByCommit(w: World, h: History, p: Pid, x: Writing, reply: Acknowledgement)
    requires Inv(w) && p in w.procs && ProcOk(w, p) && ProcTold(w, h, p, w.procs[p])
    ensures var v := DoCommit(w, p, x, reply);
            forall k | k in v.db.effects ::
              (k in w.db.effects && SameOutcome(w.db.effects[k], v.db.effects[k])) || RowTold(v, h, k)
  {
    hide Inv, ProcOk, CompleteCommit, ToldBy, RowTold, Completes;
    var v := DoCommit(w, p, x, reply);
    match w.procs[p] {
      case Dispatch(a, Some(held), Committing(o, stored)) =>
        StoredAuthority(w, p);
        CommitCompletes(w.db, a.actor, a.request.requestId, stored, held.version, held.attempt, held.generation, o, x,
                        w.now);
        assert v.db == w.db ==> Completes(w.db, v.db, KeyOf(a), a, o) by { SameCompletes(w.db, KeyOf(a), a, o); }
        CompletedTold(w, v, h, p, o);
      case _ =>
    }
  }

  /** The row that a process is about to write, as it read it, is under the authority of its row. */
  lemma StoredAuthority(w: World, p: Pid)
    requires p in w.procs && ProcOk(w, p)
    ensures w.procs[p].Dispatch? && w.procs[p].held.Some? ==>
              && (w.procs[p].pc.Committing? ==> w.procs[p].pc.stored.auth == w.procs[p].auth)
              && (p in w.pending ==> w.pending[p].stored.auth == w.procs[p].auth)
    ensures w.procs[p].Recovery? && w.procs[p].pc.RecoverCommitting? && KeyOfProcess(w.procs[p]) in w.db.effects ==>
              w.procs[p].pc.stored.auth == w.db.effects[KeyOfProcess(w.procs[p])].auth
  {
    hide LocalOk, Settled, OutcomeBinds;
  }

  lemma SameCompletes(db: EffectDb, k: RowKey, a: Authority, o: Outcome)
    ensures Completes(db, db, k, a, o)
  {
  }

  lemma WrittenLate(w: World, h: History, p: Pid, x: Writing, at: int)
    requires Inv(w) && p in w.procs && ProcOk(w, p) && ProcTold(w, h, p, w.procs[p])
    ensures var v := DoLateCommit(w, p, x, at);
            forall k | k in v.db.effects ::
              (k in w.db.effects && SameOutcome(w.db.effects[k], v.db.effects[k])) || RowTold(v, h, k)
  {
    hide Inv, ProcOk, CompleteCommit, ToldBy, RowTold, Completes;
    var v := DoLateCommit(w, p, x, at);
    match w.procs[p] {
      case Dispatch(a, Some(held), _) =>
        if p in w.pending && at <= w.now {
          var t := w.pending[p];
          StoredAuthority(w, p);
          CommitCompletes(w.db, a.actor, a.request.requestId, t.stored, held.version, held.attempt, held.generation,
                          t.outcome, x, at);
          CompletedTold(w, v, h, p, t.outcome);
        }
      case _ =>
    }
  }

  lemma WrittenByRecovery(w: World, h: History, p: Pid, x: Writing, ack: bool)
    requires Inv(w) && p in w.procs && ProcOk(w, p) && ProcTold(w, h, p, w.procs[p])
    ensures var v := DoCommitRecover(w, p, x, ack);
            forall k | k in v.db.effects ::
              (k in w.db.effects && SameOutcome(w.db.effects[k], v.db.effects[k])) || RowTold(v, h, k)
  {
    hide Inv, ProcOk, RecoverCommit, GivenUpBy, RowTold, Fences;
    var v := DoCommitRecover(w, p, x, ack);
    match w.procs[p] {
      case Recovery(actor, id, RecoverCommitting(o, stored)) =>
        StoredAuthority(w, p);
        CommitFences(w.db, actor, id, stored, o, x, w.now);
        FencedTold(w, v, h, p, o);
      case _ =>
    }
  }

  lemma Written(w: World, h: History, s: Step)
    requires Inv(w) && NoBuild(s) && s.pid in w.procs && ProcOk(w, s.pid) && ProcTold(w, h, s.pid, w.procs[s.pid])
    ensures var v := Apply(w, s);
            forall k | k in v.db.effects ::
              (k in w.db.effects && SameOutcome(w.db.effects[k], v.db.effects[k])) || RowTold(v, h, k)
  {
    hide Inv, ProcOk, ProcTold, ToldBy, GivenUpBy, SameOutcome, DoLookUp, DoSelect, DoInsert, DoRenewFirst, DoHeartbeat,
         DoCheckComplete, DoCommit, DoLateCommit, DoReconcile, DoRevert, DoCheckRecover, DoCommitRecover;
    var p := s.pid;
    match s
    case Insert(_, x, attempt, lease, ack) => InsertKeepsOutcomes(w, p, x, attempt, lease, ack);
    case RenewFirst(_, lease, ack) => RenewKeepsOutcomes(w, p, lease, ack);
    case Heartbeat(_, lease) => RenewKeepsOutcomes(w, p, lease, true);
    case Commit(_, x, reply) => WrittenByCommit(w, h, p, x, reply);
    case LateCommit(_, x, at) => WrittenLate(w, h, p, x, at);
    case CommitRecover(_, x, ack) => WrittenByRecovery(w, h, p, x, ack);
    case _ =>
      TouchesNoRow(w, s);
      RowsAlike(w);
  }

  lemma RowsAlike(w: World)
    ensures forall k | k in w.db.effects :: SameOutcome(w.db.effects[k], w.db.effects[k])
  {
  }

  /** A step that neither calls nor builds tells nothing new. */
  lemma PlainKeepsTold(w: World, h: History, s: Step)
    requires Inv(w) && Told(w, h) && NoBuild(s) && s.pid in w.procs
    ensures Told(Apply(w, s), h)
  {
    hide Inv, ProcTold, RowTold, Extends, SameOutcome, QuietMove, Apply, SameOwner, ProcOk;
    var v, p := Apply(w, s), s.pid;
    OwnProcess(w, p);
    MovesQuietly(w, s);
    OwnStepExtends(w, s);
    QuietTold(w, v, h, p);
    Written(w, h, s);
    EffectsKeep(w, s);
    QuietOwner(w, v, p);
    KeepsTold(w, v, h, h, p);
  }

  lemma OwnProcess(w: World, p: Pid)
    requires Inv(w) && p in w.procs
    ensures ProcOk(w, p)
  {
    hide RowsOk, RowsUnique, CallsOk, ProcOk;
  }

  lemma QuietOwner(w: World, v: World, p: Pid)
    requires p in w.procs && QuietMove(w, v, p) && Extends(w, v, p)
    ensures p in v.procs && SameOwner(w.procs[p], v.procs[p]) && w.procs.Keys <= v.procs.Keys
  {
  }

  lemma EffectsKeep(w: World, s: Step)
    requires NoBuild(s) && s.pid in w.procs
    ensures Apply(w, s).effects.Keys == w.effects.Keys
  {
    hide LookedUp, Chosen, Checked, Reread, RecoveryChecked, PrepareInsert, Renew, CompleteCommit, RecoverCommit,
         DoRevert;
    RevertKeepsEffects(w, s.pid);
  }

  lemma RevertKeepsEffects(w: World, p: Pid)
    requires p in w.procs
    ensures forall ok :: DoRevert(w, p, ok).effects.Keys == w.effects.Keys
  {
  }

  lemma ExecuteKeepsTold(w: World, h: History, p: Pid, b: Behaviour)
    requires Inv(w) && Told(w, h) && p in w.procs
    ensures Told(Apply(w, Execute(p, b)), Observed(h, w, Execute(p, b)))
  {
    hide Inv, ProcOk, RowTold, Extends, SameOutcome;
    var v, g := Apply(w, Execute(p, b)), Observed(h, w, Execute(p, b));
    OwnProcess(w, p);
    ObservedGrows(w, h, Execute(p, b));
    OwnStepExtends(w, Execute(p, b));
    ExecuteTold(w, h, p, b);
    AppliesTo(w, p);
    ExecuteFrame(w, p, b);
    OwnerStays(w.procs[p], v.procs[p]);
    RowsAlike(w);
    KeepsTold(w, v, h, g, p);
  }

  lemma OwnerStays(c: Process, d: Process)
    requires d == c.(pc := d.pc)
    ensures SameOwner(c, d)
  {
  }

  lemma ExecuteTold(w: World, h: History, p: Pid, b: Behaviour)
    requires p in w.procs && ProcOk(w, p) && ProcTold(w, h, p, w.procs[p]) && h.answers.Keys == w.effects.Keys
    ensures var v, g := Apply(w, Execute(p, b)), Observed(h, w, Execute(p, b));
            && p in v.procs && ProcTold(v, g, p, v.procs[p])
            && g.answers.Keys == v.effects.Keys && g.stamps == h.stamps && v.db == w.db
            && v.procs.Keys == w.procs.Keys
  {
    hide OutcomeOf, Apply, ProcOk, DoExecute;
    AppliesTo(w, p);
    ExecuteFrame(w, p, b);
    if w.procs[p].Dispatch? && w.procs[p].pc.Ready? {
      NothingWaits(w, p);
    }
  }

  lemma ExecuteFrame(w: World, p: Pid, b: Behaviour)
    requires p in w.procs
    ensures var v := DoExecute(w, p, b);
            && p in v.procs && v.db == w.db && v.procs.Keys == w.procs.Keys && v.pending == w.pending
            && v.procs[p] == w.procs[p].(pc := v.procs[p].pc)
            && if w.procs[p].Recovery? || w.procs[p].pc != Ready then v == w
               else
                 && v.effects.Keys == w.effects.Keys + {p}
                 && match b
                    case Returns(result) => v.procs[p].pc == Ran(Succeeded, result)
                    case Breaks(_, reverted) =>
                      v.procs[p].pc == if reverted then Ran(StatusIndeterminate, BROKEN_RESULT) else Raised
  {
  }

  lemma AppliesTo(w: World, p: Pid)
    requires p in w.procs
    ensures forall b :: Apply(w, Execute(p, b)) == DoExecute(w, p, b)
    ensures forall ok, s :: Apply(w, Build(p, ok, s)) == DoBuild(w, p, ok, s)
  {
    hide DoExecute, DoBuild;
  }

  lemma NothingWaits(w: World, p: Pid)
    requires p in w.procs && ProcOk(w, p) && w.procs[p].Dispatch? && (w.procs[p].pc.Ready? || w.procs[p].pc.Ran?)
    ensures p !in w.pending
  {
    hide LinkOk, StoredInputsValid, ParsedForTenant, Settled;
  }

  lemma BuildKeepsTold(w: World, h: History, p: Pid, ok: bool, s: Stamp)
    requires Inv(w) && Told(w, h) && p in w.procs
    ensures Told(Apply(w, Build(p, ok, s)), Observed(h, w, Build(p, ok, s)))
  {
    hide Inv, ProcOk, RowTold, Extends, SameOutcome;
    var v, g := Apply(w, Build(p, ok, s)), Observed(h, w, Build(p, ok, s));
    OwnProcess(w, p);
    ObservedGrows(w, h, Build(p, ok, s));
    OwnStepExtends(w, Build(p, ok, s));
    BuildTold(w, h, p, ok, s);
    RowsAlike(w);
    KeepsTold(w, v, h, g, p);
  }

  lemma BuildTold(w: World, h: History, p: Pid, ok: bool, s: Stamp)
    requires p in w.procs && ProcOk(w, p) && ProcTold(w, h, p, w.procs[p]) && h.answers.Keys == w.effects.Keys
    ensures var v, g := Apply(w, Build(p, ok, s)), Observed(h, w, Build(p, ok, s));
            && p in v.procs && ProcTold(v, g, p, v.procs[p]) && SameOwner(w.procs[p], v.procs[p])
            && g.answers == h.answers && v.effects == w.effects && g.stamps.Keys <= h.stamps.Keys + {p} && v.db == w.db
            && v.procs.Keys == w.procs.Keys
  {
    hide Apply, ProcOk, ProcTold, DoBuild;
    AppliesTo(w, p);
    if w.procs[p].Dispatch? {
      DispatchBuilds(w, h, p, ok, s);
    } else {
      RecoveryBuilds(w, h, p, ok, s);
    }
    BuildFrame(w, p, ok, s);
  }

  lemma BuildFrame(w: World, p: Pid, ok: bool, s: Stamp)
    requires p in w.procs
    ensures var v := DoBuild(w, p, ok, s);
            && p in v.procs && SameOwner(w.procs[p], v.procs[p]) && v.effects == w.effects && v.db == w.db
            && v.procs.Keys == w.procs.Keys
  {
    hide DoBuild;
    BuildMoves(w, p, ok, s);
  }

  lemma BuildMoves(w: World, p: Pid, ok: bool, s: Stamp)
    requires p in w.procs
    ensures DoBuild(w, p, ok, s) == w || exists pc :: DoBuild(w, p, ok, s) == At(w, p, pc)
  {
    hide BuildOutcome, ScopeDerivable, At;
  }

  lemma HeldWhenRan(w: World, p: Pid)
    requires p in w.procs && ProcOk(w, p) && w.procs[p].Dispatch? && w.procs[p].pc.Ran?
    ensures w.procs[p].held.Some?
  {
    hide LinkOk, StoredInputsValid, ParsedForTenant, Settled;
  }

  lemma NotWhileOutlining(w: World, p: Pid)
    requires p in w.procs && ProcOk(w, p) && w.procs[p].pc.Outlining?
    ensures w.procs[p].Recovery? && KeyOfProcess(w.procs[p]) in w.db.effects
            && w.db.effects[KeyOfProcess(w.procs[p])].auth == w.procs[p].pc.target.auth
            && w.db.effects[KeyOfProcess(w.procs[p])].intent == w.procs[p].pc.target.intent
  {
    hide StoredInputsValid, ParsedForTenant, Settled, OutcomeBinds;
  }

  lemma DispatchBuilds(w: World, h: History, p: Pid, ok: bool, s: Stamp)
    requires p in w.procs && ProcOk(w, p) && ProcTold(w, h, p, w.procs[p]) && w.procs[p].Dispatch?
    ensures var v, g := DoBuild(w, p, ok, s), Observed(h, w, Build(p, ok, s));
            p in v.procs && ProcTold(v, g, p, v.procs[p])
  {
    hide BuildOutcome, OutcomeOf, ScopeDerivable, ProcOk, InContext;
    if w.procs[p].pc.Ran? {
      HeldWhenRan(w, p);
      NothingWaits(w, p);
      var a, held := w.procs[p].auth, w.procs[p].held.value;
      BuiltSays(a, held.intent, w.procs[p].pc.status, w.procs[p].pc.result, s);
      BuiltInContext(a, held.intent, w.procs[p].pc.status, w.procs[p].pc.result, s);
    } else if w.procs[p].pc.Outlining? {
      NotWhileOutlining(w, p);
    }
  }

  lemma RecoveryBuilds(w: World, h: History, p: Pid, ok: bool, s: Stamp)
    requires p in w.procs && ProcOk(w, p) && ProcTold(w, h, p, w.procs[p]) && w.procs[p].Recovery?
    ensures var v, g := DoBuild(w, p, ok, s), Observed(h, w, Build(p, ok, s));
            p in v.procs && ProcTold(v, g, p, v.procs[p])
  {
    hide BuildOutcome, OutcomeOf, ScopeDerivable, ProcOk, InContext;
    if w.procs[p].pc.Outlining? {
      var row := w.procs[p].pc.target;
      NotWhileOutlining(w, p);
      BuiltSays(row.auth, row.intent, StatusIndeterminate, RECOVERED_RESULT, s);
      BuiltInContext(row.auth, row.intent, StatusIndeterminate, RECOVERED_RESULT, s);
    } else if w.procs[p].pc.Ran? {
      NotRecovering(w, p);
    }
  }

  lemma NotRecovering(w: World, p: Pid)
    requires p in w.procs && ProcOk(w, p) && w.procs[p].pc.Ran?
    ensures w.procs[p].Dispatch?
  {
    hide LinkOk, StoredInputsValid, ParsedForTenant, Settled;
  }

  lemma BuiltInContext(a: Authority, intent: Event, status: Status, result: Id, s: Stamp)
    ensures ScopeDerivable(a.actor, s.clock) ==> InContext(BuildOutcome(a, intent, status, result, s), a)
  {
  }

  /** Time, other writers, and processes that begin. */
  lemma BeginKeepsTold(w: World, h: History, s: Step)
    requires Inv(w) && Told(w, h)
    requires s.Tick? || s.AppendOther? || s.Begin? || s.BeginRecovery?
    ensures Told(Apply(w, s), h)
  {
    hide Inv, RowTold, ProcTold, DoAppendOther, ParsedForTenant;
    var v := Apply(w, s);
    BeginFrame(w, s);
    forall p | p in v.procs ensures ProcTold(v, h, p, v.procs[p]) {
      if p in w.procs {
        SameViewTold(w, v, h, p);
      } else {
        StrangerIsTold(w, v, h, p);
      }
    }
    forall k | k in v.db.effects ensures RowTold(v, h, k) {
      SameRowTold(w, v, h, k);
    }
  }

  ghost predicate Begun(w: World, v: World) {
    && v.db.effects == w.db.effects && v.creators == w.creators && v.effects == w.effects && v.pending == w.pending
    && (forall p | p in w.procs :: p in v.procs && v.procs[p] == w.procs[p])
    && (forall p | p in v.procs && p !in w.procs :: v.procs[p].pc == Looking)
  }

  lemma BeginFrame(w: World, s: Step)
    requires s.Tick? || s.AppendOther? || s.Begin? || s.BeginRecovery?
    ensures Begun(w, Apply(w, s))
  {
    hide DoAppendOther, ParsedForTenant;
    if s.AppendOther? {
      AppendOtherOnlyRuns(w, s.actor, s.run, s.ref, s.payload, s.w);
    }
  }

  lemma SameViewTold(w: World, v: World, h: History, p: Pid)
    requires p in w.procs && ProcTold(w, h, p, w.procs[p]) && Begun(w, v)
    ensures p in v.procs && ProcTold(v, h, p, v.procs[p])
  {
    hide ToldBy, GivenUpBy;
  }

  lemma StrangerIsTold(w: World, v: World, h: History, p: Pid)
    requires Inv(w) && Told(w, h) && Begun(w, v) && p in v.procs && p !in w.procs
    ensures ProcTold(v, h, p, v.procs[p])
  {
    hide RowsOk, RowsUnique, CallsOk, Fits, RowTold;
  }

  lemma SameRowTold(w: World, v: World, h: History, k: RowKey)
    requires k in w.db.effects && RowTold(w, h, k) && Begun(w, v)
    ensures RowTold(v, h, k)
  {
    hide ToldBy, GivenUpBy;
    var row := w.db.effects[k];
    if row.outcome.Some? && row.generation != 1 {
      var q :| q in w.procs && w.procs[q].Recovery? && KeyOfProcess(w.procs[q]) == k
        && GivenUpBy(h, q, row.auth, row.intent, row.outcome.value);
      assert q in v.procs && KeyOfProcess(v.procs[q]) == k;
    }
  }

  lemma StepKeepsTold(w: World, h: History, s: Step)
    requires Inv(w) && Told(w, h)
    ensures Told(Apply(w, s), Observed(h, w, s))
  {
    hide Inv, Told;
    if s.Tick? || s.AppendOther? || s.Begin? || s.BeginRecovery? {
      hide Apply;
      BeginKeepsTold(w, h, s);
    } else if s.pid in w.procs {
      hide Apply;
      match s
      case Execute(p, b) => ExecuteKeepsTold(w, h, p, b);
      case Build(p, ok, stamp) => BuildKeepsTold(w, h, p, ok, stamp);
      case _ => PlainKeepsTold(w, h, s);
    } else {
      StrangerSteps(w, s);
    }
  }

  lemma StrangerSteps(w: World, s: Step)
    requires !s.Tick? && !s.AppendOther? && !s.Begin? && !s.BeginRecovery? && s.pid !in w.procs
    ensures Apply(w, s) == w
  {
    hide DoLookUp, DoSelect, DoInsert, DoRenewFirst, DoHeartbeat, DoExecute, DoBuild, DoCheckComplete, DoCommit,
         DoLateCommit, DoReconcile, DoRevert, DoCheckRecover, DoCommitRecover, DoAppendOther;
  }

  lemma {:induction false} ReachableTold(schedule: seq<Step>)
    ensures Told(Run(schedule), HistoryOf(schedule))
    decreases |schedule|
  {
    if schedule != [] {
      hide Inv, Told, Apply, Observed;
      ReachableTold(schedule[..|schedule| - 1]);
      ReachableInv(schedule[..|schedule| - 1]);
      StepKeepsTold(Run(schedule[..|schedule| - 1]), HistoryOf(schedule[..|schedule| - 1]), schedule[|schedule| - 1]);
    }
  }

  // ---- The history is that of the schedule ----

  /** The `i`th step is the call of this dispatch's executor, which behaves like this. */
  predicate AnsweredAt(schedule: seq<Step>, i: nat, p: Pid, b: Behaviour) {
    && i < |schedule| && schedule[i] == Execute(p, b)
    && var w := Run(schedule[..i]); p in w.procs && w.procs[p].Dispatch? && w.procs[p].pc == Ready
  }

  /** In the `i`th step the process builds its outcome. */
  predicate BuiltAt(schedule: seq<Step>, i: nat, p: Pid, s: Stamp) {
    && i < |schedule| && schedule[i].Build? && schedule[i].pid == p && schedule[i].stamp == s
    && var w := Run(schedule[..i]); p in w.procs && (w.procs[p].pc.Ran? || w.procs[p].pc.Outlining?)
  }

  lemma SamePrefix(schedule: seq<Step>, i: nat)
    requires i < |schedule| - 1
    ensures schedule[..|schedule| - 1][..i] == schedule[..i] && schedule[..|schedule| - 1][i] == schedule[i]
  {
  }

  lemma LastAnswer(schedule: seq<Step>, p: Pid, b: Behaviour)
    requires schedule != []
    ensures var before, n := schedule[..|schedule| - 1], |schedule| - 1;
            (p in HistoryOf(schedule).answers && HistoryOf(schedule).answers[p] == b) <==>
              AnsweredAt(schedule, n, p, b) || (p in HistoryOf(before).answers && HistoryOf(before).answers[p] == b)
  {
    AnsweredOnce(schedule[..|schedule| - 1], p);
    hide Run;
  }

  lemma LastStamp(schedule: seq<Step>, p: Pid, s: Stamp)
    requires schedule != []
    ensures var before, n := schedule[..|schedule| - 1], |schedule| - 1;
            (p in HistoryOf(schedule).stamps && HistoryOf(schedule).stamps[p] == s) <==>
              BuiltAt(schedule, n, p, s) || (p in HistoryOf(before).stamps && HistoryOf(before).stamps[p] == s)
  {
    BuiltOnce(schedule[..|schedule| - 1], p);
    hide Run;
  }

  /** What the history says was answered is what the called executor answered in the schedule. */
  lemma {:induction false} AnswersExactly(schedule: seq<Step>, p: Pid, b: Behaviour)
    ensures (p in HistoryOf(schedule).answers && HistoryOf(schedule).answers[p] == b)
            <==> exists i: nat :: AnsweredAt(schedule, i, p, b)
    decreases |schedule|
  {
    if schedule != [] {
      var n, before := |schedule| - 1, schedule[..|schedule| - 1];
      AnswersExactly(before, p, b);
      LastAnswer(schedule, p, b);
      forall i: nat | i < n ensures AnsweredAt(schedule, i, p, b) <==> AnsweredAt(before, i, p, b) {
        hide Run;
        SamePrefix(schedule, i);
      }
      hide AnsweredAt, HistoryOf;
      if i: nat :| AnsweredAt(before, i, p, b) {
        assert i < n by { InBounds(before, i, p, b); }
      }
      if i: nat :| AnsweredAt(schedule, i, p, b) {
        assert i <= n by { InBounds(schedule, i, p, b); }
      }
    }
  }

  lemma InBounds(schedule: seq<Step>, i: nat, p: Pid, b: Behaviour)
    requires AnsweredAt(schedule, i, p, b)
    ensures i < |schedule|
  {
    hide Run;
  }

  /** A dispatch that was called is not ready any more. */
  lemma AnsweredOnce(schedule: seq<Step>, p: Pid)
    ensures p in HistoryOf(schedule).answers ==> p in Run(schedule).procs && !Run(schedule).procs[p].pc.Ready?
  {
    hide Run, HistoryOf, Inv, Told;
    ReachableTold(schedule);
    ReachableInv(schedule);
    if p in HistoryOf(schedule).answers {
      CalledNotReady(Run(schedule), HistoryOf(schedule), p);
    }
  }

  lemma CalledNotReady(w: World, h: History, p: Pid)
    requires Inv(w) && Told(w, h) && p in h.answers
    ensures p in w.procs && !w.procs[p].pc.Ready?
  {
    hide RowsOk, RowsUnique, CallsOk, LinkOk, StoredInputsValid, ParsedForTenant, Settled, RowTold, ProcTold;
    assert ProcOk(w, p);
  }

  lemma BuiltOnce(schedule: seq<Step>, p: Pid)
    ensures var c := Run(schedule).procs;
            p in HistoryOf(schedule).stamps ==> p in c && !c[p].pc.Ran? && !c[p].pc.Outlining?
  {
    hide Run, HistoryOf, RowTold, ToldBy, GivenUpBy;
    ReachableTold(schedule);
    if p in HistoryOf(schedule).stamps {
      assert ProcTold(Run(schedule), HistoryOf(schedule), p, Run(schedule).procs[p]);
    }
  }

  /** And its stamps are those with which outcomes were built in the schedule. */
  lemma {:induction false} StampsExactly(schedule: seq<Step>, p: Pid, s: Stamp)
    ensures (p in HistoryOf(schedule).stamps && HistoryOf(schedule).stamps[p] == s)
            <==> exists i: nat :: BuiltAt(schedule, i, p, s)
    decreases |schedule|
  {
    if schedule != [] {
      var n, before := |schedule| - 1, schedule[..|schedule| - 1];
      StampsExactly(before, p, s);
      LastStamp(schedule, p, s);
      forall i: nat | i < n ensures BuiltAt(schedule, i, p, s) <==> BuiltAt(before, i, p, s) {
        hide Run;
        SamePrefix(schedule, i);
      }
      hide BuiltAt, HistoryOf;
      if i: nat :| BuiltAt(before, i, p, s) {
        assert i < n by { BuiltInBounds(before, i, p, s); }
      }
      if i: nat :| BuiltAt(schedule, i, p, s) {
        assert i <= n by { BuiltInBounds(schedule, i, p, s); }
      }
    }
  }

  lemma BuiltInBounds(schedule: seq<Step>, i: nat, p: Pid, s: Stamp)
    requires BuiltAt(schedule, i, p, s)
    ensures i < |schedule|
  {
    hide Run;
  }

  // ---- What is recorded, and what is returned ----

  /** The dispatch that created the row called its executor once, in a step of the schedule, and built the
      outcome in another: it says what the executor answered, or that it broke and was undone. */
  ghost predicate ToldByDispatch(schedule: seq<Step>, p: Pid, row: Row, o: Outcome) {
    exists i: nat, j: nat, b: Behaviour, s: Stamp ::
      && AnsweredAt(schedule, i, p, b) && BuiltAt(schedule, j, p, s)
      && Tells(o.status, o.result, b) && OutcomeOf(o, row.auth, row.intent, s) && InContext(o, row.auth)
      && (row.state == Completed <==> b.Returns?)
  }

  /** A recovery of the row built the outcome in a step of the schedule: it says that nobody knows. */
  ghost predicate ToldByRecovery(schedule: seq<Step>, q: Pid, row: Row, o: Outcome) {
    exists j: nat, s: Stamp ::
      && BuiltAt(schedule, j, q, s) && o.status == StatusIndeterminate
      && o.result == "prepared_execution_outcome_unknown"
      && OutcomeOf(o, row.auth, row.intent, s) && InContext(o, row.auth) && row.state == Indeterminate
  }

  /** After every schedule, the outcome of a row is in its evidence, and is what the executor of just the
      dispatch that created it answered, or that it broke and was undone; or else what a recovery says, and
      that exactly when the generation was raised. */
  lemma RecordedOutcomeTells(schedule: seq<Step>, k: RowKey)
    requires k in Run(schedule).db.effects && Run(schedule).db.effects[k].outcome.Some?
    ensures var w := Run(schedule);
            var row, o := w.db.effects[k], w.db.effects[k].outcome.value;
            && Evidenced(row, o) && (row.generation == 1 || row.generation == 2)
            && (row.generation == 1 ==> k in w.creators && ToldByDispatch(schedule, w.creators[k], row, o))
            && (row.generation == 2 ==>
                  exists q :: q in w.procs && w.procs[q].Recovery? && KeyOfProcess(w.procs[q]) == k
                              && ToldByRecovery(schedule, q, row, o))
  {
    hide Inv, Run, HistoryOf, ToldByDispatch, ToldByRecovery, Evidenced, ProcTold;
    var w, h := Run(schedule), HistoryOf(schedule);
    ReachableTold(schedule);
    ReachableInv(schedule);
    RowStates(w, k);
    var row, o := w.db.effects[k], w.db.effects[k].outcome.value;
    assert RowTold(w, h, k);
    if row.generation == 1 {
      DispatchTold(schedule, w.creators[k], row, o);
    } else {
      var q :| q in w.procs && w.procs[q].Recovery? && KeyOfProcess(w.procs[q]) == k
        && GivenUpBy(h, q, row.auth, row.intent, o);
      RecoveryTold(schedule, q, row, o);
    }
  }

  lemma RowStates(w: World, k: RowKey)
    requires Inv(w) && k in w.db.effects
    ensures var row := w.db.effects[k];
            && 1 <= row.generation <= 2 && (row.generation == 2 ==> row.state == Indeterminate)
            && (row.outcome.Some? ==> (row.state == Completed <==> row.outcome.value.status == Succeeded))
  {
    hide RowsUnique, CallsOk, Fits, BoundShape;
    assert RowOk(w, k);
  }

  lemma DispatchTold(schedule: seq<Step>, p: Pid, row: Row, o: Outcome)
    requires ToldBy(HistoryOf(schedule), p, row.auth, row.intent, o)
    requires row.state == Completed <==> o.status == Succeeded
    ensures ToldByDispatch(schedule, p, row, o)
  {
    hide OutcomeOf, HistoryOf, AnsweredAt, BuiltAt;
    var b, s := HistoryOf(schedule).answers[p], HistoryOf(schedule).stamps[p];
    AnswersExactly(schedule, p, b);
    StampsExactly(schedule, p, s);
    var i: nat :| AnsweredAt(schedule, i, p, b);
    var j: nat :| BuiltAt(schedule, j, p, s);
  }

  lemma RecoveryTold(schedule: seq<Step>, q: Pid, row: Row, o: Outcome)
    requires GivenUpBy(HistoryOf(schedule), q, row.auth, row.intent, o) && row.state == Indeterminate
    ensures ToldByRecovery(schedule, q, row, o)
  {
    hide OutcomeOf, HistoryOf, AnsweredAt, BuiltAt;
    var s := HistoryOf(schedule).stamps[q];
    StampsExactly(schedule, q, s);
    var j: nat :| BuiltAt(schedule, j, q, s);
  }

  /** Whatever any process returns is the recorded outcome of its row, and so says the same. */
  lemma ReturnedOutcomeTells(schedule: seq<Step>, p: Pid)
    requires p in Run(schedule).procs && Run(schedule).procs[p].pc.Done?
    ensures var w := Run(schedule);
            var k, o := KeyOfProcess(w.procs[p]), w.procs[p].pc.outcome;
            && k in w.db.effects && w.db.effects[k].outcome == Some(o)
            && (w.db.effects[k].generation == 1 ==>
                  k in w.creators && ToldByDispatch(schedule, w.creators[k], w.db.effects[k], o))
            && (w.db.effects[k].generation != 1 ==>
                  exists q :: q in w.procs && w.procs[q].Recovery? && KeyOfProcess(w.procs[q]) == k
                              && ToldByRecovery(schedule, q, w.db.effects[k], o))
  {
    hide Inv, Run, ToldByDispatch, ToldByRecovery, Evidenced;
    ReachableInv(schedule);
    ReturnedIsRecorded(Run(schedule), p);
    RecordedOutcomeTells(schedule, KeyOfProcess(Run(schedule).procs[p]));
  }

  lemma ReturnedIsRecorded(w: World, p: Pid)
    requires Inv(w) && p in w.procs && w.procs[p].pc.Done?
    ensures KeyOfProcess(w.procs[p]) in w.db.effects
            && w.db.effects[KeyOfProcess(w.procs[p])].outcome == Some(w.procs[p].pc.outcome)
  {
    hide RowsOk, RowsUnique, CallsOk, LocalOk, LinkOk;
    assert ProcOk(w, p);
  }

  /** A dispatch answers once and builds once, so what it tells is settled by those two steps. */
  lemma AnsweredAndBuiltOnce(schedule: seq<Step>, p: Pid, i: nat, j: nat, b: Behaviour, c: Behaviour, s: Stamp,
                             t: Stamp)
    ensures AnsweredAt(schedule, i, p, b) && AnsweredAt(schedule, j, p, c) ==> b == c
    ensures BuiltAt(schedule, i, p, s) && BuiltAt(schedule, j, p, t) ==> s == t
  {
    hide HistoryOf, AnsweredAt, BuiltAt;
    AnswersExactly(schedule, p, b);
    AnswersExactly(schedule, p, c);
    StampsExactly(schedule, p, s);
    StampsExactly(schedule, p, t);
  }
}
