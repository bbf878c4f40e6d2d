/** Rows whose actor context has expired before anyone built an outcome: they stay live for good. */
module EffectExpiry {
  import opened Records
  import opened EvidenceChain
  import opened EffectStore
  import opened EffectProtocol
  import opened EffectInvariant
  import opened EffectLedger
  import opened EffectTruth
  import opened EffectTheorems
  import opened EffectRuns

  predicate HoldsOutcome(pc: Pc) {
    pc.Finishing? || pc.Committing? || pc.Reconciling? || pc.RecoverReady? || pc.RecoverCommitting?
  }

  /** The process is about this row, and has an outcome for it in hand or in flight. */
  ghost predicate Busy(w: World, p: Pid, k: RowKey)
    requires p in w.procs
  {
    KeyOfProcess(w.procs[p]) == k && (HoldsOutcome(w.procs[p].pc) || p in w.pending)
  }

  /** The row is live and nobody has an outcome for it. */
  ghost predicate Unanswered(w: World, k: RowKey) {
    && k in w.db.effects && Live(w.db.effects[k].state)
    && forall p | p in w.procs :: !Busy(w, p, k)
  }

  /** No outcome for the actor is built at the time of this step. */
  predicate TooLate(s: Step, actor: ActorContext) { s.Build? ==> !ScopeDerivable(actor, s.stamp.clock) }

  // ---- A process of the row ----

  /** What a process without an outcome may do: move on, still without one. */
  predicate StaysEmpty(w: World, v: World, p: Pid)
    requires p in w.procs
  {
    p in v.procs && !HoldsOutcome(v.procs[p].pc) && v.pending == w.pending
  }

  lemma LookUpBuildsNothing(w: World, p: Pid, ok: bool)
    requires p in w.procs && !HoldsOutcome(w.procs[p].pc)
    ensures StaysEmpty(w, DoLookUp(w, p, ok), p) && DoLookUp(w, p, ok).db == w.db
  {
    hide Lookup, BindingDigest;
  }

  lemma SelectBuildsNothing(w: World, p: Pid, ok: bool)
    requires p in w.procs && !HoldsOutcome(w.procs[p].pc)
    ensures StaysEmpty(w, DoSelect(w, p, ok), p) && DoSelect(w, p, ok).db == w.db
  {
    hide SelectForBinding;
  }

  lemma ActsBuildNothing(w: World, p: Pid, ok: bool, b: Behaviour)
    requires p in w.procs && !HoldsOutcome(w.procs[p].pc)
    ensures StaysEmpty(w, DoExecute(w, p, b), p) && DoExecute(w, p, b).db == w.db
    ensures StaysEmpty(w, DoRevert(w, p, ok), p) && DoRevert(w, p, ok).db == w.db
  {
  }

  lemma NothingToSettle(w: World, p: Pid, ok: bool, x: Writing, reply: Acknowledgement, at: int)
    requires p in w.procs && !HoldsOutcome(w.procs[p].pc) && p !in w.pending
    ensures DoCheckComplete(w, p, ok) == w && DoCommit(w, p, x, reply) == w && DoLateCommit(w, p, x, at) == w
    ensures DoReconcile(w, p, ok) == w && DoCheckRecover(w, p, ok) == w && DoCommitRecover(w, p, x, ok) == w
  {
    hide Lookup, CompleteVerdict, RecoverVerdict, CompleteCommit, RecoverCommit;
  }

  lemma LateBuild(w: World, p: Pid, ok: bool, s: Stamp, k: RowKey)
    requires p in w.procs && ProcOk(w, p) && KeyOfProcess(w.procs[p]) == k && k in w.db.effects
    requires !HoldsOutcome(w.procs[p].pc) && !ScopeDerivable(w.db.effects[k].auth.actor, s.clock)
    ensures StaysEmpty(w, DoBuild(w, p, ok, s), p) && DoBuild(w, p, ok, s).db == w.db
  {
    hide StoredInputsValid, ParsedForTenant, OutcomeBinds, BuildOutcome, ScopeDerivable;
  }

  /** A renewal keeps a live row live. */
  lemma RenewKeepsLive(db: EffectDb, actor: ActorContext, id: Id, attempt: Id, generation: nat, now: int, lease: nat,
                       k: RowKey)
    requires k in db.effects && Live(db.effects[k].state)
    ensures var v := Renew(db, actor, id, attempt, generation, now, lease).db;
            k in v.effects && Live(v.effects[k].state)
  {
    hide Readable;
  }

  lemma RenewalsBuildNothing(w: World, p: Pid, lease: nat, ack: bool, k: RowKey)
    requires p in w.procs && k in w.db.effects && Live(w.db.effects[k].state) && !HoldsOutcome(w.procs[p].pc)
    ensures var v := DoRenewFirst(w, p, lease, ack);
            StaysEmpty(w, v, p) && k in v.db.effects && Live(v.db.effects[k].state)
    ensures var v := DoHeartbeat(w, p, lease);
            StaysEmpty(w, v, p) && k in v.db.effects && Live(v.db.effects[k].state)
  {
    hide Renew;
    var c := w.procs[p];
    if c.Dispatch? && c.held.Some? {
      var h := c.held.value;
      RenewKeepsLive(w.db, c.auth.actor, c.auth.request.requestId, h.attempt, h.generation, w.now, lease, k);
    }
  }

  lemma InsertBuildsNothing(w: World, p: Pid, x: Writing, attempt: Id, lease: nat, ack: bool, k: RowKey)
    requires p in w.procs && k in w.db.effects && Live(w.db.effects[k].state)
    ensures var v := DoInsert(w, p, x, attempt, lease, ack);
            && k in v.db.effects && Live(v.db.effects[k].state)
            && (!HoldsOutcome(w.procs[p].pc) ==> StaysEmpty(w, v, p))
  {
    hide PrepareInsert;
    var c := w.procs[p];
    if c.Dispatch? && c.pc == Inserting {
      InsertKeepsLive(w.db, c.auth, x, attempt, w.now, lease, k);
    }
  }

  lemma InsertKeepsLive(db: EffectDb, a: Authority, x: Writing, attempt: Id, now: int, lease: nat, k: RowKey)
    requires k in db.effects && Live(db.effects[k].state)
    ensures var r := PrepareInsert(db, a, x.envelopeId, x.clock, attempt, now, lease);
            k in r.db.effects && Live(r.db.effects[k].state)
  {
    hide AppendEvidence, InsertAllowed;
  }

  /** The step is taken by a process that is not busy with the row, and that row stays live. */
  ghost predicate Idle(w: World, v: World, p: Pid, k: RowKey) {
    k in v.db.effects && Live(v.db.effects[k].state) && p in v.procs && !Busy(v, p, k)
  }

  lemma OwnStepIdle(w: World, s: Step, k: RowKey)
    requires !s.Tick? && !s.AppendOther? && !s.Begin? && !s.BeginRecovery?
    requires s.pid in w.procs && ProcOk(w, s.pid) && KeyOfProcess(w.procs[s.pid]) == k && !Busy(w, s.pid, k)
    requires k in w.db.effects && Live(w.db.effects[k].state) && TooLate(s, w.db.effects[k].auth.actor)
    ensures var v := Apply(w, s); Idle(w, v, s.pid, k)
  {
    hide ProcOk, ScopeDerivable, KeyOfProcess, DoLookUp, DoSelect, DoInsert, DoRenewFirst, DoHeartbeat, DoExecute,
         DoBuild, DoCheckComplete, DoCommit, DoLateCommit, DoReconcile, DoRevert, DoCheckRecover, DoCommitRecover,
         DoAppendOther;
    var p := s.pid;
    match s
    case LookUp(_, ok) => LookUpBuildsNothing(w, p, ok);
    case Validate(_, ok) =>
    case Select(_, ok) => SelectBuildsNothing(w, p, ok);
    case Insert(_, x, attempt, lease, ack) => InsertBuildsNothing(w, p, x, attempt, lease, ack, k);
    case RenewFirst(_, lease, ack) => RenewalsBuildNothing(w, p, lease, ack, k);
    case Heartbeat(_, lease) => RenewalsBuildNothing(w, p, lease, true, k);
    case Execute(_, b) => ActsBuildNothing(w, p, true, b);
    case Build(_, ok, stamp) => LateBuild(w, p, ok, stamp, k);
    case CheckComplete(_, ok) => NothingToSettle(w, p, ok, Writing("", 0), NotSent, 0);
    case Commit(_, x, reply) => NothingToSettle(w, p, true, x, reply, 0);
    case LateCommit(_, x, at) => NothingToSettle(w, p, true, x, NotSent, at);
    case LateAbort(_) =>
    case Reconcile(_, ok) => NothingToSettle(w, p, ok, Writing("", 0), NotSent, 0);
    case Revert(_, ok) => ActsBuildNothing(w, p, ok, Returns(""));
    case CheckRecover(_, ok) => NothingToSettle(w, p, ok, Writing("", 0), NotSent, 0);
    case CommitRecover(_, x, ack) => NothingToSettle(w, p, ack, x, NotSent, 0);
    case Crash(_) =>
  }

  // ---- A process of another row ----

  lemma OtherStepIdle(w: World, s: Step, k: RowKey)
    requires !s.Tick? && !s.AppendOther? && !s.Begin? && !s.BeginRecovery? && !s.Insert? && !s.Execute?
    requires Inv(w) && s.pid in w.procs && KeyOfProcess(w.procs[s.pid]) != k
    requires k in w.db.effects && Live(w.db.effects[k].state)
    ensures Idle(w, Apply(w, s), s.pid, k)
  {
    hide RowsOk, RowsUnique, CallsOk, Fits, RowShape, Apply;
    OwnRow(w, s.pid);
    StepOk(w, s);
  }

  lemma OtherActsIdle(w: World, s: Step, k: RowKey)
    requires s.Insert? || s.Execute?
    requires s.pid in w.procs && KeyOfProcess(w.procs[s.pid]) != k && k in w.db.effects && Live(w.db.effects[k].state)
    ensures Idle(w, Apply(w, s), s.pid, k)
  {
    if s.Insert? {
      hide PrepareInsert;
      InsertBuildsNothing(w, s.pid, s.w, s.attempt, s.lease, s.ack, k);
    } else {
      hide Apply, DoExecute;
      ExecuteOnlyCalls(w, s.pid, s.behaviour);
    }
  }

  lemma ExecuteOnlyCalls(w: World, p: Pid, b: Behaviour)
    requires p in w.procs
    ensures var v := DoExecute(w, p, b);
            v.db == w.db && p in v.procs && KeyOfProcess(v.procs[p]) == KeyOfProcess(w.procs[p])
    ensures Apply(w, Execute(p, b)) == DoExecute(w, p, b)
  {
  }

  // ---- Any step, any run ----

  lemma MoverKeepsUnanswered(w: World, s: Step, k: RowKey)
    requires !s.Tick? && !s.AppendOther? && !s.Begin? && !s.BeginRecovery? && s.pid in w.procs
    requires Inv(w) && Unanswered(w, k) && TooLate(s, w.db.effects[k].auth.actor)
    ensures Unanswered(Apply(w, s), k)
  {
    hide RowsOk, RowsUnique, CallsOk, Fits, Apply, HoldsOutcome, ScopeDerivable;
    var v := Apply(w, s);
    if KeyOfProcess(w.procs[s.pid]) == k {
      OwnStepIdle(w, s, k);
    } else if s.Insert? || s.Execute? {
      OtherActsIdle(w, s, k);
    } else {
      OtherStepIdle(w, s, k);
    }
    OwnStepExtends(w, s);
    forall p | p in v.procs ensures !Busy(v, p, k) {
      if p != s.pid { assert !Busy(w, p, k); }
    }
  }

  lemma QuietKeepsUnanswered(w: World, s: Step, k: RowKey)
    requires s.Tick? || s.AppendOther? || s.Begin? || s.BeginRecovery? || s.pid !in w.procs
    requires w.pending.Keys <= w.procs.Keys && Unanswered(w, k)
    ensures Unanswered(Apply(w, s), k)
  {
    hide DoAppendOther, ParsedForTenant;
    if s.AppendOther? {
      AppendOtherOnlyRuns(w, s.actor, s.run, s.ref, s.payload, s.w);
    }
    var v := Apply(w, s);
    forall p | p in v.procs ensures !Busy(v, p, k) {
      if p in w.procs { assert !Busy(w, p, k); }
    }
  }

  lemma StepKeepsUnanswered(w: World, s: Step, k: RowKey)
    requires Inv(w) && Unanswered(w, k) && TooLate(s, w.db.effects[k].auth.actor)
    ensures Unanswered(Apply(w, s), k) && Apply(w, s).db.effects[k].auth == w.db.effects[k].auth
  {
    hide RowsOk, RowsUnique, CallsOk, ProcOk, Apply, Unanswered, TooLate;
    assert k in w.db.effects by { UnansweredRow(w, k); }
    RowsEvolve(w, s, k);
    if s.Tick? || s.AppendOther? || s.Begin? || s.BeginRecovery? || s.pid !in w.procs {
      QuietKeepsUnanswered(w, s, k);
    } else {
      MoverKeepsUnanswered(w, s, k);
    }
  }

  lemma UnansweredRow(w: World, k: RowKey)
    requires Unanswered(w, k)
    ensures k in w.db.effects && Live(w.db.effects[k].state)
  {
  }

  /** The world after more steps. */
  function After(w: World, steps: seq<Step>): World
    decreases |steps|
  {
    if steps == [] then w else Apply(After(w, steps[..|steps| - 1]), steps[|steps| - 1])
  }

  /** Once the actor context of an unanswered row is over, the row is never completed, recovered or
      otherwise settled, whatever dispatches, heartbeats, recoveries and other writers still do: it
      keeps its request, its idempotency key and its grant taken, and stays live, for good. */
  lemma {:induction false} ExpiredStaysLive(w: World, steps: seq<Step>, k: RowKey)
    requires Reachable(w) && Unanswered(w, k)
    requires forall i | 0 <= i < |steps| :: TooLate(steps[i], w.db.effects[k].auth.actor)
    ensures var v := After(w, steps);
            && Reachable(v) && Unanswered(v, k)
            && v.db.effects[k].auth == w.db.effects[k].auth && Live(v.db.effects[k].state)
    decreases |steps|
  {
    hide Reachable, Inv, Apply, Unanswered, TooLate, LedgerOk;
    UnansweredRow(w, k);
    if steps != [] {
      var n := |steps| - 1;
      ExpiredStaysLive(w, steps[..n], k);
      var u := After(w, steps[..n]);
      ReachableFacts(u);
      assert TooLate(steps[n], w.db.effects[k].auth.actor);
      StepKeepsUnanswered(u, steps[n], k);
      NextTo(u, steps[n]);
    }
    UnansweredRow(After(w, steps), k);
  }

  // ---- It does happen ----

  /** A dispatch that prepared its row, and whose lease has then run out. */
  function StrandedSchedule(a: Authority, clock: int): seq<Step> { SoloStart(a, clock) + [Tick(1)] }

  function Stranded(a: Authority, clock: int): World {
    SoloPrepared(a, clock).(now := SoloPrepared(a, clock).now + 1)
  }

  lemma SoloStrands(a: Authority, clock: int)
    requires StoredInputsValid(a)
    ensures Run(StrandedSchedule(a, clock)) == Stranded(a, clock)
  {
    hide Apply, StoredInputsValid, Run, SoloWorld;
    SoloPrepares(a, clock);
    RunOneMore(SoloStart(a, clock), Tick(1));
    assert Apply(SoloPrepared(a, clock), Tick(1)) == Stranded(a, clock) by { TickPasses(SoloPrepared(a, clock)); }
  }

  lemma TickPasses(w: World)
    ensures Apply(w, Tick(1)) == w.(now := w.now + 1)
  {
  }

  lemma StrandedIsUnanswered(a: Authority, clock: int)
    ensures var w, k := Stranded(a, clock), KeyOf(a);
            && Unanswered(w, k) && w.db.effects[k].auth == a && w.db.effects[k].leaseExpires <= w.now
            && w.procs.Keys == {P0}
  {
  }

  /** For any authority: prepare, let the lease and then the actor context run out, and a recovery
      raises and leaves the row live, and so does whatever follows it. */
  lemma StrandedForGood(a: Authority, clock: int, q: Pid, s: Stamp, x: Writing)
    requires StoredInputsValid(a) && q != P0 && !ScopeDerivable(a.actor, s.clock)
    ensures var w, k := Run(StrandedSchedule(a, clock)), KeyOf(a);
            && Reachable(w) && Unanswered(w, k) && w.db.effects[k].auth == a && w.db.effects[k].leaseExpires <= w.now
            && var v := Run(StrandedSchedule(a, clock) + RecoverySchedule(q, w.db.effects[k], s, x));
               q in v.procs && v.procs[q].pc == Raised && v.db == w.db
    ensures forall steps | forall i | 0 <= i < |steps| :: TooLate(steps[i], a.actor) ::
              Unanswered(After(Run(StrandedSchedule(a, clock)), steps), KeyOf(a))
  {
    hide StoredInputsValid, ScopeDerivable, Run, Apply, Stranded, Unanswered, RecoverySchedule, TooLate;
    var schedule, k := StrandedSchedule(a, clock), KeyOf(a);
    SoloStrands(a, clock);
    StrandedIsUnanswered(a, clock);
    var w := Run(schedule);
    UnansweredRow(w, k);
    RecoveryPassesExactly(schedule, q, k, s, x);
    forall steps | forall i | 0 <= i < |steps| :: TooLate(steps[i], a.actor) ensures Unanswered(After(w, steps), k) {
      ExpiredStaysLive(w, steps, k);
    }
  }

  /** One such run: the sample's actor context ends at 1000000, and its row is looked after at 2000000. */
  lemma SampleIsStranded()
    ensures var schedule := StrandedSchedule(SAMPLE, 0);
            var w, k := Run(schedule), KeyOf(SAMPLE);
            && k in w.db.effects && Live(w.db.effects[k].state)
            && var v := Run(schedule
                            + RecoverySchedule(1, w.db.effects[k], Stamp("o", 2000000), Writing("o", 2000000)));
               1 in v.procs && v.procs[1].pc == Raised && v.db == w.db
  {
    hide Run, StoredInputsValid, Unanswered, RecoverySchedule;
    SampleIsValid();
    StrandedForGood(SAMPLE, 0, 1, Stamp("o", 2000000), Writing("o", 2000000));
    UnansweredRow(Run(StrandedSchedule(SAMPLE, 0)), KeyOf(SAMPLE));
  }
}
