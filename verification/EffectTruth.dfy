/** Whether a row recorded as completed tells the truth about the outside world. */
module EffectTruth {
  import opened Records
  import opened EvidenceChain
  import opened EffectStore
  import opened EffectProtocol
  import opened EffectInvariant
  import opened EffectLedger

  /** The executor of `p` acted and nothing has undone it. */
  predicate Intact(w: World, p: Pid) {
    p in w.effects && w.effects[p].active && !w.effects[p].reverted
  }

  /** A dispatch that is about to report success. */
  predicate Claims(pc: Pc) {
    match pc
    case Ran(status, _) => status == Succeeded
    case Finishing(o) => o.status == Succeeded
    case Committing(o, _) => o.status == Succeeded
    case Reconciling(o) => o.status == Succeeded
    case _ => false
  }

  predicate BeforeCommit(pc: Pc) {
    Early(pc) || pc.Renewing? || pc.Ready? || pc.Ran? || pc.Finishing? || pc.Committing?
  }

  ghost predicate OwnCompleted(w: World, p: Pid)
    requires p in w.procs
  {
    var k := KeyOfProcess(w.procs[p]);
    k in w.creators && w.creators[k] == p && k in w.db.effects && w.db.effects[k].state == Completed
  }

  ghost predicate ProcTrue(w: World, p: Pid)
    requires p in w.procs
  {
    var pc := w.procs[p].pc;
    w.procs[p].Dispatch? ==>
      && (Claims(pc) ==> Intact(w, p))
      && (p in w.pending && w.pending[p].outcome.status == Succeeded ==> Intact(w, p) && !pc.Reverting?)
      && (p in w.pending && pc.Reconciling? ==> w.pending[p].outcome == pc.outcome)
      && (OwnCompleted(w, p) ==> Intact(w, p) && !BeforeCommit(pc) && !pc.Reverting?)
  }

  ghost predicate TruthInv(w: World) {
    forall p | p in w.procs :: ProcTrue(w, p)
  }

  /** The re-read after a failed completion finds the row still live although the server has not
      finished with the transaction that the client gave up on. */
  predicate Hazard(w: World, p: Pid) {
    && p in w.procs && p in w.pending
    && w.procs[p].Dispatch? && w.procs[p].pc.Reconciling? && w.procs[p].pc.outcome.status == Succeeded
    && var k := KeyOf(w.procs[p].auth);
       k in w.db.effects && Live(w.db.effects[k].state)
  }

  predicate Hazardous(w: World, s: Step) { s.Reconcile? && s.ok && Hazard(w, s.pid) }

  /** A row becomes completed only through a commit of the dispatch that created it. */
  ghost predicate OnlyOwnerCompletes(w: World, v: World, p: Pid) {
    forall k | k in v.db.effects && v.db.effects[k].state == Completed ::
      k in w.db.effects && (w.db.effects[k].state == Completed || (k in w.creators && w.creators[k] == p))
  }

  lemma OthersStayTrue(w: World, v: World, p: Pid, q: Pid)
    requires Extends(w, v, p) && OnlyOwnerCompletes(w, v, p)
    requires q != p && q in w.procs && q in v.procs && ProcTrue(w, q)
    ensures ProcTrue(v, q)
  {
  }

  lemma KeepsTruth(w: World, v: World, p: Pid)
    requires TruthInv(w) && Extends(w, v, p) && OnlyOwnerCompletes(w, v, p) && (p in v.procs ==> ProcTrue(v, p))
    ensures TruthInv(v)
  {
    hide ProcTrue, Extends, OnlyOwnerCompletes;
    forall q | q in v.procs ensures ProcTrue(v, q) {
      if q != p {
        MembersOf(w, v, p, q);
        OthersStayTrue(w, v, p, q);
      }
    }
  }

  lemma MembersOf(w: World, v: World, p: Pid, q: Pid)
    requires Extends(w, v, p) && q in v.procs && q != p
    ensures q in w.procs
  {
  }

  /** What one step of `p` has to show. */
  ghost predicate TrueStep(w: World, v: World, p: Pid)
    requires p in w.procs
  {
    p in v.procs && ProcTrue(v, p) && OnlyOwnerCompletes(w, v, p)
  }

  // ---- Moves ----

  /** The process alone moves, and not into a state that promises more. */
  lemma MoveStaysTrue(w: World, v: World, p: Pid)
    requires p in w.procs && ProcTrue(w, p)
    requires v == w || (p in v.procs && v == At(w, p, v.procs[p].pc))
    requires v != w ==>
               var pc, next := w.procs[p].pc, v.procs[p].pc;
               && (Claims(next) && w.procs[p].Dispatch? ==> Claims(pc))
               && (p in w.pending ==>
                     !next.Reconciling? && (next.Reverting? ==> w.pending[p].outcome.status != Succeeded))
               && (BeforeCommit(next) || next.Reverting? ==> !OwnCompleted(w, p) || !w.procs[p].Dispatch?)
    ensures TrueStep(w, v, p)
  {
  }

  lemma LookUpTrue(w: World, p: Pid, ok: bool)
    requires p in w.procs && ProcOk(w, p) && ProcTrue(w, p)
    ensures TrueStep(w, DoLookUp(w, p, ok), p)
  {
    hide DoLookUp, StoredInputsValid, ParsedForTenant, LinkOk;
    LookUpMoves(w, p, ok);
    MoveStaysTrue(w, DoLookUp(w, p, ok), p);
  }

  lemma LookUpMoves(w: World, p: Pid, ok: bool)
    requires p in w.procs
    ensures var v := DoLookUp(w, p, ok);
            v == w || (&& w.procs[p].pc == Looking && p in v.procs && v == At(w, p, v.procs[p].pc)
                       && var next := v.procs[p].pc;
                          next.Validating? || next.Raised? || next.Done? || (next.Outlining? && w.procs[p].Recovery?))
  {
    hide Lookup, BindingDigest;
  }

  lemma SelectTrue(w: World, p: Pid, ok: bool)
    requires p in w.procs && ProcOk(w, p) && ProcTrue(w, p)
    ensures TrueStep(w, DoSelect(w, p, ok), p)
  {
    hide SelectForBinding, StoredInputsValid, OutcomeBinds, ParsedForTenant, LinkOk;
    MoveStaysTrue(w, DoSelect(w, p, ok), p);
  }

  lemma BuildTrue(w: World, p: Pid, ok: bool, s: Stamp)
    requires p in w.procs && ProcOk(w, p) && ProcTrue(w, p)
    ensures TrueStep(w, DoBuild(w, p, ok, s), p)
  {
    hide StoredInputsValid, OutcomeBinds, ParsedForTenant, LinkOk;
    MoveStaysTrue(w, DoBuild(w, p, ok, s), p);
  }

  lemma CheckCompleteTrue(w: World, p: Pid, ok: bool)
    requires p in w.procs && ProcOk(w, p) && ProcTrue(w, p)
    ensures TrueStep(w, DoCheckComplete(w, p, ok), p)
  {
    hide CompleteVerdict, StoredInputsValid, OutcomeBinds, ParsedForTenant, LinkOk;
    MoveStaysTrue(w, DoCheckComplete(w, p, ok), p);
  }

  lemma CheckRecoverTrue(w: World, p: Pid, ok: bool)
    requires p in w.procs && ProcTrue(w, p)
    ensures TrueStep(w, DoCheckRecover(w, p, ok), p)
  {
    hide RecoverVerdict;
  }

  /** Re-reading is harmless exactly because a hazard is excluded. */
  lemma ReconcileTrue(w: World, p: Pid, ok: bool)
    requires p in w.procs && ProcOk(w, p) && OwnRowOk(w, p) && ProcTrue(w, p) && (ok ==> !Hazard(w, p))
    ensures TrueStep(w, DoReconcile(w, p, ok), p)
  {
    hide Readable, BoundShape, StoredInputsValid, OutcomeBinds, ParsedForTenant, HeldFits, StoredFits;
    MoveStaysTrue(w, DoReconcile(w, p, ok), p);
  }

  lemma CrashTrue(w: World, p: Pid)
    requires p in w.procs && ProcTrue(w, p)
    ensures TrueStep(w, Apply(w, Crash(p)), p)
  {
  }

  lemma ValidateTrue(w: World, p: Pid, ok: bool)
    requires p in w.procs && ProcOk(w, p) && ProcTrue(w, p)
    ensures TrueStep(w, Apply(w, Validate(p, ok)), p)
  {
    hide LocalOk, LinkOk;
  }

  // ---- Steps that write ----

  lemma RevertTrue(w: World, p: Pid, ok: bool)
    requires p in w.procs && ProcTrue(w, p)
    ensures TrueStep(w, DoRevert(w, p, ok), p)
  {
  }

  lemma LateAbortTrue(w: World, p: Pid)
    requires p in w.procs && ProcTrue(w, p)
    ensures TrueStep(w, Apply(w, LateAbort(p)), p)
  {
  }

  lemma RenewTrue(w: World, p: Pid, lease: nat, ack: bool)
    requires p in w.procs && ProcOk(w, p) && ProcTrue(w, p)
    ensures TrueStep(w, DoRenewFirst(w, p, lease, ack), p) && TrueStep(w, DoHeartbeat(w, p, lease), p)
  {
    hide Readable, LocalOk, LinkOk;
  }

  lemma ExecuteTrue(w: World, p: Pid, b: Behaviour)
    requires p in w.procs && ProcOk(w, p) && ProcTrue(w, p)
    ensures TrueStep(w, DoExecute(w, p, b), p)
  {
    hide StoredInputsValid, ParsedForTenant, LinkOk;
  }

  lemma InsertTrue(w: World, p: Pid, x: Writing, attempt: Id, lease: nat, ack: bool)
    requires p in w.procs && ProcOk(w, p) && ProcTrue(w, p)
    ensures TrueStep(w, DoInsert(w, p, x, attempt, lease, ack), p)
  {
    hide ParsedForTenant, ProcOk, PrepareInsert, RowShape, Clashes;
    if w.procs[p].Dispatch? && w.procs[p].pc == Inserting {
      InsertingFacts(w, p);
      PreparedRowShape(w.db, w.procs[p].auth, x, attempt, w.now, lease);
    }
  }

  lemma InsertingFacts(w: World, p: Pid)
    requires p in w.procs && ProcOk(w, p) && w.procs[p].Dispatch? && w.procs[p].pc == Inserting
    ensures ParsedForTenant(w.procs[p].auth) && p !in w.pending
  {
    hide StoredInputsValid, ParsedForTenant, LinkOk;
  }

  lemma CommitRecoverTrue(w: World, p: Pid, x: Writing, ack: bool)
    requires p in w.procs && ProcTrue(w, p)
    ensures TrueStep(w, DoCommitRecover(w, p, x, ack), p)
  {
    hide AppendEvidence;
  }

  /** A completing transaction leaves its row completed only when the outcome says so. */
  lemma CompleteCommitRow(db: EffectDb, actor: ActorContext, id: Id, stored: Row, version: nat, attempt: Id,
                          generation: nat, o: Outcome, x: Writing, now: int)
    ensures var r, k := CompleteCommit(db, actor, id, stored, version, attempt, generation, o, x.envelopeId, x.clock,
                                       now), (actor.tenant, id);
            && (r.value.None? ==> r.db == db)
            && (r.value.Some? ==>
                  && k in db.effects && k in r.db.effects && r.db.effects == db.effects[k := r.db.effects[k]]
                  && r.db.effects[k].state == TerminalState(o.status))
  {
    hide AppendEvidence;
  }

  lemma OwnCommit(w: World, p: Pid)
    requires p in w.procs && ProcOk(w, p) && w.procs[p].Dispatch? && w.procs[p].held.Some?
    ensures var k := KeyOf(w.procs[p].auth); k in w.creators && w.creators[k] == p
    ensures w.procs[p].pc.Committing? ==> p !in w.pending
    ensures p in w.pending ==> !BeforeCommit(w.procs[p].pc)
  {
    hide LinkOk, StoredInputsValid, ParsedForTenant;
  }

  lemma OwnWrite(w: World, v: World, p: Pid, k: RowKey)
    requires v.db.effects == w.db.effects
             || (k in w.db.effects && k in v.db.effects && v.db.effects == w.db.effects[k := v.db.effects[k]])
    requires k in w.creators && w.creators[k] == p
    ensures OnlyOwnerCompletes(w, v, p)
  {
  }

  lemma CommitTrue(w: World, p: Pid, x: Writing, reply: Acknowledgement)
    requires p in w.procs && ProcOk(w, p) && ProcTrue(w, p)
    ensures TrueStep(w, DoCommit(w, p, x, reply), p)
  {
    hide CompleteCommit, ProcOk, OnlyOwnerCompletes;
    var v := DoCommit(w, p, x, reply);
    match w.procs[p] {
      case Dispatch(a, Some(h), Committing(o, stored)) =>
        assert Claims(w.procs[p].pc) == (o.status == Succeeded);
        OwnCommit(w, p);
        CompleteCommitRow(w.db, a.actor, a.request.requestId, stored, h.version, h.attempt, h.generation, o, x, w.now);
        OwnWrite(w, v, p, KeyOf(a));
        assert v.procs[p] == Dispatch(a, Some(h), v.procs[p].pc) && v.effects == w.effects && v.creators == w.creators;
      case _ =>
        SameIsTrue(w, p);
    }
  }

  lemma SameIsTrue(w: World, p: Pid)
    requires p in w.procs && ProcTrue(w, p)
    ensures TrueStep(w, w, p)
  {
  }

  lemma LateCommitTrue(w: World, p: Pid, x: Writing, at: int)
    requires p in w.procs && ProcOk(w, p) && ProcTrue(w, p)
    ensures TrueStep(w, DoLateCommit(w, p, x, at), p)
  {
    hide CompleteCommit, ProcOk;
    match w.procs[p] {
      case Dispatch(a, Some(h), _) =>
        OwnCommit(w, p);
        if p in w.pending {
          var t := w.pending[p];
          CompleteCommitRow(w.db, a.actor, a.request.requestId, t.stored, h.version, h.attempt, h.generation,
                            t.outcome, x, at);
        }
      case _ =>
    }
  }

  // ---- All steps ----

  lemma OwnStepTrue(w: World, s: Step)
    requires !s.Tick? && !s.AppendOther? && !s.Begin? && !s.BeginRecovery?
    requires s.pid in w.procs && ProcOk(w, s.pid) && OwnRowOk(w, s.pid) && ProcTrue(w, s.pid) && !Hazardous(w, s)
    ensures TrueStep(w, Apply(w, s), s.pid)
  {
    hide ProcOk, OwnRowOk, TrueStep, ProcTrue, DoLookUp, DoSelect, DoInsert, DoRenewFirst, DoHeartbeat, DoExecute,
         DoBuild, DoCheckComplete, DoCommit, DoLateCommit, DoReconcile, DoRevert, DoCheckRecover, DoCommitRecover;
    var p := s.pid;
    match s
    case LookUp(_, ok) => LookUpTrue(w, p, ok);
    case Validate(_, ok) => ValidateTrue(w, p, ok);
    case Select(_, ok) => SelectTrue(w, p, ok);
    case Insert(_, x, attempt, lease, ack) => InsertTrue(w, p, x, attempt, lease, ack);
    case RenewFirst(_, lease, ack) => RenewTrue(w, p, lease, ack);
    case Heartbeat(_, lease) => RenewTrue(w, p, lease, true);
    case Execute(_, b) => ExecuteTrue(w, p, b);
    case Build(_, ok, stamp) => BuildTrue(w, p, ok, stamp);
    case CheckComplete(_, ok) => CheckCompleteTrue(w, p, ok);
    case Commit(_, x, reply) => CommitTrue(w, p, x, reply);
    case LateCommit(_, x, at) => LateCommitTrue(w, p, x, at);
    case LateAbort(_) => LateAbortTrue(w, p);
    case Reconcile(_, ok) => ReconcileTrue(w, p, ok);
    case Revert(_, ok) => RevertTrue(w, p, ok);
    case CheckRecover(_, ok) => CheckRecoverTrue(w, p, ok);
    case CommitRecover(_, x, ack) => CommitRecoverTrue(w, p, x, ack);
    case Crash(_) => CrashTrue(w, p);
  }

  /** Steps of time, of other writers, and of processes that begin. */
  lemma QuietStaysTrue(w: World, v: World, p: Pid)
    requires RowsOk(w) && TruthInv(w) && v.db.effects == w.db.effects && v.creators == w.creators
    requires v.effects == w.effects && v.pending == w.pending && w.pending.Keys <= w.procs.Keys
    requires v.procs == w.procs
             || (p !in w.procs && p in v.procs && v.procs == w.procs[p := v.procs[p]] && v.procs[p].pc == Looking)
    ensures TruthInv(v)
  {
    hide RowShape;
    forall k | k in w.db.effects ensures k in w.creators && w.creators[k] in w.procs { assert RowOk(w, k); }
    forall q | q in v.procs ensures ProcTrue(v, q) {
      if q in w.procs {
        assert ProcTrue(w, q);
      }
    }
  }

  lemma OwnStepKeepsTruth(w: World, s: Step)
    requires Inv(w) && TruthInv(w) && !Hazardous(w, s) && !s.Tick? && !s.AppendOther? && !s.Begin?
             && !s.BeginRecovery? && s.pid in w.procs
    ensures TruthInv(Apply(w, s))
  {
    hide RowsOk, RowsUnique, CallsOk, ProcOk, OwnRowOk, ProcTrue, OnlyOwnerCompletes, Apply, Extends;
    OwnRow(w, s.pid);
    OwnStepTrue(w, s);
    OwnStepExtends(w, s);
    KeepsTruth(w, Apply(w, s), s.pid);
  }

  lemma StepKeepsTruth(w: World, s: Step)
    requires Inv(w) && TruthInv(w) && !Hazardous(w, s)
    ensures TruthInv(Apply(w, s))
  {
    hide RowsOk, RowsUnique, CallsOk, ProcOk, TruthInv, ParsedForTenant, DoAppendOther, Hazardous;
    var v := Apply(w, s);
    match s
    case Tick(_) => QuietStaysTrue(w, v, 0);
    case AppendOther(actor, run, ref, payload, x) =>
      AppendOtherOnlyRuns(w, actor, run, ref, payload, x);
      QuietStaysTrue(w, v, 0);
    case Begin(p, _) => QuietStaysTrue(w, v, p);
    case BeginRecovery(p, _, _) => QuietStaysTrue(w, v, p);
    case _ =>
      if s.pid in w.procs {
        OwnStepKeepsTruth(w, s);
      } else {
        assert v == w;
      }
  }

  /** No re-read of this schedule happens in a hazard. */
  predicate Prudent(schedule: seq<Step>)
    decreases |schedule|
  {
    schedule == [] ||
    (var rest := schedule[..|schedule| - 1];
     Prudent(rest) && !Hazardous(Run(rest), schedule[|schedule| - 1]))
  }

  lemma {:induction false} ReachableTruth(schedule: seq<Step>)
    requires Prudent(schedule)
    ensures Inv(Run(schedule)) && TruthInv(Run(schedule))
    decreases |schedule|
  {
    ReachableInv(schedule);
    if schedule != [] {
      hide Inv, TruthInv, Apply, Hazardous;
      var rest := schedule[..|schedule| - 1];
      ReachableTruth(rest);
      StepKeepsTruth(Run(rest), schedule[|schedule| - 1]);
    } else {
      hide Inv;
    }
  }

  lemma CompletedRowIsTrue(w: World, k: RowKey)
    requires Inv(w) && TruthInv(w) && k in w.db.effects && w.db.effects[k].state == Completed
    ensures k in w.creators && Intact(w, w.creators[k]) && w.creators[k] in w.procs
            && w.procs[w.creators[k]].Dispatch? && w.procs[w.creators[k]].auth == w.db.effects[k].auth
  {
    hide RowShape, Fits, CallsOk, RowsUnique;
    assert RowOk(w, k);
    assert ProcTrue(w, w.creators[k]);
  }

  /** A world of a run whose re-reads all avoid hazards. */
  ghost predicate PrudentlyReachable(w: World) { exists schedule :: Prudent(schedule) && Run(schedule) == w }

  lemma PrudentFacts(w: World)
    requires PrudentlyReachable(w)
    ensures Inv(w) && TruthInv(w) && Reachable(w)
  {
    hide Inv, TruthInv, Run, Prudent;
    var schedule :| Prudent(schedule) && Run(schedule) == w;
    ReachableTruth(schedule);
  }

  /** A completed row always means that its effect ran, in exactly one executor call, is in
      place, and was never reverted: in every run whose re-reads avoid hazards. */
  lemma CompletedMeansInEffect(w: World, k: RowKey)
    requires PrudentlyReachable(w) && k in w.db.effects && w.db.effects[k].state == Completed
    ensures k in w.creators && Intact(w, w.creators[k])
            && exists i :: 0 <= i < |w.calls| && w.calls[i] == Call(w.creators[k], w.db.effects[k].auth)
                           && forall j | 0 <= j < |w.calls| && KeyOf(w.calls[j].auth) == k :: j == i
  {
    hide PrudentlyReachable, RowShape, Fits, RowsUnique, TruthInv, Intact;
    PrudentFacts(w);
    CompletedRowIsTrue(w, k);
    var p := w.creators[k];
    IntactWasCalled(w, p);
    var i := w.effects[p].call;
    assert CallOk(w, i);
    forall j | 0 <= j < |w.calls| && KeyOf(w.calls[j].auth) == k ensures j == i {
      assert CallOk(w, j);
      CalledOwnsRow(w, w.calls[j].pid);
    }
    assert w.calls[i] == Call(p, w.db.effects[k].auth);
  }

  lemma IntactWasCalled(w: World, p: Pid)
    requires Intact(w, p)
    ensures p in w.effects
  {
  }

  /** A dispatch whose executor was called created the row of its request. */
  lemma CalledOwnsRow(w: World, p: Pid)
    requires Inv(w) && p in w.effects
    ensures p in w.procs && w.procs[p].Dispatch? && w.procs[p].held.Some? && StoredInputsValid(w.procs[p].auth)
            && var k := KeyOf(w.procs[p].auth);
               k in w.db.effects && k in w.creators && w.creators[k] == p && w.db.effects[k].auth == w.procs[p].auth
  {
    hide RowsOk, RowsUnique, CallsOk, StoredInputsValid, OutcomeBinds, ParsedForTenant, HeldFits, StoredFits;
    assert ProcOk(w, p);
  }

  /** Whoever is told of success, by whichever path (first reply, replay, reconciliation or
      recovery), the effect is in place. */
  lemma ReportedSuccessIsInEffect(w: World, p: Pid)
    requires PrudentlyReachable(w) && p in w.procs && w.procs[p].pc.Done? && w.procs[p].pc.outcome.status == Succeeded
    ensures var k := KeyOfProcess(w.procs[p]);
            k in w.db.effects && w.db.effects[k].state == Completed && k in w.creators && Intact(w, w.creators[k])
  {
    hide PrudentlyReachable, RowsUnique, CallsOk, LocalOk, LinkOk, BoundShape, TruthInv, Intact;
    PrudentFacts(w);
    assert ProcOk(w, p);
    var k := KeyOfProcess(w.procs[p]);
    assert RowOk(w, k);
    CompletedRowIsTrue(w, k);
  }
}
