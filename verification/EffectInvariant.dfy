/** What every step of the effect protocol keeps. */
module EffectInvariant {
  import opened Records
  import opened EvidenceChain
  import opened EffectStore
  import opened EffectProtocol

  // ---- Rows ----

  predicate Settled(db: EffectDb, k: RowKey, o: Outcome) {
    k in db.effects && Terminal(db.effects[k]) && db.effects[k].outcome == Some(o)
  }

  predicate StateShape(row: Row) {
    match row.state
    case Completed =>
      row.version == 2 && row.generation == 1 && row.outcome.Some? && row.outcomeEvent.Some?
      && row.outcome.value.status == Succeeded
    case Indeterminate =>
      row.version == 2 && 1 <= row.generation <= 2 && row.outcome.Some? && row.outcomeEvent.Some?
      && row.outcome.value.status == StatusIndeterminate
    case Failed => false
    case _ => row.version == 1 && row.generation == 1 && row.outcome.None? && row.outcomeEvent.None?
  }

  predicate BoundShape(row: Row) {
    && row.binding == BindingDigest(row.auth) && row.attempt != ""
    && ParsedForTenant(row.auth) && RowChecks(row.auth)
    && row.intent.run == row.auth.request.runId && row.intent.payload == IntentPayload(row.auth)
    && (row.outcome.Some? ==> OutcomeBinds(row.auth, row.intent, row.outcome.value))
    && (row.outcome.Some? && row.outcomeEvent.Some? ==>
          OutcomeEventBinds(row.auth, row.outcome.value, row.outcomeEvent.value))
  }

  predicate RowShape(row: Row) { BoundShape(row) && StateShape(row) }

  /** On rows the protocol writes, reading fails only for authority that was never storable. */
  lemma ReadableRows(row: Row)
    requires RowShape(row)
    ensures Readable(row) <==> StoredInputsValid(row.auth)
  {
  }

  predicate HeldFits(held: Row, row: Row) {
    held.attempt == row.attempt && held.generation == 1 && held.version == 1 && held.intent == row.intent
      && held.auth == row.auth
  }

  ghost predicate RowOk(w: World, k: RowKey)
    requires k in w.db.effects
  {
    var row := w.db.effects[k];
    && RowShape(row) && KeyOf(row.auth) == k
    && k in w.creators && w.creators[k] in w.procs
    && var c := w.procs[w.creators[k]];
       c.Dispatch? && c.auth == row.auth
  }

  ghost predicate RowsOk(w: World) {
    && w.creators.Keys == w.db.effects.Keys
    && forall k | k in w.db.effects :: RowOk(w, k)
  }

  predicate SharesIdentity(j: RowKey, r: Row, k: RowKey, s: Row) {
    j.0 == k.0 && (r.auth.request.idempotency.key == s.auth.request.idempotency.key
                   || r.auth.grant.grantId == s.auth.grant.grantId)
  }

  ghost predicate RowsUnique(db: EffectDb) {
    forall j, k | j in db.effects && k in db.effects && j != k :: !SharesIdentity(j, db.effects[j], k, db.effects[k])
  }

  // ---- Processes ----

  predicate Early(pc: Pc) { pc.Looking? || pc.Validating? || pc.Selecting? || pc.Inserting? }

  predicate Invoked(pc: Pc) { pc.Ran? || pc.Finishing? || pc.Committing? || pc.Reconciling? || pc.Reverting? }

  predicate Over(pc: Pc) { pc.Done? || pc.Raised? || pc.Crashed? }

  function KeyOfProcess(c: Process): RowKey {
    match c
    case Dispatch(a, _, _) => KeyOf(a)
    case Recovery(actor, requestId, _) => (actor.tenant, requestId)
  }

  function Waiting(w: World, p: Pid): Option<InFlight> {
    if p in w.pending then Some(w.pending[p]) else None
  }

  /** What a process knows without looking at the database; `called` says whether its executor was
      invoked, `waiting` whether a commit of it is in flight. */
  predicate LocalOk(c: Process, called: bool, waiting: bool) {
    var pc := c.pc;
    match c
    case Dispatch(a, held, _) =>
      && ParsedForTenant(a)
      && (Early(pc) || pc.Renewing? || pc.Ready? || Invoked(pc) || Over(pc))
      && (Early(pc) ==> held.None?)
      && (pc.Renewing? || pc.Ready? || Invoked(pc) || called || waiting ==> held.Some?)
      && (pc.Ready? || called ==> StoredInputsValid(a))
      && (Invoked(pc) || waiting ==> called)
      && (called ==> !pc.Renewing? && !pc.Ready?)
      && (waiting ==> pc.Reconciling? || pc.Reverting? || Over(pc))
    case Recovery(_, _, _) =>
      && (pc.Looking? || InRecovery(pc) || Over(pc))
      && !called && !waiting
  }

  predicate InRecovery(pc: Pc) { pc.Outlining? || pc.RecoverReady? || pc.RecoverCommitting? }

  /** Whether a process holds on to facts about its row. */
  predicate Linked(c: Process) {
    match c
    case Dispatch(_, held, _) => held.Some?
    case Recovery(_, _, pc) => InRecovery(pc)
  }

  predicate StoredFits(stored: Row, row: Row) {
    stored.auth == row.auth && stored.intent == row.intent && stored.attempt == row.attempt && stored.generation == 1
      && stored.version == 1
  }

  /** The facts a linked process holds agree with its row. */
  predicate LinkOk(c: Process, waiting: Option<InFlight>, row: Row) {
    var pc := c.pc;
    && (c.Dispatch? && c.held.Some? ==> row.auth == c.auth && HeldFits(c.held.value, row))
    && (pc.Finishing? || pc.Committing? || pc.Reconciling? || pc.RecoverReady? || pc.RecoverCommitting? ==>
          OutcomeBinds(row.auth, row.intent, pc.outcome))
    && (pc.RecoverReady? || pc.RecoverCommitting? ==> pc.outcome.status == StatusIndeterminate)
    && (pc.Outlining? ==> StoredFits(pc.target, row))
    && (pc.Committing? || pc.RecoverCommitting? ==> StoredFits(pc.stored, row))
    && (waiting.Some? ==>
          StoredFits(waiting.value.stored, row) && OutcomeBinds(row.auth, row.intent, waiting.value.outcome))
  }

  /** Process `p` may be in the state `c` when the rest of the world is as in `w`. */
  ghost predicate Fits(w: World, p: Pid, c: Process) {
    var k := KeyOfProcess(c);
    && LocalOk(c, p in w.effects, p in w.pending)
    && (Early(c.pc) && k in w.creators ==> w.creators[k] != p)
    && (Linked(c) ==> k in w.db.effects && LinkOk(c, Waiting(w, p), w.db.effects[k]))
    && (Linked(c) && c.Dispatch? ==> k in w.creators && w.creators[k] == p)
    && (c.pc.Done? ==> Settled(w.db, k, c.pc.outcome))
  }

  ghost predicate ProcOk(w: World, p: Pid)
    requires p in w.procs
  {
    Fits(w, p, w.procs[p])
  }

  ghost predicate CallOk(w: World, i: nat)
    requires i < |w.calls|
  {
    var p := w.calls[i].pid;
    && p in w.effects && w.effects[p].call == i
    && p in w.procs && w.procs[p].Dispatch? && w.procs[p].auth == w.calls[i].auth
  }

  /** Calls and called dispatches correspond one to one. */
  ghost predicate CallsOk(w: World) {
    && (forall i | 0 <= i < |w.calls| :: CallOk(w, i))
    && (forall p | p in w.effects :: w.effects[p].call < |w.calls| && w.calls[w.effects[p].call].pid == p)
  }

  ghost predicate Inv(w: World) {
    && RowsOk(w) && RowsUnique(w.db) && CallsOk(w)
    && w.effects.Keys <= w.procs.Keys && w.pending.Keys <= w.procs.Keys
    && forall p | p in w.procs :: ProcOk(w, p)
  }

  // ---- How a step may change the world ----

  /** A row keeps its authority, intent and attempt, a terminal row does not change at all, and
      versions and generations only grow. */
  predicate Evolves(row: Row, next: Row) {
    && next.auth == row.auth && next.intent == row.intent && next.attempt == row.attempt
    && row.version <= next.version && row.generation <= next.generation
    && (!Live(row.state) ==> next == row)
  }

  /** Only process `p` moves, and rows only evolve. */
  ghost predicate Extends(w: World, v: World, p: Pid) {
    && (forall k | k in w.db.effects :: k in v.db.effects && Evolves(w.db.effects[k], v.db.effects[k]))
    && (forall k | k in w.creators :: k in v.creators && v.creators[k] == w.creators[k])
    && (forall k | k in v.creators && k !in w.creators :: v.creators[k] == p)
    && w.procs.Keys <= v.procs.Keys
    && (forall q | q in v.procs && q != p :: q in w.procs && v.procs[q] == w.procs[q])
    && (forall q | q in w.procs && q != p ::
          && (q in w.effects <==> q in v.effects) && (q in w.effects ==> v.effects[q] == w.effects[q])
          && (q in w.pending <==> q in v.pending) && (q in w.pending ==> v.pending[q] == w.pending[q]))
  }

  lemma LinkSurvives(c: Process, waiting: Option<InFlight>, row: Row, next: Row)
    requires LinkOk(c, waiting, row) && Evolves(row, next)
    ensures LinkOk(c, waiting, next)
  {
    hide OutcomeBinds;
  }

  lemma OthersKeep(w: World, v: World, p: Pid, q: Pid)
    requires Extends(w, v, p)
    requires q in w.procs && q != p && q in v.procs && ProcOk(w, q)
    ensures ProcOk(v, q)
  {
    hide LocalOk, LinkOk;
    var k := KeyOfProcess(w.procs[q]);
    if Linked(w.procs[q]) {
      LinkSurvives(w.procs[q], Waiting(w, q), w.db.effects[k], v.db.effects[k]);
    }
  }

  /** A row survives a step that leaves it in place and keeps who created it. */
  lemma RowSurvives(w: World, v: World, k: RowKey)
    requires k in w.db.effects && RowOk(w, k)
    requires k in v.db.effects && v.db.effects[k].auth == w.db.effects[k].auth && RowShape(v.db.effects[k])
    requires k in v.creators && v.creators[k] == w.creators[k]
    requires w.creators[k] in v.procs
    requires w.procs[w.creators[k]].Dispatch? ==>
               v.procs[w.creators[k]].Dispatch? && v.procs[w.creators[k]].auth == w.procs[w.creators[k]].auth
    ensures RowOk(v, k)
  {
    hide RowShape;
  }

  predicate SameOwner(c: Process, d: Process) {
    match c
    case Dispatch(a, _, _) => d.Dispatch? && d.auth == a
    case Recovery(actor, id, _) => d.Recovery? && d.actor == actor && d.requestId == id
  }

  /** What has to be checked about a step of `p` that writes at most the row of `p` and makes no
      call: that row evolves, and `p` itself is in order. */
  ghost predicate StepOf(w: World, v: World, p: Pid) {
    && p in w.procs && p in v.procs && v.procs == w.procs[p := v.procs[p]] && SameOwner(w.procs[p], v.procs[p])
    && v.creators == w.creators && v.calls == w.calls && v.effects.Keys == w.effects.Keys
    && (forall q | q in w.effects ::
          v.effects[q].call == w.effects[q].call && (q != p ==> v.effects[q] == w.effects[q]))
    && v.pending.Keys <= w.pending.Keys + {p}
    && (forall q | q in w.pending && q != p :: q in v.pending && v.pending[q] == w.pending[q])
    && (v.db.effects == w.db.effects
        || (var k := KeyOfProcess(w.procs[p]);
            && k in w.db.effects && k in v.db.effects && v.db.effects == w.db.effects[k := v.db.effects[k]]
            && Evolves(w.db.effects[k], v.db.effects[k]) && RowShape(v.db.effects[k])))
    && ProcOk(v, p)
  }

  lemma KeepsProcs(w: World, v: World, p: Pid)
    requires forall q | q in w.procs :: ProcOk(w, q)
    requires Extends(w, v, p)
    requires p in v.procs ==> ProcOk(v, p)
    ensures forall q | q in v.procs :: ProcOk(v, q)
  {
    hide ProcOk;
    forall q | q in v.procs ensures ProcOk(v, q) {
      if q != p {
        OthersKeep(w, v, p, q);
      }
    }
  }

  lemma StepKeepsRows(w: World, v: World, p: Pid)
    requires RowsOk(w) && StepOf(w, v, p)
    ensures RowsOk(v)
  {
    hide Fits, RowShape, RowOk;
    forall j | j in v.db.effects ensures RowOk(v, j) {
      StepKeepsRow(w, v, p, j);
    }
  }

  lemma StepKeepsRow(w: World, v: World, p: Pid, j: RowKey)
    requires RowsOk(w) && StepOf(w, v, p) && j in v.db.effects
    ensures RowOk(v, j)
  {
    hide Fits, RowShape;
    assert RowOk(w, j);
    RowSurvives(w, v, j);
  }

  lemma StepKeepsUnique(w: World, v: World, p: Pid)
    requires RowsUnique(w.db) && StepOf(w, v, p)
    ensures RowsUnique(v.db)
  {
    hide Fits, SharesIdentity, RowShape;
    forall i, j | i in v.db.effects && j in v.db.effects && i != j
      ensures !SharesIdentity(i, v.db.effects[i], j, v.db.effects[j])
    {
      IdentityIsAuthority(i, w.db.effects[i], v.db.effects[i], j, w.db.effects[j], v.db.effects[j]);
    }
  }

  lemma IdentityIsAuthority(i: RowKey, r: Row, r': Row, j: RowKey, s: Row, s': Row)
    requires r.auth == r'.auth && s.auth == s'.auth
    ensures SharesIdentity(i, r, j, s) == SharesIdentity(i, r', j, s')
  {
  }

  lemma StepKeepsCalls(w: World, v: World, p: Pid)
    requires CallsOk(w) && StepOf(w, v, p)
    ensures CallsOk(v)
  {
    hide Fits, RowShape;
    forall i | 0 <= i < |v.calls| ensures CallOk(v, i) { assert CallOk(w, i); }
  }

  lemma StepExtends(w: World, v: World, p: Pid)
    requires StepOf(w, v, p)
    ensures Extends(w, v, p)
  {
    hide ProcOk, RowShape;
  }

  lemma KeepsInv(w: World, v: World, p: Pid)
    requires Inv(w) && StepOf(w, v, p)
    ensures Inv(v)
  {
    hide ProcOk, RowsOk, RowsUnique, CallsOk;
    StepKeepsRows(w, v, p);
    StepKeepsUnique(w, v, p);
    StepKeepsCalls(w, v, p);
    StepExtends(w, v, p);
    KeepsProcs(w, v, p);
  }

  // ---- Each step, looked at from its process ----

  /** The row of a process, if there is one, has the right shape. */
  ghost predicate OwnRowOk(w: World, p: Pid)
    requires p in w.procs
  {
    var k := KeyOfProcess(w.procs[p]);
    k in w.db.effects ==> RowShape(w.db.effects[k]) && KeyOf(w.db.effects[k].auth) == k
  }

  /** A step that only moves `p`. */
  ghost predicate MoveOf(w: World, v: World, p: Pid)
    requires p in w.procs
  {
    v == w || (p in v.procs && v == At(w, p, v.procs[p].pc) && Fits(w, p, w.procs[p].(pc := v.procs[p].pc)))
  }

  lemma MoveIsStep(w: World, v: World, p: Pid)
    requires p in w.procs && ProcOk(w, p) && MoveOf(w, v, p)
    ensures StepOf(w, v, p)
  {
    hide LocalOk, LinkOk, RowShape;
    if v == w {
      assert v.procs == w.procs[p := v.procs[p]];
    }
  }

  lemma LookupFacts(db: EffectDb, actor: ActorContext, id: Id)
    ensures var r, k := Lookup(db, actor, id), (actor.tenant, id);
            r.Found? ==> k in db.effects && r.row == db.effects[k] && r.row.auth.actor.actor == actor.actor
  {
    hide Readable;
  }

  /** Any process may raise, and may return what its row settled on. */
  lemma OverFits(w: World, p: Pid, c: Process)
    requires Fits(w, p, c)
    ensures Fits(w, p, c.(pc := Raised)) && Fits(w, p, c.(pc := Crashed))
    ensures forall o | Settled(w.db, KeyOfProcess(c), o) :: Fits(w, p, c.(pc := Done(o)))
  {
    hide StoredInputsValid, OutcomeBinds, ParsedForTenant, HeldFits, StoredFits, Settled;
  }

  lemma EarlyFits(w: World, p: Pid, a: Authority, held: Option<Row>, pc: Pc, next: Pc)
    requires Fits(w, p, Dispatch(a, held, pc)) && Early(pc) && Early(next)
    ensures Fits(w, p, Dispatch(a, held, next))
  {
    hide StoredInputsValid, LinkOk, ParsedForTenant, Settled;
  }

  lemma OutliningFits(w: World, p: Pid, c: Process, row: Row)
    requires Fits(w, p, c) && c.Recovery? && c.pc == Looking
    requires KeyOfProcess(c) in w.db.effects && row == w.db.effects[KeyOfProcess(c)] && StateShape(row)
             && Live(row.state)
    ensures Fits(w, p, c.(pc := Outlining(row)))
  {
    hide StoredInputsValid, OutcomeBinds, ParsedForTenant, Settled;
  }

  lemma DispatchLookUpOk(w: World, p: Pid, ok: bool)
    requires p in w.procs && ProcOk(w, p) && OwnRowOk(w, p) && w.procs[p].Dispatch?
    ensures MoveOf(w, DoLookUp(w, p, ok), p)
  {
    hide Lookup, BindingDigest, BoundShape, StateShape, Fits;
    var c := w.procs[p];
    if c.pc == Looking {
      OverFits(w, p, c);
      LookupFacts(w.db, c.auth.actor, c.auth.request.requestId);
      EarlyFits(w, p, c.auth, c.held, Looking, Validating);
    }
  }

  lemma RecoveryLookUpOk(w: World, p: Pid, ok: bool)
    requires p in w.procs && ProcOk(w, p) && OwnRowOk(w, p) && w.procs[p].Recovery?
    ensures MoveOf(w, DoLookUp(w, p, ok), p)
  {
    hide Lookup, BindingDigest, BoundShape, Fits;
    var c := w.procs[p];
    if c.pc == Looking {
      OverFits(w, p, c);
      LookupFacts(w.db, c.actor, c.requestId);
      var r := Lookup(w.db, c.actor, c.requestId);
      if r.Found? && Live(r.row.state) {
        OutliningFits(w, p, c, r.row);
      }
    }
  }

  lemma LookUpOk(w: World, p: Pid, ok: bool)
    requires p in w.procs && ProcOk(w, p) && OwnRowOk(w, p)
    ensures MoveOf(w, DoLookUp(w, p, ok), p)
  {
    hide DoLookUp, OwnRowOk, ProcOk, MoveOf;
    if w.procs[p].Dispatch? {
      DispatchLookUpOk(w, p, ok);
    } else {
      RecoveryLookUpOk(w, p, ok);
    }
  }

  lemma SelectionFacts(db: EffectDb, a: Authority)
    ensures SelectForBinding(db, a).Existing? ==>
              KeyOf(a) in db.effects && SelectForBinding(db, a).row == db.effects[KeyOf(a)]
  {
    hide Readable, ExactReplay;
    assert KeyOf(a) in {KeyOf(a)};
  }

  lemma SelectOk(w: World, p: Pid, ok: bool)
    requires p in w.procs && ProcOk(w, p) && OwnRowOk(w, p)
    ensures MoveOf(w, DoSelect(w, p, ok), p)
  {
    hide SelectForBinding, BoundShape, Fits;
    var c := w.procs[p];
    if c.Dispatch? && c.pc == Selecting {
      SelectionFacts(w.db, c.auth);
      OverFits(w, p, c);
      EarlyFits(w, p, c.auth, c.held, Selecting, Inserting);
    }
  }

  lemma BuiltOutcomeBinds(a: Authority, intent: Event, status: Status, result: Id, s: Stamp)
    ensures OutcomeBinds(a, intent, BuildOutcome(a, intent, status, result, s))
            && BuildOutcome(a, intent, status, result, s).status == status
  {
  }

  lemma FinishingFits(w: World, p: Pid, a: Authority, held: Row, status: Status, result: Id, o: Outcome)
    requires Fits(w, p, Dispatch(a, Some(held), Ran(status, result))) && OutcomeBinds(a, held.intent, o)
    ensures Fits(w, p, Dispatch(a, Some(held), Finishing(o))) && Fits(w, p, Dispatch(a, Some(held), Reverting))
  {
    hide StoredInputsValid, OutcomeBinds, ParsedForTenant, Settled;
  }

  lemma RecoverReadyFits(w: World, p: Pid, c: Process, o: Outcome)
    requires Fits(w, p, c) && c.Recovery? && c.pc.Outlining? && OutcomeBinds(c.pc.target.auth, c.pc.target.intent, o)
    requires o.status == StatusIndeterminate
    ensures Fits(w, p, c.(pc := RecoverReady(o)))
  {
    hide StoredInputsValid, OutcomeBinds, ParsedForTenant, Settled;
  }

  lemma BuildOk(w: World, p: Pid, ok: bool, s: Stamp)
    requires p in w.procs && ProcOk(w, p)
    ensures MoveOf(w, DoBuild(w, p, ok, s), p)
  {
    hide OutcomeBinds, BuildOutcome, ScopeDerivable, Fits;
    OverFits(w, p, w.procs[p]);
    match w.procs[p]
    case Dispatch(a, Some(held), Ran(status, result)) =>
      BuiltOutcomeBinds(a, held.intent, status, result, s);
      FinishingFits(w, p, a, held, status, result, BuildOutcome(a, held.intent, status, result, s));
    case Recovery(_, _, Outlining(row)) =>
      BuiltOutcomeBinds(row.auth, row.intent, StatusIndeterminate, RECOVERED_RESULT, s);
      RecoverReadyFits(w, p, w.procs[p], BuildOutcome(row.auth, row.intent, StatusIndeterminate, RECOVERED_RESULT, s));
    case _ =>
  }

  lemma CheckCompleteOk(w: World, p: Pid, ok: bool)
    requires p in w.procs && ProcOk(w, p) && OwnRowOk(w, p)
    ensures MoveOf(w, DoCheckComplete(w, p, ok), p)
  {
    hide StoredInputsValid, OutcomeBinds, ParsedForTenant, BindingDigest, Readable, BoundShape;
  }

  lemma ReconcileOk(w: World, p: Pid, ok: bool)
    requires p in w.procs && ProcOk(w, p) && OwnRowOk(w, p)
    ensures MoveOf(w, DoReconcile(w, p, ok), p)
  {
    hide StoredInputsValid, OutcomeBinds, ParsedForTenant, BindingDigest, Readable, BoundShape;
  }

  lemma CheckRecoverOk(w: World, p: Pid, ok: bool)
    requires p in w.procs && ProcOk(w, p) && OwnRowOk(w, p)
    ensures MoveOf(w, DoCheckRecover(w, p, ok), p)
  {
    hide StoredInputsValid, OutcomeBinds, ParsedForTenant, BindingDigest, Readable, BoundShape;
  }

  lemma RevertOk(w: World, p: Pid, ok: bool)
    requires p in w.procs && ProcOk(w, p)
    ensures StepOf(w, DoRevert(w, p, ok), p)
  {
    hide RowShape, StoredInputsValid, ParsedForTenant, OutcomeBinds;
    var v := DoRevert(w, p, ok);
    assert v.procs == w.procs[p := v.procs[p]];
  }

  /** A renewal changes at most the lease of a live row, and hands out that row. */
  lemma RenewShape(db: EffectDb, actor: ActorContext, id: Id, attempt: Id, generation: nat, now: int, lease: nat)
    requires var k := (actor.tenant, id); k in db.effects ==> RowShape(db.effects[k])
    ensures var r, k := Renew(db, actor, id, attempt, generation, now, lease), (actor.tenant, id);
            && r.db.runs == db.runs
            && (r.db != db || r.value.Some? ==>
                  && k in db.effects && k in r.db.effects && r.db.effects == db.effects[k := r.db.effects[k]]
                  && Evolves(db.effects[k], r.db.effects[k]) && RowShape(r.db.effects[k])
                  && Live(r.db.effects[k].state))
            && (r.value.Some? ==> r.value.value == r.db.effects[k] && Readable(r.value.value))
  {
    hide StoredInputsValid, OutcomeBinds, ParsedForTenant, BindingDigest, RowChecks;
  }

  /** A step that moves `p` to `c` and writes at most its row. */
  lemma WriteIsStep(w: World, v: World, p: Pid, c: Process)
    requires p in w.procs && SameOwner(w.procs[p], c)
             && v == w.(db := v.db, procs := w.procs[p := c], pending := v.pending)
    requires v.pending.Keys <= w.pending.Keys + {p}
             && (forall q | q in w.pending && q != p :: q in v.pending && v.pending[q] == w.pending[q])
    requires v.db.effects == w.db.effects
        || (var k := KeyOfProcess(w.procs[p]);
            && k in w.db.effects && k in v.db.effects && v.db.effects == w.db.effects[k := v.db.effects[k]]
            && Evolves(w.db.effects[k], v.db.effects[k]) && RowShape(v.db.effects[k]))
    requires Fits(v, p, c)
    ensures StepOf(w, v, p)
  {
    hide Fits, RowShape, Evolves;
    assert v.procs == w.procs[p := v.procs[p]];
  }

  lemma RenewedFits(w: World, db: EffectDb, p: Pid, a: Authority, h: Row)
    requires Fits(w, p, Dispatch(a, Some(h), Renewing)) && KeyOf(a) in w.db.effects && KeyOf(a) in db.effects
    requires Evolves(w.db.effects[KeyOf(a)], db.effects[KeyOf(a)]) && Live(db.effects[KeyOf(a)].state)
             && StateShape(db.effects[KeyOf(a)])
    requires StoredInputsValid(a)
    ensures Fits(w.(db := db, procs := w.procs[p := Dispatch(a, Some(db.effects[KeyOf(a)]), Ready)]), p,
                 Dispatch(a, Some(db.effects[KeyOf(a)]), Ready))
  {
    hide StoredInputsValid, ParsedForTenant, OutcomeBinds;
  }

  lemma RenewRaisedFits(w: World, db: EffectDb, p: Pid, a: Authority, h: Row)
    requires Fits(w, p, Dispatch(a, Some(h), Renewing)) && KeyOf(a) in w.db.effects && KeyOf(a) in db.effects
    requires Evolves(w.db.effects[KeyOf(a)], db.effects[KeyOf(a)])
    ensures Fits(w.(db := db, procs := w.procs[p := Dispatch(a, Some(h), Raised)]), p, Dispatch(a, Some(h), Raised))
  {
    hide StoredInputsValid, ParsedForTenant, OutcomeBinds;
  }

  lemma RenewFirstOk(w: World, p: Pid, lease: nat, ack: bool)
    requires p in w.procs && ProcOk(w, p) && OwnRowOk(w, p)
    ensures StepOf(w, DoRenewFirst(w, p, lease, ack), p)
  {
    hide StoredInputsValid, ParsedForTenant, BoundShape, Renew, OutcomeBinds, Fits, StepOf;
    var v := DoRenewFirst(w, p, lease, ack);
    match w.procs[p]
    case Dispatch(a, Some(h), Renewing) =>
      var k := KeyOf(a);
      OwnRowFacts(w, p);
      RenewShape(w.db, a.actor, a.request.requestId, h.attempt, h.generation, w.now, lease);
      var r := Renew(w.db, a.actor, a.request.requestId, h.attempt, h.generation, w.now, lease);
      if ack && r.value.Some? {
        RenewedFits(w, r.db, p, a, h);
        WriteIsStep(w, v, p, Dispatch(a, Some(r.db.effects[k]), Ready));
      } else {
        RenewRaisedFits(w, r.db, p, a, h);
        WriteIsStep(w, v, p, Dispatch(a, Some(h), Raised));
      }
    case _ => StaysIsStep(w, p);
  }

  lemma OwnRowFacts(w: World, p: Pid)
    requires p in w.procs && ProcOk(w, p) && w.procs[p].Dispatch? && w.procs[p].held.Some?
    ensures var k := KeyOf(w.procs[p].auth); k in w.db.effects && w.db.effects[k].auth == w.procs[p].auth
  {
    hide StoredInputsValid, ParsedForTenant, OutcomeBinds, LocalOk;
  }

  lemma StaysIsStep(w: World, p: Pid)
    requires p in w.procs && ProcOk(w, p)
    ensures StepOf(w, w, p)
  {
    hide Fits;
    assert w.procs == w.procs[p := w.procs[p]];
  }

  lemma BeatFits(w: World, db: EffectDb, p: Pid, c: Process)
    requires Fits(w, p, c) && Linked(c)
    requires KeyOfProcess(c) in w.db.effects && KeyOfProcess(c) in db.effects
    requires Evolves(w.db.effects[KeyOfProcess(c)], db.effects[KeyOfProcess(c)])
    ensures Fits(w.(db := db), p, c)
  {
    hide StoredInputsValid, OutcomeBinds, ParsedForTenant, BoundShape;
  }

  lemma HeartbeatOk(w: World, p: Pid, lease: nat)
    requires p in w.procs && ProcOk(w, p) && OwnRowOk(w, p)
    ensures StepOf(w, DoHeartbeat(w, p, lease), p)
  {
    hide BoundShape, Renew, Readable, Fits, StepOf;
    var v := DoHeartbeat(w, p, lease);
    if w.procs[p].Dispatch? && w.procs[p].held.Some? {
      var a, h := w.procs[p].auth, w.procs[p].held.value;
      OwnRowFacts(w, p);
      RenewShape(w.db, a.actor, a.request.requestId, h.attempt, h.generation, w.now, lease);
      BeatFits(w, v.db, p, w.procs[p]);
      assert v.procs == w.procs[p := w.procs[p]];
      WriteIsStep(w, v, p, w.procs[p]);
    } else {
      StaysIsStep(w, p);
    }
  }

  /** What a completing transaction does to its row: nothing, or the one terminal write. */
  ghost predicate Terminated(db: EffectDb, next: EffectDb, k: RowKey, o: Outcome) {
    && k in db.effects && k in next.effects && Live(db.effects[k].state)
    && next.effects == db.effects[k := next.effects[k]]
    && Evolves(db.effects[k], next.effects[k]) && RowShape(next.effects[k])
    && Settled(next, k, o)
  }

  lemma CompleteCommitShape(db: EffectDb, actor: ActorContext, id: Id, stored: Row, version: nat, attempt: Id,
                            generation: nat, o: Outcome, x: Writing, now: int)
    requires var k := (actor.tenant, id);
             k in db.effects && RowShape(db.effects[k]) && KeyOf(db.effects[k].auth) == k
             && StoredFits(stored, db.effects[k]) && OutcomeBinds(db.effects[k].auth, db.effects[k].intent, o)
    ensures var r := CompleteCommit(db, actor, id, stored, version, attempt, generation, o, x.envelopeId, x.clock, now);
            (r.value.None? ==> r.db == db) && (r.value.Some? ==> Terminated(db, r.db, (actor.tenant, id), o))
  {
    hide StoredInputsValid, OutcomeBinds, ParsedForTenant, BindingDigest, RowChecks;
  }

  lemma RecoverCommitShape(db: EffectDb, actor: ActorContext, id: Id, stored: Row, o: Outcome, x: Writing, now: int)
    requires var k := (actor.tenant, id);
             k in db.effects && RowShape(db.effects[k]) && KeyOf(db.effects[k].auth) == k
             && StoredFits(stored, db.effects[k]) && OutcomeBinds(db.effects[k].auth, db.effects[k].intent, o)
    requires o.status == StatusIndeterminate
    ensures var r := RecoverCommit(db, actor, id, stored, o, x.envelopeId, x.clock, now);
            (r.value.None? ==> r.db == db) && (r.value.Some? ==> Terminated(db, r.db, (actor.tenant, id), o))
  {
    hide StoredInputsValid, OutcomeBinds, ParsedForTenant, BindingDigest, RowChecks;
  }

  /** After its transaction, or once it has given up on it, a committing process moves on. */
  lemma CommittedFits(w: World, db: EffectDb, pending: map<Pid, InFlight>, p: Pid, c: Process, o: Outcome, next: Pc)
    requires Fits(w, p, c) && Linked(c) && (c.pc.Committing? || c.pc.RecoverCommitting?) && c.pc.outcome == o
    requires var k := KeyOfProcess(c);
             k in w.db.effects && k in db.effects && Evolves(w.db.effects[k], db.effects[k])
             && (next == Raised || (next == Reconciling(o) && c.Dispatch?) || (next == Done(o) && Settled(db, k, o)))
    requires pending == w.pending
             || (pending == w.pending[p := InFlight(c.pc.stored, o)] && next == Reconciling(o) && c.Dispatch?)
    ensures Fits(w.(db := db, pending := pending, procs := w.procs[p := c.(pc := next)]), p, c.(pc := next))
  {
    hide StoredInputsValid, OutcomeBinds, ParsedForTenant, Settled;
  }

  /** What a linked process knows of its row. */
  lemma LinkedFacts(w: World, p: Pid, c: Process)
    requires Fits(w, p, c) && Linked(c)
    ensures var k := KeyOfProcess(c);
            && k in w.db.effects && LinkOk(c, Waiting(w, p), w.db.effects[k])
            && (c.pc.Committing? || c.pc.RecoverCommitting? ==> p !in w.pending)
  {
    hide StoredInputsValid, OutcomeBinds, ParsedForTenant, Settled, LinkOk;
  }

  lemma CommitOk(w: World, p: Pid, x: Writing, reply: Acknowledgement)
    requires p in w.procs && ProcOk(w, p) && OwnRowOk(w, p)
    ensures StepOf(w, DoCommit(w, p, x, reply), p)
  {
    hide StoredInputsValid, OutcomeBinds, ParsedForTenant, RowShape, CompleteCommit, Fits, StepOf, Settled;
    var v := DoCommit(w, p, x, reply);
    match w.procs[p]
    case Dispatch(a, Some(held), Committing(o, stored)) =>
      LinkedFacts(w, p, w.procs[p]);
      CompleteCommitShape(w.db, a.actor, a.request.requestId, stored, held.version, held.attempt, held.generation, o,
                          x, w.now);
      CommittedFits(w, v.db, v.pending, p, w.procs[p], o, v.procs[p].pc);
      WriteIsStep(w, v, p, v.procs[p]);
    case _ => StaysIsStep(w, p);
  }

  lemma LateFits(w: World, db: EffectDb, p: Pid, c: Process)
    requires Fits(w, p, c) && Linked(c)
    requires KeyOfProcess(c) in w.db.effects && KeyOfProcess(c) in db.effects
    requires Evolves(w.db.effects[KeyOfProcess(c)], db.effects[KeyOfProcess(c)])
    ensures Fits(w.(db := db, pending := w.pending - {p}), p, c)
  {
    hide StoredInputsValid, OutcomeBinds, ParsedForTenant, BoundShape;
  }

  lemma LateCommitOk(w: World, p: Pid, x: Writing, at: int)
    requires p in w.procs && ProcOk(w, p) && OwnRowOk(w, p)
    ensures StepOf(w, DoLateCommit(w, p, x, at), p)
  {
    hide StoredInputsValid, OutcomeBinds, ParsedForTenant, RowShape, CompleteCommit, Fits, StepOf, Settled;
    var v := DoLateCommit(w, p, x, at);
    match w.procs[p]
    case Dispatch(a, Some(held), _) =>
      if p in w.pending && at <= w.now {
        var t := w.pending[p];
        LinkedFacts(w, p, w.procs[p]);
        CompleteCommitShape(w.db, a.actor, a.request.requestId, t.stored, held.version, held.attempt, held.generation,
                            t.outcome, x, at);
        LateFits(w, v.db, p, w.procs[p]);
        assert v.procs == w.procs[p := w.procs[p]];
        WriteIsStep(w, v, p, w.procs[p]);
      } else {
        StaysIsStep(w, p);
      }
    case _ => StaysIsStep(w, p);
  }

  lemma CommitRecoverOk(w: World, p: Pid, x: Writing, ack: bool)
    requires p in w.procs && ProcOk(w, p) && OwnRowOk(w, p)
    ensures StepOf(w, DoCommitRecover(w, p, x, ack), p)
  {
    hide StoredInputsValid, OutcomeBinds, ParsedForTenant, RowShape, RecoverCommit, Fits, StepOf, Settled;
    var v := DoCommitRecover(w, p, x, ack);
    match w.procs[p]
    case Recovery(actor, id, RecoverCommitting(o, stored)) =>
      LinkedFacts(w, p, w.procs[p]);
      RecoverCommitShape(w.db, actor, id, stored, o, x, w.now);
      CommittedFits(w, v.db, v.pending, p, w.procs[p], o, v.procs[p].pc);
      WriteIsStep(w, v, p, v.procs[p]);
    case _ => StaysIsStep(w, p);
  }

  // ---- Steps that add a process, a row or a call ----

  /** Steps of time and of other writers, which nothing here depends on. */
  lemma SameViewKeepsInv(w: World, v: World)
    requires Inv(w) && v.db.effects == w.db.effects && v.creators == w.creators && v.procs == w.procs
    requires v.effects == w.effects && v.calls == w.calls && v.pending == w.pending
    ensures Inv(v)
  {
    hide LocalOk, LinkOk, RowShape, SharesIdentity;
    forall k | k in v.db.effects ensures RowOk(v, k) { assert RowOk(w, k); }
    forall i | 0 <= i < |v.calls| ensures CallOk(v, i) { assert CallOk(w, i); }
    forall p | p in v.procs ensures ProcOk(v, p) { assert ProcOk(w, p); }
  }

  lemma RowsStay(w: World, v: World)
    requires RowsOk(w) && v.db.effects == w.db.effects && v.creators == w.creators
    requires forall q | q in w.procs :: q in v.procs && SameOwner(w.procs[q], v.procs[q])
    ensures RowsOk(v)
  {
    hide RowShape;
    forall k | k in v.db.effects ensures RowOk(v, k) {
      assert RowOk(w, k);
      RowSurvives(w, v, k);
    }
  }

  lemma BeginOk(w: World, p: Pid, c: Process)
    requires RowsOk(w) && p !in w.procs && p !in w.effects && p !in w.pending && c.pc == Looking
    requires c.Dispatch? ==> c.held.None? && ParsedForTenant(c.auth)
    ensures Fits(w, p, c)
  {
    hide StoredInputsValid, OutcomeBinds, ParsedForTenant, RowShape;
    if KeyOfProcess(c) in w.creators {
      assert RowOk(w, KeyOfProcess(c));
    }
  }

  lemma BeginKeepsInv(w: World, p: Pid, c: Process)
    requires Inv(w) && p !in w.procs && c.pc == Looking
    requires c.Dispatch? ==> c.held.None? && ParsedForTenant(c.auth)
    ensures Inv(w.(procs := w.procs[p := c]))
  {
    hide Fits, RowsOk, RowsUnique;
    var v := w.(procs := w.procs[p := c]);
    RowsStay(w, v);
    forall i | 0 <= i < |v.calls| ensures CallOk(v, i) { assert CallOk(w, i); }
    BeginOk(w, p, c);
    FitsStays(w, v, p, c);
    KeepsProcs(w, v, p);
  }

  /** Being in order does not depend on other processes. */
  lemma FitsStays(w: World, v: World, p: Pid, c: Process)
    requires Fits(w, p, c)
    requires v.db.effects == w.db.effects && v.creators == w.creators
    requires (p in v.effects <==> p in w.effects) && Waiting(v, p) == Waiting(w, p)
    ensures Fits(v, p, c)
  {
    hide LocalOk, LinkOk;
  }

  lemma ExecuteOk(w: World, p: Pid, b: Behaviour)
    requires p in w.procs && ProcOk(w, p) && DoExecute(w, p, b) != w
    ensures ProcOk(DoExecute(w, p, b), p) && p !in w.effects
  {
    hide StoredInputsValid, OutcomeBinds, ParsedForTenant;
  }

  lemma ExecuteCalls(w: World, p: Pid, b: Behaviour)
    requires CallsOk(w) && p in w.procs && p !in w.effects && DoExecute(w, p, b) != w
    ensures CallsOk(DoExecute(w, p, b))
  {
    hide Fits;
    var v := DoExecute(w, p, b);
    forall i | 0 <= i < |v.calls| ensures CallOk(v, i) {
      if i < |w.calls| {
        assert CallOk(w, i);
      }
    }
  }

  lemma ExecuteExtends(w: World, p: Pid, b: Behaviour)
    requires p in w.procs
    ensures Extends(w, DoExecute(w, p, b), p)
  {
  }

  lemma ExecuteKeepsInv(w: World, p: Pid, b: Behaviour)
    requires Inv(w) && p in w.procs
    ensures Inv(DoExecute(w, p, b))
  {
    hide Fits, RowsOk, RowsUnique, CallsOk;
    var v := DoExecute(w, p, b);
    if v != w {
      ExecuteOk(w, p, b);
      ExecuteCalls(w, p, b);
      RowsStay(w, v);
      ExecuteExtends(w, p, b);
      KeepsProcs(w, v, p);
    }
  }

  lemma PreparedRowShape(db: EffectDb, a: Authority, x: Writing, attempt: Id, now: int, lease: nat)
    requires ParsedForTenant(a)
    ensures var r := PrepareInsert(db, a, x.envelopeId, x.clock, attempt, now, lease);
            r.value.Some? ==>
              var row := r.value.value;
              && RowShape(row) && row.auth == a && HeldFits(row, row) && Live(row.state) && KeyOf(a) !in db.effects
              && r.db.effects == db.effects[KeyOf(a) := row]
              && forall j | j in db.effects :: !Clashes(j, db.effects[j], a)
  {
    hide ParsedForTenant, StoredInputsValid;
    assert KeyOf(a) in db.effects ==> Clashes(KeyOf(a), db.effects[KeyOf(a)], a);
  }

  lemma InsertRows(w: World, v: World, p: Pid, k: RowKey)
    requires RowsOk(w) && p in w.procs && w.procs[p].Dispatch? && k == KeyOf(w.procs[p].auth) && k !in w.db.effects
    requires k in v.db.effects && v.db.effects == w.db.effects[k := v.db.effects[k]] && v.creators == w.creators[k := p]
    requires v.db.effects[k].auth == w.procs[p].auth && RowShape(v.db.effects[k])
    requires forall q | q in w.procs :: q in v.procs && SameOwner(w.procs[q], v.procs[q])
    ensures RowsOk(v)
  {
    hide RowShape;
    forall j | j in v.db.effects ensures RowOk(v, j) {
      if j != k {
        assert RowOk(w, j);
        RowSurvives(w, v, j);
      }
    }
  }

  lemma InsertUnique(db: EffectDb, next: EffectDb, a: Authority, row: Row)
    requires RowsUnique(db) && next.effects == db.effects[KeyOf(a) := row] && row.auth == a
    requires forall j | j in db.effects :: !Clashes(j, db.effects[j], a)
    ensures RowsUnique(next)
  {
    var k := KeyOf(a);
    forall i, j | i in next.effects && j in next.effects && i != j
      ensures !SharesIdentity(i, next.effects[i], j, next.effects[j])
    {
      if i == k {
        assert !Clashes(j, db.effects[j], a);
      } else if j == k {
        assert !Clashes(i, db.effects[i], a);
      } else {
        assert !SharesIdentity(i, db.effects[i], j, db.effects[j]);
      }
    }
  }

  lemma InsertOk(w: World, p: Pid, x: Writing, attempt: Id, lease: nat, ack: bool)
    requires p in w.procs && ProcOk(w, p)
    ensures ProcOk(DoInsert(w, p, x, attempt, lease, ack), p)
  {
    hide StoredInputsValid, OutcomeBinds, ParsedForTenant, PrepareInsert, RowShape;
    if w.procs[p].Dispatch? && w.procs[p].pc == Inserting {
      PreparedRowShape(w.db, w.procs[p].auth, x, attempt, w.now, lease);
    }
  }

  lemma InsertExtends(w: World, p: Pid, x: Writing, attempt: Id, lease: nat, ack: bool)
    requires RowsOk(w) && p in w.procs && ProcOk(w, p)
    ensures Extends(w, DoInsert(w, p, x, attempt, lease, ack), p)
  {
    hide LocalOk, LinkOk, RowsOk, ProcOk, PrepareInsert, RowShape, Clashes, ParsedForTenant, HeldFits;
    if w.procs[p].Dispatch? && w.procs[p].pc == Inserting {
      ParsedDispatch(w, p);
      PreparedRowShape(w.db, w.procs[p].auth, x, attempt, w.now, lease);
      CreatorsAreRows(w);
    }
  }

  lemma InsertKeepsInv(w: World, p: Pid, x: Writing, attempt: Id, lease: nat, ack: bool)
    requires Inv(w) && p in w.procs
    ensures Inv(DoInsert(w, p, x, attempt, lease, ack))
  {
    hide Fits, RowsOk, RowsUnique, CallsOk, DoInsert, Extends;
    var v := DoInsert(w, p, x, attempt, lease, ack);
    if v != w {
      InsertFrame(w, p, x, attempt, lease, ack);
      InsertTables(w, p, x, attempt, lease, ack);
      assert ProcOk(w, p);
      InsertOk(w, p, x, attempt, lease, ack);
      InsertExtends(w, p, x, attempt, lease, ack);
      KeepsProcs(w, v, p);
    }
  }

  lemma InsertFrame(w: World, p: Pid, x: Writing, attempt: Id, lease: nat, ack: bool)
    requires CallsOk(w) && p in w.procs
    ensures var v := DoInsert(w, p, x, attempt, lease, ack);
            && v.calls == w.calls && v.effects == w.effects && v.pending == w.pending && w.procs.Keys == v.procs.Keys
            && (forall q | q in w.procs :: q in v.procs && SameOwner(w.procs[q], v.procs[q])) && CallsOk(v)
  {
    hide PrepareInsert, CallsOk;
    CallsStay(w, DoInsert(w, p, x, attempt, lease, ack));
  }

  lemma InsertTables(w: World, p: Pid, x: Writing, attempt: Id, lease: nat, ack: bool)
    requires RowsOk(w) && RowsUnique(w.db) && p in w.procs && ProcOk(w, p)
    requires forall q | q in w.procs ::
               var v := DoInsert(w, p, x, attempt, lease, ack); q in v.procs && SameOwner(w.procs[q], v.procs[q])
    ensures var v := DoInsert(w, p, x, attempt, lease, ack); RowsOk(v) && RowsUnique(v.db)
  {
    hide ProcOk, RowsOk, RowsUnique, PrepareInsert, RowShape, Clashes, ParsedForTenant, SameOwner;
    var v := DoInsert(w, p, x, attempt, lease, ack);
    if w.procs[p].Dispatch? && w.procs[p].pc == Inserting {
      var a := w.procs[p].auth;
      var r := PrepareInsert(w.db, a, x.envelopeId, x.clock, attempt, w.now, lease);
      ParsedDispatch(w, p);
      PreparedRowShape(w.db, a, x, attempt, w.now, lease);
      if r.value.Some? {
        InsertRows(w, v, p, KeyOf(a));
        InsertUnique(w.db, v.db, a, r.value.value);
      } else {
        RowsStay(w, v);
      }
    }
  }

  lemma CreatorsAreRows(w: World)
    requires RowsOk(w)
    ensures w.creators.Keys == w.db.effects.Keys
  {
  }

  lemma ParsedDispatch(w: World, p: Pid)
    requires p in w.procs && ProcOk(w, p) && w.procs[p].Dispatch?
    ensures ParsedForTenant(w.procs[p].auth)
  {
    hide StoredInputsValid, LinkOk, ParsedForTenant;
  }

  lemma CallsStay(w: World, v: World)
    requires CallsOk(w) && v.calls == w.calls && v.effects == w.effects
    requires forall q | q in w.procs :: q in v.procs && SameOwner(w.procs[q], v.procs[q])
    ensures CallsOk(v)
  {
    forall i | 0 <= i < |v.calls| ensures CallOk(v, i) { assert CallOk(w, i); }
  }

  // ---- All steps ----

  lemma OwnRow(w: World, p: Pid)
    requires RowsOk(w) && p in w.procs
    ensures OwnRowOk(w, p)
  {
    hide RowShape;
    if KeyOfProcess(w.procs[p]) in w.db.effects {
      assert RowOk(w, KeyOfProcess(w.procs[p]));
    }
  }

  /** The steps that touch at most the row of their process. */
  lemma StepOk(w: World, s: Step)
    requires !s.Tick? && !s.AppendOther? && !s.Begin? && !s.BeginRecovery? && !s.Insert? && !s.Execute?
    requires s.pid in w.procs && ProcOk(w, s.pid) && OwnRowOk(w, s.pid)
    ensures StepOf(w, Apply(w, s), s.pid)
  {
    hide StoredInputsValid, LinkOk, OutcomeBinds, ParsedForTenant, RowShape, StepOf, MoveOf,
         DoLookUp, DoSelect, DoRenewFirst, DoHeartbeat, DoBuild, DoCheckComplete, DoCommit, DoLateCommit, DoReconcile,
         DoRevert, DoCheckRecover, DoCommitRecover;
    var p := s.pid;
    match s
    case LookUp(_, ok) => LookUpOk(w, p, ok); MoveIsStep(w, DoLookUp(w, p, ok), p);
    case Validate(_, ok) => ValidateOk(w, p, ok);
    case Select(_, ok) => SelectOk(w, p, ok); MoveIsStep(w, DoSelect(w, p, ok), p);
    case RenewFirst(_, lease, ack) => RenewFirstOk(w, p, lease, ack);
    case Heartbeat(_, lease) => HeartbeatOk(w, p, lease);
    case Build(_, ok, stamp) => BuildOk(w, p, ok, stamp); MoveIsStep(w, DoBuild(w, p, ok, stamp), p);
    case CheckComplete(_, ok) => CheckCompleteOk(w, p, ok); MoveIsStep(w, DoCheckComplete(w, p, ok), p);
    case Commit(_, x, reply) => CommitOk(w, p, x, reply);
    case LateCommit(_, x, at) => LateCommitOk(w, p, x, at);
    case LateAbort(_) => LateAbortOk(w, p);
    case Reconcile(_, ok) => ReconcileOk(w, p, ok); MoveIsStep(w, DoReconcile(w, p, ok), p);
    case Revert(_, ok) => RevertOk(w, p, ok);
    case CheckRecover(_, ok) => CheckRecoverOk(w, p, ok); MoveIsStep(w, DoCheckRecover(w, p, ok), p);
    case CommitRecover(_, x, ack) => CommitRecoverOk(w, p, x, ack);
    case Crash(_) => CrashOk(w, p);
  }

  lemma ValidateOk(w: World, p: Pid, ok: bool)
    requires p in w.procs && ProcOk(w, p)
    ensures StepOf(w, Apply(w, Validate(p, ok)), p)
  {
    hide Fits, StepOf;
    OverFits(w, p, w.procs[p]);
    if w.procs[p].pc == Validating {
      ValidatingFits(w, p, w.procs[p]);
    }
    MoveIsStep(w, Apply(w, Validate(p, ok)), p);
  }

  lemma ValidatingFits(w: World, p: Pid, c: Process)
    requires Fits(w, p, c) && c.pc == Validating
    ensures Fits(w, p, c.(pc := Selecting))
  {
    hide StoredInputsValid, LinkOk, ParsedForTenant, Settled;
  }

  lemma CrashOk(w: World, p: Pid)
    requires p in w.procs && ProcOk(w, p)
    ensures StepOf(w, Apply(w, Crash(p)), p)
  {
    hide Fits, StepOf;
    OverFits(w, p, w.procs[p]);
    MoveIsStep(w, Apply(w, Crash(p)), p);
  }

  lemma LateAbortOk(w: World, p: Pid)
    requires p in w.procs && ProcOk(w, p)
    ensures StepOf(w, Apply(w, LateAbort(p)), p)
  {
    hide StoredInputsValid, OutcomeBinds, ParsedForTenant, RowShape;
    var v := Apply(w, LateAbort(p));
    assert v.procs == w.procs[p := v.procs[p]];
  }

  lemma OwnStepKeepsInv(w: World, s: Step)
    requires !s.Tick? && !s.AppendOther? && !s.Begin? && !s.BeginRecovery? && !s.Insert? && !s.Execute?
    requires Inv(w) && s.pid in w.procs
    ensures Inv(Apply(w, s))
  {
    hide RowsOk, RowsUnique, CallsOk, Fits, StepOf, Apply;
    OwnRow(w, s.pid);
    StepOk(w, s);
    KeepsInv(w, Apply(w, s), s.pid);
  }

  lemma AppendOtherOnlyRuns(w: World, actor: ActorContext, run: Id, ref: Ref, payload: Payload, x: Writing)
    ensures var v := DoAppendOther(w, actor, run, ref, payload, x);
            v == w.(db := w.db.(runs := v.db.runs), others := v.others) && v.db.effects == w.db.effects
  {
  }

  lemma StepKeepsInv(w: World, s: Step)
    requires Inv(w)
    ensures Inv(Apply(w, s))
  {
    hide Inv, ParsedForTenant, DoLookUp, DoSelect, DoInsert, DoRenewFirst, DoHeartbeat, DoExecute, DoBuild,
         DoCheckComplete, DoCommit, DoLateCommit, DoReconcile, DoRevert, DoCheckRecover, DoCommitRecover, DoAppendOther;
    match s
    case Tick(_) => SameViewKeepsInv(w, Apply(w, s));
    case AppendOther(actor, run, ref, payload, x) =>
      AppendOtherOnlyRuns(w, actor, run, ref, payload, x);
      SameViewKeepsInv(w, DoAppendOther(w, actor, run, ref, payload, x));
    case Begin(p, a) => if p !in w.procs && ParsedForTenant(a) { BeginKeepsInv(w, p, Dispatch(a, None, Looking)); }
    case BeginRecovery(p, actor, id) => if p !in w.procs { BeginKeepsInv(w, p, Recovery(actor, id, Looking)); }
    case Insert(p, x, attempt, lease, ack) => if p in w.procs { InsertKeepsInv(w, p, x, attempt, lease, ack); }
    case Execute(p, b) => if p in w.procs { ExecuteKeepsInv(w, p, b); }
    case _ => if s.pid in w.procs { OwnStepKeepsInv(w, s); }
  }

  lemma OwnStepExtends(w: World, s: Step)
    requires Inv(w) && !s.Tick? && !s.AppendOther? && !s.Begin? && !s.BeginRecovery? && s.pid in w.procs
    ensures Extends(w, Apply(w, s), s.pid)
  {
    hide RowsOk, RowsUnique, CallsOk, Fits, StepOf, Extends, DoInsert, DoExecute;
    if s.Insert? {
      InsertExtends(w, s.pid, s.w, s.attempt, s.lease, s.ack);
    } else if s.Execute? {
      ExecuteExtends(w, s.pid, s.behaviour);
    } else {
      OwnRow(w, s.pid);
      StepOk(w, s);
      StepExtends(w, Apply(w, s), s.pid);
    }
  }

  /** Steps that touch no row: of nobody, of a process that starts, or of none that there is. */
  lemma NoRowTouched(w: World, s: Step)
    requires s.Tick? || s.AppendOther? || s.Begin? || s.BeginRecovery? || s.pid !in w.procs
    ensures Apply(w, s).db.effects == w.db.effects
  {
    hide ParsedForTenant, DoAppendOther;
    if s.AppendOther? {
      AppendOtherOnlyRuns(w, s.actor, s.run, s.ref, s.payload, s.w);
    }
  }

  /** In one step every row stays and only evolves. */
  lemma RowsEvolve(w: World, s: Step, k: RowKey)
    requires Inv(w) && k in w.db.effects
    ensures k in Apply(w, s).db.effects && Evolves(w.db.effects[k], Apply(w, s).db.effects[k])
  {
    hide Inv, Apply;
    if s.Tick? || s.AppendOther? || s.Begin? || s.BeginRecovery? || s.pid !in w.procs {
      NoRowTouched(w, s);
    } else {
      OwnStepExtends(w, s);
    }
  }

  /** Every reachable world is in order. */
  lemma {:induction false} ReachableInv(schedule: seq<Step>)
    ensures Inv(Run(schedule))
    decreases |schedule|
  {
    if schedule != [] {
      hide Inv, Apply;
      ReachableInv(schedule[..|schedule| - 1]);
      StepKeepsInv(Run(schedule[..|schedule| - 1]), schedule[|schedule| - 1]);
    }
  }
}
