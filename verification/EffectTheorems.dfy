/** The guarantees of the durable effect protocol, over every schedule. */
module EffectTheorems {
  import opened Records
  import opened EvidenceChain
  import opened EffectStore
  import opened EffectProtocol
  import opened EffectInvariant
  import opened EffectLedger
  import opened EffectTruth

  // ---- One executor call ----

  /** Two executor calls never share a request, an idempotency key or a grant within a tenant. */
  lemma AtMostOneCall(w: World, i: nat, j: nat)
    requires Reachable(w) && i < j < |w.calls|
    ensures var a, b := w.calls[i].auth, w.calls[j].auth;
            a.actor.tenant == b.actor.tenant ==>
              && a.request.requestId != b.request.requestId
              && a.request.idempotency.key != b.request.idempotency.key
              && a.grant.grantId != b.grant.grantId
  {
    hide Reachable, RowShape, Fits, RowsOk;
    ReachableFacts(w);
    assert CallOk(w, i) && CallOk(w, j);
    var p, q := w.calls[i].pid, w.calls[j].pid;
    CalledOwnsRow(w, p);
    CalledOwnsRow(w, q);
    var k, l := KeyOf(w.procs[p].auth), KeyOf(w.procs[q].auth);
    if k.0 == l.0 {
      assert !SharesIdentity(k, w.db.effects[k], l, w.db.effects[l]);
    }
  }

  /** The executor is called, once by a dispatch, only under a fully bound, approved authority whose
      grant is already consumed by a row and whose intent is already in the ledger at its place. */
  lemma IntentPrecedesCall(w: World, p: Pid, b: Behaviour)
    requires Reachable(w) && p in w.procs && DoExecute(w, p, b) != w
    ensures w.procs[p].Dispatch? && StoredInputsValid(w.procs[p].auth)
            && w.procs[p].auth.policy.decision == RequireApproval
    ensures var k := KeyOf(w.procs[p].auth);
            && k in w.db.effects && w.db.effects[k].auth == w.procs[p].auth
            && RowRecorded(w.db.runs, k, w.db.effects[k])
    ensures forall i | 0 <= i < |w.calls| :: w.calls[i].pid != p
  {
    hide Reachable, RowsOk, RowsUnique, ParsedForTenant, OutcomeBinds, HeldFits, RowRecorded, Balanced, EventsTraced,
         OthersLogged;
    ReachableFacts(w);
    assert ProcOk(w, p);
    forall i | 0 <= i < |w.calls| ensures w.calls[i].pid != p { assert CallOk(w, i); }
  }

  // ---- Terminal rows and agreement ----

  lemma EvolvesFurther(a: Row, b: Row, c: Row)
    requires Evolves(a, b) && Evolves(b, c)
    ensures Evolves(a, c)
  {
  }

  lemma RowsEvolveNext(w: World, v: World, k: RowKey)
    requires Inv(w) && Next(w, v) && k in w.db.effects
    ensures k in v.db.effects && Evolves(w.db.effects[k], v.db.effects[k])
  {
    hide Inv, Apply, Evolves;
    var s: Step :| Apply(w, s) == v;
    RowsEvolve(w, s, k);
  }

  lemma {:induction false} RowsOnlyEvolveAlong(worlds: seq<World>, i: nat, k: RowKey)
    requires Path(worlds) && Reachable(worlds[0]) && i < |worlds| && k in worlds[0].db.effects
    ensures k in worlds[i].db.effects && Evolves(worlds[0].db.effects[k], worlds[i].db.effects[k])
    decreases i
  {
    hide Inv, Evolves, Next, Reachable, LedgerOk;
    if i > 0 {
      RowsOnlyEvolveAlong(worlds, i - 1, k);
      PathIsReachable(worlds, i - 1);
      ReachableFacts(worlds[i - 1]);
      RowsEvolveNext(worlds[i - 1], worlds[i], k);
      EvolvesFurther(worlds[0].db.effects[k], worlds[i - 1].db.effects[k], worlds[i].db.effects[k]);
    } else {
      SameEvolves(worlds[0].db.effects[k]);
    }
  }

  lemma SameEvolves(row: Row)
    ensures Evolves(row, row)
  {
  }

  /** A row never disappears, keeps its authority, intent and attempt, and once terminal never
      changes again, whatever follows. */
  lemma RowsOnlyEvolve(w: World, v: World, k: RowKey)
    requires Reachable(w) && Later(w, v) && k in w.db.effects
    ensures k in v.db.effects && Evolves(w.db.effects[k], v.db.effects[k])
  {
    hide Next, Reachable, Evolves;
    var worlds :| Path(worlds) && worlds[0] == w && worlds[|worlds| - 1] == v;
    RowsOnlyEvolveAlong(worlds, |worlds| - 1, k);
  }

  /** `failed` is unreachable, and a recorded state always matches the recorded outcome. */
  lemma RecordedStates(w: World, k: RowKey)
    requires Reachable(w) && k in w.db.effects
    ensures var row := w.db.effects[k];
            && row.state != Failed && 1 <= row.generation <= 2 && 1 <= row.version <= 2
            && (Live(row.state) <==> row.outcome.None?) && (Live(row.state) <==> row.version == 1)
            && (row.generation == 2 ==> row.state == Indeterminate)
            && (row.outcome.Some? ==> OutcomeBinds(row.auth, row.intent, row.outcome.value)
                                      && row.state == TerminalState(row.outcome.value.status))
  {
    hide Reachable, Inv, RowShape;
    ReachableFacts(w);
    RowHasShape(w, k);
    ShapeMeans(w.db.effects[k]);
  }

  lemma RowHasShape(w: World, k: RowKey)
    requires Inv(w) && k in w.db.effects
    ensures RowShape(w.db.effects[k])
  {
    hide RowsUnique, CallsOk, Fits, RowShape;
    assert RowOk(w, k);
  }

  lemma ShapeMeans(row: Row)
    requires RowShape(row)
    ensures row.state != Failed && 1 <= row.generation <= 2 && 1 <= row.version <= 2
            && (Live(row.state) <==> row.outcome.None?) && (Live(row.state) <==> row.version == 1)
            && (row.generation == 2 ==> row.state == Indeterminate)
            && (row.outcome.Some? ==> OutcomeBinds(row.auth, row.intent, row.outcome.value)
                                      && row.state == TerminalState(row.outcome.value.status))
  {
    hide OutcomeBinds, OutcomeEventBinds, ParsedForTenant;
  }

  /** Whatever dispatches and recoveries of one request return, at any two times, they return the
      same outcome, and it is the one in the row from then on. */
  lemma Agreement(w: World, v: World, p: Pid, q: Pid)
    requires Reachable(w) && Later(w, v)
    requires p in w.procs && w.procs[p].pc.Done? && q in v.procs && v.procs[q].pc.Done?
    requires KeyOfProcess(w.procs[p]) == KeyOfProcess(v.procs[q])
    ensures w.procs[p].pc.outcome == v.procs[q].pc.outcome
    ensures Settled(v.db, KeyOfProcess(v.procs[q]), v.procs[q].pc.outcome)
  {
    hide Later, Reachable, RowsOk, RowsUnique, CallsOk, LocalOk, LinkOk, LedgerOk;
    LaterIsReachable(w, v);
    ReachableFacts(w);
    ReachableFacts(v);
    assert ProcOk(w, p) && ProcOk(v, q);
    RowsOnlyEvolve(w, v, KeyOfProcess(v.procs[q]));
  }

  // ---- Fencing ----

  /** Once recovery has raised the generation, no later step of any process changes the row or adds
      an outcome of its grant (others may), and nothing returned for the request reports success. */
  lemma FencedForGood(w: World, v: World, k: RowKey, p: Pid)
    requires Reachable(w) && Later(w, v) && k in w.db.effects && w.db.effects[k].generation == 2
    ensures k in v.db.effects && v.db.effects[k] == w.db.effects[k]
    ensures var r, grant := RunOf(k, v.db.effects[k]), GrantOf(v.db.effects[k]);
            Outcomes(EventsIn(v.db.runs, r), grant) == 1 + Outcomes(OthersIn(v.others, r), grant)
    ensures p in v.procs && KeyOfProcess(v.procs[p]) == k && v.procs[p].pc.Done? ==>
              v.procs[p].pc.outcome.status == StatusIndeterminate
  {
    hide Later, Reachable, RowsOk, RowsUnique, CallsOk, LocalOk, LinkOk, OutcomeBinds, LedgerOk;
    LaterIsReachable(w, v);
    RecordedStates(w, k);
    RowsOnlyEvolve(w, v, k);
    RecordedStates(v, k);
    ReachableFacts(v);
    LedgerMatchesRow(v, k);
    if p in v.procs {
      assert ProcOk(v, p);
    }
  }

  // ---- The ledger ----

  /** No effect event of the grant came through the generic append. */
  predicate NoForeign(w: World, r: RunKey, grant: Digest) {
    Intents(OthersIn(w.others, r), grant) == 0 && Outcomes(OthersIn(w.others, r), grant) == 0
  }

  /** Of every row, in every reachable ledger: its intent is in place, and later its outcome, exactly
      when it is terminal.  All further effect events of its grant in the run came through the generic
      append, so that the row's own are alone exactly when nothing came that way. */
  lemma LedgerMatchesRow(w: World, k: RowKey)
    requires Reachable(w) && k in w.db.effects
    ensures var row := w.db.effects[k];
            var r, grant := RunOf(k, row), GrantOf(row);
            && RowRecorded(w.db.runs, k, row)
            && Intents(EventsIn(w.db.runs, r), grant) == 1 + Intents(OthersIn(w.others, r), grant)
            && Outcomes(EventsIn(w.db.runs, r), grant)
               == (if Live(row.state) then 0 else 1) + Outcomes(OthersIn(w.others, r), grant)
            && (RecordedAlone(w.db.runs, k, row) <==> NoForeign(w, r, grant))
  {
    hide Reachable, EventsTraced, OthersLogged, RowRecorded, Inv;
    ReachableFacts(w);
    LedgerCounts(w, k);
  }

  lemma LedgerCounts(w: World, k: RowKey)
    requires Inv(w) && LedgerOk(w.db, w.others) && k in w.db.effects
    ensures var row := w.db.effects[k];
            var r, grant := RunOf(k, row), GrantOf(row);
            && Intents(EventsIn(w.db.runs, r), grant) == 1 + Intents(OthersIn(w.others, r), grant)
            && Outcomes(EventsIn(w.db.runs, r), grant)
               == (if Live(row.state) then 0 else 1) + Outcomes(OthersIn(w.others, r), grant)
  {
    hide RowsOk, RowsUnique, CallsOk, ProcOk, EventsTraced, OthersLogged, RowRecorded, WellFormed, Intents, Outcomes;
    var row := w.db.effects[k];
    var r, grant := RunOf(k, row), GrantOf(row);
    RowIsKnown(w.db, k);
    assert BalancedAt(w.db, w.others, r, grant);
    if HasDone(w.db, r, grant) {
      var j :| Known(w.db, r, j, grant) && !Live(w.db.effects[j].state);
      if j != k { DistinctGrants(w.db, j, k); }
    }
    assert Known(w.db, r, k, grant);
  }

  /** Every effect event of a reachable ledger belongs to a row of its run and grant, or came through
      the generic append; so all of them belong to rows exactly when those that came that way do. */
  lemma EvidenceHasRow(w: World)
    requires Reachable(w)
    ensures forall r: RunKey, e | e in EventsIn(w.db.runs, r) && EffectKind(e.payload) ::
              HasRow(w.db, r, e.payload.grantDigest) || e in OthersIn(w.others, r)
    ensures EventsKnown(w.db) <==>
              forall r: RunKey, e | e in OthersIn(w.others, r) && EffectKind(e.payload) ::
                HasRow(w.db, r, e.payload.grantDigest)
  {
    hide Reachable, Inv, RowRecorded, HasRow, EventsIn, BalancedAt, WellFormed;
    ReachableFacts(w);
    forall r: RunKey, e | e in EventsIn(w.db.runs, r) && EffectKind(e.payload)
      ensures HasRow(w.db, r, e.payload.grantDigest) || e in OthersIn(w.others, r)
    {
      assert Traced(w.db, w.others, r, e);
    }
  }

  // ---- Exactly when a completion or a recovery passes ----

  predicate Reports(w: World, p: Pid, o: Outcome) { p in w.procs && w.procs[p].pc == Done(o) }

  lemma CompleteCommitPasses(w: World, p: Pid, stored: Row, o: Outcome, x: Writing, at: int)
    requires p in w.procs && ProcOk(w, p) && w.procs[p].Dispatch? && w.procs[p].held.Some?
    requires var k := KeyOf(w.procs[p].auth);
             k in w.db.effects && StateShape(w.db.effects[k]) && StoredFits(stored, w.db.effects[k])
             && RowRecorded(w.db.runs, k, w.db.effects[k])
    ensures var a, h, k := w.procs[p].auth, w.procs[p].held.value, KeyOf(w.procs[p].auth);
            var r := CompleteCommit(w.db, a.actor, a.request.requestId, stored, h.version, h.attempt, h.generation, o,
                                    x.envelopeId, x.clock, at);
            && (r.value.Some? <==>
                  && Live(w.db.effects[k].state) && at < w.db.effects[k].leaseExpires
                  && ClockPasses(w.db.runs, RunOf(k, w.db.effects[k]), x.clock))
            && (r.value.Some? ==> k in r.db.effects && r.db.effects[k].state == TerminalState(o.status))
  {
    hide StoredInputsValid, OutcomeBinds, ParsedForTenant, WellFormed, Intents, Outcomes;
  }

  /** Renewals, by the dispatch itself or by its heartbeat, never invalidate the version that it
      captured: its completion is refused only when the row is no longer live, when the lease has
      run out, or when the evidence clock is behind. */
  lemma CompletionPassesExactly(w: World, p: Pid, x: Writing)
    requires Reachable(w) && p in w.procs && w.procs[p].Dispatch? && w.procs[p].pc.Committing?
    ensures var c, k := w.procs[p], KeyOf(w.procs[p].auth);
            && k in w.db.effects
            && (Reports(DoCommit(w, p, x, Acknowledged), p, c.pc.outcome) <==>
                  && Live(w.db.effects[k].state) && w.now < w.db.effects[k].leaseExpires
                  && ClockPasses(w.db.runs, RunOf(k, w.db.effects[k]), x.clock))
  {
    hide Inv, LedgerOk, Reachable;
    ReachableFacts(w);
    CommitPasses(w, p, x);
  }

  lemma CommitPasses(w: World, p: Pid, x: Writing)
    requires Inv(w) && LedgerOk(w.db, w.others) && p in w.procs && w.procs[p].Dispatch? && w.procs[p].pc.Committing?
    ensures var c, k := w.procs[p], KeyOf(w.procs[p].auth);
            && k in w.db.effects
            && (Reports(DoCommit(w, p, x, Acknowledged), p, c.pc.outcome) <==>
                  && Live(w.db.effects[k].state) && w.now < w.db.effects[k].leaseExpires
                  && ClockPasses(w.db.runs, RunOf(k, w.db.effects[k]), x.clock))
  {
    hide RowsUnique, CallsOk, OutcomeBinds, ParsedForTenant, StoredInputsValid, BoundShape, Balanced, EventsTraced,
         OthersLogged, WellFormed, RowRecorded, HeldFits, CompleteCommit, StateShape;
    assert ProcOk(w, p);
    var c, k := w.procs[p], KeyOf(w.procs[p].auth);
    assert RowOk(w, k);
    CompleteCommitPasses(w, p, c.pc.stored, c.pc.outcome, x, w.now);
  }

  lemma NextTo(w: World, s: Step)
    requires Reachable(w)
    ensures Reachable(Apply(w, s))
  {
    hide Reachable, Apply;
    assert Next(w, Apply(w, s));
    NextIsReachable(w, Apply(w, s));
  }

  /** What a heartbeat of a live, unexpired owner does to its row. */
  lemma BeatExtends(w: World, p: Pid, lease: nat)
    requires p in w.procs && ProcOk(w, p) && w.procs[p].Dispatch? && w.procs[p].held.Some?
    requires var k := KeyOf(w.procs[p].auth);
             k in w.db.effects && StateShape(w.db.effects[k]) && Live(w.db.effects[k].state)
               && w.now < w.db.effects[k].leaseExpires
    ensures var v, k := DoHeartbeat(w, p, lease), KeyOf(w.procs[p].auth);
            && v == w.(db := v.db) && v.db.runs == w.db.runs && k in v.db.effects
            && Live(v.db.effects[k].state) && v.db.effects[k].leaseExpires == w.now + lease
            && v.db.effects[k].auth == w.db.effects[k].auth
  {
    hide StoredInputsValid, ParsedForTenant, OutcomeBinds, Readable;
  }

  /** A heartbeat in time buys the whole new lease: whatever less time passes after it, the
      completion still passes. */
  lemma HeartbeatBuysTime(w: World, p: Pid, lease: nat, delay: nat, x: Writing)
    requires Reachable(w) && p in w.procs && w.procs[p].Dispatch? && w.procs[p].pc.Committing? && delay < lease
    requires var k := KeyOf(w.procs[p].auth);
             && k in w.db.effects && Live(w.db.effects[k].state) && w.now < w.db.effects[k].leaseExpires
             && ClockPasses(w.db.runs, RunOf(k, w.db.effects[k]), x.clock)
    ensures var v := Apply(Apply(w, Heartbeat(p, lease)), Tick(delay));
            Reports(DoCommit(v, p, x, Acknowledged), p, w.procs[p].pc.outcome)
  {
    hide Reachable, Inv, LedgerOk, DoHeartbeat, DoCommit, RowShape, Fits;
    var u := Apply(w, Heartbeat(p, lease));
    var v := Apply(u, Tick(delay));
    NextTo(w, Heartbeat(p, lease));
    NextTo(u, Tick(delay));
    ReachableFacts(w);
    HeartbeatFacts(w, p);
    assert u == DoHeartbeat(w, p, lease);
    BeatExtends(w, p, lease);
    CompletionPassesExactly(v, p, x);
  }

  lemma HeartbeatFacts(w: World, p: Pid)
    requires Inv(w) && p in w.procs && w.procs[p].Dispatch? && w.procs[p].pc.Committing?
             && KeyOf(w.procs[p].auth) in w.db.effects
    ensures ProcOk(w, p) && w.procs[p].held.Some? && StateShape(w.db.effects[KeyOf(w.procs[p].auth)])
  {
    hide RowsUnique, CallsOk, LinkOk, BoundShape, StateShape, StoredInputsValid, ParsedForTenant;
    assert ProcOk(w, p);
    assert RowOk(w, KeyOf(w.procs[p].auth));
  }

  // ---- Exactly what a preparation does ----

  lemma OwnBinding(w: World, a: Authority)
    requires Inv(w) && KeyOf(a) in w.db.effects && w.db.effects[KeyOf(a)].auth == a
    ensures RowsByBinding(w.db, a) == {KeyOf(a)}
  {
    hide RowsOk, CallsOk, ProcOk;
    forall k | k in w.db.effects && k != KeyOf(a) ensures k !in RowsByBinding(w.db, a) {
      assert !SharesIdentity(k, w.db.effects[k], KeyOf(a), w.db.effects[KeyOf(a)]);
    }
  }

  lemma ExactReplayIsSame(row: Row, a: Authority)
    requires row.binding == BindingDigest(row.auth)
    ensures ExactReplay(row, a) <==> row.auth == a
  {
    hide BindingDigest;
    BindingDetectsDrift(row.auth, a);
  }

  /** In a reachable state a preparation is taken for a replay exactly when the very same authority
      was prepared before, and creates a row exactly when nothing in the tenant, whosever it is,
      shares the request, the key or the grant (and the actor owns the run, and the clock and the
      attempt id pass).  Otherwise it is refused and changes nothing. */
  lemma PreparationExactly(w: World, a: Authority, x: Writing, attempt: Id, lease: nat)
    requires Reachable(w) && StoredInputsValid(a)
    ensures var r := Prepare(w.db, a, x.envelopeId, x.clock, attempt, w.now, lease);
            && (r.value.Some? && !r.value.value.created
                <==> KeyOf(a) in w.db.effects && w.db.effects[KeyOf(a)].auth == a)
            && (r.value.Some? && r.value.value.created <==>
                  && (forall k | k in w.db.effects :: !Clashes(k, w.db.effects[k], a)) && attempt != ""
                  && AppendEvidence(w.db.runs, a.actor, a.request.runId, x.envelopeId, PolicyRef(a.policy),
                                    IntentPayload(a), x.clock).Some?)
            && (!(r.value.Some? && r.value.value.created) ==> r.db == w.db)
  {
    hide Reachable, Inv, StoredInputsValid, ExactReplay, AppendEvidence, RowShape, LedgerOk, Clashes;
    ReachableFacts(w);
    ChecksOfValid(a);
    var k := KeyOf(a);
    if k in w.db.effects {
      OwnClash(w.db, a);
      RowHasShape(w, k);
      PreparedRow(w, k, a);
      if w.db.effects[k].auth == a {
        OwnBinding(w, a);
      }
    } else {
      NoReplay(w.db, a);
    }
  }

  lemma ChecksOfValid(a: Authority)
    requires StoredInputsValid(a)
    ensures ParsedForTenant(a) && RowChecks(a)
  {
  }

  lemma OwnClash(db: EffectDb, a: Authority)
    requires KeyOf(a) in db.effects
    ensures Clashes(KeyOf(a), db.effects[KeyOf(a)], a)
    ensures RowsByBinding(db, a) == {} ==> db.effects[KeyOf(a)].auth.actor.actor != a.actor.actor
  {
    if RowsByBinding(db, a) == {} {
      assert KeyOf(a) !in RowsByBinding(db, a);
    }
  }

  lemma PreparedRow(w: World, k: RowKey, a: Authority)
    requires k in w.db.effects && RowShape(w.db.effects[k])
    ensures ExactReplay(w.db.effects[k], a) <==> w.db.effects[k].auth == a
    ensures w.db.effects[k].auth == a && StoredInputsValid(a) ==> Readable(w.db.effects[k])
  {
    hide StoredInputsValid, StateShape, BindingDigest, ExactReplay, Readable;
    BoundRow(w.db.effects[k]);
    ExactReplayIsSame(w.db.effects[k], a);
    ReadableRows(w.db.effects[k]);
  }

  lemma BoundRow(row: Row)
    requires RowShape(row)
    ensures row.binding == BindingDigest(row.auth)
  {
    hide BindingDigest;
  }

  lemma NoReplay(db: EffectDb, a: Authority)
    requires KeyOf(a) !in db.effects
    ensures RowsByBinding(db, a) != {KeyOf(a)}
    ensures RowsByBinding(db, a) != {} ==> exists k | k in db.effects :: Clashes(k, db.effects[k], a)
  {
    assert KeyOf(a) in {KeyOf(a)};
    if RowsByBinding(db, a) != {} {
      var k :| k in RowsByBinding(db, a);
      assert Clashes(k, db.effects[k], a);
    }
  }

  // ---- The hazard is real ----

  predicate Falsified(w: World, k: RowKey) {
    k in w.db.effects && w.db.effects[k].state == Completed
    && k in w.creators && w.creators[k] in w.effects && w.effects[w.creators[k]].reverted
    && !w.effects[w.creators[k]].active
  }

  lemma HazardFacts(w: World, p: Pid)
    requires Inv(w) && TruthInv(w) && Hazard(w, p)
    ensures p in w.effects && Intact(w, p)
    ensures w.procs[p].held.Some? && w.pending[p].outcome.status == Succeeded
            && var k := KeyOf(w.procs[p].auth);
               && StoredFits(w.pending[p].stored, w.db.effects[k]) && Readable(w.db.effects[k])
               && k in w.creators && w.creators[k] == p && w.db.effects[k].auth == w.procs[p].auth
  {
    hide RowsUnique, CallsOk, OutcomeBinds, ParsedForTenant, StoredInputsValid, HeldFits, RowShape, Readable;
    assert ProcOk(w, p) && ProcTrue(w, p);
    var k := KeyOf(w.procs[p].auth);
    assert RowOk(w, k);
    CalledOwnsRow(w, p);
    ReadableRows(w.db.effects[k]);
  }

  lemma HazardousReconcile(w: World, p: Pid)
    requires Inv(w) && TruthInv(w) && Hazard(w, p)
    ensures DoReconcile(w, p, true) == At(w, p, Reverting)
  {
    hide Inv, TruthInv, StoredFits, Readable;
    HazardFacts(w, p);
  }

  function ClockOf(db: EffectDb, r: RunKey): int {
    if r in db.runs && db.runs[r].head.lastRecordedAt.Some? then db.runs[r].head.lastRecordedAt.value else 0
  }

  lemma HazardousCommit(w: World, p: Pid, x: Writing, at: int)
    requires Inv(w) && LedgerOk(w.db, w.others) && TruthInv(w) && Hazard(w, p)
    requires var k := KeyOf(w.procs[p].auth);
             at < w.db.effects[k].leaseExpires && x.clock == ClockOf(w.db, RunOf(k, w.db.effects[k]))
    ensures var a, k := w.procs[p].auth, KeyOf(w.procs[p].auth);
            w.procs[p].held.Some? &&
            var h, t := w.procs[p].held.value, w.pending[p];
            var r := CompleteCommit(w.db, a.actor, a.request.requestId, t.stored, h.version, h.attempt, h.generation,
                                    t.outcome, x.envelopeId, x.clock, at);
            k in r.db.effects && r.db.effects[k].state == Completed
  {
    hide ProcOk, RowRecorded, StateShape, CompleteCommit, Inv, LedgerOk, TruthInv, StoredFits;
    HazardFacts(w, p);
    HazardRow(w, p);
    CompleteCommitPasses(w, p, w.pending[p].stored, w.pending[p].outcome, x, at);
  }

  lemma HazardRow(w: World, p: Pid)
    requires Inv(w) && LedgerOk(w.db, w.others) && Hazard(w, p)
    ensures ProcOk(w, p)
    ensures var k := KeyOf(w.procs[p].auth);
            && StateShape(w.db.effects[k]) && RowRecorded(w.db.runs, k, w.db.effects[k])
            && RunOf(k, w.db.effects[k]) in w.db.runs
  {
    hide RowsUnique, CallsOk, ProcOk, BoundShape, StateShape, Balanced, EventsTraced, OthersLogged;
    assert RowOk(w, KeyOf(w.procs[p].auth));
  }

  /** The world once a hazardous dispatch has re-read and reverted. */
  function RevertedWorld(w: World, p: Pid): World
    requires p in w.procs && p in w.effects
  {
    At(w, p, Raised).(effects := w.effects[p := w.effects[p].(active := false, reverted := true)])
  }

  lemma ReconcileThenRevert(w: World, p: Pid)
    requires p in w.procs && p in w.effects && w.procs[p].Dispatch? && DoReconcile(w, p, true) == At(w, p, Reverting)
    ensures Apply(Apply(w, Reconcile(p, true)), Revert(p, true)) == RevertedWorld(w, p)
  {
    hide DoReconcile;
    var u, v := At(w, p, Reverting), RevertedWorld(w, p);
    assert Apply(w, Reconcile(p, true)) == u;
    assert u.procs[p := Dispatch(w.procs[p].auth, w.procs[p].held, Raised)] == v.procs;
    assert Apply(u, Revert(p, true)) == v;
  }

  lemma LateCommitLands(w: World, p: Pid, x: Writing, at: int)
    requires Hazard(w, p) && p in w.effects && w.procs[p].held.Some? && at <= w.now
    requires KeyOf(w.procs[p].auth) in w.creators && w.creators[KeyOf(w.procs[p].auth)] == p
    requires var a, k, h, t := w.procs[p].auth, KeyOf(w.procs[p].auth), w.procs[p].held.value, w.pending[p];
             var r := CompleteCommit(w.db, a.actor, a.request.requestId, t.stored, h.version, h.attempt, h.generation,
                                     t.outcome, x.envelopeId, x.clock, at);
             k in r.db.effects && r.db.effects[k].state == Completed
    ensures Falsified(Apply(RevertedWorld(w, p), LateCommit(p, x, at)), KeyOf(w.procs[p].auth))
  {
    hide CompleteCommit;
    var v := RevertedWorld(w, p);
    assert v.procs[p] == Dispatch(w.procs[p].auth, w.procs[p].held, Raised);
    assert Apply(v, LateCommit(p, x, at)) == DoLateCommit(v, p, x, at);
  }

  /** Three more steps after any hazard record a reverted effect as completed. */
  lemma HazardFalsifies(w: World, p: Pid)
    requires Inv(w) && LedgerOk(w.db, w.others) && TruthInv(w) && Hazard(w, p)
    ensures var k := KeyOf(w.procs[p].auth);
            var x := Writing("", ClockOf(w.db, RunOf(k, w.db.effects[k])));
            var at := if w.now < w.db.effects[k].leaseExpires then w.now else w.db.effects[k].leaseExpires - 1;
            Falsified(Apply(Apply(Apply(w, Reconcile(p, true)), Revert(p, true)), LateCommit(p, x, at)), k)
  {
    hide Inv, LedgerOk, TruthInv, DoReconcile, CompleteCommit, StoredFits, Readable, Apply, Falsified, RevertedWorld;
    var k := KeyOf(w.procs[p].auth);
    var x := Writing("", ClockOf(w.db, RunOf(k, w.db.effects[k])));
    var at := if w.now < w.db.effects[k].leaseExpires then w.now else w.db.effects[k].leaseExpires - 1;
    HazardFacts(w, p);
    HazardousReconcile(w, p);
    HazardousCommit(w, p, x, at);
    ReconcileThenRevert(w, p);
    LateCommitLands(w, p, x, at);
  }

  lemma ThreeLater(w: World, a: Step, b: Step, c: Step)
    ensures Later(w, Apply(Apply(Apply(w, a), b), c))
  {
    hide Apply;
    var w1 := Apply(w, a);
    var w2 := Apply(w1, b);
    var w3 := Apply(w2, c);
    assert Next(w, w1) && Next(w1, w2) && Next(w2, w3);
    var worlds := [w, w1, w2, w3];
    assert Path(worlds);
  }

  /** The other half of `CompletedMeansInEffect`: its condition cannot be dropped anywhere.  From
      every hazard a run goes on to record a reverted effect as completed. */
  lemma EveryHazardIsReal(w: World, p: Pid)
    requires PrudentlyReachable(w) && Hazard(w, p)
    ensures exists v :: Later(w, v) && Falsified(v, KeyOf(w.procs[p].auth))
  {
    hide Inv, TruthInv, LedgerOk, Apply, Falsified, Run, Later, Reachable, Prudent, RunOf, ClockOf;
    PrudentFacts(w);
    ReachableFacts(w);
    HazardFalsifies(w, p);
    var k := KeyOf(w.procs[p].auth);
    var a, b := Reconcile(p, true), Revert(p, true);
    var c := LateCommit(p, Writing("", ClockOf(w.db, RunOf(k, w.db.effects[k]))),
                        if w.now < w.db.effects[k].leaseExpires then w.now else w.db.effects[k].leaseExpires - 1);
    ThreeLater(w, a, b, c);
  }
}
