/** What the durable protocol decides at each look at the database, and what its transactions write, in
    terms of the records themselves. */
module EffectExactly {
  import opened Records
  import opened EvidenceChain
  import opened EffectStore
  import opened EffectProtocol
  import opened EffectInvariant
  import opened EffectLedger
  import opened EffectTruth
  import opened EffectTheorems

  // ---- Authority ----

  /** The approval is of this request and decision, approves with its duties done, repeats the decision's
      constraints, and was in its time when the grant was issued. */
  predicate Approves(v: Approval, a: Authority) {
    && v.approved && v.dutiesSatisfied && v.tenant == a.actor.tenant
    && v.requestId == a.request.requestId && v.requestDigest == OfRequest(a.request)
    && v.decisionId == a.policy.decisionId && v.policyDigest == OfPolicy(a.policy)
    && v.constraints == a.policy.constraints
    && a.policy.decidedAt <= v.issuedAt && v.issuedAt <= a.grant.issuedAt && a.grant.issuedAt <= v.expiresAt
  }

  /** Actor, request, decision, approvals and grant are of one tenant and about each other. */
  predicate Authorised(a: Authority) {
    var tenant, r, p, g := a.actor.tenant, a.request, a.policy, a.grant;
    && r.tenant == tenant && r.idempotency.tenant == tenant && p.tenant == tenant && g.tenant == tenant
    && r.actor == a.actor.actor && r.actorDigest == OfActor(a.actor)
    && p.requestId == r.requestId && p.requestDigest == OfRequest(r) && p.decision == RequireApproval
    && g.actor == a.actor.actor && g.runId == r.runId && g.requestId == r.requestId && g.requestDigest == OfRequest(r)
    && g.toolId == r.toolId && g.toolVersion == r.toolVersion && g.idempotency == r.idempotency
    && g.decisionId == p.decisionId && g.policyDigest == OfPolicy(p)
    && g.constraints == p.constraints && g.isolation == p.isolation
    && p.decidedAt <= g.issuedAt && g.issuedAt <= g.expiresAt
    && |g.approvalRefs| == |a.approvals|
    && (forall i | 0 <= i < |a.approvals| ::
          Approves(a.approvals[i], a)
          && g.approvalRefs[i] == Ref(a.approvals[i].approvalId, OfApproval(a.approvals[i])))
    && (forall i, j | 0 <= i < j < |a.approvals| :: a.approvals[i].issuedAt <= a.approvals[j].issuedAt)
  }

  lemma AuthorisedExactly(a: Authority)
    ensures StoredInputsValid(a) <==> Authorised(a)
  {
    if Authorised(a) {
      assert a.grant.approvalRefs == ApprovalRefs(a.approvals);
      forall v | v in a.approvals ensures ApprovalBindsStored(v, a) && v.tenant == a.actor.tenant {
        var i :| 0 <= i < |a.approvals| && a.approvals[i] == v;
        assert Approves(a.approvals[i], a);
      }
      assert forall i | 0 <= i < |a.approvals| :: Approves(a.approvals[i], a);
    }
    if StoredInputsValid(a) {
      forall i | 0 <= i < |a.approvals| ensures Approves(a.approvals[i], a) {
        assert ApprovalBindsStored(a.approvals[i], a);
      }
    }
  }

  /** The executor is only ever called under such authority. */
  lemma CallsAreAuthorised(w: World, i: nat)
    requires Reachable(w) && i < |w.calls|
    ensures Authorised(w.calls[i].auth)
  {
    hide Reachable, RowsOk, RowsUnique, Authorised, StoredInputsValid;
    ReachableFacts(w);
    assert CallOk(w, i);
    CalledOwnsRow(w, w.calls[i].pid);
    AuthorisedExactly(w.calls[i].auth);
  }

  // ---- Looks at the database ----

  /** The actor's row of a request. */
  predicate Sees(w: World, actor: ActorContext, id: Id) {
    (actor.tenant, id) in w.db.effects && w.db.effects[(actor.tenant, id)].auth.actor.actor == actor.actor
  }

  lemma ReadsExactly(w: World, actor: ActorContext, id: Id)
    requires Reachable(w)
    ensures var r := Lookup(w.db, actor, id);
            if Sees(w, actor, id) then
              var row := w.db.effects[(actor.tenant, id)];
              r == (if Authorised(row.auth) then Found(row) else Unreadable)
            else r == Missing
  {
    hide Reachable, Inv, RowShape, Readable, Authorised, StoredInputsValid;
    ReachableFacts(w);
    if Sees(w, actor, id) {
      var row := w.db.effects[(actor.tenant, id)];
      RowHasShape(w, (actor.tenant, id));
      ReadableRows(row);
      AuthorisedExactly(row.auth);
    }
  }

  /** The first look of a dispatch: without a row it goes on; with a row it returns the recorded outcome
      exactly when the row is for this very authority and settled; and it raises otherwise. */
  lemma DispatchLooksExactly(w: World, p: Pid)
    requires Reachable(w) && p in w.procs && w.procs[p].Dispatch? && w.procs[p].pc == Looking
    ensures var a := w.procs[p].auth;
            var v := DoLookUp(w, p, true);
            var k := (a.actor.tenant, a.request.requestId);
            && v == At(w, p, v.procs[p].pc)
            && (v.procs[p].pc == Validating <==> !Sees(w, a.actor, a.request.requestId))
            && (forall o :: v.procs[p].pc == Done(o) <==>
                              k in w.db.effects && w.db.effects[k].auth == a && w.db.effects[k].outcome == Some(o)
                              && Authorised(a))
            && (v.procs[p].pc == Validating || v.procs[p].pc == Raised || v.procs[p].pc.Done?)
  {
    hide Reachable, Lookup, BindingDigest, Authorised, Inv, RowShape;
    var a := w.procs[p].auth;
    ReadsExactly(w, a.actor, a.request.requestId);
    if Sees(w, a.actor, a.request.requestId) {
      SettledExactly(w, (a.actor.tenant, a.request.requestId));
      BindingDetectsDrift(w.db.effects[(a.actor.tenant, a.request.requestId)].auth, a);
    }
  }

  lemma SettledExactly(w: World, k: RowKey)
    requires Reachable(w) && k in w.db.effects
    ensures var row := w.db.effects[k];
            && (Terminal(row) <==> row.outcome.Some?) && (Live(row.state) <==> row.outcome.None?)
            && row.binding == BindingDigest(row.auth)
  {
    hide Reachable, Inv, BindingDigest, OutcomeBinds, RowShape;
    ReachableFacts(w);
    RowHasShape(w, k);
    RecordedStates(w, k);
    BoundByDigest(w.db.effects[k]);
  }

  lemma BoundByDigest(row: Row)
    requires RowShape(row)
    ensures row.binding == BindingDigest(row.auth)
  {
    hide StateShape, BindingDigest, OutcomeBinds, OutcomeEventBinds, ParsedForTenant;
  }

  /** The first look of a recovery: it returns the recorded outcome, or goes on with the live row, exactly
      when the row was written under this very actor context. */
  lemma RecoveryLooksExactly(w: World, p: Pid)
    requires Reachable(w) && p in w.procs && w.procs[p].Recovery? && w.procs[p].pc == Looking
    ensures var actor, id := w.procs[p].actor, w.procs[p].requestId;
            var v := DoLookUp(w, p, true);
            var k := (actor.tenant, id);
            var own := k in w.db.effects && w.db.effects[k].auth.actor == actor && Authorised(w.db.effects[k].auth);
            && v == At(w, p, v.procs[p].pc)
            && v.procs[p].pc ==
               if !own then Raised
               else match w.db.effects[k].outcome case Some(o) => Done(o) case None => Outlining(w.db.effects[k])
  {
    hide Reachable, Lookup, BindingDigest, Authorised, Inv, RowShape;
    var actor, id := w.procs[p].actor, w.procs[p].requestId;
    ReadsExactly(w, actor, id);
    if Sees(w, actor, id) {
      SettledExactly(w, (actor.tenant, id));
    }
  }

  /** The re-read after a completion that was not acknowledged: it returns exactly when the row holds its
      own outcome, undoes a success exactly when the row is still live, and raises otherwise. */
  lemma RereadsExactly(w: World, p: Pid)
    requires Reachable(w) && p in w.procs && w.procs[p].Dispatch? && w.procs[p].pc.Reconciling?
    ensures var a, o := w.procs[p].auth, w.procs[p].pc.outcome;
            var v := DoReconcile(w, p, true);
            var k := (a.actor.tenant, a.request.requestId);
            && v == At(w, p, v.procs[p].pc) && k in w.db.effects
            && v.procs[p].pc ==
               match w.db.effects[k].outcome
               case Some(x) => if x == o then Done(o) else Raised
               case None => if o.status == Succeeded then Reverting else Raised
  {
    hide Reachable, Lookup, Authorised, Inv, RowShape, StoredInputsValid;
    var a := w.procs[p].auth;
    ReconcilingFacts(w, p);
    ReadsExactly(w, a.actor, a.request.requestId);
    SettledExactly(w, KeyOf(a));
    AuthorisedExactly(a);
  }

  lemma ReconcilingFacts(w: World, p: Pid)
    requires Reachable(w) && p in w.procs && w.procs[p].Dispatch? && w.procs[p].pc.Reconciling?
    ensures w.procs[p].held.Some? && StoredInputsValid(w.procs[p].auth)
            && KeyOf(w.procs[p].auth) in w.db.effects && w.db.effects[KeyOf(w.procs[p].auth)].auth == w.procs[p].auth
  {
    hide Reachable, RowsOk, RowsUnique, CallsOk, StoredInputsValid, ParsedForTenant, Settled, OutcomeBinds, LedgerOk;
    ReachableFacts(w);
    assert ProcOk(w, p);
  }

  // ---- When the transactions pass ----

  /** The run is new, or is the actor's and its last event is not later than the clock. */
  predicate RunTakes(runs: map<RunKey, RunLog>, actor: ActorContext, run: Id, clock: int) {
    (actor.tenant, run) in runs ==>
      var log := runs[(actor.tenant, run)];
      log.owner == actor.actor && (log.events == [] || log.events[|log.events| - 1].recordedAt <= clock)
  }

  lemma TakesExactly(w: World, actor: ActorContext, run: Id, envelopeId: Id, ref: Ref, payload: Payload, clock: int)
    requires Reachable(w)
    ensures AppendEvidence(w.db.runs, actor, run, envelopeId, ref, payload, clock).Some?
            <==> RunTakes(w.db.runs, actor, run, clock)
  {
    hide Reachable, Inv, Balanced, EventsTraced, OthersLogged, RowRecorded, EvidenceChain.Linked;
    ReachableFacts(w);
  }

  /** `prepare` creates a row exactly when no row of the tenant has its request, key or grant, the attempt
      has a name and the run takes the clock; and returns the row there is exactly when it is for this very
      authority. */
  lemma PreparesExactly(w: World, a: Authority, x: Writing, attempt: Id, lease: nat)
    requires Reachable(w) && Authorised(a)
    ensures var r := Prepare(w.db, a, x.envelopeId, x.clock, attempt, w.now, lease);
            var own := (a.actor.tenant, a.request.requestId);
            && (r.value.Some? && r.value.value.created <==>
                  && (forall k | k in w.db.effects && k.0 == a.actor.tenant ::
                        && k.1 != a.request.requestId
                        && w.db.effects[k].auth.request.idempotency.key != a.request.idempotency.key
                        && w.db.effects[k].auth.grant.grantId != a.grant.grantId)
                  && attempt != "" && RunTakes(w.db.runs, a.actor, a.request.runId, x.clock))
            && (r.value.Some? && !r.value.value.created <==> own in w.db.effects && w.db.effects[own].auth == a)
            && (r.value.Some? && !r.value.value.created ==> r.value.value.row == w.db.effects[own])
            && (!(r.value.Some? && r.value.value.created) ==> r.db == w.db)
  {
    hide Reachable, Authorised, StoredInputsValid, AppendEvidence, PrepareInsert, RowsByBinding, RunTakes, ExactReplay,
         Readable, ParsedForTenant;
    AuthorisedExactly(a);
    PreparationExactly(w, a, x, attempt, lease);
    TakesExactly(w, a.actor, a.request.runId, x.envelopeId, PolicyRef(a.policy), IntentPayload(a), x.clock);
  }

  lemma AboutExactly(o: Outcome, a: Authority, intent: Event)
    ensures OutcomeBinds(a, intent, o) <==> About(o, a, intent)
  {
    if About(o, a, intent) {
      assert o.reviewerRefs == ApprovalRefs(a.approvals);
    }
  }

  /** `complete` passes exactly when the row is the actor's, under valid authority, and either still held by
      the caller, at this version, under its lease, with a run that takes the clock and an outcome that is
      about it; or already completed from just this version with just this outcome. */
  lemma CompletesExactly(w: World, actor: ActorContext, id: Id, version: nat, attempt: Id, generation: nat, o: Outcome,
                         x: Writing, now: int)
    requires Reachable(w)
    ensures Complete(w.db, actor, id, version, attempt, generation, o, x.envelopeId, x.clock, now).value.Some? <==>
              && Sees(w, actor, id)
              && var row := w.db.effects[(actor.tenant, id)];
                 && Authorised(row.auth)
                 && if row.outcome.None? && row.attempt == attempt && row.generation == generation
                       && row.version == version
                    then About(o, row.auth, row.intent) && now < row.leaseExpires
                         && RunTakes(w.db.runs, actor, row.auth.request.runId, x.clock)
                    else row.outcome == Some(o) && row.version == version + 1
  {
    hide Reachable, Lookup, Authorised, OutcomeBinds, About, AppendEvidence, RunTakes, RowShape;
    ReadsExactly(w, actor, id);
    if Sees(w, actor, id) {
      var row := w.db.effects[(actor.tenant, id)];
      SettledExactly(w, (actor.tenant, id));
      if row.outcome.Some? {
        SettledState(w, (actor.tenant, id));
      }
      AboutExactly(o, row.auth, row.intent);
      TakesExactly(w, actor, row.auth.request.runId, x.envelopeId, PolicyRef(row.auth.policy),
                   OutcomePayload(row.auth, o, false), x.clock);
    }
  }

  lemma SettledState(w: World, k: RowKey)
    requires Reachable(w) && k in w.db.effects && w.db.effects[k].outcome.Some?
    ensures w.db.effects[k].state == TerminalState(w.db.effects[k].outcome.value.status)
            && w.db.effects[k].outcomeEvent.Some?
  {
    hide Reachable, Inv, BoundShape;
    ReachableFacts(w);
    RowHasShape(w, k);
  }

  /** `recover_expired` passes, for an outcome that says indeterminate, exactly when the row is the actor's,
      under valid authority, and either settled or live with its lease over, with a run that takes the clock
      and an outcome that is about it. */
  lemma RecoversExactly(w: World, actor: ActorContext, id: Id, o: Outcome, x: Writing, now: int)
    requires Reachable(w)
    ensures Recover(w.db, actor, id, o, x.envelopeId, x.clock, now).value.Some? <==>
              && o.status == StatusIndeterminate && Sees(w, actor, id)
              && var row := w.db.effects[(actor.tenant, id)];
                 && Authorised(row.auth)
                 && (row.outcome.Some?
                     || (row.leaseExpires <= now && About(o, row.auth, row.intent)
                         && RunTakes(w.db.runs, actor, row.auth.request.runId, x.clock)))
  {
    hide Reachable, Lookup, Authorised, OutcomeBinds, About, AppendEvidence, RunTakes, RowShape;
    ReadsExactly(w, actor, id);
    if Sees(w, actor, id) {
      var row := w.db.effects[(actor.tenant, id)];
      SettledExactly(w, (actor.tenant, id));
      AboutExactly(o, row.auth, row.intent);
      TakesExactly(w, actor, row.auth.request.runId, x.envelopeId, PolicyRef(row.auth.policy),
                   OutcomePayload(row.auth, o, true), x.clock);
    }
  }

  /** A renewal passes exactly for the actor's live row, under valid authority, by the attempt and generation
      that hold it, before its lease is over; the lease then starts anew. */
  lemma RenewsExactly(w: World, actor: ActorContext, id: Id, attempt: Id, generation: nat, now: int, lease: nat)
    requires Reachable(w)
    ensures var r := Renew(w.db, actor, id, attempt, generation, now, lease);
            var k := (actor.tenant, id);
            && (r.value.Some? <==>
                  && Sees(w, actor, id)
                  && var row := w.db.effects[k];
                     && Authorised(row.auth) && row.outcome.None? && row.attempt == attempt
                     && row.generation == generation && now < row.leaseExpires)
            && (r.value.Some? ==>
                  && r.value.value == w.db.effects[k].(state := Executing, leaseExpires := now + lease,
                                                       lastRenewed := now)
                  && r.db == w.db.(effects := w.db.effects[k := r.value.value]))
  {
    hide Reachable, Authorised, Readable, StoredInputsValid, Inv, RowShape, Renew, Live;
    RenewedRow(w.db, actor, id, attempt, generation, now, lease);
    if (actor.tenant, id) in w.db.effects {
      RenewalReads(w, (actor.tenant, id), now + lease, now);
    }
  }

  lemma RenewalReads(w: World, k: RowKey, until: int, now: int)
    requires Reachable(w) && k in w.db.effects
    ensures var row := w.db.effects[k];
            && (Live(row.state) <==> row.outcome.None?)
            && (Live(row.state) ==>
                  (Readable(row.(state := Executing, leaseExpires := until, lastRenewed := now))
                   <==> Authorised(row.auth)))
  {
    hide Reachable, Authorised, Readable, StoredInputsValid, Inv, RowShape, Live;
    var row := w.db.effects[k];
    ReachableFacts(w);
    RowHasShape(w, k);
    SettledExactly(w, k);
    if Live(row.state) {
      RenewedReads(row, until, now);
      AuthorisedExactly(row.auth);
    }
  }

  lemma RenewedRow(db: EffectDb, actor: ActorContext, id: Id, attempt: Id, generation: nat, now: int, lease: nat)
    ensures var r := Renew(db, actor, id, attempt, generation, now, lease);
            var k := (actor.tenant, id);
            if k in db.effects && db.effects[k].auth.actor.actor == actor.actor
               && Holds(db.effects[k], attempt, generation)
               && now < db.effects[k].leaseExpires
            then
              var row := db.effects[k].(state := Executing, leaseExpires := now + lease, lastRenewed := now);
              r == Reply(db.(effects := db.effects[k := row]), if Readable(row) then Some(row) else None)
            else r == Reply(db, None)
  {
    hide Readable;
  }

  lemma RenewedReads(row: Row, until: int, now: int)
    requires RowShape(row) && Live(row.state)
    ensures Readable(row.(state := Executing, leaseExpires := until, lastRenewed := now))
            <==> StoredInputsValid(row.auth)
  {
    hide StoredInputsValid, OutcomeBinds, ParsedForTenant;
  }

  // ---- What the transactions write ----

  /** An event that one transaction of this authority adds to its run. */
  ghost predicate Adds(runs: map<RunKey, RunLog>, next: map<RunKey, RunLog>, a: Authority, x: Writing, e: Event) {
    var r := (a.actor.tenant, a.request.runId);
    && EventsIn(next, r) == EventsIn(runs, r) + [e]
    && e.tenant == a.actor.tenant && e.run == a.request.runId && e.sequence == |EventsIn(runs, r)|
    && e.envelopeId == x.envelopeId && e.recordedAt == x.clock - x.clock % 1000
    && e.policyRef == Ref(a.policy.decisionId, OfPolicy(a.policy))
  }

  ghost predicate RunInOrder(runs: map<RunKey, RunLog>, r: RunKey) { r in runs ==> WellFormed(runs[r]) }

  lemma AppendedSays(runs: map<RunKey, RunLog>, a: Authority, x: Writing, payload: Payload)
    requires RunInOrder(runs, (a.actor.tenant, a.request.runId))
    ensures var y := AppendEvidence(runs, a.actor, a.request.runId, x.envelopeId, PolicyRef(a.policy), payload,
                                    x.clock);
            y.Some? ==> Adds(runs, y.value.0, a, x, y.value.1) && y.value.1.payload == payload
  {
    AppendEvidenceAppends(runs, a.actor, a.request.runId, x.envelopeId, PolicyRef(a.policy), payload, x.clock);
  }

  /** A row that `prepare` creates: live under a lease that starts now, at its first version and generation,
      with an intent that says who will do what under which request, decision and grant. */
  lemma PreparedRowSays(db: EffectDb, a: Authority, x: Writing, attempt: Id, now: int, lease: nat)
    requires RunInOrder(db.runs, (a.actor.tenant, a.request.runId))
    requires Prepare(db, a, x.envelopeId, x.clock, attempt, now, lease).value.Some?
    ensures var p := Prepare(db, a, x.envelopeId, x.clock, attempt, now, lease);
            var row := p.value.value.row;
            if p.value.value.created then
              && p.db.effects == db.effects[(a.actor.tenant, a.request.requestId) := row]
              && row.auth == a && row.state == Prepared && row.version == 1 && row.generation == 1
              && row.attempt == attempt && row.leaseExpires == now + lease && row.lastRenewed == now
              && row.outcome == None && row.outcomeEvent == None
              && Adds(db.runs, p.db.runs, a, x, row.intent)
              && row.intent.payload == EffectIntent(a.actor.actor, OfRequest(a.request), OfPolicy(a.policy),
                                                    OfGrant(a.grant), a.request.effectClasses, a.grant.isolation)
            else p.db == db
  {
    hide SelectForBinding, AppendEvidence, InsertAllowed, ParsedForTenant, Adds;
    AppendedSays(db.runs, a, x, IntentPayload(a));
  }

  /** A completion adds the outcome's event and settles the row by the outcome's status. */
  lemma CompletedRowSays(db: EffectDb, stored: Row, version: nat, attempt: Id, generation: nat, o: Outcome, x: Writing,
                         now: int)
    requires RunInOrder(db.runs, (stored.auth.actor.tenant, stored.auth.request.runId))
    requires var a := stored.auth;
             CompleteCommit(db, a.actor, a.request.requestId, stored, version, attempt, generation, o, x.envelopeId,
                            x.clock, now).value.Some?
    ensures var a := stored.auth;
            var next := CompleteCommit(db, a.actor, a.request.requestId, stored, version, attempt, generation, o,
                                       x.envelopeId, x.clock, now).db;
            var k := (a.actor.tenant, a.request.requestId);
            && k in db.effects && k in next.effects && next.effects == db.effects[k := next.effects[k]]
            && var row, was := next.effects[k], db.effects[k];
               && row.state == (if o.status == Succeeded then Completed else Indeterminate)
               && row.version == was.version + 1 && row.generation == was.generation && row.attempt == was.attempt
               && row.auth == was.auth && row.intent == was.intent && row.outcome == Some(o)
               && row.outcomeEvent.Some? && Adds(db.runs, next.runs, a, x, row.outcomeEvent.value)
               && row.outcomeEvent.value.payload
                  == EffectOutcome(a.actor.actor, OfRequest(a.request), OfGrant(a.grant), OfOutcome(o), o.status, false)
  {
    hide AppendEvidence, Adds;
    AppendedSays(db.runs, stored.auth, x, OutcomePayload(stored.auth, o, false));
  }

  /** A recovery does so too, and raises the generation as well. */
  lemma FencedRowSays(db: EffectDb, stored: Row, o: Outcome, x: Writing, now: int)
    requires RunInOrder(db.runs, (stored.auth.actor.tenant, stored.auth.request.runId))
    requires var a := stored.auth;
             RecoverCommit(db, a.actor, a.request.requestId, stored, o, x.envelopeId, x.clock, now).value.Some?
    ensures var a := stored.auth;
            var next := RecoverCommit(db, a.actor, a.request.requestId, stored, o, x.envelopeId, x.clock, now).db;
            var k := (a.actor.tenant, a.request.requestId);
            && k in db.effects && k in next.effects && next.effects == db.effects[k := next.effects[k]]
            && var row, was := next.effects[k], db.effects[k];
               && row.state == Indeterminate
               && row.version == was.version + 1 && row.generation == was.generation + 1 && row.attempt == was.attempt
               && row.auth == was.auth && row.intent == was.intent && row.outcome == Some(o)
               && row.outcomeEvent.Some? && Adds(db.runs, next.runs, a, x, row.outcomeEvent.value)
               && row.outcomeEvent.value.payload
                  == EffectOutcome(a.actor.actor, OfRequest(a.request), OfGrant(a.grant), OfOutcome(o), o.status, true)
  {
    hide AppendEvidence, Adds;
    AppendedSays(db.runs, stored.auth, x, OutcomePayload(stored.auth, o, true));
  }
}
