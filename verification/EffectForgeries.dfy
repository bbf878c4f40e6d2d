/** Effect events that no dispatch and no recovery wrote.  The store's generic append takes them like
    any other event, so what the ledger says about effects is what all its writers said. */
module EffectForgeries {
  import opened Records
  import opened Samples
  import opened EvidenceChain
  import opened EffectStore
  import opened EffectProtocol
  import opened EffectInvariant
  import opened EffectLedger
  import opened EffectTheorems
  import opened EffectRuns

  // ---- One append ----

  /** The event is an effect event of this run and grant. */
  predicate Concerns(payload: Payload, run: RunKey, r: RunKey, grant: Digest) {
    run == r && EffectKind(payload) && payload.grantDigest == grant
  }

  lemma ForeignAdded(w: World, actor: ActorContext, run: Id, ref: Ref, payload: Payload, x: Writing)
    requires AppendEvidence(w.db.runs, actor, run, x.envelopeId, ref, payload, x.clock).Some?
    ensures var v, r := Apply(w, AppendOther(actor, run, ref, payload, x)), (actor.tenant, run);
            var e := AppendEvidence(w.db.runs, actor, run, x.envelopeId, ref, payload, x.clock).value.1;
            && v.db.effects == w.db.effects && e.payload == payload
            && forall s :: OthersIn(v.others, s) == OthersIn(w.others, s) + if s == r then [e] else []
  {
    var r := (actor.tenant, run);
    forall s ensures OthersIn(w.others, s) + [] == OthersIn(w.others, s) { }
  }

  /** Through the generic append, any event leaves a row's own effect events alone in the ledger
      exactly when it is no effect event of the row's run and grant. */
  lemma ForeignAppendExactly(w: World, actor: ActorContext, run: Id, ref: Ref, payload: Payload, x: Writing, k: RowKey)
    requires Reachable(w) && AppendEvidence(w.db.runs, actor, run, x.envelopeId, ref, payload, x.clock).Some?
    requires k in w.db.effects && RecordedAlone(w.db.runs, k, w.db.effects[k])
    ensures var v, row := Apply(w, AppendOther(actor, run, ref, payload, x)), w.db.effects[k];
            && v.db.effects == w.db.effects && RowRecorded(v.db.runs, k, row)
            && (RecordedAlone(v.db.runs, k, row) <==>
                  !Concerns(payload, (actor.tenant, run), RunOf(k, row), GrantOf(row)))
  {
    hide Reachable, Apply, AppendEvidence, RecordedAlone, RowRecorded, Intents, Outcomes, OthersIn;
    var s := AppendOther(actor, run, ref, payload, x);
    var v, row := Apply(w, s), w.db.effects[k];
    NextTo(w, s);
    ForeignAdded(w, actor, run, ref, payload, x);
    LedgerMatchesRow(w, k);
    LedgerMatchesRow(v, k);
    var r := RunOf(k, row);
    CountAppended(OthersIn(w.others, r),
                  AppendEvidence(w.db.runs, actor, run, x.envelopeId, ref, payload, x.clock).value.1, GrantOf(row));
    assert OthersIn(w.others, r) + [] == OthersIn(w.others, r);
  }

  /** And it leaves every effect event with a row exactly when it is no effect event itself, or there
      is a row of its run and grant. */
  lemma ForeignEventKnownExactly(w: World, actor: ActorContext, run: Id, ref: Ref, payload: Payload, x: Writing)
    requires Reachable(w) && AppendEvidence(w.db.runs, actor, run, x.envelopeId, ref, payload, x.clock).Some?
    requires EventsKnown(w.db)
    ensures EventsKnown(Apply(w, AppendOther(actor, run, ref, payload, x)).db) <==>
              (EffectKind(payload) ==> HasRow(w.db, (actor.tenant, run), payload.grantDigest))
  {
    hide Reachable, Apply, AppendEvidence, EventsKnown, OthersIn, EventsIn;
    var s := AppendOther(actor, run, ref, payload, x);
    var v, r := Apply(w, s), (actor.tenant, run);
    var e := AppendEvidence(w.db.runs, actor, run, x.envelopeId, ref, payload, x.clock).value.1;
    NextTo(w, s);
    ForeignAdded(w, actor, run, ref, payload, x);
    EvidenceHasRow(w);
    EvidenceHasRow(v);
    SameHasRow(w.db, v.db);
    assert e in OthersIn(v.others, r);
    forall q: RunKey, y | y in OthersIn(v.others, q) ensures y in OthersIn(w.others, q) || (q == r && y == e) { }
  }

  lemma SameHasRow(db: EffectDb, next: EffectDb)
    requires next.effects == db.effects
    ensures forall r: RunKey, grant: Digest :: HasRow(next, r, grant) == HasRow(db, r, grant)
  {
    forall r: RunKey, grant: Digest ensures HasRow(next, r, grant) == HasRow(db, r, grant) {
      SameRowsKnown(db, next, r, grant);
    }
  }

  // ---- Runs whose other writers write no effect events ----

  predicate PlainWriters(schedule: seq<Step>) {
    forall i | 0 <= i < |schedule| && schedule[i].AppendOther? :: !EffectKind(schedule[i].payload)
  }

  predicate PlainIn(events: seq<Event>) { forall e | e in events :: !EffectKind(e.payload) }

  lemma {:induction false} PlainOthers(schedule: seq<Step>, r: RunKey)
    requires PlainWriters(schedule)
    ensures PlainIn(OthersIn(Run(schedule).others, r))
    decreases |schedule|
  {
    if schedule != [] {
      hide Apply;
      var rest, s := schedule[..|schedule| - 1], schedule[|schedule| - 1];
      PlainOthers(rest, r);
      PlainStep(Run(rest), s, r);
    }
  }

  lemma PlainStep(w: World, s: Step, r: RunKey)
    requires PlainIn(OthersIn(w.others, r)) && (s.AppendOther? ==> !EffectKind(s.payload))
    ensures PlainIn(OthersIn(Apply(w, s).others, r))
  {
    if s.AppendOther? {
      var x := AppendEvidence(w.db.runs, s.actor, s.run, s.w.envelopeId, s.ref, s.payload, s.w.clock);
      if x.Some? {
        hide Apply, AppendEvidence;
        ForeignAdded(w, s.actor, s.run, s.ref, s.payload, s.w);
      }
    } else {
      hide Apply;
      OthersStay(w, s);
    }
  }

  lemma {:induction false} PlainCounts(events: seq<Event>, grant: Digest)
    requires PlainIn(events)
    ensures Intents(events, grant) == 0 && Outcomes(events, grant) == 0
    decreases |events|
  {
    if events != [] {
      PlainCounts(events[..|events| - 1], grant);
    }
  }

  /** When no other writer appends effect events, each row has one intent and, exactly when it is
      terminal, one outcome after it, and no effect event is without a row. */
  lemma PlainWritersLedger(schedule: seq<Step>)
    requires PlainWriters(schedule)
    ensures var w := Run(schedule);
            && EventsKnown(w.db)
            && forall k | k in w.db.effects :: RecordedAlone(w.db.runs, k, w.db.effects[k])
  {
    hide Run, RecordedAlone, RowRecorded, EventsKnown, OthersIn, HasRow;
    var w := Run(schedule);
    assert Reachable(w);
    forall k | k in w.db.effects ensures RecordedAlone(w.db.runs, k, w.db.effects[k]) {
      var row := w.db.effects[k];
      LedgerMatchesRow(w, k);
      PlainOthers(schedule, RunOf(k, row));
      PlainCounts(OthersIn(w.others, RunOf(k, row)), GrantOf(row));
    }
    EvidenceHasRow(w);
    forall r: RunKey, e | e in OthersIn(w.others, r) && EffectKind(e.payload) ensures false {
      PlainOthers(schedule, r);
    }
  }

  // ---- It does happen ----

  /** The outcome event that a completed dispatch of `a` would append, said by somebody else. */
  function Claimed(a: Authority, o: Outcome): Payload { OutcomePayload(a, o, false) }

  /** In the empty store, any effect event that its author appends has no row. */
  lemma EventWithoutRow(actor: ActorContext, run: Id, ref: Ref, payload: Payload, x: Writing)
    requires EffectKind(payload)
    ensures var w := Run([AppendOther(actor, run, ref, payload, x)]);
            w.db.effects == map[] && |EventsIn(w.db.runs, (actor.tenant, run))| == 1 && !EventsKnown(w.db)
  {
    var s := AppendOther(actor, run, ref, payload, x);
    assert [s][..0] == [];
    var w := Run([s]);
    assert Run([]) == START;
    var events := EventsIn(w.db.runs, (actor.tenant, run));
    assert |events| == 1 && events[0] in events && events[0].payload == payload;
  }

  /** Of any valid authority: its intent is written and its executor not yet called, and already the
      ledger has an outcome of its grant, while the row is live and has none. */
  lemma OutcomeBeforeCall(a: Authority, clock: int, o: Outcome, x: Writing)
    requires StoredInputsValid(a) && TruncateToMillis(clock) <= x.clock
    ensures var w := Run(SoloStart(a, clock)
                         + [AppendOther(a.actor, a.request.runId, PolicyRef(a.policy), Claimed(a, o), x)]);
            && w.calls == [] && KeyOf(a) in w.db.effects && w.db.effects[KeyOf(a)] == SoloRow(a, clock)
            && Outcomes(EventsIn(w.db.runs, (a.actor.tenant, a.request.runId)), OfGrant(a.grant)) == 1
            && !RecordedAlone(w.db.runs, KeyOf(a), w.db.effects[KeyOf(a)])
  {
    hide Run, StoredInputsValid, Claimed;
    SoloPrepares(a, clock);
    var s := AppendOther(a.actor, a.request.runId, PolicyRef(a.policy), Claimed(a, o), x);
    RunOneMore(SoloStart(a, clock), s);
    ClaimLands(a, clock, o, x);
  }

  lemma ClaimLands(a: Authority, clock: int, o: Outcome, x: Writing)
    requires TruncateToMillis(clock) <= x.clock
    ensures var w := Apply(SoloPrepared(a, clock),
                           AppendOther(a.actor, a.request.runId, PolicyRef(a.policy), Claimed(a, o), x));
            && w.calls == [] && KeyOf(a) in w.db.effects && w.db.effects[KeyOf(a)] == SoloRow(a, clock)
            && Outcomes(EventsIn(w.db.runs, (a.actor.tenant, a.request.runId)), OfGrant(a.grant)) == 1
  {
    var w := Apply(SoloPrepared(a, clock),
                   AppendOther(a.actor, a.request.runId, PolicyRef(a.policy), Claimed(a, o), x));
    var events := EventsIn(w.db.runs, (a.actor.tenant, a.request.runId));
    assert |events| == 2 && events[0] == SoloIntent(a, clock) && OutcomeFor(events[1], OfGrant(a.grant));
    assert events == [] + [events[0]] + [events[1]];
    CountAppended([], events[0], OfGrant(a.grant));
    CountAppended([] + [events[0]], events[1], OfGrant(a.grant));
  }

  /** A concrete ledger that reports the success of a call that was never made. */
  lemma SampleForgery()
    ensures var o := SoloOutcome(SAMPLE, 0, "");
            var w := Run(SoloStart(SAMPLE, 0)
                         + [AppendOther(ACTOR, "run", PolicyRef(POLICY), Claimed(SAMPLE, o), Writing("e1", 0))]);
            && Claimed(SAMPLE, o).status == Succeeded && w.calls == [] && ("t", "r") in w.db.effects
            && Outcomes(EventsIn(w.db.runs, ("t", "run")), OfGrant(GRANT)) == 1
  {
    hide Run, StoredInputsValid, RecordedAlone;
    SampleIsValid();
    assert TruncateToMillis(0) == 0;
    OutcomeBeforeCall(SAMPLE, 0, SoloOutcome(SAMPLE, 0, ""), Writing("e1", 0));
  }
}
