/** What the evidence ledger says about every effect row. */
module EffectLedger {
  import opened Records
  import opened EvidenceChain
  import opened EffectStore
  import opened EffectProtocol
  import opened EffectInvariant

  predicate IntentFor(e: Event, grant: Digest) { e.payload.EffectIntent? && e.payload.grantDigest == grant }

  predicate OutcomeFor(e: Event, grant: Digest) { e.payload.EffectOutcome? && e.payload.grantDigest == grant }

  function Intents(events: seq<Event>, grant: Digest): nat
    decreases |events|
  {
    if events == [] then 0
    else Intents(events[..|events| - 1], grant) + (if IntentFor(events[|events| - 1], grant) then 1 else 0)
  }

  function Outcomes(events: seq<Event>, grant: Digest): nat
    decreases |events|
  {
    if events == [] then 0
    else Outcomes(events[..|events| - 1], grant) + (if OutcomeFor(events[|events| - 1], grant) then 1 else 0)
  }

  lemma CountAppended(events: seq<Event>, e: Event, grant: Digest)
    ensures Intents(events + [e], grant) == Intents(events, grant) + (if IntentFor(e, grant) then 1 else 0)
    ensures Outcomes(events + [e], grant) == Outcomes(events, grant) + (if OutcomeFor(e, grant) then 1 else 0)
  {
    assert (events + [e])[..|events + [e]| - 1] == events;
  }

  function RunOf(k: RowKey, row: Row): RunKey { (k.0, row.auth.request.runId) }

  function GrantOf(row: Row): Digest { OfGrant(row.auth.grant) }

  /** The row's actor owns the run; the row's intent is in the run at its place, and so is its outcome,
      later, exactly when the row is terminal. */
  ghost predicate RowRecorded(runs: map<RunKey, RunLog>, k: RowKey, row: Row) {
    && RunOf(k, row) in runs && runs[RunOf(k, row)].owner == row.auth.actor.actor
    && var events := runs[RunOf(k, row)].events;
       && row.intent.sequence < |events| && events[row.intent.sequence] == row.intent
       && IntentFor(row.intent, GrantOf(row))
       && (Live(row.state) <==> row.outcomeEvent.None?)
       && (!Live(row.state) ==>
             && row.intent.sequence < row.outcomeEvent.value.sequence < |events|
             && events[row.outcomeEvent.value.sequence] == row.outcomeEvent.value
             && OutcomeFor(row.outcomeEvent.value, GrantOf(row)))
  }

  /** And they are the only effect events of its grant in the run. */
  ghost predicate RecordedAlone(runs: map<RunKey, RunLog>, k: RowKey, row: Row) {
    var events := EventsIn(runs, RunOf(k, row));
    && RowRecorded(runs, k, row)
    && Intents(events, GrantOf(row)) == 1 && Outcomes(events, GrantOf(row)) == if Live(row.state) then 0 else 1
  }

  ghost predicate Known(db: EffectDb, r: RunKey, k: RowKey, grant: Digest) {
    k in db.effects && RunOf(k, db.effects[k]) == r && GrantOf(db.effects[k]) == grant
  }

  ghost predicate HasRow(db: EffectDb, r: RunKey, grant: Digest) { exists k :: Known(db, r, k, grant) }

  ghost predicate HasDone(db: EffectDb, r: RunKey, grant: Digest) {
    exists k :: Known(db, r, k, grant) && !Live(db.effects[k].state)
  }

  /** The effect events of a grant in a run are those of its row and those that others appended. */
  ghost predicate BalancedAt(db: EffectDb, others: map<RunKey, seq<Event>>, r: RunKey, grant: Digest) {
    var events, foreign := EventsIn(db.runs, r), OthersIn(others, r);
    && Intents(events, grant) == Intents(foreign, grant) + (if HasRow(db, r, grant) then 1 else 0)
    && Outcomes(events, grant) == Outcomes(foreign, grant) + (if HasDone(db, r, grant) then 1 else 0)
  }

  ghost predicate Balanced(db: EffectDb, others: map<RunKey, seq<Event>>) {
    forall r: RunKey, grant: Digest :: BalancedAt(db, others, r, grant)
  }

  /** The event belongs to a row of its run, or somebody else appended it. */
  ghost predicate Traced(db: EffectDb, others: map<RunKey, seq<Event>>, r: RunKey, e: Event) {
    EffectKind(e.payload) ==> HasRow(db, r, e.payload.grantDigest) || e in OthersIn(others, r)
  }

  ghost predicate EventsTraced(db: EffectDb, others: map<RunKey, seq<Event>>) {
    forall r: RunKey, e | e in EventsIn(db.runs, r) :: Traced(db, others, r, e)
  }

  ghost predicate OthersLogged(db: EffectDb, others: map<RunKey, seq<Event>>) {
    forall r: RunKey, e | e in OthersIn(others, r) :: e in EventsIn(db.runs, r)
  }

  /** Every effect event belongs to a row of its run. */
  ghost predicate EventsKnown(db: EffectDb) {
    forall r: RunKey, e | e in EventsIn(db.runs, r) && EffectKind(e.payload) :: HasRow(db, r, e.payload.grantDigest)
  }

  ghost predicate LedgerOk(db: EffectDb, others: map<RunKey, seq<Event>>) {
    && (forall r | r in db.runs :: WellFormed(db.runs[r]))
    && (forall k | k in db.effects :: RowRecorded(db.runs, k, db.effects[k]))
    && Balanced(db, others) && EventsTraced(db, others) && OthersLogged(db, others)
  }

  // ---- After one more event ----

  lemma EventsAppended(runs: map<RunKey, RunLog>, next: map<RunKey, RunLog>, r: RunKey, e: Event, s: RunKey)
    requires Appended(runs, next, r, e)
    ensures EventsIn(next, s) == EventsIn(runs, s) + if s == r then [e] else []
  {
    hide WellFormed;
    assert EventsIn(runs, s) + [] == EventsIn(runs, s);
  }

  /** An append moves nothing, so that recorded rows stay recorded. */
  lemma RowStaysRecorded(runs: map<RunKey, RunLog>, next: map<RunKey, RunLog>, r: RunKey, e: Event, k: RowKey, row: Row)
    requires RowRecorded(runs, k, row) && Appended(runs, next, r, e)
    ensures RowRecorded(next, k, row)
  {
    hide WellFormed;
  }

  lemma WellFormedStay(runs: map<RunKey, RunLog>, next: map<RunKey, RunLog>, r: RunKey, e: Event)
    requires (forall s | s in runs :: WellFormed(runs[s])) && Appended(runs, next, r, e)
    ensures forall s | s in next :: WellFormed(next[s])
  {
    hide WellFormed;
  }

  /** The counts of a run and grant after an append by the protocol. */
  lemma OwnCounts(db: EffectDb, next: EffectDb, others: map<RunKey, seq<Event>>, r: RunKey, e: Event, s: RunKey,
                  grant: Digest)
    requires BalancedAt(db, others, s, grant) && Appended(db.runs, next.runs, r, e)
    requires HasRow(next, s, grant) <==> HasRow(db, s, grant) || (s == r && IntentFor(e, grant))
    requires HasDone(next, s, grant) <==> HasDone(db, s, grant) || (s == r && OutcomeFor(e, grant))
    requires s == r && IntentFor(e, grant) ==> !HasRow(db, s, grant)
    requires s == r && OutcomeFor(e, grant) ==> !HasDone(db, s, grant)
    ensures BalancedAt(next, others, s, grant)
  {
    hide Appended, Intents, Outcomes, HasRow, HasDone, IntentFor, OutcomeFor;
    EventsAppended(db.runs, next.runs, r, e, s);
    CountAppended(EventsIn(db.runs, s), e, grant);
    assert EventsIn(db.runs, s) + [] == EventsIn(db.runs, s);
  }

  lemma TracedStay(db: EffectDb, next: EffectDb, others: map<RunKey, seq<Event>>, more: map<RunKey, seq<Event>>,
                   r: RunKey, e: Event)
    requires EventsTraced(db, others) && Appended(db.runs, next.runs, r, e) && Traced(next, more, r, e)
    requires forall s: RunKey, grant: Digest | HasRow(db, s, grant) :: HasRow(next, s, grant)
    requires forall s: RunKey, x | x in OthersIn(others, s) :: x in OthersIn(more, s)
    ensures EventsTraced(next, more)
  {
    hide Appended, HasRow;
    forall s: RunKey, x | x in EventsIn(next.runs, s) ensures Traced(next, more, s, x) {
      EventsAppended(db.runs, next.runs, r, e, s);
      if x in EventsIn(db.runs, s) {
        assert Traced(db, others, s, x);
      }
    }
  }

  lemma LoggedStay(db: EffectDb, next: EffectDb, others: map<RunKey, seq<Event>>, r: RunKey, e: Event)
    requires OthersLogged(db, others) && Appended(db.runs, next.runs, r, e)
    ensures OthersLogged(next, others)
  {
    hide Appended;
    forall s: RunKey, x | x in OthersIn(others, s) ensures x in EventsIn(next.runs, s) {
      EventsAppended(db.runs, next.runs, r, e, s);
    }
  }

  // ---- The four ways a step touches the ledger ----

  lemma ForeignCounts(db: EffectDb, next: EffectDb, others: map<RunKey, seq<Event>>, r: RunKey, e: Event, s: RunKey,
                      grant: Digest)
    requires BalancedAt(db, others, s, grant) && Appended(db.runs, next.runs, r, e) && next.effects == db.effects
    ensures BalancedAt(next, others[r := OthersIn(others, r) + [e]], s, grant)
  {
    hide Appended, Intents, Outcomes, IntentFor, OutcomeFor, HasRow, HasDone, EventsIn;
    SameRowsKnown(db, next, s, grant);
    EventsAppended(db.runs, next.runs, r, e, s);
    CountAppended(EventsIn(db.runs, s), e, grant);
    CountAppended(OthersIn(others, s), e, grant);
    assert EventsIn(db.runs, s) + [] == EventsIn(db.runs, s);
  }

  lemma SameRowsKnown(db: EffectDb, next: EffectDb, s: RunKey, grant: Digest)
    requires next.effects.Keys == db.effects.Keys
    requires forall k | k in db.effects :: SameRecord(db.effects[k], next.effects[k])
    ensures HasRow(next, s, grant) == HasRow(db, s, grant) && HasDone(next, s, grant) == HasDone(db, s, grant)
  {
    assert forall k :: Known(next, s, k, grant) <==> Known(db, s, k, grant);
  }

  lemma ForeignAppendKeeps(db: EffectDb, next: EffectDb, others: map<RunKey, seq<Event>>, r: RunKey, e: Event)
    requires LedgerOk(db, others) && Appended(db.runs, next.runs, r, e) && next.effects == db.effects
    ensures LedgerOk(next, others[r := OthersIn(others, r) + [e]])
  {
    hide RowRecorded, Appended, EventsTraced, OthersLogged, WellFormed, BalancedAt, HasRow;
    var more := others[r := OthersIn(others, r) + [e]];
    forall k | k in next.effects ensures RowRecorded(next.runs, k, next.effects[k]) {
      RowStaysRecorded(db.runs, next.runs, r, e, k, db.effects[k]);
    }
    forall s: RunKey, grant: Digest ensures BalancedAt(next, more, s, grant) {
      assert BalancedAt(db, others, s, grant);
      ForeignCounts(db, next, others, r, e, s, grant);
    }
    WellFormedStay(db.runs, next.runs, r, e);
    forall s: RunKey, grant: Digest | HasRow(db, s, grant) ensures HasRow(next, s, grant) {
      SameRowsKnown(db, next, s, grant);
    }
    TracedStay(db, next, others, more, r, e);
    ForeignLogged(db, next, others, r, e);
  }

  lemma ForeignLogged(db: EffectDb, next: EffectDb, others: map<RunKey, seq<Event>>, r: RunKey, e: Event)
    requires OthersLogged(db, others) && Appended(db.runs, next.runs, r, e)
    ensures OthersLogged(next, others[r := OthersIn(others, r) + [e]])
  {
    hide Appended;
    LoggedStay(db, next, others, r, e);
    EventsAppended(db.runs, next.runs, r, e, r);
  }

  lemma DistinctGrants(db: EffectDb, j: RowKey, k: RowKey)
    requires RowsUnique(db) && j in db.effects && k in db.effects && j != k && j.0 == k.0
    ensures GrantOf(db.effects[j]) != GrantOf(db.effects[k])
  {
    assert !SharesIdentity(j, db.effects[j], k, db.effects[k]);
  }

  /** Where a new row adds to the rows of a run and grant. */
  lemma NewRowKnown(db: EffectDb, next: EffectDb, k: RowKey, s: RunKey, grant: Digest)
    requires k !in db.effects && k in next.effects && next.effects == db.effects[k := next.effects[k]]
    requires RowsUnique(next) && Live(next.effects[k].state)
    ensures HasRow(next, s, grant) <==> HasRow(db, s, grant) || Known(next, s, k, grant)
    ensures Known(next, s, k, grant) ==> !HasRow(db, s, grant)
    ensures HasDone(next, s, grant) <==> HasDone(db, s, grant)
  {
    hide RowsUnique;
    assert forall j | j != k :: Known(next, s, j, grant) <==> Known(db, s, j, grant);
    if Known(next, s, k, grant) && HasRow(db, s, grant) {
      var j :| Known(db, s, j, grant);
      DistinctGrants(next, j, k);
    }
  }

  lemma IntentAppendKeeps(db: EffectDb, next: EffectDb, others: map<RunKey, seq<Event>>, k: RowKey, e: Event)
    requires LedgerOk(db, others)
    requires k !in db.effects && k in next.effects && next.effects == db.effects[k := next.effects[k]]
    requires var row := next.effects[k];
             && Appended(db.runs, next.runs, RunOf(k, row), e) && row.intent == e && Live(row.state)
             && row.outcomeEvent.None?
             && IntentFor(e, GrantOf(row)) && next.runs[RunOf(k, row)].owner == row.auth.actor.actor
    requires RowsUnique(next)
    ensures LedgerOk(next, others)
  {
    hide RowsUnique, RowRecorded, EventsTraced, WellFormed, BalancedAt, HasRow, HasDone, OthersLogged, Appended;
    var r := RunOf(k, next.effects[k]);
    IntentRows(db, next, k, e);
    forall s: RunKey, grant: Digest ensures BalancedAt(next, others, s, grant) {
      assert BalancedAt(db, others, s, grant);
      NewRowKnown(db, next, k, s, grant);
      OwnCounts(db, next, others, r, e, s, grant);
    }
    WellFormedStay(db.runs, next.runs, r, e);
    forall s: RunKey, grant: Digest | HasRow(db, s, grant) ensures HasRow(next, s, grant) {
      NewRowKnown(db, next, k, s, grant);
    }
    NewRowKnown(db, next, k, r, GrantOf(next.effects[k]));
    TracedStay(db, next, others, others, r, e);
    LoggedStay(db, next, others, r, e);
  }

  lemma IntentRows(db: EffectDb, next: EffectDb, k: RowKey, e: Event)
    requires forall j | j in db.effects :: RowRecorded(db.runs, j, db.effects[j])
    requires k in next.effects && next.effects == db.effects[k := next.effects[k]]
    requires var row := next.effects[k];
             && Appended(db.runs, next.runs, RunOf(k, row), e) && row.intent == e && Live(row.state)
             && row.outcomeEvent.None?
             && IntentFor(e, GrantOf(row)) && next.runs[RunOf(k, row)].owner == row.auth.actor.actor
    ensures forall j | j in next.effects :: RowRecorded(next.runs, j, next.effects[j])
  {
    hide WellFormed;
    forall j | j in next.effects ensures RowRecorded(next.runs, j, next.effects[j]) {
      if j != k {
        RowStaysRecorded(db.runs, next.runs, RunOf(k, next.effects[k]), e, j, db.effects[j]);
      }
    }
  }

  lemma DoneRowRecorded(db: EffectDb, next: EffectDb, k: RowKey, e: Event)
    requires k in db.effects && k in next.effects && RowRecorded(db.runs, k, db.effects[k])
    requires Ends(db, next, k, e)
    ensures RowRecorded(next.runs, k, next.effects[k])
  {
    hide WellFormed;
  }

  /** The live row `k` gets its outcome, recorded by the event `e`. */
  ghost predicate Ends(db: EffectDb, next: EffectDb, k: RowKey, e: Event)
    requires k in db.effects && k in next.effects
  {
    var row, done := db.effects[k], next.effects[k];
    && next.effects == db.effects[k := done]
    && Live(row.state) && !Live(done.state) && done.auth == row.auth && done.intent == row.intent
    && done.outcomeEvent == Some(e) && OutcomeFor(e, GrantOf(row))
    && Appended(db.runs, next.runs, RunOf(k, row), e)
  }

  /** Where an ended row adds to the ended rows of a run and grant. */
  lemma EndedRowKnown(db: EffectDb, next: EffectDb, k: RowKey, e: Event, s: RunKey, grant: Digest)
    requires RowsUnique(db) && k in db.effects && k in next.effects && Ends(db, next, k, e)
    ensures HasRow(next, s, grant) <==> HasRow(db, s, grant)
    ensures HasDone(next, s, grant) <==> HasDone(db, s, grant) || Known(db, s, k, grant)
    ensures Known(db, s, k, grant) ==> !HasDone(db, s, grant)
  {
    hide RowsUnique, Appended;
    assert forall j :: Known(next, s, j, grant) <==> Known(db, s, j, grant);
    if Known(db, s, k, grant) && HasDone(db, s, grant) {
      var j :| Known(db, s, j, grant) && !Live(db.effects[j].state);
      DistinctGrants(db, j, k);
    }
  }

  lemma OutcomeAppendKeeps(db: EffectDb, next: EffectDb, others: map<RunKey, seq<Event>>, k: RowKey, e: Event)
    requires LedgerOk(db, others) && RowsUnique(db) && k in db.effects && k in next.effects && Ends(db, next, k, e)
    ensures LedgerOk(next, others)
  {
    hide RowsUnique, RowRecorded, EventsTraced, WellFormed, BalancedAt, HasRow, HasDone, Appended, OthersLogged;
    var r := RunOf(k, db.effects[k]);
    forall j | j in next.effects ensures RowRecorded(next.runs, j, next.effects[j]) {
      if j != k {
        RowStaysRecorded(db.runs, next.runs, r, e, j, db.effects[j]);
      } else {
        DoneRowRecorded(db, next, k, e);
      }
    }
    forall s: RunKey, grant: Digest ensures BalancedAt(next, others, s, grant) {
      assert BalancedAt(db, others, s, grant);
      EndedRowKnown(db, next, k, e, s, grant);
      OwnCounts(db, next, others, r, e, s, grant);
    }
    WellFormedStay(db.runs, next.runs, r, e);
    forall s: RunKey, grant: Digest | HasRow(db, s, grant) ensures HasRow(next, s, grant) {
      EndedRowKnown(db, next, k, e, s, grant);
    }
    RowIsKnown(next, k);
    TracedStay(db, next, others, others, r, e);
    LoggedStay(db, next, others, r, e);
  }

  lemma RowIsKnown(db: EffectDb, k: RowKey)
    requires k in db.effects
    ensures HasRow(db, RunOf(k, db.effects[k]), GrantOf(db.effects[k]))
  {
    assert Known(db, RunOf(k, db.effects[k]), k, GrantOf(db.effects[k]));
  }

  predicate SameRecord(row: Row, next: Row) {
    next == row || (&& next.auth == row.auth && next.intent == row.intent && next.outcomeEvent == row.outcomeEvent
                    && Live(row.state) && Live(next.state))
  }

  lemma QuietKeeps(db: EffectDb, next: EffectDb, others: map<RunKey, seq<Event>>)
    requires LedgerOk(db, others) && next.runs == db.runs && next.effects.Keys == db.effects.Keys
    requires forall k | k in db.effects :: SameRecord(db.effects[k], next.effects[k])
    ensures LedgerOk(next, others)
  {
    hide RowRecorded, WellFormed, HasRow, HasDone, Intents, Outcomes;
    forall k | k in next.effects ensures RowRecorded(next.runs, k, next.effects[k]) {
      SameRecorded(db.runs, k, db.effects[k], next.effects[k]);
    }
    forall s: RunKey, grant: Digest ensures BalancedAt(next, others, s, grant) {
      assert BalancedAt(db, others, s, grant);
      SameRowsKnown(db, next, s, grant);
    }
    forall s: RunKey, e | e in EventsIn(next.runs, s) ensures Traced(next, others, s, e) {
      assert Traced(db, others, s, e);
      if EffectKind(e.payload) {
        SameRowsKnown(db, next, s, e.payload.grantDigest);
      }
    }
  }

  lemma SameRecorded(runs: map<RunKey, RunLog>, k: RowKey, row: Row, next: Row)
    requires RowRecorded(runs, k, row) && SameRecord(row, next)
    ensures RowRecorded(runs, k, next)
  {
  }

  // ---- Every step ----

  lemma RenewQuiet(db: EffectDb, others: map<RunKey, seq<Event>>, actor: ActorContext, id: Id, attempt: Id,
                   generation: nat, now: int, lease: nat)
    requires LedgerOk(db, others)
    ensures LedgerOk(Renew(db, actor, id, attempt, generation, now, lease).db, others)
  {
    hide RowRecorded, EventsTraced, Readable;
    QuietKeeps(db, Renew(db, actor, id, attempt, generation, now, lease).db, others);
  }

  lemma CompleteCommitKeeps(db: EffectDb, others: map<RunKey, seq<Event>>, actor: ActorContext, id: Id, stored: Row,
                            version: nat, attempt: Id, generation: nat, o: Outcome, x: Writing, now: int)
    requires LedgerOk(db, others) && RowsUnique(db)
    requires var k := (actor.tenant, id); k in db.effects && stored.auth == db.effects[k].auth
    ensures LedgerOk(CompleteCommit(db, actor, id, stored, version, attempt, generation, o, x.envelopeId, x.clock,
                                    now).db, others)
  {
    hide RowRecorded, EventsTraced, RowsUnique, AppendEvidence, Appended;
    var r := CompleteCommit(db, actor, id, stored, version, attempt, generation, o, x.envelopeId, x.clock, now);
    if r.value.Some? {
      var k, a := (actor.tenant, id), stored.auth;
      AppendEvidenceAppends(db.runs, actor, a.request.runId, x.envelopeId, PolicyRef(a.policy),
                            OutcomePayload(a, o, false), x.clock);
      OutcomeAppendKeeps(db, r.db, others, k, r.db.effects[k].outcomeEvent.value);
    }
  }

  lemma RecoverCommitKeeps(db: EffectDb, others: map<RunKey, seq<Event>>, actor: ActorContext, id: Id, stored: Row,
                           o: Outcome, x: Writing, now: int)
    requires LedgerOk(db, others) && RowsUnique(db)
    requires var k := (actor.tenant, id); k in db.effects && stored.auth == db.effects[k].auth
    ensures LedgerOk(RecoverCommit(db, actor, id, stored, o, x.envelopeId, x.clock, now).db, others)
  {
    hide RowRecorded, EventsTraced, RowsUnique, AppendEvidence, Appended;
    var r := RecoverCommit(db, actor, id, stored, o, x.envelopeId, x.clock, now);
    if r.value.Some? {
      var k, a := (actor.tenant, id), stored.auth;
      AppendEvidenceAppends(db.runs, actor, a.request.runId, x.envelopeId, PolicyRef(a.policy),
                            OutcomePayload(a, o, true), x.clock);
      OutcomeAppendKeeps(db, r.db, others, k, r.db.effects[k].outcomeEvent.value);
    }
  }

  lemma InsertKeeps(db: EffectDb, others: map<RunKey, seq<Event>>, a: Authority, x: Writing, attempt: Id, now: int,
                    lease: nat)
    requires LedgerOk(db, others) && RowsUnique(db) && ParsedForTenant(a)
    ensures LedgerOk(PrepareInsert(db, a, x.envelopeId, x.clock, attempt, now, lease).db, others)
  {
    hide RowRecorded, EventsTraced, RowsUnique, AppendEvidence, Appended, RowShape, Clashes, ParsedForTenant;
    var r := PrepareInsert(db, a, x.envelopeId, x.clock, attempt, now, lease);
    if r.value.Some? {
      PreparedRowShape(db, a, x, attempt, now, lease);
      InsertUnique(db, r.db, a, r.value.value);
      AppendEvidenceAppends(db.runs, a.actor, a.request.runId, x.envelopeId, PolicyRef(a.policy), IntentPayload(a),
                            x.clock);
      IntentAppendKeeps(db, r.db, others, KeyOf(a), r.value.value.intent);
    }
  }

  lemma ForeignStepKeeps(w: World, actor: ActorContext, run: Id, ref: Ref, payload: Payload, x: Writing)
    requires LedgerOk(w.db, w.others)
    ensures var v := DoAppendOther(w, actor, run, ref, payload, x); LedgerOk(v.db, v.others)
  {
    hide LedgerOk, AppendEvidence, Appended;
    var v := DoAppendOther(w, actor, run, ref, payload, x);
    var r := AppendEvidence(w.db.runs, actor, run, x.envelopeId, ref, payload, x.clock);
    if r.Some? {
      LedgerRuns(w.db, w.others);
      AppendEvidenceAppends(w.db.runs, actor, run, x.envelopeId, ref, payload, x.clock);
      ForeignAppendKeeps(w.db, v.db, w.others, (actor.tenant, run), r.value.1);
    }
  }

  lemma LedgerRuns(db: EffectDb, others: map<RunKey, seq<Event>>)
    requires LedgerOk(db, others)
    ensures forall r | r in db.runs :: WellFormed(db.runs[r])
  {
  }

  /** What the process of a committing step knows about its row. */
  lemma StoredAuthority(w: World, p: Pid)
    requires p in w.procs && ProcOk(w, p)
    ensures var k, c := KeyOfProcess(w.procs[p]), w.procs[p];
            && (c.Dispatch? && c.held.Some? ==> k in w.db.effects)
            && (c.Dispatch? && c.held.Some? && c.pc.Committing? ==> c.pc.stored.auth == w.db.effects[k].auth)
            && (c.Dispatch? && c.held.Some? && p in w.pending ==> w.pending[p].stored.auth == w.db.effects[k].auth)
            && (c.Recovery? && c.pc.RecoverCommitting? ==>
                  k in w.db.effects && c.pc.stored.auth == w.db.effects[k].auth)
  {
    hide StoredInputsValid, OutcomeBinds, ParsedForTenant, HeldFits;
  }

  /** The steps that can write to the database. */
  predicate Writes(s: Step) {
    s.AppendOther? || s.Insert? || s.RenewFirst? || s.Heartbeat? || s.Commit? || s.LateCommit? || s.CommitRecover?
  }

  lemma LookUpOnly(w: World, p: Pid, ok: bool)
    requires p in w.procs
    ensures DoLookUp(w, p, ok).db == w.db && DoLookUp(w, p, ok).others == w.others
  {
    hide Lookup, BindingDigest;
  }

  lemma LookingOnly(w: World, p: Pid, ok: bool)
    requires p in w.procs
    ensures DoSelect(w, p, ok).db == w.db && DoSelect(w, p, ok).others == w.others
    ensures DoReconcile(w, p, ok).db == w.db && DoReconcile(w, p, ok).others == w.others
  {
    hide Lookup, SelectForBinding;
  }

  lemma CheckingOnly(w: World, p: Pid, ok: bool)
    requires p in w.procs
    ensures DoCheckComplete(w, p, ok).db == w.db && DoCheckComplete(w, p, ok).others == w.others
    ensures DoCheckRecover(w, p, ok).db == w.db && DoCheckRecover(w, p, ok).others == w.others
  {
    hide CompleteVerdict, RecoverVerdict;
  }

  lemma BuildingOnly(w: World, p: Pid, ok: bool, s: Stamp)
    requires p in w.procs
    ensures DoBuild(w, p, ok, s).db == w.db && DoBuild(w, p, ok, s).others == w.others
  {
    hide BuildOutcome, ScopeDerivable;
  }

  lemma OtherStepsOnlyRead(w: World, s: Step)
    requires !Writes(s)
    ensures Apply(w, s).db == w.db && Apply(w, s).others == w.others
  {
    hide DoLookUp, DoSelect, DoBuild, DoCheckComplete, DoReconcile, DoCheckRecover, ParsedForTenant;
    if !s.Tick? && !s.Begin? && !s.BeginRecovery? && s.pid in w.procs {
      match s
      case LookUp(p, ok) => LookUpOnly(w, p, ok);
      case Select(p, ok) => LookingOnly(w, p, ok);
      case Reconcile(p, ok) => LookingOnly(w, p, ok);
      case Build(p, ok, stamp) => BuildingOnly(w, p, ok, stamp);
      case CheckComplete(p, ok) => CheckingOnly(w, p, ok);
      case CheckRecover(p, ok) => CheckingOnly(w, p, ok);
      case _ =>
    }
  }

  lemma InsertStepKeeps(w: World, p: Pid, x: Writing, attempt: Id, lease: nat, ack: bool)
    requires p in w.procs && ProcOk(w, p) && RowsUnique(w.db) && LedgerOk(w.db, w.others)
    ensures LedgerOk(DoInsert(w, p, x, attempt, lease, ack).db, w.others)
  {
    hide LedgerOk, RowsUnique, Fits, PrepareInsert, ParsedForTenant;
    if w.procs[p].Dispatch? {
      ParsedDispatch(w, p);
      InsertKeeps(w.db, w.others, w.procs[p].auth, x, attempt, w.now, lease);
    }
  }

  lemma RenewingStepsKeep(w: World, p: Pid, lease: nat, ack: bool)
    requires p in w.procs && LedgerOk(w.db, w.others)
    ensures LedgerOk(DoRenewFirst(w, p, lease, ack).db, w.others) && LedgerOk(DoHeartbeat(w, p, lease).db, w.others)
  {
    hide LedgerOk, Renew;
    if w.procs[p].Dispatch? && w.procs[p].held.Some? {
      var a, h := w.procs[p].auth, w.procs[p].held.value;
      RenewQuiet(w.db, w.others, a.actor, a.request.requestId, h.attempt, h.generation, w.now, lease);
    }
  }

  lemma CommitStepKeeps(w: World, p: Pid, x: Writing, reply: Acknowledgement)
    requires p in w.procs && ProcOk(w, p) && RowsUnique(w.db) && LedgerOk(w.db, w.others)
    ensures LedgerOk(DoCommit(w, p, x, reply).db, w.others)
  {
    hide LedgerOk, RowsUnique, Fits, CompleteCommit;
    StoredAuthority(w, p);
    match w.procs[p] {
      case Dispatch(a, Some(h), Committing(o, stored)) =>
        CompleteCommitKeeps(w.db, w.others, a.actor, a.request.requestId, stored, h.version, h.attempt, h.generation,
                            o, x, w.now);
      case _ =>
    }
  }

  lemma LateCommitStepKeeps(w: World, p: Pid, x: Writing, at: int)
    requires p in w.procs && ProcOk(w, p) && RowsUnique(w.db) && LedgerOk(w.db, w.others)
    ensures LedgerOk(DoLateCommit(w, p, x, at).db, w.others)
  {
    hide LedgerOk, RowsUnique, Fits, CompleteCommit;
    StoredAuthority(w, p);
    match w.procs[p] {
      case Dispatch(a, Some(h), _) =>
        if p in w.pending {
          var t := w.pending[p];
          CompleteCommitKeeps(w.db, w.others, a.actor, a.request.requestId, t.stored, h.version, h.attempt,
                              h.generation, t.outcome, x, at);
        }
      case _ =>
    }
  }

  lemma CommitRecoverStepKeeps(w: World, p: Pid, x: Writing, ack: bool)
    requires p in w.procs && ProcOk(w, p) && RowsUnique(w.db) && LedgerOk(w.db, w.others)
    ensures LedgerOk(DoCommitRecover(w, p, x, ack).db, w.others)
  {
    hide LedgerOk, RowsUnique, Fits, RecoverCommit;
    StoredAuthority(w, p);
    match w.procs[p] {
      case Recovery(actor, id, RecoverCommitting(o, stored)) =>
        RecoverCommitKeeps(w.db, w.others, actor, id, stored, o, x, w.now);
      case _ =>
    }
  }

  /** Only the generic append adds to the events of others. */
  lemma OthersStay(w: World, s: Step)
    requires !s.AppendOther?
    ensures Apply(w, s).others == w.others
  {
    if !Writes(s) {
      hide Apply;
      OtherStepsOnlyRead(w, s);
    } else {
      hide PrepareInsert, Renew, CompleteCommit, RecoverCommit;
    }
  }

  lemma StepKeepsLedger(w: World, s: Step)
    requires Inv(w) && LedgerOk(w.db, w.others)
    ensures var v := Apply(w, s); LedgerOk(v.db, v.others)
  {
    hide LedgerOk, RowsOk, RowsUnique, CallsOk, ProcOk, DoAppendOther;
    if s.AppendOther? {
      ForeignStepKeeps(w, s.actor, s.run, s.ref, s.payload, s.w);
    } else {
      hide Apply;
      OthersStay(w, s);
      if !Writes(s) {
        OtherStepsOnlyRead(w, s);
      } else if s.pid in w.procs {
        WritingStepKeeps(w, s);
      } else {
        AbsentStays(w, s);
      }
    }
  }

  lemma AbsentStays(w: World, s: Step)
    requires Writes(s) && !s.AppendOther? && s.pid !in w.procs
    ensures Apply(w, s) == w
  {
  }

  lemma WritingStepKeeps(w: World, s: Step)
    requires Writes(s) && !s.AppendOther? && s.pid in w.procs && ProcOk(w, s.pid) && RowsUnique(w.db)
             && LedgerOk(w.db, w.others)
    ensures LedgerOk(Apply(w, s).db, w.others)
  {
    hide LedgerOk, RowsUnique, ProcOk, DoInsert, DoRenewFirst, DoHeartbeat, DoCommit, DoLateCommit, DoCommitRecover;
    match s
    case Insert(p, x, attempt, lease, ack) => InsertStepKeeps(w, p, x, attempt, lease, ack);
    case RenewFirst(p, lease, ack) => RenewingStepsKeep(w, p, lease, ack);
    case Heartbeat(p, lease) => RenewingStepsKeep(w, p, lease, true);
    case Commit(p, x, reply) => CommitStepKeeps(w, p, x, reply);
    case LateCommit(p, x, at) => LateCommitStepKeeps(w, p, x, at);
    case CommitRecover(p, x, ack) => CommitRecoverStepKeeps(w, p, x, ack);
  }

  lemma {:induction false} ReachableLedger(schedule: seq<Step>)
    ensures Inv(Run(schedule)) && LedgerOk(Run(schedule).db, Run(schedule).others)
    decreases |schedule|
  {
    ReachableInv(schedule);
    if schedule != [] {
      hide Inv, Apply, LedgerOk;
      var rest := schedule[..|schedule| - 1];
      ReachableLedger(rest);
      StepKeepsLedger(Run(rest), schedule[|schedule| - 1]);
    }
  }

  lemma ReachableFacts(w: World)
    requires Reachable(w)
    ensures Inv(w) && LedgerOk(w.db, w.others)
  {
    hide Inv, LedgerOk, Run;
    var schedule :| Run(schedule) == w;
    ReachableLedger(schedule);
  }

  lemma NextIsReachable(w: World, v: World)
    requires Reachable(w) && Next(w, v)
    ensures Reachable(v)
  {
    hide Apply;
    var schedule :| Run(schedule) == w;
    var s: Step :| Apply(w, s) == v;
    var longer := schedule + [s];
    assert longer[..|longer| - 1] == schedule;
    assert Run(longer) == v;
  }

  lemma {:induction false} PathIsReachable(worlds: seq<World>, i: nat)
    requires Path(worlds) && Reachable(worlds[0]) && i < |worlds|
    ensures Reachable(worlds[i])
    decreases i
  {
    hide Reachable, Next;
    if i > 0 {
      PathIsReachable(worlds, i - 1);
      NextIsReachable(worlds[i - 1], worlds[i]);
    }
  }

  lemma LaterIsReachable(w: World, v: World)
    requires Reachable(w) && Later(w, v)
    ensures Reachable(v)
  {
    hide Reachable, Next;
    var worlds :| Path(worlds) && worlds[0] == w && worlds[|worlds| - 1] == v;
    PathIsReachable(worlds, |worlds| - 1);
  }
}
