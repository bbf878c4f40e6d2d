/** Runs of the lifecycle in which a load, a rebuild or an approval fails, for any valid submission. */
module LifecycleRuns {
  import opened Records
  import opened EvidenceChain
  import opened EffectStore
  import opened LifecycleStore
  import opened LifecycleExactly
  import opened LifecycleInvariant
  import opened LifecycleTheorems
  import opened LifecycleLoss
  import opened LifecycleForgeries
  import opened Samples

  /** What a caller submits, and in which state it says that the request starts. */
  datatype Filing = Filing(actor: ActorContext, request: Request, policy: Policy, state: LifecycleState)

  predicate Valid(f: Filing) { SubmissionValid(f.actor, f.request, f.policy, f.state, PolicyRef(f.policy)) }

  function KeyOfFiling(f: Filing): RowKey { (f.actor.tenant, f.request.requestId) }

  function HomeOf(f: Filing): RunKey { (f.actor.tenant, f.request.runId) }

  function File(f: Filing, w: Writing): Step {
    Submission(f.actor, f.request, f.policy, f.state, PolicyRef(f.policy), w)
  }

  function FirstEvent(f: Filing, w: Writing): Event {
    Event(f.actor.tenant, f.request.runId, 0, TruncateToMillis(w.clock), None, w.envelopeId, PolicyRef(f.policy),
          SubmissionPayload(f.actor, f.request, f.policy, f.state))
  }

  function FirstRow(f: Filing, w: Writing): Projection {
    SubmittedRow(f.actor, f.request, f.policy, f.state, FirstEvent(f, w))
  }

  /** The books after the first submission of all. */
  function Begun(f: Filing, w: Writing): Books {
    Books(LifecycleDb(map[HomeOf(f) := Commit(EmptyLog(f.actor.actor), FirstEvent(f, w))],
                      map[KeyOfFiling(f) := FirstRow(f, w)]),
          map[KeyOfFiling(f) := f.actor], {}, {}, map[])
  }

  lemma OneMore(schedule: seq<Step>, s: Step)
    ensures Run(schedule + [s]) == Apply(Run(schedule), s)
    ensures Careful(schedule) && !Reckless(Run(schedule), s) ==> Careful(schedule + [s])
  {
    hide Apply, Reckless;
    assert (schedule + [s])[..|schedule + [s]| - 1] == schedule;
  }

  lemma FirstFiling(f: Filing, w: Writing)
    requires Valid(f)
    ensures Careful([File(f, w)]) && Run([File(f, w)]) == Begun(f, w)
  {
    hide Valid, Submit, Begun;
    assert [] + [File(f, w)] == [File(f, w)];
    OneMore([], File(f, w));
    FirstSubmitted(f, w);
  }

  lemma FirstSubmitted(f: Filing, w: Writing)
    requires Valid(f)
    ensures var x := Submit(EMPTY.db, f.actor, f.request, f.policy, f.state, PolicyRef(f.policy), w.envelopeId,
                            w.clock);
            x.db == Begun(f, w).db && x.db != EMPTY.db
              && Begun(f, w) == Books(x.db, map[KeyOfFiling(f) := f.actor], {}, {}, map[])
  {
    hide SubmissionValid, AppendEvidence, RowAllowed, Load;
    assert RowsByIdempotency(EMPTY.db.rows, f.actor, f.request.idempotency.key) == {};
    FirstAppended(f, w);
    FirstAllowed(f, w);
    assert KeyOfFiling(f) in Begun(f, w).db.rows;
  }

  lemma FirstAppended(f: Filing, w: Writing)
    ensures AppendEvidence(map[], f.actor, f.request.runId, w.envelopeId, PolicyRef(f.policy),
                           SubmissionPayload(f.actor, f.request, f.policy, f.state), w.clock)
            == Some((Begun(f, w).db.runs, FirstEvent(f, w)))
  {
    var e := FirstEvent(f, w);
    assert map[][HomeOf(f) := Commit(EmptyLog(f.actor.actor), e)] == Begun(f, w).db.runs;
  }

  lemma FirstAllowed(f: Filing, w: Writing)
    requires Valid(f)
    ensures RowAllowed(Begun(f, w).db.runs, KeyOfFiling(f), FirstRow(f, w))
  {
  }

  /** What the first load says. */
  function FirstStored(f: Filing, w: Writing): Stored {
    Stored(f.actor, f.request, f.policy, None, None, f.state, 1, [FirstEvent(f, w)])
  }

  lemma FirstFacts(f: Filing, w: Writing)
    requires Valid(f)
    ensures var b, k := Begun(f, w), KeyOfFiling(f);
            && Reachable(b) && k in b.db.rows && b.db.rows[k] == FirstRow(f, w)
            && Load(b.db, f.actor, k.1) == Some(FirstStored(f, w))
            && Load(b.db, f.actor, k.1) == ReplayRun(b.db.runs, f.actor, k.1)
            && AtHome(b.db.runs, f.actor, FirstStored(f, w))
  {
    hide Run, Careful, Load, ReplayRun, Reachable, StoryRuns, SubmissionValid;
    FirstFiling(f, w);
    var b, k := Begun(f, w), KeyOfFiling(f);
    assert Reachable(b) by { ReachedBy([File(f, w)]); }
    CacheAgreesWithLog(b, k, f.actor);
    BegunRuns(f, w);
    FirstStory(f, w);
  }

  lemma FirstStory(f: Filing, w: Writing)
    requires Valid(f)
    ensures ReplayRun(Begun(f, w).db.runs, f.actor, f.request.requestId) == Some(FirstStored(f, w))
  {
    hide StoryRuns, ReplayRun, ReplayStory, SubmissionValid, WellFormed;
    var runs := Begun(f, w).db.runs;
    BegunRuns(f, w);
    ReplayAt(runs, f.actor, f.request.requestId, HomeOf(f));
    ChainsOk(runs[HomeOf(f)]);
    StoryAppended([], FirstEvent(f, w), f.request.requestId);
    assert runs[HomeOf(f)].events == [] + [FirstEvent(f, w)];
    FirstReplay(f.actor, f.request, f.policy, f.state, FirstEvent(f, w));
    assert Story([], f.request.requestId) + [FirstEvent(f, w)] == [FirstEvent(f, w)];
  }

  lemma FirstClock(f: Filing, w: Writing, clock: int)
    requires TruncateToMillis(w.clock) <= clock
    ensures ClockPasses(Begun(f, w).db.runs, HomeOf(f), clock)
  {
  }

  lemma ReachedBy(schedule: seq<Step>)
    ensures Reachable(Run(schedule))
  {
  }

  // ---- The row is lost and the request is submitted again ----

  function Deleted(f: Filing, w: Writing): Books {
    var b, k := Begun(f, w), KeyOfFiling(f);
    b.(db := b.db.(rows := map[]), stale := {k})
  }

  lemma DeletionReaches(f: Filing, w: Writing)
    requires Valid(f)
    ensures var s := [File(f, w), Tamper(KeyOfFiling(f), None)];
            Careful(s) && Run(s) == Deleted(f, w) && Reachable(Deleted(f, w))
  {
    hide Run, Careful, Valid, Reachable;
    FirstFiling(f, w);
    OneMore([File(f, w)], Tamper(KeyOfFiling(f), None));
    var b, k := Begun(f, w), KeyOfFiling(f);
    assert [File(f, w)] + [Tamper(k, None)] == [File(f, w), Tamper(k, None)];
    assert b.db.rows - {k} == map[];
    ReachedBy([File(f, w), Tamper(k, None)]);
  }

  /** Submit, lose the row, submit the very same request again: the call answers as if the request
      were new, and the next load fails.  After a rebuild it loads again, as a request of two events. */
  lemma ResubmissionAfterLoss(f: Filing, w: Writing, again: Writing)
    requires Valid(f) && TruncateToMillis(w.clock) <= again.clock
    ensures var s, id := [File(f, w), Tamper(KeyOfFiling(f), None)], f.request.requestId;
            var lost := Run(s);
            var x := Submit(lost.db, f.actor, f.request, f.policy, f.state, PolicyRef(f.policy), again.envelopeId,
                            again.clock);
            var loaded := Load(Run(s + [File(f, again), Repair(f.actor, id)]).db, f.actor, id);
            && x.value.Some? && x.value.value.version == 1 && Run(s + [File(f, again)]).db == x.db
            && Load(x.db, f.actor, id) == None
            && loaded.Some? && loaded.value.version == 2 && loaded.value.state == f.state
  {
    hide Run, Load, Submit, Reachable, AtHome, Begun, ClockPasses, SubmissionValid, Rebuild;
    var s, id := [File(f, w), Tamper(KeyOfFiling(f), None)], f.request.requestId;
    FirstFacts(f, w);
    FirstClock(f, w, again.clock);
    var b := Begun(f, w);
    FirstFiling(f, w);
    OneMore([File(f, w)], s[1]);
    assert [File(f, w)] + [s[1]] == s;
    FiledState(f);
    ResubmissionExactly(b, f.actor, id, again);
    OneMore(s, File(f, again));
    OneMore(s + [File(f, again)], Repair(f.actor, id));
    assert s + [File(f, again)] + [Repair(f.actor, id)] == s + [File(f, again), Repair(f.actor, id)];
    ResubmittedIs(b, f, w, again);
    LosingLeavesKeysFree(b, f.actor, id);
    NewSubmissionWrites(Run(s).db, f, again);
  }

  lemma FiledState(f: Filing)
    requires Valid(f)
    ensures InitialState(f.policy.decision) == Some(f.state)
  {
    hide LifecycleAuthority;
  }

  lemma ResubmittedIs(b: Books, f: Filing, w: Writing, again: Writing)
    requires InitialState(f.policy.decision) == Some(f.state)
    ensures Resubmitted(b, FirstStored(f, w), again)
            == Apply(Apply(b, Tamper(KeyOfFiling(f), None)), File(f, again))
  {
    hide Apply;
  }

  lemma NewSubmissionWrites(db: LifecycleDb, f: Filing, w: Writing)
    requires RowsByIdempotency(db.rows, f.actor, f.request.idempotency.key) == {}
    ensures var x := Submit(db, f.actor, f.request, f.policy, f.state, PolicyRef(f.policy), w.envelopeId, w.clock);
            x.value.Some? ==> KeyOfFiling(f) in x.db.rows && KeyOfFiling(f) !in db.rows && x.value.value.version == 1
                              && x.db.rows == db.rows[KeyOfFiling(f) := x.db.rows[KeyOfFiling(f)]]
                              && x.db.rows[KeyOfFiling(f)].columns.idempotencyKey == f.request.idempotency.key
  {
    hide AppendEvidence, RowAllowed, KeyFree, LifecycleAuthority;
  }

  // ---- Somebody else's event mentions the request ----

  function Mention(f: Filing, kind: Id): Payload { OtherPayload(f.actor.actor, kind, Some(f.request.requestId)) }

  /** Submit, then append by the generic writer, in another run of the same actor, an event that
      names the request: the request is out of reach for good. */
  lemma ForeignMention(f: Filing, w: Writing, run: Id, ref: Ref, kind: Id, x: Writing)
    requires Valid(f) && run != f.request.runId
    ensures Load(Run([File(f, w)]).db, f.actor, f.request.requestId).Some?
    ensures var b := Run([File(f, w), OtherEvidence(f.actor, run, ref, Mention(f, kind), x)]);
            HomeOf(f) in b.db.runs && (f.actor.tenant, run) in b.db.runs && Gone(b, f.actor, f.request.requestId)
  {
    hide Run, Careful, Load, Valid, Reachable, Apply, Begun, File, Gone, AtHome, AppendEvidence;
    var s := OtherEvidence(f.actor, run, ref, Mention(f, kind), x);
    FirstFiling(f, w);
    FirstFacts(f, w);
    OneMore([File(f, w)], s);
    assert [File(f, w)] + [s] == [File(f, w), s];
    MentionLands(f, w, run, ref, kind, x);
    var b := Begun(f, w);
    ForeignMentionIsGone(b, f.actor, f.request.requestId, f.actor, run, ref, Mention(f, kind), x);
  }

  lemma MentionLands(f: Filing, w: Writing, run: Id, ref: Ref, kind: Id, x: Writing)
    requires run != f.request.runId
    ensures var v := Apply(Begun(f, w), OtherEvidence(f.actor, run, ref, Mention(f, kind), x));
            HomeOf(f) in v.db.runs && (f.actor.tenant, run) in v.db.runs
    ensures AppendEvidence(Begun(f, w).db.runs, f.actor, run, x.envelopeId, ref, Mention(f, kind), x.clock).Some?
    ensures StoryRuns(Begun(f, w).db.runs, f.actor, f.request.requestId) != {(f.actor.tenant, run)}
  {
    hide StoryRuns, WellFormed;
    BegunRuns(f, w);
    assert HomeOf(f) in {HomeOf(f)};
  }

  // ---- The key columns of the row are overwritten ----

  /** A row that the table admits in place of the row of `f`. */
  predicate Impostor(f: Filing, g: Filing) {
    && Valid(g) && g.actor == f.actor && g.request.requestId == f.request.requestId
    && g.request.runId == f.request.runId
    && (g.request != f.request || g.policy != f.policy)
  }

  lemma OverwritingReaches(f: Filing, w: Writing, g: Filing)
    requires Valid(f) && Impostor(f, g)
    ensures var b, k := Begun(f, w), KeyOfFiling(f);
            var s := [File(f, w), Tamper(k, Some(FirstRow(g, w)))];
            Careful(s) && Run(s) == b.(db := b.db.(rows := map[k := FirstRow(g, w)]), stale := {k})
  {
    hide Run, Careful, LifecycleAuthority;
    var b, k := Begun(f, w), KeyOfFiling(f);
    FirstFiling(f, w);
    OneMore([File(f, w)], Tamper(k, Some(FirstRow(g, w))));
    assert [File(f, w)] + [Tamper(k, Some(FirstRow(g, w)))] == [File(f, w), Tamper(k, Some(FirstRow(g, w)))];
    assert RowAllowed(b.db.runs, k, FirstRow(g, w)) by { ImpostorAllowed(f, w, g); }
    assert KeyFree(b.db.rows, k, g.request.idempotency.key);
    assert b.db.rows[k := FirstRow(g, w)] == map[k := FirstRow(g, w)];
    assert b.stale + {k} == {k};
  }

  lemma ImpostorAllowed(f: Filing, w: Writing, g: Filing)
    requires Valid(f) && Impostor(f, g)
    ensures RowAllowed(Begun(f, w).db.runs, KeyOfFiling(f), FirstRow(g, w))
  {
  }

  /** Submit, then overwrite the row with that of another request or policy under the same ids: the
      load fails, and the rebuild that should repair it is refused and changes nothing. */
  lemma RebuildKeepsKeyColumns(f: Filing, w: Writing, g: Filing)
    requires Valid(f) && Impostor(f, g)
    ensures var s, id := [File(f, w), Tamper(KeyOfFiling(f), Some(FirstRow(g, w)))], f.request.requestId;
            var b := Run(s);
            && Careful(s) && Load(b.db, f.actor, id) == None && Rebuild(b.db, f.actor, id).value == None
            && Run(s + [Repair(f.actor, id)]) == b
  {
    hide Run, Careful, Valid, Reachable, ReplayRun, Rebuild;
    var k, id := KeyOfFiling(f), f.request.requestId;
    var s := [File(f, w), Tamper(k, Some(FirstRow(g, w)))];
    OverwritingReaches(f, w, g);
    FirstFacts(f, w);
    ReachedBy(s);
    RebuildPassesExactly(Run(s).db, f.actor, id);
    OneMore(s, Repair(f.actor, id));
    assert RowView(FirstRow(g, w)).request == g.request && RowView(FirstRow(g, w)).policy == g.policy;
  }

  // ---- The key of a lost row is taken ----

  /** Another request of the same actor under the same idempotency key. */
  predicate SameKey(f: Filing, g: Filing) {
    && Valid(g) && g.actor == f.actor && g.request.requestId != f.request.requestId
    && g.request.idempotency.key == f.request.idempotency.key
  }

  lemma TakingReaches(f: Filing, w: Writing, g: Filing, x: Writing)
    requires Valid(f) && SameKey(f, g) && TruncateToMillis(w.clock) <= x.clock
    ensures var s := [File(f, w), Tamper(KeyOfFiling(f), None), File(g, x)];
            var b := Deleted(f, w);
            var y := Submit(b.db, g.actor, g.request, g.policy, g.state, PolicyRef(g.policy), x.envelopeId, x.clock);
            && Careful(s) && y.value.Some? && Run(s).db == y.db && KeyOfFiling(f) in Run(s).authors
            && Run(s).authors[KeyOfFiling(f)] == f.actor
  {
    hide Run, Careful, Load, Submit, Reachable, SubmissionValid, MaySubmit;
    var b := Deleted(f, w);
    MaySubmitExactly(g.actor, g.request, g.policy, g.state, PolicyRef(g.policy));
    var s := [File(f, w), Tamper(KeyOfFiling(f), None)];
    DeletionReaches(f, w);
    SubmissionPassesExactly(b, g.actor, g.request, g.policy, g.state, PolicyRef(g.policy), x);
    assert RowsByIdempotency(b.db.rows, g.actor, g.request.idempotency.key) == {};
    OneMore(s, File(g, x));
    assert s + [File(g, x)] == [File(f, w), Tamper(KeyOfFiling(f), None), File(g, x)];
  }

  /** Submit, lose the row, submit another request under the same idempotency key: that passes, and
      the rebuild of the first request is refused. */
  lemma RebuildFindsKeyTaken(f: Filing, w: Writing, g: Filing, x: Writing)
    requires Valid(f) && SameKey(f, g) && TruncateToMillis(w.clock) <= x.clock
    ensures var s := [File(f, w), Tamper(KeyOfFiling(f), None), File(g, x)];
            && Careful(s) && KeyOfFiling(g) in Run(s).db.rows && KeyOfFiling(f) !in Run(s).db.rows
            && ReplayRun(Run(s).db.runs, f.actor, f.request.requestId).Some?
            && Rebuild(Run(s).db, f.actor, f.request.requestId).value == None
  {
    hide Run, Careful, Valid, Reachable, ReplayRun, Rebuild, Submit, Load;
    var s, id := [File(f, w), Tamper(KeyOfFiling(f), None), File(g, x)], f.request.requestId;
    var b := Deleted(f, w);
    TakingReaches(f, w, g, x);
    DeletionReaches(f, w);
    FirstFacts(f, w);
    assert RowsByIdempotency(b.db.rows, g.actor, g.request.idempotency.key) == {};
    NewSubmissionWrites(b.db, g, x);
    FirstReplayStays(f, w, g, x);
    ReachedBy(s);
    RebuildPassesExactly(Run(s).db, f.actor, id);
    assert Run(s).db.rows[KeyOfFiling(g)].columns.idempotencyKey == f.request.idempotency.key;
  }

  lemma FirstReplayStays(f: Filing, w: Writing, g: Filing, x: Writing)
    requires Valid(f) && SameKey(f, g)
    requires Submit(Deleted(f, w).db, g.actor, g.request, g.policy, g.state, PolicyRef(g.policy), x.envelopeId,
                    x.clock).value.Some?
    ensures var y := Submit(Deleted(f, w).db, g.actor, g.request, g.policy, g.state, PolicyRef(g.policy),
                            x.envelopeId, x.clock);
            ReplayRun(y.db.runs, f.actor, f.request.requestId)
            == ReplayRun(Begun(f, w).db.runs, f.actor, f.request.requestId)
  {
    hide Run, Careful, Reachable, ReplayRun, Load, AppendEvidence, RowAllowed, KeyFree, StoryRuns, Appended;
    var b, home := Begun(f, w), HomeOf(f);
    var payload := SubmissionPayload(g.actor, g.request, g.policy, g.state);
    var y := AppendEvidence(b.db.runs, g.actor, g.request.runId, x.envelopeId, PolicyRef(g.policy), payload, x.clock);
    assert RowsByIdempotency(Deleted(f, w).db.rows, g.actor, g.request.idempotency.key) == {};
    BegunRuns(f, w);
    AppendEvidenceAppends(b.db.runs, g.actor, g.request.runId, x.envelopeId, PolicyRef(g.policy), payload, x.clock);
    ReplayUnaffected(b.db.runs, y.value.0, HomeOf(g), y.value.1, f.actor, f.request.requestId, home);
  }

  lemma BegunRuns(f: Filing, w: Writing)
    ensures var runs := Begun(f, w).db.runs;
            WellFormed(runs[HomeOf(f)]) && StoryRuns(runs, f.actor, f.request.requestId) == {HomeOf(f)}
  {
    var runs := Begun(f, w).db.runs;
    assert runs[HomeOf(f)].events == [FirstEvent(f, w)];
    assert Mentions(runs[HomeOf(f)].events[0].payload, f.request.requestId);
  }

  // ---- An approval is accepted twice ----

  /** An accepted approval of a request that has none, with its story at home. */
  lemma ApprovedAtHome(b: Books, actor: ActorContext, id: Id, a: Approval, w: Writing, clock: int)
    requires Reachable(b) && Load(b.db, actor, id).Some? && AtHome(b.db.runs, actor, Load(b.db, actor, id).value)
    requires var s := Load(b.db, actor, id).value;
             && s.state == ApprovalRequired && s.approval.None? && ParsedApproval(actor, a)
             && Approves(a, s.request, s.policy) && ClockPasses(b.db.runs, (actor.tenant, s.request.runId), w.clock)
    requires TruncateToMillis(w.clock) <= clock
    ensures var s := Load(b.db, actor, id).value;
            var v := Apply(b, AcceptApproval(actor, id, s.version, a, PolicyRef(s.policy), w));
            && Reachable(v) && Load(v.db, actor, id).Some?
            && var t := Load(v.db, actor, id).value;
               && t == s.(state := Approved, version := s.version + 1, approval := Some(a), evidence := t.evidence)
               && AtHome(v.db.runs, actor, t) && ClockPasses(v.db.runs, (actor.tenant, s.request.runId), clock)
  {
    hide Reachable, Load, Sound, RowAllowed, LifecycleAuthority, StoryRuns, ReplayRun, ClockPasses, AppendEvidence,
         Appended, Approves, WellFormed;
    var s := Load(b.db, actor, id).value;
    var step := AcceptApproval(actor, id, s.version, a, PolicyRef(s.policy), w);
    ApprovalPassesExactly(b, actor, id, s.version, a, PolicyRef(s.policy), w);
    ApprovalLoadsBack(b, actor, id, s.version, a, PolicyRef(s.policy), w);
    NextReachable(b, step);
    ReachableSound(b);
    SoundRuns(b.db);
    LoadMeans(b.db, actor, id);
    AppendEvidenceAppends(b.db.runs, actor, s.request.runId, w.envelopeId, PolicyRef(s.policy), ApprovalPayload(s, a),
                          w.clock);
    var y := AppendEvidence(b.db.runs, actor, s.request.runId, w.envelopeId, PolicyRef(s.policy),
                            ApprovalPayload(s, a), w.clock);
    AppendedClock(b.db.runs, actor, s.request.runId, PolicyRef(s.policy), ApprovalPayload(s, a), w, clock);
    StoryRunsAppended(b.db.runs, y.value.0, (actor.tenant, s.request.runId), y.value.1, actor, id);
  }

  /** Submit, approve, lose the row, submit again, rebuild: the request asks for approval although it
      has one.  The second approval is accepted, and the request is out of reach for good. */
  lemma ApprovedTwice(f: Filing, w: Writing, a: Approval, x: Writing, again: Writing, c: Approval, y: Writing)
    requires Valid(f) && ParsedApproval(f.actor, a) && Approves(a, f.request, f.policy)
    requires ParsedApproval(f.actor, c) && Approves(c, f.request, f.policy)
    requires TruncateToMillis(w.clock) <= x.clock && TruncateToMillis(x.clock) <= again.clock
             && TruncateToMillis(again.clock) <= y.clock
    ensures var id := f.request.requestId;
            var s := [File(f, w), AcceptApproval(f.actor, id, 1, a, PolicyRef(f.policy), x),
                      Tamper(KeyOfFiling(f), None), File(f, again), Repair(f.actor, id)];
            var b, last := Run(s), AcceptApproval(f.actor, id, 3, c, PolicyRef(f.policy), y);
            && Load(b.db, f.actor, id).Some? && Load(b.db, f.actor, id).value.state == ApprovalRequired
            && Load(b.db, f.actor, id).value.approval == Some(a) && Load(b.db, f.actor, id).value.version == 3
            && Approve(b.db, f.actor, id, 3, c, PolicyRef(f.policy), y.envelopeId, y.clock).value.Some?
            && Gone(Run(s + [last]), f.actor, id)
  {
    hide Run, Load, Approve, Reachable, AtHome, Apply, Begun, ClockPasses, SubmissionValid, Gone, Careful, Reckless,
         Approves, Resubmitted;
    var id, b := f.request.requestId, Begun(f, w);
    var approve := AcceptApproval(f.actor, id, 1, a, PolicyRef(f.policy), x);
    FirstFacts(f, w);
    FirstFiling(f, w);
    FirstClock(f, w, x.clock);
    FiledState(f);
    assert f.state == ApprovalRequired by { NeedsApproval(f, a); }
    ApprovedAtHome(b, f.actor, id, a, x, again.clock);
    var v := Apply(b, approve);
    var t := Load(v.db, f.actor, id).value;
    ApprovedTwiceIsGone(v, f.actor, id, again, c, y);
    ResubmissionExactly(v, f.actor, id, again);
    SixSteps(f, w, approve, again, id, AcceptApproval(f.actor, id, 3, c, PolicyRef(f.policy), y));
    ResubmittedAs(v, f, t, again);
  }

  lemma NeedsApproval(f: Filing, a: Approval)
    requires InitialState(f.policy.decision) == Some(f.state) && Approves(a, f.request, f.policy)
    ensures f.state == ApprovalRequired
  {
  }

  lemma ResubmittedAs(b: Books, f: Filing, s: Stored, again: Writing)
    requires InitialState(f.policy.decision) == Some(f.state)
    requires s.actor == f.actor && s.request == f.request && s.policy == f.policy
    ensures Resubmitted(b, s, again) == Apply(Apply(b, Tamper(KeyOfFiling(f), None)), File(f, again))
  {
    hide Apply;
  }

  lemma SixSteps(f: Filing, w: Writing, approve: Step, again: Writing, id: Id, last: Step)
    ensures var s := [File(f, w), approve, Tamper(KeyOfFiling(f), None), File(f, again), Repair(f.actor, id)];
            var u := Apply(Apply(Apply(Run([File(f, w)]), approve), Tamper(KeyOfFiling(f), None)), File(f, again));
            Run(s) == Apply(u, Repair(f.actor, id)) && Run(s + [last]) == Apply(Run(s), last)
  {
    hide Run, Apply, Careful, Reckless, File;
    var lose := Tamper(KeyOfFiling(f), None);
    OneMore([File(f, w)], approve);
    OneMore([File(f, w), approve], lose);
    OneMore([File(f, w), approve, lose], File(f, again));
    OneMore([File(f, w), approve, lose, File(f, again)], Repair(f.actor, id));
    OneMore([File(f, w), approve, lose, File(f, again), Repair(f.actor, id)], last);
    assert [File(f, w)] + [approve] == [File(f, w), approve];
    assert [File(f, w), approve] + [lose] == [File(f, w), approve, lose];
    assert [File(f, w), approve, lose] + [File(f, again)] == [File(f, w), approve, lose, File(f, again)];
    assert [File(f, w), approve, lose, File(f, again)] + [Repair(f.actor, id)]
           == [File(f, w), approve, lose, File(f, again), Repair(f.actor, id)];
  }

  // ---- A grant that nobody approved ----

  lemma AdoptedRun(f: Filing, w: Writing, payload: Payload, x: Writing)
    ensures Run([File(f, w), OtherEvidence(f.actor, f.request.runId, PolicyRef(f.policy), payload, x),
                 Repair(f.actor, f.request.requestId)])
            == Adopted(Run([File(f, w)]), f.actor, f.request.requestId, f.actor, f.request.runId, PolicyRef(f.policy),
                       payload, x)
  {
    hide Run, Apply, Careful, Reckless, File;
    var s, r := OtherEvidence(f.actor, f.request.runId, PolicyRef(f.policy), payload, x),
        Repair(f.actor, f.request.requestId);
    OneMore([File(f, w)], s);
    OneMore([File(f, w), s], r);
    assert [File(f, w)] + [s] == [File(f, w), s] && [File(f, w), s] + [r] == [File(f, w), s, r];
  }

  lemma FirstRunTakes(f: Filing, w: Writing, payload: Payload, x: Writing)
    requires TruncateToMillis(w.clock) <= x.clock
    ensures var y := AppendEvidence(Begun(f, w).db.runs, f.actor, f.request.runId, x.envelopeId, PolicyRef(f.policy),
                                    payload, x.clock);
            y.Some? && y.value.1.payload == payload && y.value.1.policyRef == PolicyRef(f.policy)
  {
  }

  /** Submit, let somebody append the event of a grant that fits the request and names no approval, and
      rebuild: the request loads with that grant and without an approval, whatever the policy asks. */
  lemma ForgedGrant(f: Filing, w: Writing, g: Grant, x: Writing)
    requires Valid(f) && ParsedGrant(f.actor, g) && Permits(g, f.actor, f.request, f.policy, None)
    requires TruncateToMillis(w.clock) <= x.clock
    ensures var id, payload := f.request.requestId, GrantPayload(FirstStored(f, w), g);
            var b := Run([File(f, w), OtherEvidence(f.actor, f.request.runId, PolicyRef(f.policy), payload, x),
                          Repair(f.actor, id)]);
            && Load(b.db, f.actor, id).Some?
            && var s := Load(b.db, f.actor, id).value;
               s.policy == f.policy && s.state == GrantIssued && s.grant == Some(g) && s.approval == None
  {
    hide Run, Load, Reachable, AtHome, Begun, SubmissionValid, Adopted, AppendEvidence, Permits, GrantFits;
    var id, b, payload := f.request.requestId, Begun(f, w), GrantPayload(FirstStored(f, w), g);
    FirstFacts(f, w);
    FirstFiling(f, w);
    FirstRunTakes(f, w, payload, x);
    AdoptedRun(f, w, payload, x);
    HomeIs(b.db.runs, f, w);
    FiledAuthority(f);
    PermitsExactly(g, f.actor, f.request, f.policy, None);
    AdoptedExactly(b, f.actor, id, f.actor, f.request.runId, PolicyRef(f.policy), payload, x);
  }

  lemma HomeIs(runs: map<RunKey, RunLog>, f: Filing, w: Writing)
    requires AtHome(runs, f.actor, FirstStored(f, w))
    ensures StoryRuns(runs, f.actor, f.request.requestId) == {(f.actor.tenant, f.request.runId)}
  {
  }

  lemma FiledAuthority(f: Filing)
    requires Valid(f)
    ensures LifecycleAuthority(f.actor, f.request, f.policy, None, None)
            && f.policy.decision != Allow && f.request.requestId == f.policy.requestId
  {
  }

  /** Submit, let somebody append a decision event of the same policy that authorises outright, and
      rebuild: the request loads in `policy_authorized`, and a grant that fits is recorded for it
      without any approval. */
  lemma ForgedDecision(f: Filing, w: Writing, x: Writing, g: Grant, y: Writing)
    requires Valid(f) && ParsedGrant(f.actor, g) && Permits(g, f.actor, f.request, f.policy, None)
    requires TruncateToMillis(w.clock) <= x.clock && TruncateToMillis(x.clock) <= y.clock
    ensures var id, payload := f.request.requestId, SubmissionPayload(f.actor, f.request, f.policy, PolicyAuthorized);
            var b := Run([File(f, w), OtherEvidence(f.actor, f.request.runId, PolicyRef(f.policy), payload, x),
                          Repair(f.actor, id)]);
            var z := IssueGrant(b.db, f.actor, id, 2, g, PolicyRef(f.policy), y.envelopeId, y.clock);
            && Load(b.db, f.actor, id).Some? && Load(b.db, f.actor, id).value.state == PolicyAuthorized
            && z.value.Some? && z.value.value.approval == None && z.value.value.grant == Some(g)
            && Load(z.db, f.actor, id) == z.value
  {
    hide Run, Load, Reachable, AtHome, Begun, SubmissionValid, Adopted, AppendEvidence, Permits, IssueGrant,
         ClockPasses;
    var id, b, payload := f.request.requestId, Begun(f, w),
        SubmissionPayload(f.actor, f.request, f.policy, PolicyAuthorized);
    FirstFacts(f, w);
    FirstFiling(f, w);
    FirstRunTakes(f, w, payload, x);
    AdoptedRun(f, w, payload, x);
    HomeIs(b.db.runs, f, w);
    FiledAuthority(f);
    AdoptedExactly(b, f.actor, id, f.actor, f.request.runId, PolicyRef(f.policy), payload, x);
    AdoptedGrant(f, w, payload, x, g, y);
  }

  /** The books after such an event are reachable, take the next clock, and have their story at home. */
  lemma AdoptedGrant(f: Filing, w: Writing, payload: Payload, x: Writing, g: Grant, y: Writing)
    requires Valid(f) && ParsedGrant(f.actor, g) && Permits(g, f.actor, f.request, f.policy, None)
    requires TruncateToMillis(w.clock) <= x.clock && TruncateToMillis(x.clock) <= y.clock
    requires Mentions(payload, f.request.requestId)
    requires var b := Adopted(Begun(f, w), f.actor, f.request.requestId, f.actor, f.request.runId,
                              PolicyRef(f.policy), payload, x);
             && Load(b.db, f.actor, f.request.requestId).Some?
             && var s := Load(b.db, f.actor, f.request.requestId).value;
                s.request == f.request && s.policy == f.policy && s.state == PolicyAuthorized && s.approval == None
                  && s.version == 2
    ensures var b := Adopted(Begun(f, w), f.actor, f.request.requestId, f.actor, f.request.runId, PolicyRef(f.policy),
                             payload, x);
            var z := IssueGrant(b.db, f.actor, f.request.requestId, 2, g, PolicyRef(f.policy), y.envelopeId, y.clock);
            z.value.Some? && z.value.value.approval == None && z.value.value.grant == Some(g)
            && Load(z.db, f.actor, f.request.requestId) == z.value
  {
    hide Run, Load, Reachable, Begun, AppendEvidence, Permits, ClockPasses, LifecycleAuthority, WriteGrant, Rebuild,
         StoryRuns, Harmless, MentionedKeys, SubmissionValid;
    var id, b := f.request.requestId, Begun(f, w);
    var step := OtherEvidence(f.actor, f.request.runId, PolicyRef(f.policy), payload, x);
    FirstFacts(f, w);
    FirstRunTakes(f, w, payload, x);
    var v := Apply(b, step);
    var u := Apply(v, Repair(f.actor, id));
    NextReachable(b, step);
    NextReachable(v, Repair(f.actor, id));
    RepairKeepsRuns(v, f.actor, id);
    AppendedClock(b.db.runs, f.actor, f.request.runId, PolicyRef(f.policy), payload, x, y.clock);
    StaysHome(f, w, payload, x);
    GrantPassesExactly(u, f.actor, id, 2, g, PolicyRef(f.policy), y);
    GrantLoadsBack(u, f.actor, id, 2, g, PolicyRef(f.policy), y);
    GrantAnswer(u.db, f.actor, id, 2, g, PolicyRef(f.policy), y);
  }

  lemma GrantAnswer(db: LifecycleDb, actor: ActorContext, id: Id, expected: nat, g: Grant, ref: Ref, w: Writing)
    ensures var z := IssueGrant(db, actor, id, expected, g, ref, w.envelopeId, w.clock);
            z.value.Some? ==> Load(db, actor, id).Some? && z.value.value.approval == Load(db, actor, id).value.approval
  {
    hide Load, LifecycleAuthority, AppendEvidence, RowAllowed;
  }

  lemma StaysHome(f: Filing, w: Writing, payload: Payload, x: Writing)
    requires TruncateToMillis(w.clock) <= x.clock && Mentions(payload, f.request.requestId)
    ensures var v := Apply(Begun(f, w), OtherEvidence(f.actor, f.request.runId, PolicyRef(f.policy), payload, x));
            StoryRuns(v.db.runs, f.actor, f.request.requestId) == {HomeOf(f)}
  {
    hide AppendEvidence, Appended, StoryRuns, WellFormed, Mentions, Harmless, MentionedKeys;
    FirstRunTakes(f, w, payload, x);
    BegunRuns(f, w);
    var runs := Begun(f, w).db.runs;
    AppendEvidenceAppends(runs, f.actor, f.request.runId, x.envelopeId, PolicyRef(f.policy), payload, x.clock);
    var y := AppendEvidence(runs, f.actor, f.request.runId, x.envelopeId, PolicyRef(f.policy), payload, x.clock).value;
    StoryRunsAppended(runs, y.0, HomeOf(f), y.1, f.actor, f.request.requestId);
  }

  // ---- Concrete runs ----

  const FILED := Filing(ACTOR, REQUEST, POLICY, ApprovalRequired)

  /** The sample request with another idempotency key, or under another id, and its policy. */
  function Changed(r: Request): Filing {
    Filing(ACTOR, r, POLICY.(requestId := r.requestId, requestDigest := OfRequest(r)), ApprovalRequired)
  }

  const RENAMED := Changed(REQUEST.(idempotency := Idempotency("t", "other", "tool")))
  const SECOND := Changed(REQUEST.(requestId := "r2"))

  lemma SamplesAreValid()
    ensures Valid(FILED) && Impostor(FILED, RENAMED) && SameKey(FILED, SECOND)
  {
  }

  /** Each of these runs happens. */
  lemma SampleDamage()
    ensures var w, k, id := Writing("e0", 0), ("t", "r"), "r";
            && Load(Run([File(FILED, w), Tamper(k, None), File(FILED, w)]).db, ACTOR, id) == None
            && Rebuild(Run([File(FILED, w), Tamper(k, Some(FirstRow(RENAMED, w)))]).db, ACTOR, id).value == None
            && Rebuild(Run([File(FILED, w), Tamper(k, None), File(SECOND, w)]).db, ACTOR, id).value == None
  {
    hide Run, Careful, Valid, Impostor, SameKey, Load, Rebuild, Submit, ReplayRun, File, FirstRow;
    var w := Writing("e0", 0);
    SamplesAreValid();
    assert KeyOfFiling(FILED) == ("t", "r");
    assert TruncateToMillis(0) == 0;
    ResubmissionAfterLoss(FILED, w, w);
    assert [File(FILED, w), Tamper(("t", "r"), None)] + [File(FILED, w)]
           == [File(FILED, w), Tamper(("t", "r"), None), File(FILED, w)];
    RebuildKeepsKeyColumns(FILED, w, RENAMED);
    RebuildFindsKeyTaken(FILED, w, SECOND, w);
  }

  lemma SampleMention()
    ensures var w, x := Writing("e0", 0), Writing("e1", 0);
            && Load(Run([File(FILED, w)]).db, ACTOR, "r").Some?
            && Gone(Run([File(FILED, w),
                         OtherEvidence(ACTOR, "elsewhere", PolicyRef(POLICY), Mention(FILED, "note"), x)]), ACTOR,
                         "r")
  {
    hide Run, Valid, Impostor, SameKey, Load, File, Mention, Gone;
    SamplesAreValid();
    ForeignMention(FILED, Writing("e0", 0), "elsewhere", PolicyRef(POLICY), "note", Writing("e1", 0));
  }

  const CONSENT := Approval("t", "a", "r", OfRequest(REQUEST), "d", OfPolicy(POLICY), true, false, true, [], 0, 1000)

  lemma ConsentFits()
    ensures ParsedApproval(ACTOR, CONSENT) && Approves(CONSENT, REQUEST, POLICY)
  {
  }

  /** The same record, but a rejection. */
  const REFUSAL := CONSENT.(approved := false)

  /** The approval is accepted, and the rejection is not. */
  lemma SampleRejection()
    ensures var b := Run([File(FILED, Writing("e0", 0))]);
            && Approve(b.db, ACTOR, "r", 1, CONSENT, PolicyRef(POLICY), "e1", 0).value.Some?
            && Approve(b.db, ACTOR, "r", 1, REFUSAL, PolicyRef(POLICY), "e1", 0) == Answer(b.db, None)
  {
    hide Run, Valid, Impostor, SameKey, Load, File, Approve, Approves, StoryRuns, ReplayRun, Reachable;
    SamplesAreValid();
    ConsentFits();
    var w, x := Writing("e0", 0), Writing("e1", 0);
    FirstFacts(FILED, w);
    FirstFiling(FILED, w);
    var b := Begun(FILED, w);
    AcceptedApprovalsApprove(b, ACTOR, "r", 1, REFUSAL, PolicyRef(POLICY), x);
    ApprovalPassesExactly(b, ACTOR, "r", 1, CONSENT, PolicyRef(POLICY), x);
    assert Load(b.db, ACTOR, "r").value == FirstStored(FILED, w);
    assert ClockPasses(b.db.runs, ("t", "run"), 0) by { FirstClock(FILED, w, 0); }
  }

  /** An approval accepted twice. */
  lemma SampleApprovals()
    ensures var w, id := Writing("e0", 0), "r";
            var s := [File(FILED, w), AcceptApproval(ACTOR, id, 1, CONSENT, PolicyRef(POLICY), w),
                      Tamper(("t", "r"), None), File(FILED, w), Repair(ACTOR, id)];
            && Approve(Run(s).db, ACTOR, id, 3, CONSENT, PolicyRef(POLICY), "e0", 0).value.Some?
            && Gone(Run(s + [AcceptApproval(ACTOR, id, 3, CONSENT, PolicyRef(POLICY), w)]), ACTOR, id)
  {
    hide Run, Valid, Impostor, SameKey, Load, File, Gone, Approve, Approves;
    SamplesAreValid();
    ConsentFits();
    assert KeyOfFiling(FILED) == ("t", "r");
    assert TruncateToMillis(0) == 0;
    var w := Writing("e0", 0);
    ApprovedTwice(FILED, w, CONSENT, w, w, CONSENT, w);
  }

  const UNAPPROVED := Grant("t", "g", "alice", "run", "r", OfRequest(REQUEST), "tool", "1", "d", OfPolicy(POLICY), [],
                            [], "", 0, 1000, Idempotency("t", "key", "tool"), "n")

  lemma UnapprovedFits()
    ensures ParsedGrant(ACTOR, UNAPPROVED) && Permits(UNAPPROVED, ACTOR, REQUEST, POLICY, None)
  {
  }

  /** A loaded grant under a policy that requires approval, and no approval. */
  lemma SampleForgedGrant()
    ensures var w := Writing("e0", 0);
            var payload := GrantPayload(FirstStored(FILED, w), UNAPPROVED);
            var b := Run([File(FILED, w), OtherEvidence(ACTOR, "run", PolicyRef(POLICY), payload, w),
                          Repair(ACTOR, "r")]);
            && POLICY.decision == RequireApproval && Load(b.db, ACTOR, "r").Some?
            && Load(b.db, ACTOR, "r").value.grant == Some(UNAPPROVED) && Load(b.db, ACTOR, "r").value.approval == None
  {
    hide Run, Valid, Impostor, SameKey, Load, File, Permits, GrantPayload;
    SamplesAreValid();
    UnapprovedFits();
    assert TruncateToMillis(0) == 0;
    ForgedGrant(FILED, Writing("e0", 0), UNAPPROVED, Writing("e0", 0));
  }
}
