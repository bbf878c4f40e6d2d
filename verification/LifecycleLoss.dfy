/** Requests that can never be loaded again, and the calls after which they cannot. */
module LifecycleLoss {
  import opened Records
  import opened EvidenceChain
  import opened EffectStore
  import opened LifecycleStore
  import opened LifecycleExactly
  import opened LifecycleInvariant
  import opened LifecycleTheorems

  // ---- One step, one event ----

  /** Every step leaves the evidence alone or appends one event. */
  ghost predicate AppendsOne(runs: map<RunKey, RunLog>, next: map<RunKey, RunLog>) {
    next == runs || exists r, e :: Appended(runs, next, r, e)
  }

  lemma AppendIsOne(runs: map<RunKey, RunLog>, actor: ActorContext, run: Id, ref: Ref, payload: Payload, w: Writing)
    requires forall r | r in runs :: WellFormed(runs[r])
    ensures var x := AppendEvidence(runs, actor, run, w.envelopeId, ref, payload, w.clock);
            x.Some? ==> AppendsOne(runs, x.value.0)
  {
    hide AppendEvidence, Appended, WellFormed;
    AppendEvidenceAppends(runs, actor, run, w.envelopeId, ref, payload, w.clock);
  }

  lemma StepAppendsOne(b: Books, s: Step)
    requires forall r | r in b.db.runs :: WellFormed(b.db.runs[r])
    ensures AppendsOne(b.db.runs, Apply(b, s).db.runs)
  {
    hide AppendEvidence, RowAllowed, KeyFree, ReplayRun, SubmissionValid, LifecycleAuthority, Load, RowsByIdempotency,
         AppendsOne, WellFormed, Harmless, MentionedKeys;
    NoneIsOne(b.db.runs);
    match s
    case Submission(actor, q, p, state, _, w) =>
      AppendIsOne(b.db.runs, actor, q.runId, PolicyRef(p), SubmissionPayload(actor, q, p, state), w);
    case AcceptApproval(actor, id, _, a, _, w) =>
      var x := Load(b.db, actor, id);
      if x.Some? {
        var c := x.value;
        AppendIsOne(b.db.runs, c.actor, c.request.runId, PolicyRef(c.policy), ApprovalPayload(c, a), w);
      }
    case RecordGrant(actor, id, _, g, _, w) =>
      var x := Load(b.db, actor, id);
      if x.Some? {
        var c := x.value;
        AppendIsOne(b.db.runs, c.actor, c.request.runId, PolicyRef(c.policy), GrantPayload(c, g), w);
      }
    case OtherEvidence(actor, run, ref, payload, w) => AppendIsOne(b.db.runs, actor, run, ref, payload, w);
    case Tamper(_, _) =>
    case Repair(_, _) =>
  }

  lemma NoneIsOne(runs: map<RunKey, RunLog>)
    ensures AppendsOne(runs, runs)
  {
  }

  // ---- Dead stories ----

  /** The first event is no submission of the actor, or some later one was refused by the replay loop. */
  predicate StoryDead(story: seq<Event>, actor: ActorContext, id: Id) {
    story != []
    && (!FirstOk(actor, id, story[0])
        || FoldEvents(story[1..], Folded(None, None, story[0].payload.next), actor, story[0].payload.request,
                      story[0].payload.policy) == None)
  }

  /** The request is mentioned in two runs, or its story in one of them is dead. */
  ghost predicate Dead(runs: map<RunKey, RunLog>, actor: ActorContext, id: Id) {
    || (exists q, r :: q in StoryRuns(runs, actor, id) && r in StoryRuns(runs, actor, id) && q != r)
    || (exists r :: r in StoryRuns(runs, actor, id) && StoryDead(Story(EventsIn(runs, r), id), actor, id))
  }

  lemma DeadIsNotReplayed(runs: map<RunKey, RunLog>, actor: ActorContext, id: Id)
    requires Dead(runs, actor, id)
    ensures ReplayRun(runs, actor, id) == None
  {
    hide StoryRuns, FirstOk, FoldEvents, LifecycleAuthority;
    if q, r :| q in StoryRuns(runs, actor, id) && r in StoryRuns(runs, actor, id) && q != r {
      TwoStoryRuns(runs, actor, id, q, r);
    } else {
      var r :| r in StoryRuns(runs, actor, id) && StoryDead(Story(EventsIn(runs, r), id), actor, id);
      forall q | StoryRuns(runs, actor, id) == {q} ensures q == r { assert r in {q}; }
      if StoryRuns(runs, actor, id) == {r} {
        ReplayAt(runs, actor, id, r);
      }
    }
  }

  lemma StoryDeadStays(story: seq<Event>, e: Event, actor: ActorContext, id: Id)
    requires StoryDead(story, actor, id)
    ensures StoryDead(story + [e], actor, id)
  {
    hide FirstOk, FoldStep;
    assert (story + [e])[0] == story[0] && (story + [e])[1..] == story[1..] + [e];
    if FirstOk(actor, id, story[0]) {
      FirstNamesRequest(actor, id, story[0]);
      var first := story[0].payload;
      FoldAppended(story[1..], e, Folded(None, None, first.next), actor, first.request, first.policy);
    }
  }

  lemma DeadStays(runs: map<RunKey, RunLog>, next: map<RunKey, RunLog>, actor: ActorContext, id: Id)
    requires Dead(runs, actor, id) && AppendsOne(runs, next)
    ensures Dead(next, actor, id)
  {
    hide StoryRuns, StoryDead, Story, Appended;
    if next != runs {
      var r, e :| Appended(runs, next, r, e);
      StoryRunsAppended(runs, next, r, e, actor, id);
      if q, p :| q in StoryRuns(runs, actor, id) && p in StoryRuns(runs, actor, id) && q != p {
        assert q in StoryRuns(next, actor, id) && p in StoryRuns(next, actor, id);
      } else {
        var q :| q in StoryRuns(runs, actor, id) && StoryDead(Story(EventsIn(runs, q), id), actor, id);
        AppendedFacts(runs, next, r, e);
        StoryAppended(EventsIn(runs, r), e, id);
        StoryDeadStays(Story(EventsIn(runs, q), id), e, actor, id);
        assert Story(EventsIn(runs, q), id) + [] == Story(EventsIn(runs, q), id);
        assert q != r ==> EventsIn(next, q) == EventsIn(runs, q);
        assert q in StoryRuns(next, actor, id) && StoryDead(Story(EventsIn(next, q), id), actor, id);
      }
    }
  }

  /** The books after more steps. */
  ghost function After(b: Books, steps: seq<Step>): Books
    decreases |steps|
  {
    if steps == [] then b else Apply(After(b, steps[..|steps| - 1]), steps[|steps| - 1])
  }

  lemma NextReachable(b: Books, s: Step)
    requires Reachable(b)
    ensures Reachable(Apply(b, s))
  {
    hide Apply;
    var schedule :| Run(schedule) == b;
    assert (schedule + [s])[..|schedule + [s]| - 1] == schedule;
    assert Run(schedule + [s]) == Apply(b, s);
  }

  /** Nothing brings a dead request back: no call, no other evidence, no tampering, no rebuild. */
  lemma {:induction false} DeadForGood(b: Books, steps: seq<Step>, actor: ActorContext, id: Id)
    requires Reachable(b) && Dead(b.db.runs, actor, id)
    ensures var v := After(b, steps);
            && Reachable(v) && Dead(v.db.runs, actor, id)
            && Load(v.db, actor, id) == None && Rebuild(v.db, actor, id).value == None
    decreases |steps|
  {
    hide Reachable, Dead, Apply, ReplayRun;
    if steps != [] {
      var u, s := After(b, steps[..|steps| - 1]), steps[|steps| - 1];
      DeadForGood(b, steps[..|steps| - 1], actor, id);
      ReachableSound(u);
      SoundRuns(u.db);
      StepAppendsOne(u, s);
      DeadStays(u.db.runs, Apply(u, s).db.runs, actor, id);
      NextReachable(u, s);
    }
    DeadIsNotReplayed(After(b, steps).db.runs, actor, id);
  }

  /** The request is out of reach from here on. */
  ghost predicate Gone(b: Books, actor: ActorContext, id: Id) {
    forall steps :: Load(After(b, steps).db, actor, id) == None && Rebuild(After(b, steps).db, actor, id).value == None
  }

  lemma DeadIsGone(b: Books, actor: ActorContext, id: Id)
    requires Reachable(b) && Dead(b.db.runs, actor, id)
    ensures Gone(b, actor, id)
  {
    hide Reachable, Dead, Load, Rebuild, After;
    forall steps
      ensures Load(After(b, steps).db, actor, id) == None && Rebuild(After(b, steps).db, actor, id).value == None {
      DeadForGood(b, steps, actor, id);
    }
  }

  // ---- What kills a request ----

  lemma TwoRunsDead(runs: map<RunKey, RunLog>, next: map<RunKey, RunLog>, r: RunKey, e: Event, actor: ActorContext,
                    id: Id)
    requires Appended(runs, next, r, e) && ReplayRun(runs, actor, id).Some?
    requires Mentions(e.payload, id) && r.0 == actor.tenant && next[r].owner == actor.actor
    requires StoryRuns(runs, actor, id) != {r}
    ensures Dead(next, actor, id)
  {
    hide StoryRuns, Mentions, Appended, StoryDead;
    ReplayedFacts(runs, actor, id);
    var q :| StoryRuns(runs, actor, id) == {q};
    StoryRunsAppended(runs, next, r, e, actor, id);
    assert q in StoryRuns(next, actor, id) && r in StoryRuns(next, actor, id);
  }

  /** An event at home that the replay loop refuses. */
  lemma RefusedDead(runs: map<RunKey, RunLog>, next: map<RunKey, RunLog>, r: RunKey, e: Event, actor: ActorContext,
                    id: Id)
    requires Appended(runs, next, r, e) && ReplayRun(runs, actor, id).Some? && StoryRuns(runs, actor, id) == {r}
    requires WellFormed(runs[r]) && InStory(e, id)
    requires var s := ReplayRun(runs, actor, id).value;
             FoldStep(Folded(s.approval, s.grant, s.state), e, actor, s.request, s.policy) == None
    ensures Dead(next, actor, id)
  {
    hide StoryRuns, Story, Appended, WellFormed, FoldStep, FirstOk, Mentions;
    ReplayedFacts(runs, actor, id);
    var s, story := ReplayRun(runs, actor, id).value, Story(runs[r].events, id);
    ReplayExtended(runs, next, e, actor, id, r);
    RefusedStory(story, actor, id, s, e);
    AppendedFacts(runs, next, r, e);
    StoryAppended(runs[r].events, e, id);
    assert r in StoryRuns(next, actor, id) && Story(EventsIn(next, r), id) == story + [e];
  }

  lemma RefusedStory(story: seq<Event>, actor: ActorContext, id: Id, s: Stored, e: Event)
    requires ReplayStory(story, actor, id) == Some(s)
    requires FoldStep(Folded(s.approval, s.grant, s.state), e, actor, s.request, s.policy) == None
    ensures StoryDead(story + [e], actor, id)
  {
    hide FoldStep, LifecycleAuthority, FirstOk;
    assert (story + [e])[0] == story[0] && (story + [e])[1..] == story[1..] + [e];
    FirstNamesRequest(actor, id, story[0]);
    var first := story[0].payload;
    FoldAppended(story[1..], e, Folded(None, None, first.next), actor, first.request, first.policy);
  }

  /** An accepted approval that does not load back puts the request out of reach for good. */
  lemma LostApprovalIsGone(b: Books, actor: ActorContext, id: Id, expected: nat, a: Approval, ref: Ref, w: Writing)
    requires Reachable(b) && Approve(b.db, actor, id, expected, a, ref, w.envelopeId, w.clock).value.Some?
    requires Load(Approve(b.db, actor, id, expected, a, ref, w.envelopeId, w.clock).db, actor, id)
             != Approve(b.db, actor, id, expected, a, ref, w.envelopeId, w.clock).value
    ensures Gone(Apply(b, AcceptApproval(actor, id, expected, a, ref, w)), actor, id)
  {
    hide Reachable, Sound, Load, AtHome, WriteApproval, LifecycleAuthority, Gone, Dead;
    var v := Apply(b, AcceptApproval(actor, id, expected, a, ref, w));
    ApprovalLoadsBack(b, actor, id, expected, a, ref, w);
    ReachableSound(b);
    var s := Load(b.db, actor, id).value;
    WrittenApprovalDead(b.db, actor, id, s, expected, a, w);
    NextReachable(b, AcceptApproval(actor, id, expected, a, ref, w));
    DeadIsGone(v, actor, id);
  }

  lemma WrittenApprovalDead(db: LifecycleDb, actor: ActorContext, id: Id, s: Stored, expected: nat, a: Approval,
                            w: Writing)
    requires Sound(db) && Load(db, actor, id) == Some(s) && s.state == ApprovalRequired
    requires WriteApproval(db, s, id, expected, a, w.envelopeId, w.clock).value.Some?
    requires s.approval.Some? || !AtHome(db.runs, actor, s)
    ensures Dead(WriteApproval(db, s, id, expected, a, w.envelopeId, w.clock).db.runs, actor, id)
  {
    hide Sound, RowAllowed, AppendEvidence, Appended, StoryRuns, ReplayRun, Dead, WellFormed, LifecycleAuthority, Load;
    LoadMeans(db, actor, id);
    SoundRuns(db);
    var r := (actor.tenant, s.request.runId);
    AppendEvidenceAppends(db.runs, actor, s.request.runId, w.envelopeId, PolicyRef(s.policy), ApprovalPayload(s, a),
                          w.clock);
    var y := AppendEvidence(db.runs, actor, s.request.runId, w.envelopeId, PolicyRef(s.policy), ApprovalPayload(s, a),
                            w.clock);
    if AtHome(db.runs, actor, s) {
      RefusedDead(db.runs, y.value.0, r, y.value.1, actor, id);
    } else {
      TwoRunsDead(db.runs, y.value.0, r, y.value.1, actor, id);
    }
  }

  /** So does an accepted grant, which then went to another run than the story. */
  lemma LostGrantIsGone(b: Books, actor: ActorContext, id: Id, expected: nat, g: Grant, ref: Ref, w: Writing)
    requires Reachable(b) && IssueGrant(b.db, actor, id, expected, g, ref, w.envelopeId, w.clock).value.Some?
    requires Load(IssueGrant(b.db, actor, id, expected, g, ref, w.envelopeId, w.clock).db, actor, id)
             != IssueGrant(b.db, actor, id, expected, g, ref, w.envelopeId, w.clock).value
    ensures Gone(Apply(b, RecordGrant(actor, id, expected, g, ref, w)), actor, id)
  {
    hide Reachable, Sound, Load, AtHome, WriteGrant, LifecycleAuthority, Gone, Dead;
    var v := Apply(b, RecordGrant(actor, id, expected, g, ref, w));
    GrantLoadsBack(b, actor, id, expected, g, ref, w);
    ReachableSound(b);
    var s := Load(b.db, actor, id).value;
    WrittenGrantDead(b.db, actor, id, s, expected, g, w);
    NextReachable(b, RecordGrant(actor, id, expected, g, ref, w));
    DeadIsGone(v, actor, id);
  }

  lemma WrittenGrantDead(db: LifecycleDb, actor: ActorContext, id: Id, s: Stored, expected: nat, g: Grant, w: Writing)
    requires Sound(db) && Load(db, actor, id) == Some(s) && !AtHome(db.runs, actor, s)
    requires WriteGrant(db, s, id, expected, g, w.envelopeId, w.clock).value.Some?
    ensures Dead(WriteGrant(db, s, id, expected, g, w.envelopeId, w.clock).db.runs, actor, id)
  {
    hide Sound, RowAllowed, AppendEvidence, Appended, StoryRuns, ReplayRun, Dead, WellFormed, LifecycleAuthority, Load;
    LoadMeans(db, actor, id);
    SoundRuns(db);
    AppendEvidenceAppends(db.runs, actor, s.request.runId, w.envelopeId, PolicyRef(s.policy), GrantPayload(s, g),
                          w.clock);
    var y := AppendEvidence(db.runs, actor, s.request.runId, w.envelopeId, PolicyRef(s.policy), GrantPayload(s, g),
                            w.clock);
    TwoRunsDead(db.runs, y.value.0, (actor.tenant, s.request.runId), y.value.1, actor, id);
  }

  /** And so does the generic append of an event of the actor's that mentions the request outside the
      run of its story, whatever its kind. */
  lemma ForeignMentionIsGone(b: Books, actor: ActorContext, id: Id, writer: ActorContext, run: Id, ref: Ref,
                             payload: Payload, w: Writing)
    requires Reachable(b) && Load(b.db, actor, id).Some? && Concerns(actor, id, writer, payload)
    requires StoryRuns(b.db.runs, actor, id) != {(writer.tenant, run)}
    requires AppendEvidence(b.db.runs, writer, run, w.envelopeId, ref, payload, w.clock).Some?
    ensures Gone(Apply(b, OtherEvidence(writer, run, ref, payload, w)), actor, id)
  {
    hide Reachable, Sound, AppendEvidence, Appended, StoryRuns, ReplayRun, Dead, WellFormed, LifecycleAuthority, Load,
         Gone, Harmless, MentionedKeys, RowAllowed, Mentions;
    ReachableSound(b);
    SoundRuns(b.db);
    LoadMeans(b.db, actor, id);
    AppendEvidenceAppends(b.db.runs, writer, run, w.envelopeId, ref, payload, w.clock);
    var x := AppendEvidence(b.db.runs, writer, run, w.envelopeId, ref, payload, w.clock).value;
    TwoRunsDead(b.db.runs, x.0, (writer.tenant, run), x.1, actor, id);
    NextReachable(b, OtherEvidence(writer, run, ref, payload, w));
    DeadIsGone(Apply(b, OtherEvidence(writer, run, ref, payload, w)), actor, id);
  }

  // ---- A lost row and a second submission ----

  /** The decision of a replayed request was submitted under the state that its decision has. */
  lemma SubmittedOnce(runs: map<RunKey, RunLog>, actor: ActorContext, id: Id)
    requires ReplayRun(runs, actor, id).Some?
    ensures var s := ReplayRun(runs, actor, id).value;
            && InitialState(s.policy.decision).Some?
            && SubmissionValid(actor, s.request, s.policy, InitialState(s.policy.decision).value, PolicyRef(s.policy))
  {
    hide StoryRuns, FoldEvents, ChainOk;
    ReplayedFacts(runs, actor, id);
  }

  /** The books after a row was lost and its request submitted once more. */
  ghost function Resubmitted(b: Books, s: Stored, w: Writing): Books
    requires InitialState(s.policy.decision).Some?
  {
    Apply(Apply(b, Tamper((s.actor.tenant, s.request.requestId), None)),
          Submission(s.actor, s.request, s.policy, InitialState(s.policy.decision).value, PolicyRef(s.policy), w))
  }

  lemma LosingLeavesKeysFree(b: Books, actor: ActorContext, id: Id)
    requires Reachable(b) && Load(b.db, actor, id).Some?
    ensures var rows, k := b.db.rows - {(actor.tenant, id)}, (actor.tenant, id);
            var key := Load(b.db, actor, id).value.request.idempotency.key;
            && k !in rows && KeyFree(rows, k, key) && RowsByIdempotency(rows, actor, key) == {}
            && forall j | j in rows && j.0 == actor.tenant :: rows[j].columns.idempotencyKey != key
  {
    hide Reachable, Run, Sound, RowAllowed, Load, ReplayRun, LifecycleAuthority;
    ReachableKeys(b);
    ReachableSound(b);
    LoadMeans(b.db, actor, id);
  }

  lemma SomeSchedule(b: Books)
    requires Reachable(b)
    ensures exists schedule :: Run(schedule) == b
  {
  }

  /** Of any request that loads, with its story at home: when its row is lost and it is submitted again,
      the call passes and the next load does not.  A rebuild then makes it load as it was, its approval
      included, in the state of its decision, exactly when it has no grant yet. */
  lemma ResubmissionExactly(b: Books, actor: ActorContext, id: Id, w: Writing)
    requires Reachable(b) && Load(b.db, actor, id).Some? && AtHome(b.db.runs, actor, Load(b.db, actor, id).value)
    requires ClockPasses(b.db.runs, (actor.tenant, Load(b.db, actor, id).value.request.runId), w.clock)
    ensures var s := Load(b.db, actor, id).value;
            && s.actor == actor && s.request.requestId == id && InitialState(s.policy.decision).Some?
            && var state, lost := InitialState(s.policy.decision).value, Apply(b, Tamper((actor.tenant, id), None));
               var x := Submit(lost.db, actor, s.request, s.policy, state, PolicyRef(s.policy), w.envelopeId, w.clock);
               var u := Resubmitted(b, s, w);
               && x.value.Some? && u.db == x.db && Reachable(u) && Load(u.db, actor, id) == None
               && var loaded := Load(Apply(u, Repair(actor, id)).db, actor, id);
                  && (loaded.Some? <==> s.grant.None?)
                  && (loaded.Some? ==>
                        loaded.value == s.(state := state, version := s.version + 1, evidence := loaded.value.evidence))
                  && AtHome(u.db.runs, actor, s)
  {
    hide Reachable, Sound, RowAllowed, Load, ReplayRun, LifecycleAuthority, SubmissionValid, MaySubmit, Submit,
         KeyFree, RunTakes, RowsByIdempotency, AtHome;
    ReachableSound(b);
    LoadMeans(b.db, actor, id);
    var s, k := Load(b.db, actor, id).value, (actor.tenant, id);
    SubmittedOnce(b.db.runs, actor, id);
    var state, lost := InitialState(s.policy.decision).value, Apply(b, Tamper(k, None));
    NextReachable(b, Tamper(k, None));
    LosingLeavesKeysFree(b, actor, id);
    MaySubmitExactly(actor, s.request, s.policy, state, PolicyRef(s.policy));
    SubmissionPassesExactly(lost, actor, s.request, s.policy, state, PolicyRef(s.policy), w);
    OwnRunTakes(lost.db.runs, actor, s.request.runId, w.clock);
    LostIsWritten(lost.db, actor, s, state, w);
    SubmissionLoadsExactly(lost, actor, s.request, s.policy, state, PolicyRef(s.policy), w);
    var step := Submission(actor, s.request, s.policy, state, PolicyRef(s.policy), w);
    NextReachable(lost, step);
    HasStory(b.db.runs, actor, s);
    LostReplays(b.db, lost.db, actor, s, state, w);
    var u := Resubmitted(b, s, w);
    RepairMakesLoad(u, actor, id);
    RebuildPassesExactly(u.db, actor, id);
  }

  lemma OwnRunTakes(runs: map<RunKey, RunLog>, actor: ActorContext, run: Id, clock: int)
    requires (actor.tenant, run) in runs && runs[(actor.tenant, run)].owner == actor.actor
    requires ClockPasses(runs, (actor.tenant, run), clock)
    ensures RunTakes(runs, actor, run, clock)
  {
  }

  lemma RepairMakesLoad(b: Books, actor: ActorContext, id: Id)
    ensures Load(Apply(b, Repair(actor, id)).db, actor, id) ==
            if Rebuild(b.db, actor, id).value.Some? then ReplayRun(b.db.runs, actor, id) else Load(b.db, actor, id)
  {
    hide ReplayRun, Rebuild, Load;
    if Rebuild(b.db, actor, id).value.Some? {
      RebuildRestores(b.db, actor, id);
    }
  }

  lemma HasStory(runs: map<RunKey, RunLog>, actor: ActorContext, s: Stored)
    requires ReplayRun(runs, actor, s.request.requestId) == Some(s) && AtHome(runs, actor, s)
    ensures !NoStoryYet(runs, actor, s.request)
  {
    hide StoryRuns, ReplayRun, ReplayStory, Story;
    ReplayedFacts(runs, actor, s.request.requestId);
    StoryNotEmpty(Story(runs[(actor.tenant, s.request.runId)].events, s.request.requestId), actor, s.request.requestId);
  }

  /** A submission without a row under its key writes its event and its row. */
  lemma LostIsWritten(db: LifecycleDb, actor: ActorContext, s: Stored, state: LifecycleState, w: Writing)
    requires RowsByIdempotency(db.rows, actor, s.request.idempotency.key) == {}
    requires (actor.tenant, s.request.requestId) !in db.rows
    ensures var x := Submit(db, actor, s.request, s.policy, state, PolicyRef(s.policy), w.envelopeId, w.clock);
            var k := (actor.tenant, s.request.requestId);
            var y := AppendEvidence(db.runs, actor, s.request.runId, w.envelopeId, PolicyRef(s.policy),
                                    SubmissionPayload(actor, s.request, s.policy, state), w.clock);
            x.value.Some? ==>
              && x.db != db && y.Some? && x.db.runs == y.value.0 && k in x.db.rows
              && x.db.rows[k].owner == actor.actor && x.db.rows[k].columns == ColumnsOf(s.request, s.policy)
  {
    hide AppendEvidence, RowAllowed, KeyFree, SubmissionValid, RowsByIdempotency;
  }

  /** A second decision event of the same policy is taken by the replay, and sets the state. */
  lemma LostReplays(db: LifecycleDb, lost: LifecycleDb, actor: ActorContext, s: Stored, state: LifecycleState,
                    w: Writing)
    requires Sound(db) && lost.runs == db.runs && ReplayRun(db.runs, actor, s.request.requestId) == Some(s)
    requires AtHome(db.runs, actor, s) && s.actor == actor
             && LifecycleAuthority(actor, s.request, s.policy, s.approval, s.grant)
    requires AppendEvidence(lost.runs, actor, s.request.runId, w.envelopeId, PolicyRef(s.policy),
                            SubmissionPayload(actor, s.request, s.policy, state), w.clock).Some?
    ensures var y := AppendEvidence(lost.runs, actor, s.request.runId, w.envelopeId, PolicyRef(s.policy),
                                    SubmissionPayload(actor, s.request, s.policy, state), w.clock).value;
            var r := (actor.tenant, s.request.runId);
            && ReplayRun(y.0, actor, s.request.requestId)
               == Some(s.(state := state, version := s.version + 1, evidence := s.evidence + [y.1]))
            && r in y.0 && y.0[r].owner == actor.actor && AtHome(y.0, actor, s)
  {
    hide Sound, StoryRuns, ReplayRun, AppendEvidence, Appended, LifecycleAuthority, WellFormed;
    var r, id := (actor.tenant, s.request.runId), s.request.requestId;
    var payload := SubmissionPayload(actor, s.request, s.policy, state);
    SoundRuns(db);
    ReplayedFacts(db.runs, actor, id);
    AppendEvidenceAppends(db.runs, actor, s.request.runId, w.envelopeId, PolicyRef(s.policy), payload, w.clock);
    var y := AppendEvidence(db.runs, actor, s.request.runId, w.envelopeId, PolicyRef(s.policy), payload, w.clock).value;
    AppendedFacts(db.runs, y.0, r, y.1);
    TransitionReplay(db, y.0, actor, id, s, y.1);
    StoryRunsAppended(db.runs, y.0, r, y.1, actor, id);
  }

  /** So any approved request can be lost for good by accepting an approval twice: after a lost row, a
      second submission and a rebuild it asks for approval again although it has one, the next
      approval that fits is accepted, and from then on nothing loads or rebuilds the request. */
  lemma ApprovedTwiceIsGone(b: Books, actor: ActorContext, id: Id, w: Writing, a: Approval, x: Writing)
    requires Reachable(b) && Load(b.db, actor, id).Some? && AtHome(b.db.runs, actor, Load(b.db, actor, id).value)
    requires var s := Load(b.db, actor, id).value;
             && s.approval.Some? && s.grant.None? && ClockPasses(b.db.runs, (actor.tenant, s.request.runId), w.clock)
             && ParsedApproval(actor, a) && Approves(a, s.request, s.policy) && TruncateToMillis(w.clock) <= x.clock
    ensures var s := Load(b.db, actor, id).value;
            && InitialState(s.policy.decision).Some?
            && var v := Apply(Resubmitted(b, s, w), Repair(actor, id));
               && Reachable(v) && Load(v.db, actor, id).Some? && Load(v.db, actor, id).value.state == ApprovalRequired
               && Load(v.db, actor, id).value.approval == s.approval
               && Approve(v.db, actor, id, s.version + 1, a, PolicyRef(s.policy), x.envelopeId, x.clock).value.Some?
               && Gone(Apply(v, AcceptApproval(actor, id, s.version + 1, a, PolicyRef(s.policy), x)), actor, id)
  {
    hide Reachable, Load, AtHome, LifecycleAuthority, Gone, Resubmitted, Approve, Submit, ClockPasses;
    ResubmissionExactly(b, actor, id, w);
    var s := Load(b.db, actor, id).value;
    var u := Resubmitted(b, s, w);
    var v := Apply(u, Repair(actor, id));
    NextReachable(u, Repair(actor, id));
    ApprovedDecision(b, actor, id);
    ResubmittedClock(b, actor, id, w, x.clock);
    RepairKeepsRuns(u, actor, id);
    ApprovalPassesExactly(v, actor, id, s.version + 1, a, PolicyRef(s.policy), x);
    ApprovalLoadsBack(v, actor, id, s.version + 1, a, PolicyRef(s.policy), x);
    LostApprovalIsGone(v, actor, id, s.version + 1, a, PolicyRef(s.policy), x);
  }

  lemma ApprovedDecision(b: Books, actor: ActorContext, id: Id)
    requires Reachable(b) && Load(b.db, actor, id).Some? && Load(b.db, actor, id).value.approval.Some?
    ensures InitialState(Load(b.db, actor, id).value.policy.decision) == Some(ApprovalRequired)
  {
    hide Reachable, Load, ReplayRun, Sound;
    ReachableSound(b);
    LoadMeans(b.db, actor, id);
  }

  lemma RepairKeepsRuns(b: Books, actor: ActorContext, id: Id)
    ensures Apply(b, Repair(actor, id)).db.runs == b.db.runs
  {
    hide ReplayRun, RowAllowed, KeyFree;
  }

  /** The clock of the second submission is the last one in the run. */
  lemma ResubmittedClock(b: Books, actor: ActorContext, id: Id, w: Writing, clock: int)
    requires Reachable(b) && Load(b.db, actor, id).Some? && AtHome(b.db.runs, actor, Load(b.db, actor, id).value)
    requires ClockPasses(b.db.runs, (actor.tenant, Load(b.db, actor, id).value.request.runId), w.clock)
    requires TruncateToMillis(w.clock) <= clock
    ensures var s := Load(b.db, actor, id).value;
            && s.actor == actor && InitialState(s.policy.decision).Some?
            && ClockPasses(Resubmitted(b, s, w).db.runs, (actor.tenant, s.request.runId), clock)
  {
    hide Reachable, Load, AtHome, LifecycleAuthority, Submit, Sound, ReplayRun, RowAllowed;
    ResubmissionExactly(b, actor, id, w);
    ReachableSound(b);
    LoadMeans(b.db, actor, id);
    LosingLeavesKeysFree(b, actor, id);
    var s := Load(b.db, actor, id).value;
    var lost := Apply(b, Tamper((actor.tenant, id), None));
    LostIsWritten(lost.db, actor, s, InitialState(s.policy.decision).value, w);
    AppendedClock(lost.db.runs, actor, s.request.runId, PolicyRef(s.policy),
                  SubmissionPayload(actor, s.request, s.policy, InitialState(s.policy.decision).value), w, clock);
  }

  lemma AppendedClock(runs: map<RunKey, RunLog>, actor: ActorContext, run: Id, ref: Ref, payload: Payload, w: Writing,
                      clock: int)
    requires TruncateToMillis(w.clock) <= clock
    ensures var y := AppendEvidence(runs, actor, run, w.envelopeId, ref, payload, w.clock);
            y.Some? ==> ClockPasses(y.value.0, (actor.tenant, run), clock)
  {
    hide TruncateToMillis;
  }
}
