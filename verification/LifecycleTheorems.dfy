/** The guarantees of the event-sourced lifecycle, over every schedule. */
module LifecycleTheorems {
  import opened Records
  import opened EvidenceChain
  import opened EffectStore
  import opened LifecycleStore
  import opened LifecycleExactly
  import opened LifecycleInvariant

  // ---- The cache agrees with the log ----

  /** In every reachable state, whatever happened to other requests: of the requests whose story was
      not disturbed the untampered projections are exactly those of the submitted ones, and each is the
      fold of its evidence: same state, as many versions as events, and the last event's sequence and
      digest.  So its author can load it, and nobody else can. */
  lemma CacheAgreesWithLog(b: Books, k: RowKey, actor: ActorContext)
    requires Reachable(b) && k !in b.stale && k !in b.disturbed
    ensures k in b.db.rows <==> k in b.authors
    ensures actor.tenant == k.0 ==> (Load(b.db, actor, k.1).Some? <==> k in b.authors && b.authors[k] == actor)
    ensures k in b.authors ==>
              var s := ReplayRun(b.db.runs, b.authors[k], k.1);
              && s.Some? && Load(b.db, b.authors[k], k.1) == s && StateOk(s.value)
              && s.value.evidence != [] && RowView(b.db.rows[k]) == StoredView(s.value)
  {
    hide Reachable, RunsOk, StoryOk, RowAllowed, ReplayRun, StateOk;
    ReachableFacts(b);
    if k in b.authors {
      assert Agrees(b.db, k, b.authors[k]);
      assert StoryOk(b.db.runs, k, b.authors[k]);
      StoryStateOk(b.db.runs, k, b.authors[k]);
    }
    if actor.tenant == k.0 && Load(b.db, actor, k.1).Some? {
      LoaderIsAuthor(b, actor, k.1);
    }
  }

  lemma StoryStateOk(runs: map<RunKey, RunLog>, k: RowKey, actor: ActorContext)
    requires StoryOk(runs, k, actor)
    ensures actor.tenant == k.0 && ReplayRun(runs, actor, k.1).Some? && StateOk(ReplayRun(runs, actor, k.1).value)
  {
  }

  /** An untampered row of such a request is never in `policy_authorized`, and has a grant only for a
      policy that required approval, after an approval that fits it. */
  lemma GrantsWereApproved(b: Books, k: RowKey)
    requires Reachable(b) && k in b.db.rows && k !in b.stale && k !in b.disturbed
    ensures var row := b.db.rows[k];
            && row.state != PolicyAuthorized
            && (row.grant.Some? ==>
                  && row.policy.decision == RequireApproval && row.version == 3 && row.approvals != []
                  && Approves(row.approvals[0], row.request, row.policy)
                  && Permits(row.grant.value, row.actor, row.request, row.policy, Some(row.approvals[0])))
            && (row.approvals != [] ==> Approves(row.approvals[0], row.request, row.policy))
            && Asks(row.actor, row.request, row.policy)
  {
    hide Reachable, StoryRuns, ReplayRun, ApprovalFits, GrantFits, Approves, Permits, Asks;
    CacheAgreesWithLog(b, k, ActorContext("", "", 0, 0, ""));
    StoredFacts(b.db.runs, b.authors[k], k.1);
    var s := ReplayRun(b.db.runs, b.authors[k], k.1).value;
    AuthorityExactly(s.actor, s.request, s.policy, s.approval, s.grant);
  }

  // ---- The log is never rewritten ----

  /** A run keeps its owner and its events, and may get more. */
  predicate Continues(runs: map<RunKey, RunLog>, next: map<RunKey, RunLog>, r: RunKey) {
    r in runs ==>
      && r in next && next[r].owner == runs[r].owner
      && |runs[r].events| <= |next[r].events| && next[r].events[..|runs[r].events|] == runs[r].events
  }

  lemma AppendContinues(runs: map<RunKey, RunLog>, actor: ActorContext, run: Id, envelopeId: Id, ref: Ref,
                        payload: Payload, clock: int, r: RunKey)
    ensures var x := AppendEvidence(runs, actor, run, envelopeId, ref, payload, clock);
            x.Some? ==> Continues(runs, x.value.0, r)
  {
  }

  /** No step rewrites evidence: not a submission, transition or repair, not even tampering. */
  lemma StepContinues(b: Books, s: Step, r: RunKey)
    ensures Continues(b.db.runs, Apply(b, s).db.runs, r)
  {
    hide AppendEvidence, RowAllowed, KeyFree, ReplayRun, SubmissionValid, LifecycleAuthority, Load, RowsByIdempotency;
    match s
    case Submission(actor, q, p, state, _, w) =>
      AppendContinues(b.db.runs, actor, q.runId, w.envelopeId, PolicyRef(p), SubmissionPayload(actor, q, p, state),
                      w.clock, r);
    case AcceptApproval(actor, id, _, a, _, w) =>
      var x := Load(b.db, actor, id);
      if x.Some? {
        var c := x.value;
        AppendContinues(b.db.runs, c.actor, c.request.runId, w.envelopeId, PolicyRef(c.policy), ApprovalPayload(c, a),
                        w.clock, r);
      }
    case RecordGrant(actor, id, _, g, _, w) =>
      var x := Load(b.db, actor, id);
      if x.Some? {
        var c := x.value;
        AppendContinues(b.db.runs, c.actor, c.request.runId, w.envelopeId, PolicyRef(c.policy), GrantPayload(c, g),
                        w.clock, r);
      }
    case OtherEvidence(actor, run, ref, payload, w) =>
      AppendContinues(b.db.runs, actor, run, w.envelopeId, ref, payload, w.clock, r);
    case Tamper(_, _) =>
    case Repair(_, _) =>
  }

  /** So along any schedule, careful or not, every run only grows. */
  lemma {:induction false} EvidenceNeverRewritten(schedule: seq<Step>, n: nat, r: RunKey)
    requires n <= |schedule|
    ensures Continues(Run(schedule[..n]).db.runs, Run(schedule).db.runs, r)
    decreases |schedule|
  {
    if n == |schedule| {
      assert schedule[..n] == schedule;
    } else {
      hide Apply;
      var rest := schedule[..|schedule| - 1];
      assert rest[..n] == schedule[..n];
      EvidenceNeverRewritten(rest, n, r);
      StepContinues(Run(rest), schedule[|schedule| - 1], r);
      ContinuesFurther(Run(schedule[..n]).db.runs, Run(rest).db.runs, Run(schedule).db.runs, r);
    }
  }

  lemma ContinuesFurther(a: map<RunKey, RunLog>, b: map<RunKey, RunLog>, c: map<RunKey, RunLog>, r: RunKey)
    requires Continues(a, b, r) && Continues(b, c, r)
    ensures Continues(a, c, r)
  {
    if r in a {
      var n := |a[r].events|;
      assert c[r].events[..n] == c[r].events[..|b[r].events|][..n];
    }
  }

  // ---- What a load says ----

  /** What the writers and the table's constraints keep, whatever happens. */
  ghost predicate Sound(db: LifecycleDb) {
    && (forall r | r in db.runs :: WellFormed(db.runs[r]))
    && (forall k | k in db.rows :: RowAllowed(db.runs, k, db.rows[k]))
  }

  lemma ReachableSound(b: Books)
    requires Reachable(b)
    ensures Sound(b.db)
  {
    hide Reachable, RowAllowed, WellFormed, MentionOk, StoriesOk;
    ReachableFacts(b);
  }

  /** All evidence that mentions the request is in the run that the request names. */
  ghost predicate AtHome(runs: map<RunKey, RunLog>, actor: ActorContext, s: Stored) {
    StoryRuns(runs, actor, s.request.requestId) == {(actor.tenant, s.request.runId)}
  }

  lemma LoadMeans(db: LifecycleDb, actor: ActorContext, id: Id)
    requires Sound(db) && Load(db, actor, id).Some?
    ensures var s, k := Load(db, actor, id).value, (actor.tenant, id);
            && ReplayRun(db.runs, actor, id) == Some(s) && s.actor == actor && s.request.requestId == id
            && s.evidence != [] && s.version == |s.evidence|
            && LifecycleAuthority(actor, s.request, s.policy, s.approval, s.grant)
            && (s.state == GrantIssued <==> s.grant.Some?)
            && k in db.rows && db.rows[k].owner == actor.actor && RowView(db.rows[k]) == StoredView(s)
            && db.rows[k].columns == ColumnsOf(s.request, s.policy) && RowAllowed(db.runs, k, db.rows[k])
            && var r := (actor.tenant, s.request.runId); r in db.runs && db.runs[r].owner == actor.actor
  {
    hide StoryRuns, WellFormed, LifecycleAuthority;
    ReplayedFacts(db.runs, actor, id);
  }

  lemma ReplayedFacts(runs: map<RunKey, RunLog>, actor: ActorContext, id: Id)
    requires ReplayRun(runs, actor, id).Some?
    ensures var s := ReplayRun(runs, actor, id).value;
            && s.actor == actor && s.request.requestId == id && s.evidence != [] && s.version == |s.evidence|
            && LifecycleAuthority(actor, s.request, s.policy, s.approval, s.grant)
    ensures exists r :: StoryRuns(runs, actor, id) == {r}
    ensures forall r | StoryRuns(runs, actor, id) == {r} ::
              r in runs && ChainOk(runs[r].events)
              && ReplayStory(Story(runs[r].events, id), actor, id) == ReplayRun(runs, actor, id)
  {
    hide StoryRuns, WellFormed, LifecycleAuthority, FoldEvents, ChainOk;
    var r :| StoryRuns(runs, actor, id) == {r};
    ReplayAt(runs, actor, id, r);
    forall q | StoryRuns(runs, actor, id) == {q} ensures q == r { assert q in {r}; }
  }

  lemma StoryNotEmpty(story: seq<Event>, actor: ActorContext, id: Id)
    requires ReplayStory(story, actor, id).Some?
    ensures story != []
  {
  }

  lemma ReplayVersion(story: seq<Event>, actor: ActorContext, id: Id)
    ensures ReplayStory(story, actor, id).Some? ==> ReplayStory(story, actor, id).value.version == |story|
  {
    hide FoldEvents, LifecycleAuthority;
  }

  lemma TwoStoryRuns(runs: map<RunKey, RunLog>, actor: ActorContext, id: Id, q: RunKey, r: RunKey)
    requires q != r && q in StoryRuns(runs, actor, id) && r in StoryRuns(runs, actor, id)
    ensures ReplayRun(runs, actor, id) == None
  {
    hide StoryRuns;
    assert forall s :: !(q in {s} && r in {s});
  }

  // ---- What a call returns is what an immediate load returns ----

  /** The replay after an event that belongs to the story where it is. */
  lemma HomeReplay(runs: map<RunKey, RunLog>, next: map<RunKey, RunLog>, actor: ActorContext, id: Id, r: RunKey,
                   e: Event)
    requires r in runs && WellFormed(runs[r]) && Appended(runs, next, r, e) && InStory(e, id)
    requires StoryRuns(runs, actor, id) == {r} && ReplayRun(runs, actor, id).Some?
    ensures var s := ReplayRun(runs, actor, id).value;
            var f := FoldStep(Folded(s.approval, s.grant, s.state), e, actor, s.request, s.policy);
            ReplayRun(next, actor, id) ==
            if f.Some? && LifecycleAuthority(actor, s.request, s.policy, f.value.approval, f.value.grant)
            then Some(Stored(actor, s.request, s.policy, f.value.approval, f.value.grant, f.value.state, s.version + 1,
                             s.evidence + [e]))
            else None
  {
    hide ReplayStory, Story, WellFormed, ReplayRun, StoryRuns, LifecycleAuthority, FoldStep, Mentions, Appended;
    ReplayedFacts(runs, actor, id);
    ReplayExtended(runs, next, e, actor, id, r);
    ExtendStory(Story(runs[r].events, id), actor, id, ReplayRun(runs, actor, id).value, e);
  }

  /** The replay after an event was appended to the story of a loaded request, in the run it names. */
  lemma TransitionReplay(db: LifecycleDb, next: map<RunKey, RunLog>, actor: ActorContext, id: Id, s: Stored, e: Event)
    requires Sound(db) && ReplayRun(db.runs, actor, id) == Some(s) && s.actor == actor
    requires Appended(db.runs, next, (actor.tenant, s.request.runId), e) && InStory(e, id)
             && next[(actor.tenant, s.request.runId)].owner == actor.actor
    ensures var f := FoldStep(Folded(s.approval, s.grant, s.state), e, actor, s.request, s.policy);
            ReplayRun(next, actor, id) ==
            if AtHome(db.runs, actor, s) && f.Some?
               && LifecycleAuthority(actor, s.request, s.policy, f.value.approval, f.value.grant)
            then Some(Stored(actor, s.request, s.policy, f.value.approval, f.value.grant, f.value.state, s.version + 1,
                             s.evidence + [e]))
            else None
  {
    hide ReplayStory, Story, WellFormed, ReplayRun, StoryRuns, LifecycleAuthority, FoldStep, Mentions, RowAllowed,
         Appended;
    var r := (actor.tenant, s.request.runId);
    ReplayedFacts(db.runs, actor, id);
    if AtHome(db.runs, actor, s) {
      StoryRunOwner(db.runs, actor, id, r);
      SoundRuns(db);
      HomeReplay(db.runs, next, actor, id, r, e);
    } else {
      var q :| StoryRuns(db.runs, actor, id) == {q};
      StoryRunsAppended(db.runs, next, r, e, actor, id);
      TwoStoryRuns(next, actor, id, q, r);
    }
  }

  /** An accepted approval returns what a load returns exactly when it was already there, or there was
      none yet and the request's evidence is in the run that it names.  Otherwise no load passes. */
  lemma ApprovalLoadsBack(b: Books, actor: ActorContext, id: Id, expected: nat, a: Approval, ref: Ref, w: Writing)
    requires Reachable(b) && Approve(b.db, actor, id, expected, a, ref, w.envelopeId, w.clock).value.Some?
    ensures var x := Approve(b.db, actor, id, expected, a, ref, w.envelopeId, w.clock);
            && Load(b.db, actor, id).Some?
            && x.value.value.state == Approved && x.value.value.approval == Some(a)
            && var s := Load(b.db, actor, id).value;
               Load(x.db, actor, id) ==
               if s.state == Approved || (s.approval.None? && AtHome(b.db.runs, actor, s)) then x.value else None
  {
    hide Reachable, Load, Sound, AtHome, WriteApproval, LifecycleAuthority;
    ReachableSound(b);
    var s := Load(b.db, actor, id).value;
    if s.state != Approved {
      ApprovalWritten(b.db, actor, id, s, expected, a, w);
    }
  }

  lemma ApprovalWritten(db: LifecycleDb, actor: ActorContext, id: Id, s: Stored, expected: nat, a: Approval, w: Writing)
    requires Sound(db) && Load(db, actor, id) == Some(s) && s.state == ApprovalRequired && s.version == expected
    requires ParsedApproval(actor, a) && LifecycleAuthority(actor, s.request, s.policy, Some(a), None)
    requires WriteApproval(db, s, id, expected, a, w.envelopeId, w.clock).value.Some?
    ensures var x := WriteApproval(db, s, id, expected, a, w.envelopeId, w.clock);
            && x.value.value.state == Approved && x.value.value.approval == Some(a)
            && Load(x.db, actor, id) == if s.approval.None? && AtHome(db.runs, actor, s) then x.value else None
  {
    hide Sound, AtHome, LifecycleAuthority, RowAllowed, AppendEvidence, Appended, StoryRuns, ReplayRun;
    LoadMeans(db, actor, id);
    SoundRuns(db);
    var x := WriteApproval(db, s, id, expected, a, w.envelopeId, w.clock);
    AppendEvidenceAppends(db.runs, actor, s.request.runId, w.envelopeId, PolicyRef(s.policy), ApprovalPayload(s, a),
                          w.clock);
    var y := AppendEvidence(db.runs, actor, s.request.runId, w.envelopeId, PolicyRef(s.policy), ApprovalPayload(s, a),
                            w.clock);
    TransitionReplay(db, y.value.0, actor, id, s, y.value.1);
  }

  lemma SoundRuns(db: LifecycleDb)
    requires Sound(db)
    ensures forall r | r in db.runs :: WellFormed(db.runs[r])
  {
  }

  /** So does a grant, except that there cannot be one already. */
  lemma GrantLoadsBack(b: Books, actor: ActorContext, id: Id, expected: nat, g: Grant, ref: Ref, w: Writing)
    requires Reachable(b) && IssueGrant(b.db, actor, id, expected, g, ref, w.envelopeId, w.clock).value.Some?
    ensures var x := IssueGrant(b.db, actor, id, expected, g, ref, w.envelopeId, w.clock);
            && Load(b.db, actor, id).Some?
            && x.value.value.state == GrantIssued && x.value.value.grant == Some(g)
            && var s := Load(b.db, actor, id).value;
               Load(x.db, actor, id) == if s.state == GrantIssued || AtHome(b.db.runs, actor, s) then x.value else None
  {
    hide Reachable, Load, Sound, AtHome, WriteGrant, LifecycleAuthority;
    ReachableSound(b);
    var s := Load(b.db, actor, id).value;
    if s.state != GrantIssued {
      GrantWritten(b.db, actor, id, s, expected, g, w);
    }
  }

  lemma GrantWritten(db: LifecycleDb, actor: ActorContext, id: Id, s: Stored, expected: nat, g: Grant, w: Writing)
    requires Sound(db) && Load(db, actor, id) == Some(s) && (s.state == PolicyAuthorized || s.state == Approved)
    requires s.version == expected && ParsedGrant(actor, g)
    requires LifecycleAuthority(actor, s.request, s.policy, s.approval, Some(g))
    requires WriteGrant(db, s, id, expected, g, w.envelopeId, w.clock).value.Some?
    ensures var x := WriteGrant(db, s, id, expected, g, w.envelopeId, w.clock);
            && x.value.value.state == GrantIssued && x.value.value.grant == Some(g)
            && Load(x.db, actor, id) == if AtHome(db.runs, actor, s) then x.value else None
  {
    hide Sound, AtHome, LifecycleAuthority, RowAllowed, AppendEvidence, Appended, StoryRuns, ReplayRun;
    LoadMeans(db, actor, id);
    SoundRuns(db);
    var x := WriteGrant(db, s, id, expected, g, w.envelopeId, w.clock);
    AppendEvidenceAppends(db.runs, actor, s.request.runId, w.envelopeId, PolicyRef(s.policy), GrantPayload(s, g),
                          w.clock);
    var y := AppendEvidence(db.runs, actor, s.request.runId, w.envelopeId, PolicyRef(s.policy), GrantPayload(s, g),
                            w.clock);
    TransitionReplay(db, y.value.0, actor, id, s, y.value.1);
  }

  /** A written submission returns what a load returns exactly when the actor's evidence had nothing
      of the request's story, and nothing that mentions it outside the run that it names.  Otherwise
      the next load fails. */
  lemma SubmissionLoadsExactly(b: Books, actor: ActorContext, r: Request, p: Policy, state: LifecycleState, ref: Ref,
                               w: Writing)
    requires Reachable(b) && Submit(b.db, actor, r, p, state, ref, w.envelopeId, w.clock).db != b.db
    ensures var x := Submit(b.db, actor, r, p, state, ref, w.envelopeId, w.clock);
            && x.value.Some? && x.value.value.version == 1
            && Load(x.db, actor, r.requestId) == if NoStoryYet(b.db.runs, actor, r) then x.value else None
  {
    hide Reachable, Sound, NoStoryYet, RowAllowed, SubmissionValid, AppendEvidence, KeyFree, ReplayRun,
         RowsByIdempotency, Appended;
    ReachableSound(b);
    SoundRuns(b.db);
    var x := Submit(b.db, actor, r, p, state, ref, w.envelopeId, w.clock);
    var y := AppendEvidence(b.db.runs, actor, r.runId, w.envelopeId, PolicyRef(p),
                            SubmissionPayload(actor, r, p, state), w.clock);
    ExactRef(actor, r, p, state, ref);
    AppendEvidenceAppends(b.db.runs, actor, r.runId, w.envelopeId, PolicyRef(p),
                          SubmissionPayload(actor, r, p, state), w.clock);
    SubmissionReplay(b.db.runs, y.value.0, actor, r, p, state, y.value.1);
  }

  /** The actor's evidence has no story of the request, and mentions it at most in the run it names. */
  ghost predicate NoStoryYet(runs: map<RunKey, RunLog>, actor: ActorContext, r: Request) {
    var home := (actor.tenant, r.runId);
    StoryRuns(runs, actor, r.requestId) <= {home} && Story(EventsIn(runs, home), r.requestId) == []
  }

  /** Without a story before, the submission is the story; with one, its replay has another version. */
  lemma SubmissionReplay(runs: map<RunKey, RunLog>, next: map<RunKey, RunLog>, actor: ActorContext, r: Request,
                         p: Policy, state: LifecycleState, e: Event)
    requires forall q | q in runs :: WellFormed(runs[q])
    requires SubmissionValid(actor, r, p, state, PolicyRef(p))
    requires e.payload == SubmissionPayload(actor, r, p, state) && e.policyRef == PolicyRef(p)
    requires Appended(runs, next, (actor.tenant, r.runId), e) && next[(actor.tenant, r.runId)].owner == actor.actor
    ensures NoStoryYet(runs, actor, r) ==>
              ReplayRun(next, actor, r.requestId) == Some(Stored(actor, r, p, None, None, state, 1, [e]))
    ensures !NoStoryYet(runs, actor, r) && ReplayRun(next, actor, r.requestId).Some? ==>
              ReplayRun(next, actor, r.requestId).value.version != 1
  {
    hide ReplayStory, Story, WellFormed, ReplayRun, StoryRuns, SubmissionValid, MentionedIn, Appended;
    var home, id := (actor.tenant, r.runId), r.requestId;
    var before := EventsIn(runs, home);
    AppendedFacts(runs, next, home, e);
    StoryRunsAppended(runs, next, home, e, actor, id);
    StoryAppended(before, e, id);
    if StoryRuns(runs, actor, id) <= {home} {
      assert StoryRuns(next, actor, id) == {home};
      ReplayAt(next, actor, id, home);
      ChainsOk(next[home]);
      FirstReplay(actor, r, p, state, e);
      ReplayVersion(Story(before, id) + [e], actor, id);
      assert Story(before, id) == [] ==> Story(before, id) + [e] == [e];
    } else {
      var q :| q in StoryRuns(runs, actor, id) && q != home;
      TwoStoryRuns(next, actor, id, q, home);
    }
  }

  lemma AppendedFacts(runs: map<RunKey, RunLog>, next: map<RunKey, RunLog>, r: RunKey, e: Event)
    requires Appended(runs, next, r, e)
    ensures r in next && next[r].events == EventsIn(runs, r) + [e]
            && ((r in runs ==> WellFormed(runs[r])) ==> WellFormed(next[r]))
    ensures next == runs[r := next[r]] && (r in runs ==> next[r].owner == runs[r].owner)
    ensures e.sequence == |EventsIn(runs, r)|
  {
    hide WellFormed;
  }

  // ---- Exactly when a call passes ----

  /** The run is new, or the actor's own with a head that the clock is not behind. */
  predicate RunTakes(runs: map<RunKey, RunLog>, actor: ActorContext, run: Id, clock: int) {
    var r := (actor.tenant, run);
    r in runs ==> runs[r].owner == actor.actor && ClockPasses(runs, r, clock)
  }

  lemma RunTakesExactly(runs: map<RunKey, RunLog>, actor: ActorContext, run: Id, ref: Ref, payload: Payload, w: Writing)
    ensures AppendEvidence(runs, actor, run, w.envelopeId, ref, payload, w.clock).Some?
            <==> RunTakes(runs, actor, run, w.clock)
  {
  }

  lemma FirstRowAllowed(runs: map<RunKey, RunLog>, next: map<RunKey, RunLog>, e: Event, actor: ActorContext,
                        r: Request, p: Policy, state: LifecycleState)
    requires SubmissionValid(actor, r, p, state, PolicyRef(p))
    requires Appended(runs, next, (actor.tenant, r.runId), e) && next[(actor.tenant, r.runId)].owner == actor.actor
    ensures RowAllowed(next, (actor.tenant, r.requestId), SubmittedRow(actor, r, p, state, e))
  {
    hide WellFormed;
  }

  /** In a reachable state a submission passes exactly when it may be made and: no row of the tenant has its
      key, the request id is free, and the run takes the event; or the actor's row has this key, is of this
      very request, and loads. */
  lemma SubmissionPassesExactly(b: Books, actor: ActorContext, r: Request, p: Policy, state: LifecycleState, ref: Ref,
                                w: Writing)
    requires Reachable(b)
    ensures var k := (actor.tenant, r.requestId);
            Submit(b.db, actor, r, p, state, ref, w.envelopeId, w.clock).value.Some? <==>
              && MaySubmit(actor, r, p, state, ref)
              && (|| (k !in b.db.rows && RunTakes(b.db.runs, actor, r.runId, w.clock)
                      && forall j | j in b.db.rows && j.0 == actor.tenant ::
                           b.db.rows[j].columns.idempotencyKey != r.idempotency.key)
                  || (k in b.db.rows && b.db.rows[k].owner == actor.actor
                      && b.db.rows[k].columns.idempotencyKey == r.idempotency.key && b.db.rows[k].request == r
                      && Load(b.db, actor, r.requestId).Some?))
  {
    hide Reachable, Sound, Load, SubmissionValid, MaySubmit, AppendEvidence, RowAllowed, KeyFree, RowsByIdempotency,
         RunTakes;
    MaySubmitExactly(actor, r, p, state, ref);
    FoundExactly(b, actor, r);
    if SubmissionValid(actor, r, p, state, ref) {
      ExactRef(actor, r, p, state, ref);
      RunTakesExactly(b.db.runs, actor, r.runId, PolicyRef(p), SubmissionPayload(actor, r, p, state), w);
      var x := AppendEvidence(b.db.runs, actor, r.runId, w.envelopeId, PolicyRef(p),
                              SubmissionPayload(actor, r, p, state), w.clock);
      if x.Some? {
        ReachableSound(b);
        SoundRuns(b.db);
        AppendEvidenceAppends(b.db.runs, actor, r.runId, w.envelopeId, PolicyRef(p),
                              SubmissionPayload(actor, r, p, state), w.clock);
        FirstRowAllowed(b.db.runs, x.value.0, x.value.1, actor, r, p, state);
      }
    }
  }

  /** What the lookup by key finds: nothing, or some row, and then no other. */
  lemma FoundExactly(b: Books, actor: ActorContext, r: Request)
    requires Reachable(b)
    ensures var k := (actor.tenant, r.requestId);
            var found := RowsByIdempotency(b.db.rows, actor, r.idempotency.key);
            && (found == {k} <==> k in b.db.rows && b.db.rows[k].owner == actor.actor
                                  && b.db.rows[k].columns.idempotencyKey == r.idempotency.key)
            && (k !in b.db.rows ==>
                  (found == {} && KeyFree(b.db.rows, k, r.idempotency.key) <==>
                   forall j | j in b.db.rows && j.0 == actor.tenant ::
                     b.db.rows[j].columns.idempotencyKey != r.idempotency.key))
  {
    hide Reachable, KeysOnce;
    ReachableKeys(b);
    FoundAmong(b.db.rows, actor, r);
  }

  lemma FoundAmong(rows: map<RowKey, Projection>, actor: ActorContext, r: Request)
    requires KeysOnce(rows)
    ensures var k := (actor.tenant, r.requestId);
            var found := RowsByIdempotency(rows, actor, r.idempotency.key);
            && (found == {k} <==> k in rows && rows[k].owner == actor.actor
                                  && rows[k].columns.idempotencyKey == r.idempotency.key)
            && (k !in rows ==>
                  (found == {} && KeyFree(rows, k, r.idempotency.key) <==>
                   forall j | j in rows && j.0 == actor.tenant :: rows[j].columns.idempotencyKey != r.idempotency.key))
  {
    var k := (actor.tenant, r.requestId);
    var found := RowsByIdempotency(rows, actor, r.idempotency.key);
    assert k in {k};
    if k in found {
      forall j | j in found ensures j == k {
        assert j in rows && j.0 == k.0;
      }
      assert found == {k};
    }
    if k !in rows && forall j | j in rows && j.0 == actor.tenant ::
       rows[j].columns.idempotencyKey != r.idempotency.key {
      assert forall j :: j !in found;
    }
  }

  lemma ReachableKeys(b: Books)
    requires Reachable(b)
    ensures KeysOnce(b.db.rows)
  {
    hide Run, KeysOnce;
    var schedule :| Run(schedule) == b;
    KeysHeldOnce(schedule);
  }

  lemma AppendPasses(runs: map<RunKey, RunLog>, actor: ActorContext, run: Id, ref: Ref, payload: Payload, w: Writing)
    requires (actor.tenant, run) in runs && runs[(actor.tenant, run)].owner == actor.actor
    ensures AppendEvidence(runs, actor, run, w.envelopeId, ref, payload, w.clock).Some?
            <==> ClockPasses(runs, (actor.tenant, run), w.clock)
  {
  }

  /** The table's constraints admit the next row of a transition. */
  lemma NextAllowed(runs: map<RunKey, RunLog>, next: map<RunKey, RunLog>, r: RunKey, e: Event, k: RowKey,
                    row: Projection, row': Projection)
    requires Appended(runs, next, r, e) && RowAllowed(runs, k, row)
    requires row'.owner == row.owner && row'.columns == row.columns && row'.actor == row.actor
             && row'.request == row.request
             && row'.policy == row.policy && 0 < row'.version
    requires (row'.state == GrantIssued <==> row'.grant.Some?)
    requires row'.grant.Some? ==> exists approval ::
               GrantFits(row.actor, row.request, row.policy, approval, row'.grant.value)
    ensures RowAllowed(next, k, row')
  {
    hide WellFormed;
    if row'.grant.Some? {
      var approval :| GrantFits(row.actor, row.request, row.policy, approval, row'.grant.value);
    }
  }

  /** An approval is refused only for what the caller handed in, for the state it finds, or for the
      clock: the compare-and-set and the constraints never refuse. */
  lemma ApprovalPassesExactly(b: Books, actor: ActorContext, id: Id, expected: nat, a: Approval, ref: Ref, w: Writing)
    requires Reachable(b)
    ensures Approve(b.db, actor, id, expected, a, ref, w.envelopeId, w.clock).value.Some? <==>
              && a.tenant == actor.tenant && Load(b.db, actor, id).Some?
              && var s := Load(b.db, actor, id).value;
                 || (s.state == Approved && s.approval == Some(a))
                 || (&& s.state == ApprovalRequired && s.version == expected && ref == PolicyRef(s.policy)
                     && Approves(a, s.request, s.policy)
                     && ClockPasses(b.db.runs, (actor.tenant, s.request.runId), w.clock))
  {
    hide Reachable, Sound, Load, AppendEvidence, RowAllowed, ApprovalFits, GrantFits, ClockPasses, Appended, ReplayRun,
         Approves;
    ReachableSound(b);
    if Load(b.db, actor, id).Some? {
      LoadMeans(b.db, actor, id);
      SoundRuns(b.db);
      var s := Load(b.db, actor, id).value;
      ApprovesExactly(a, s.request, s.policy);
      AppendPasses(b.db.runs, actor, s.request.runId, PolicyRef(s.policy), ApprovalPayload(s, a), w);
      var x := AppendEvidence(b.db.runs, actor, s.request.runId, w.envelopeId, PolicyRef(s.policy),
                              ApprovalPayload(s, a), w.clock);
      if x.Some? && s.state == ApprovalRequired {
        var k, e := (actor.tenant, id), x.value.1;
        AppendEvidenceAppends(b.db.runs, actor, s.request.runId, w.envelopeId, PolicyRef(s.policy),
                              ApprovalPayload(s, a), w.clock);
        NextAllowed(b.db.runs, x.value.0, (actor.tenant, s.request.runId), e, k, b.db.rows[k],
                    b.db.rows[k].(approvals := [a], state := Approved, version := b.db.rows[k].version + 1,
                                  lastSequence := e.sequence, lastDigest := OfEvent(e)));
      }
    }
  }

  /** The same for a grant. */
  lemma GrantPassesExactly(b: Books, actor: ActorContext, id: Id, expected: nat, g: Grant, ref: Ref, w: Writing)
    requires Reachable(b)
    ensures IssueGrant(b.db, actor, id, expected, g, ref, w.envelopeId, w.clock).value.Some? <==>
              && g.tenant == actor.tenant && g.idempotency.tenant == actor.tenant && Load(b.db, actor, id).Some?
              && var s := Load(b.db, actor, id).value;
                 || (s.state == GrantIssued && s.grant == Some(g))
                 || (&& (s.state == Approved || s.state == PolicyAuthorized) && s.version == expected
                     && ref == PolicyRef(s.policy) && Permits(g, actor, s.request, s.policy, s.approval)
                     && ClockPasses(b.db.runs, (actor.tenant, s.request.runId), w.clock))
  {
    hide Reachable, Sound, Load, AppendEvidence, RowAllowed, ApprovalFits, ClockPasses, Appended, ReplayRun, Permits;
    ReachableSound(b);
    if Load(b.db, actor, id).Some? {
      LoadMeans(b.db, actor, id);
      SoundRuns(b.db);
      var s := Load(b.db, actor, id).value;
      PermitsExactly(g, actor, s.request, s.policy, s.approval);
      AppendPasses(b.db.runs, actor, s.request.runId, PolicyRef(s.policy), GrantPayload(s, g), w);
      var x := AppendEvidence(b.db.runs, actor, s.request.runId, w.envelopeId, PolicyRef(s.policy),
                              GrantPayload(s, g), w.clock);
      if x.Some? && (s.state == Approved || s.state == PolicyAuthorized)
         && GrantFits(actor, s.request, s.policy, s.approval, g) {
        var k, e := (actor.tenant, id), x.value.1;
        AppendEvidenceAppends(b.db.runs, actor, s.request.runId, w.envelopeId, PolicyRef(s.policy),
                              GrantPayload(s, g), w.clock);
        NextAllowed(b.db.runs, x.value.0, (actor.tenant, s.request.runId), e, k, b.db.rows[k],
                    b.db.rows[k].(grant := Some(g), state := GrantIssued, version := b.db.rows[k].version + 1,
                                  lastSequence := e.sequence, lastDigest := OfEvent(e)));
      }
    }
  }

  /** Whatever loads, from any reachable state, was asked by its actor; its approval approves it and its
      grant permits it. */
  lemma LoadedAuthority(b: Books, actor: ActorContext, id: Id)
    requires Reachable(b) && Load(b.db, actor, id).Some?
    ensures var s := Load(b.db, actor, id).value;
            && s.actor == actor && s.request.requestId == id && Asks(actor, s.request, s.policy)
            && (s.approval.Some? ==> Approves(s.approval.value, s.request, s.policy))
            && (s.grant.Some? ==> Permits(s.grant.value, actor, s.request, s.policy, s.approval))
  {
    hide Reachable, Sound, Load, LifecycleAuthority, ReplayRun, Asks, Approves, Permits;
    ReachableSound(b);
    LoadMeans(b.db, actor, id);
    var s := Load(b.db, actor, id).value;
    AuthorityExactly(actor, s.request, s.policy, s.approval, s.grant);
  }

  /** Every accepted approval approves the request it was accepted for.  So an approval that rejects, or
      whose duties are not done, is refused in every reachable state, and nothing changes. */
  lemma AcceptedApprovalsApprove(b: Books, actor: ActorContext, id: Id, expected: nat, a: Approval, ref: Ref,
                                 w: Writing)
    requires Reachable(b)
    ensures var x := Approve(b.db, actor, id, expected, a, ref, w.envelopeId, w.clock);
            && (x.value.Some? ==>
                  && Load(b.db, actor, id).Some?
                  && var s := Load(b.db, actor, id).value;
                     Approves(a, s.request, s.policy) && Asks(actor, s.request, s.policy)
                     && x.value.value.approval == Some(a))
            && (!a.approved || !a.dutiesSatisfied ==> x.value.None? && x.db == b.db)
  {
    hide Reachable, Load, Asks, LifecycleAuthority, WriteApproval;
    ApprovalPassesExactly(b, actor, id, expected, a, ref, w);
    if Load(b.db, actor, id).Some? {
      LoadedAuthority(b, actor, id);
      var s := Load(b.db, actor, id).value;
      RefusedWritesNothing(b.db, s, id, expected, a, w);
    }
  }

  lemma RefusedWritesNothing(db: LifecycleDb, s: Stored, id: Id, expected: nat, a: Approval, w: Writing)
    ensures var x := WriteApproval(db, s, id, expected, a, w.envelopeId, w.clock);
            (x.value.None? ==> x.db == db) && (x.value.Some? ==> x.value.value.approval == Some(a))
  {
    hide AppendEvidence, RowAllowed;
  }

  // ---- Keys ----

  /** No two rows of a tenant have the same idempotency key. */
  ghost predicate KeysOnce(rows: map<RowKey, Projection>) {
    forall j, k | j in rows && k in rows && j != k && j.0 == k.0 ::
      rows[j].columns.idempotencyKey != rows[k].columns.idempotencyKey
  }

  /** A write that adds a row under a free key, or keeps the row's key, or deletes. */
  predicate KeepsKeys(rows: map<RowKey, Projection>, next: map<RowKey, Projection>, k: RowKey) {
    next == rows || next == rows - {k}
    || (k in next && next == rows[k := next[k]]
        && (if k in rows && next[k].columns == rows[k].columns then true
            else forall j | j in rows && j != k && j.0 == k.0 ::
                   rows[j].columns.idempotencyKey != next[k].columns.idempotencyKey))
  }

  lemma KeysStayOnce(rows: map<RowKey, Projection>, next: map<RowKey, Projection>, k: RowKey)
    requires KeysOnce(rows) && KeepsKeys(rows, next, k)
    ensures KeysOnce(next)
  {
  }

  lemma SubmissionKeepsKeys(db: LifecycleDb, actor: ActorContext, r: Request, p: Policy, state: LifecycleState,
                            ref: Ref, w: Writing)
    ensures KeepsKeys(db.rows, Submit(db, actor, r, p, state, ref, w.envelopeId, w.clock).db.rows,
                      (actor.tenant, r.requestId))
  {
    hide AppendEvidence, RowAllowed, SubmissionValid, Load, RowsByIdempotency;
  }

  lemma ApprovalKeepsKeys(db: LifecycleDb, s: Stored, id: Id, expected: nat, a: Approval, w: Writing)
    ensures KeepsKeys(db.rows, WriteApproval(db, s, id, expected, a, w.envelopeId, w.clock).db.rows,
                      (s.actor.tenant, id))
  {
    hide AppendEvidence, RowAllowed;
  }

  lemma GrantKeepsKeys(db: LifecycleDb, s: Stored, id: Id, expected: nat, g: Grant, w: Writing)
    ensures KeepsKeys(db.rows, WriteGrant(db, s, id, expected, g, w.envelopeId, w.clock).db.rows, (s.actor.tenant, id))
  {
    hide AppendEvidence, RowAllowed;
  }

  lemma RepairKeepsKeys(db: LifecycleDb, actor: ActorContext, id: Id)
    ensures KeepsKeys(db.rows, Rebuild(db, actor, id).db.rows, (actor.tenant, id))
  {
    hide RowAllowed, ReplayRun;
  }

  lemma StepKeepsKeys(b: Books, s: Step)
    requires KeysOnce(b.db.rows)
    ensures KeysOnce(Apply(b, s).db.rows)
  {
    hide AppendEvidence, RowAllowed, Load, KeysOnce, KeepsKeys, WriteApproval, WriteGrant, Submit, Rebuild, Harmless,
         MentionedKeys, LifecycleAuthority;
    var rows, next := b.db.rows, Apply(b, s).db.rows;
    match s
    case Submission(actor, r, p, state, ref, w) =>
      SubmissionKeepsKeys(b.db, actor, r, p, state, ref, w);
      KeysStayOnce(rows, Submit(b.db, actor, r, p, state, ref, w.envelopeId, w.clock).db.rows,
                   (actor.tenant, r.requestId));
    case AcceptApproval(actor, id, expected, a, _, w) =>
      if Load(b.db, actor, id).Some? {
        var c := Load(b.db, actor, id).value;
        ApprovalKeepsKeys(b.db, c, id, expected, a, w);
        KeysStayOnce(rows, WriteApproval(b.db, c, id, expected, a, w.envelopeId, w.clock).db.rows,
                     (c.actor.tenant, id));
      }
    case RecordGrant(actor, id, expected, g, _, w) =>
      if Load(b.db, actor, id).Some? {
        var c := Load(b.db, actor, id).value;
        GrantKeepsKeys(b.db, c, id, expected, g, w);
        KeysStayOnce(rows, WriteGrant(b.db, c, id, expected, g, w.envelopeId, w.clock).db.rows, (c.actor.tenant, id));
      }
    case OtherEvidence(_, _, _, _, _) =>
    case Tamper(k, row) =>
      TamperKeepsKeys(b, k, row);
      KeysStayOnce(rows, next, k);
    case Repair(actor, id) =>
      RepairKeepsKeys(b.db, actor, id);
      KeysStayOnce(rows, Rebuild(b.db, actor, id).db.rows, (actor.tenant, id));
  }

  lemma TamperKeepsKeys(b: Books, k: RowKey, row: Option<Projection>)
    ensures KeepsKeys(b.db.rows, Apply(b, Tamper(k, row)).db.rows, k)
  {
    hide RowAllowed;
  }

  /** Over every schedule, careful or not, no two rows of a tenant have the same idempotency key. */
  lemma {:induction false} KeysHeldOnce(schedule: seq<Step>)
    ensures KeysOnce(Run(schedule).db.rows)
    decreases |schedule|
  {
    if schedule != [] {
      hide Apply, KeysOnce;
      KeysHeldOnce(schedule[..|schedule| - 1]);
      StepKeepsKeys(Run(schedule[..|schedule| - 1]), schedule[|schedule| - 1]);
    }
  }

  // ---- Rebuild ----

  /** What the table demands of the fold of a story: a grant exactly in `grant_issued`, and that the
      run which the request names is the actor's. */
  predicate Storable(runs: map<RunKey, RunLog>, s: Stored) {
    var r := (s.actor.tenant, s.request.runId);
    (s.state == GrantIssued <==> s.grant.Some?) && r in runs && runs[r].owner == s.actor.actor
  }

  lemma RebuiltAllowedExactly(runs: map<RunKey, RunLog>, actor: ActorContext, id: Id)
    requires ReplayRun(runs, actor, id).Some?
    ensures var s := ReplayRun(runs, actor, id).value;
            s.evidence != [] && (RowAllowed(runs, (actor.tenant, id), RebuiltRow(s)) <==> Storable(runs, s))
  {
    hide StoryRuns, ReplayRun;
    ReplayedFacts(runs, actor, id);
  }

  /** Whatever was done to the cache and to the evidence, a rebuild passes exactly when the evidence
      replays to something that the table can hold, a lost row's idempotency key was not taken
      meanwhile, and a present row still has its owner and its key columns, which the upsert does not
      restore. */
  lemma RebuildPassesExactly(db: LifecycleDb, actor: ActorContext, id: Id)
    ensures var k := (actor.tenant, id);
            Rebuild(db, actor, id).value.Some? <==>
              && ReplayRun(db.runs, actor, id).Some?
              && var s := ReplayRun(db.runs, actor, id).value;
                 && Storable(db.runs, s)
                 && (k !in db.rows ==> KeyFree(db.rows, k, s.request.idempotency.key))
                 && (k in db.rows ==>
                       db.rows[k].owner == actor.actor && db.rows[k].columns == ColumnsOf(s.request, s.policy))
  {
    hide ReplayRun, KeyFree, Storable;
    var k := (actor.tenant, id);
    if ReplayRun(db.runs, actor, id).Some? {
      var s := ReplayRun(db.runs, actor, id).value;
      RebuiltAllowedExactly(db.runs, actor, id);
      ReplayedFacts(db.runs, actor, id);
      var made := RebuiltRow(s);
      if k in db.rows {
        if db.rows[k].owner == actor.actor && db.rows[k].columns == ColumnsOf(s.request, s.policy) {
          assert made.(owner := db.rows[k].owner, columns := db.rows[k].columns) == made;
        }
      }
    }
  }

  /** For a request whose story was not disturbed it passes for its author and nobody else, up to key
      and key columns. */
  lemma UndisturbedRebuild(b: Books, actor: ActorContext, id: Id)
    requires Reachable(b) && (actor.tenant, id) !in b.disturbed
    ensures var k := (actor.tenant, id);
            && (ReplayRun(b.db.runs, actor, id).Some? <==> k in b.authors && b.authors[k] == actor)
            && (ReplayRun(b.db.runs, actor, id).Some? ==> Storable(b.db.runs, ReplayRun(b.db.runs, actor, id).value))
  {
    hide Reachable, ReplayRun, WellFormed, MentionedIn, MentionOk, CacheOk;
    ReachableFacts(b);
    var k := (actor.tenant, id);
    if k in b.authors && b.authors[k] == actor {
      assert StoryOk(b.db.runs, k, actor);
    }
    if ReplayRun(b.db.runs, actor, id).Some? {
      LoaderIsAuthor(b, actor, id);
      var s := ReplayRun(b.db.runs, actor, id).value;
      ReplayedFacts(b.db.runs, actor, id);
      StoryRunOwner(b.db.runs, actor, id, (k.0, s.request.runId));
    }
  }

  /** A rebuild leaves the evidence and every other row alone, makes the next load return the fold
      of the evidence, and changes nothing when repeated. */
  lemma RebuildRestores(db: LifecycleDb, actor: ActorContext, id: Id)
    requires Rebuild(db, actor, id).value.Some?
    ensures var x, k := Rebuild(db, actor, id), (actor.tenant, id);
            && x.db.runs == db.runs && x.db.rows - {k} == db.rows - {k}
            && x.value == ReplayRun(db.runs, actor, id) && Load(x.db, actor, id) == x.value
            && k in x.db.rows && x.db.rows[k] == RebuiltRow(x.value.value)
            && Rebuild(x.db, actor, id) == x
  {
    hide KeyFree, ReplayRun, RowAllowed, Storable;
    RebuildPassesExactly(db, actor, id);
    RebuiltAllowedExactly(db.runs, actor, id);
    ReplayedFacts(db.runs, actor, id);
    var x, k := Rebuild(db, actor, id), (actor.tenant, id);
    assert x.db.rows - {k} == db.rows - {k};
    assert x.db.rows[k := x.db.rows[k]] == x.db.rows;
  }

  // ---- Evidence by other writers ----

  /** The event is by the actor's own name and mentions the request. */
  predicate Concerns(actor: ActorContext, id: Id, writer: ActorContext, payload: Payload) {
    Mentions(payload, id) && writer.tenant == actor.tenant && writer.actor == actor.actor
  }

  /** The generic append of an event leaves the load of a request as it was exactly when the event does
      not concern the request, or mentions it where its story is and under another kind.  Otherwise
      the next load fails. */
  lemma ForeignEvidenceExact(b: Books, actor: ActorContext, id: Id, writer: ActorContext, run: Id, ref: Ref,
                             payload: Payload, w: Writing)
    requires Reachable(b) && Load(b.db, actor, id).Some?
    requires AppendEvidence(b.db.runs, writer, run, w.envelopeId, ref, payload, w.clock).Some?
    ensures var v := Apply(b, OtherEvidence(writer, run, ref, payload, w));
            && v.db.rows == b.db.rows
            && Load(v.db, actor, id) ==
               if Concerns(actor, id, writer, payload)
                  && (StoryRuns(b.db.runs, actor, id) != {(writer.tenant, run)} || LifecycleKind(payload))
               then None else Load(b.db, actor, id)
  {
    hide Reachable, Sound, AppendEvidence, Appended, Story, StoryRuns, ReplayRun, ReplayStory, RowAllowed, Mentions,
         WellFormed, Harmless, MentionedKeys, LifecycleAuthority, Load;
    ReachableSound(b);
    SoundRuns(b.db);
    LoadMeans(b.db, actor, id);
    AppendEvidenceAppends(b.db.runs, writer, run, w.envelopeId, ref, payload, w.clock);
    var x := AppendEvidence(b.db.runs, writer, run, w.envelopeId, ref, payload, w.clock).value;
    ForeignReplay(b.db.runs, x.0, (writer.tenant, run), x.1, actor, id);
    LoadsAsReplayed(b.db, b.db.(runs := x.0), actor, id);
  }

  /** With the row untouched, a load passes exactly when the replay is the same. */
  lemma LoadsAsReplayed(db: LifecycleDb, next: LifecycleDb, actor: ActorContext, id: Id)
    requires Sound(db) && Load(db, actor, id).Some? && next.rows == db.rows
    requires ReplayRun(next.runs, actor, id) == ReplayRun(db.runs, actor, id)
             || ReplayRun(next.runs, actor, id).None?
             || ReplayRun(next.runs, actor, id).value.version != ReplayRun(db.runs, actor, id).value.version
    ensures ReplayRun(db.runs, actor, id) == Load(db, actor, id)
    ensures Load(next, actor, id) ==
            if ReplayRun(next.runs, actor, id) == ReplayRun(db.runs, actor, id) then Load(db, actor, id) else None
  {
    hide Sound, ReplayRun, RowAllowed, LifecycleAuthority;
    LoadMeans(db, actor, id);
  }

  /** What one more event of any run does to the replay of a request. */
  lemma ForeignReplay(runs: map<RunKey, RunLog>, next: map<RunKey, RunLog>, r: RunKey, e: Event, actor: ActorContext,
                      id: Id)
    requires (forall q | q in runs :: WellFormed(runs[q])) && Appended(runs, next, r, e)
    requires ReplayRun(runs, actor, id).Some?
    ensures var concerns := Mentions(e.payload, id) && r.0 == actor.tenant && next[r].owner == actor.actor;
            var home := StoryRuns(runs, actor, id) == {r};
            var s := ReplayRun(next, actor, id);
            && (concerns && !home ==> s == None)
            && (concerns && home && LifecycleKind(e.payload) ==>
                  (s.Some? ==> s.value.version == ReplayRun(runs, actor, id).value.version + 1))
            && (!concerns || (home && !LifecycleKind(e.payload)) ==> s == ReplayRun(runs, actor, id))
  {
    hide WellFormed, StoryRuns, Story, ReplayRun, ReplayStory, Mentions, Appended;
    ReplayedFacts(runs, actor, id);
    AppendedFacts(runs, next, r, e);
    var q :| StoryRuns(runs, actor, id) == {q};
    StoryRunOwner(runs, actor, id, q);
    StoryRunsAppended(runs, next, r, e, actor, id);
    var concerns := Mentions(e.payload, id) && r.0 == actor.tenant && next[r].owner == actor.actor;
    if concerns && q != r {
      TwoStoryRuns(next, actor, id, q, r);
    } else if concerns && LifecycleKind(e.payload) {
      ReplayExtended(runs, next, e, actor, id, r);
      ReplayVersion(Story(runs[r].events, id), actor, id);
      ReplayVersion(Story(runs[r].events, id) + [e], actor, id);
    } else {
      ReplayUnaffected(runs, next, r, e, actor, id, q);
    }
    forall x | StoryRuns(runs, actor, id) == {x} ensures x == q { assert x in {q}; }
  }
}
