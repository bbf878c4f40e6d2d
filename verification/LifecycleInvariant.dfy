/** Requests interleaved with each other, with effect evidence and with damage to the cache, and
    what every step keeps. */
module LifecycleInvariant {
  import opened Records
  import opened EvidenceChain
  import opened EffectStore
  import opened LifecycleStore

  datatype Writing = Writing(envelopeId: Id, clock: int)

  datatype Step =
    | Submission(actor: ActorContext, request: Request, policy: Policy, state: LifecycleState, ref: Ref, w: Writing)
    | AcceptApproval(actor: ActorContext, id: Id, expected: nat, approval: Approval, ref: Ref, w: Writing)
    | RecordGrant(actor: ActorContext, id: Id, expected: nat, grant: Grant, ref: Ref, w: Writing)
    | OtherEvidence(actor: ActorContext, run: Id, ref: Ref, payload: Payload, w: Writing)
    | Tamper(key: RowKey, row: Option<Projection>)
    | Repair(actor: ActorContext, id: Id)

  /** The last four are history variables: who submitted a request; which rows were tampered with
      since they last agreed with the evidence; which requests had their story disturbed, by being
      submitted again after their row was lost or by evidence of somebody else; and which events of a
      run came through the generic append. */
  datatype Books = Books(
    db: LifecycleDb, authors: map<RowKey, ActorContext>, stale: set<RowKey>, disturbed: set<RowKey>,
    others: map<RunKey, seq<Event>>)

  const EMPTY := Books(LifecycleDb(map[], map[]), map[], {}, {}, map[])

  /** Evidence of other kinds: effect events, and plain events that mention no request, or a
      request whose story is in the same run. */
  predicate Harmless(b: Books, r: RunKey, p: Payload) {
    match p
    case EffectIntent(_, _, _, _, _, _) => true
    case EffectOutcome(_, _, _, _, _, _) => true
    case OtherPayload(_, _, mentioned) =>
      mentioned.Some? ==> r in b.db.runs && MentionedIn(b.db.runs[r].events, mentioned.value)
    case _ => false
  }

  /** The request that a payload mentions, if it does. */
  function MentionedKeys(tenant: Id, p: Payload): set<RowKey> {
    match p
    case PolicyDecided(_, _, r, _, _, _, _) => {(tenant, r.requestId)}
    case ApprovalAccepted(_, id, _, _, _, _, _) => {(tenant, id)}
    case GrantRecorded(_, id, _, _, _, _, _) => {(tenant, id)}
    case OtherPayload(_, _, Some(id)) => {(tenant, id)}
    case _ => {}
  }

  ghost function Apply(b: Books, s: Step): Books {
    match s
    case Submission(actor, request, policy, state, ref, w) =>
      var x := Submit(b.db, actor, request, policy, state, ref, w.envelopeId, w.clock);
      if x.db == b.db then b
      else
        var k := (actor.tenant, request.requestId);
        b.(db := x.db, authors := b.authors[k := actor], disturbed := b.disturbed + if Lost(b, k) then {k} else {})
    case AcceptApproval(actor, id, expected, a, ref, w) =>
      b.(db := Approve(b.db, actor, id, expected, a, ref, w.envelopeId, w.clock).db)
    case RecordGrant(actor, id, expected, g, ref, w) =>
      b.(db := IssueGrant(b.db, actor, id, expected, g, ref, w.envelopeId, w.clock).db)
    case OtherEvidence(actor, run, ref, payload, w) =>
      (match AppendEvidence(b.db.runs, actor, run, w.envelopeId, ref, payload, w.clock)
       case None => b
       case Some((runs, e)) =>
         var r := (actor.tenant, run);
         b.(db := b.db.(runs := runs), others := b.others[r := OthersIn(b.others, r) + [e]],
            disturbed := b.disturbed + if Harmless(b, r, payload) then {} else MentionedKeys(actor.tenant, payload)))
    case Tamper(k, None) => b.(db := b.db.(rows := b.db.rows - {k}), stale := b.stale + {k})
    case Tamper(k, Some(row)) =>
      if RowAllowed(b.db.runs, k, row) && KeyFree(b.db.rows, k, row.columns.idempotencyKey)
      then b.(db := b.db.(rows := b.db.rows[k := row]), stale := b.stale + {k}) else b
    case Repair(actor, id) =>
      var x := Rebuild(b.db, actor, id);
      if x.value.Some? then b.(db := x.db, stale := b.stale - {(actor.tenant, id)}) else b
  }

  ghost function Run(schedule: seq<Step>): Books
    decreases |schedule|
  {
    if schedule == [] then EMPTY else Apply(Run(schedule[..|schedule| - 1]), schedule[|schedule| - 1])
  }

  /** The cached row of a request is gone while its evidence is there. */
  predicate Lost(b: Books, k: RowKey) { k in b.authors && k !in b.db.rows }

  predicate Reckless(b: Books, s: Step) {
    || (s.Submission? && Lost(b, (s.actor.tenant, s.request.requestId)))
    || (s.OtherEvidence? && !Harmless(b, (s.actor.tenant, s.run), s.payload))
  }

  /** No submission of this schedule hits a request whose row was deleted and not rebuilt, and no
      other evidence poses as a request's story or mentions a request from elsewhere. */
  ghost predicate Careful(schedule: seq<Step>)
    decreases |schedule|
  {
    schedule == [] ||
    (var rest := schedule[..|schedule| - 1];
     Careful(rest) && !Reckless(Run(rest), schedule[|schedule| - 1]))
  }

  // ---- The invariant ----

  /** Which fields a state comes with: the version counts the story's events. */
  predicate StateOk(s: Stored) {
    && |s.evidence| == s.version
    && match s.state
       case Denied => s.policy.decision == Deny && s.approval.None? && s.grant.None? && s.version == 1
       case ApprovalRequired =>
         s.policy.decision == RequireApproval && s.approval.None? && s.grant.None? && s.version == 1
       case Approved => s.policy.decision == RequireApproval && s.approval.Some? && s.grant.None? && s.version == 2
       case GrantIssued => s.policy.decision == RequireApproval && s.approval.Some? && s.grant.Some? && s.version == 3
       case PolicyAuthorized => false
  }

  /** A request's evidence replays, and all of it is in the run that the request names. */
  ghost predicate StoryOk(runs: map<RunKey, RunLog>, k: RowKey, actor: ActorContext) {
    && actor.tenant == k.0
    && var s := ReplayRun(runs, actor, k.1);
       s.Some? && StateOk(s.value) && StoryRuns(runs, actor, k.1) == {(k.0, s.value.request.runId)}
  }

  ghost predicate Agrees(db: LifecycleDb, k: RowKey, actor: ActorContext) {
    && k in db.rows && db.rows[k].owner == actor.actor
    && var s := ReplayRun(db.runs, actor, k.1);
       s.Some? && s.value.evidence != [] && RowView(db.rows[k]) == StoredView(s.value)
  }

  ghost predicate MentionOk(b: Books, r: RunKey, id: Id)
    requires r in b.db.runs
  {
    MentionedIn(b.db.runs[r].events, id) && (r.0, id) !in b.disturbed ==>
      (r.0, id) in b.authors && b.db.runs[r].owner == b.authors[(r.0, id)].actor
  }

  ghost predicate RunsOk(b: Books) {
    && (forall r | r in b.db.runs :: WellFormed(b.db.runs[r]))
    && (forall r, id | r in b.db.runs :: MentionOk(b, r, id))
  }

  ghost predicate StoriesOk(b: Books) {
    forall k | k in b.authors && k !in b.disturbed :: StoryOk(b.db.runs, k, b.authors[k])
  }

  ghost predicate CacheOk(b: Books) {
    && (forall k | k in b.db.rows :: RowAllowed(b.db.runs, k, b.db.rows[k]))
    && (forall k | k in b.db.rows && k !in b.stale && k !in b.disturbed :: k in b.authors)
    && (forall k | k in b.authors && k !in b.stale && k !in b.disturbed :: Agrees(b.db, k, b.authors[k]))
  }

  ghost predicate Inv(b: Books) { RunsOk(b) && StoriesOk(b) && CacheOk(b) }

  // ---- Replay after one more event ----

  lemma StoryAppended(events: seq<Event>, e: Event, id: Id)
    ensures Story(events + [e], id) == Story(events, id) + (if InStory(e, id) then [e] else [])
  {
    assert (events + [e])[..|events + [e]| - 1] == events;
  }

  lemma MentionAppended(events: seq<Event>, e: Event, id: Id)
    ensures MentionedIn(events + [e], id) <==> MentionedIn(events, id) || Mentions(e.payload, id)
  {
    if MentionedIn(events, id) {
      var i :| 0 <= i < |events| && Mentions(events[i].payload, id);
      assert (events + [e])[i] == events[i];
    }
    if Mentions(e.payload, id) {
      assert (events + [e])[|events|] == e;
    }
  }

  lemma LinkedIsChainOk(events: seq<Event>)
    requires Linked(events)
    ensures ChainOk(events)
  {
    forall i | 0 <= i < |events| ensures ChainOkAt(events, i) { assert LinkedAt(events, i); }
  }

  lemma StoryRunsAppended(runs: map<RunKey, RunLog>, next: map<RunKey, RunLog>, r: RunKey, e: Event,
                          actor: ActorContext, id: Id)
    requires Appended(runs, next, r, e)
    ensures StoryRuns(next, actor, id) ==
            StoryRuns(runs, actor, id)
              + (if r.0 == actor.tenant && next[r].owner == actor.actor && Mentions(e.payload, id) then {r} else {})
  {
    hide WellFormed, Mentions;
    MentionAppended(if r in runs then runs[r].events else [], e, id);
  }

  /** Replay, when one run is known to hold the whole story. */
  lemma ReplayAt(runs: map<RunKey, RunLog>, actor: ActorContext, id: Id, r: RunKey)
    requires StoryRuns(runs, actor, id) == {r}
    ensures r in runs
    ensures ReplayRun(runs, actor, id)
            == if ChainOk(runs[r].events) then ReplayStory(Story(runs[r].events, id), actor, id) else None
  {
    assert r in StoryRuns(runs, actor, id);
    forall q | StoryRuns(runs, actor, id) == {q} ensures q == r { assert q in {r}; }
  }

  /** An event outside a story, in a run it is in already or without a mention, changes no replay. */
  lemma ReplayUnaffected(runs: map<RunKey, RunLog>, next: map<RunKey, RunLog>, r: RunKey, e: Event,
                         actor: ActorContext, id: Id, home: RunKey)
    requires Appended(runs, next, r, e) && StoryRuns(runs, actor, id) == {home} && WellFormed(runs[home])
    requires Mentions(e.payload, id) && r.0 == actor.tenant && next[r].owner == actor.actor ==>
               r == home && !LifecycleKind(e.payload)
    ensures ReplayRun(next, actor, id) == ReplayRun(runs, actor, id) && StoryRuns(next, actor, id) == {home}
  {
    hide ReplayStory, Mentions, Story, WellFormed, ReplayRun, StoryRuns;
    StoryRunsAppended(runs, next, r, e, actor, id);
    assert StoryRuns(next, actor, id) == {home};
    ReplayAt(runs, actor, id, home);
    ReplayAt(next, actor, id, home);
    StoryRunOwner(runs, actor, id, home);
    if r == home {
      StoryAppended(runs[r].events, e, id);
      assert Story(next[r].events, id) == Story(runs[r].events, id);
      ChainsOk(runs[r]);
      ChainsOk(next[r]);
    } else {
      assert next[home] == runs[home];
    }
  }

  lemma StoryRunOwner(runs: map<RunKey, RunLog>, actor: ActorContext, id: Id, r: RunKey)
    requires r in StoryRuns(runs, actor, id)
    ensures r in runs && r.0 == actor.tenant && runs[r].owner == actor.actor && MentionedIn(runs[r].events, id)
  {
  }

  lemma InStoryRuns(runs: map<RunKey, RunLog>, actor: ActorContext, id: Id, r: RunKey)
    requires r in runs && r.0 == actor.tenant && runs[r].owner == actor.actor && MentionedIn(runs[r].events, id)
    ensures r in StoryRuns(runs, actor, id)
  {
  }

  lemma ChainsOk(log: RunLog)
    requires WellFormed(log)
    ensures ChainOk(log.events)
  {
    LinkedIsChainOk(log.events);
  }

  lemma ReplayExtended(runs: map<RunKey, RunLog>, next: map<RunKey, RunLog>, e: Event, actor: ActorContext, id: Id,
                       home: RunKey)
    requires Appended(runs, next, home, e) && StoryRuns(runs, actor, id) == {home} && WellFormed(runs[home])
             && InStory(e, id)
    ensures StoryRuns(next, actor, id) == {home}
    ensures ReplayRun(runs, actor, id) == ReplayStory(Story(runs[home].events, id), actor, id)
    ensures ReplayRun(next, actor, id) == ReplayStory(Story(runs[home].events, id) + [e], actor, id)
  {
    hide ReplayStory, Mentions, Story, WellFormed, ReplayRun, StoryRuns;
    StoryRunsAppended(runs, next, home, e, actor, id);
    assert StoryRuns(next, actor, id) == {home};
    ReplayAt(runs, actor, id, home);
    ReplayAt(next, actor, id, home);
    StoryAppended(runs[home].events, e, id);
    ChainsOk(runs[home]);
    ChainsOk(next[home]);
  }

  /** One more event in a story is one more turn of the fold. */
  lemma ExtendStory(story: seq<Event>, actor: ActorContext, id: Id, s: Stored, e: Event)
    requires ReplayStory(story, actor, id) == Some(s)
    ensures s.evidence == story && story != [] && s.version == |story| && s.actor == actor && s.request.requestId == id
    ensures var f := FoldStep(Folded(s.approval, s.grant, s.state), e, actor, s.request, s.policy);
            ReplayStory(story + [e], actor, id) ==
            if f.Some? && LifecycleAuthority(actor, s.request, s.policy, f.value.approval, f.value.grant)
            then Some(Stored(actor, s.request, s.policy, f.value.approval, f.value.grant, f.value.state, |story| + 1,
                             story + [e]))
            else None
  {
    hide FoldStep, LifecycleAuthority, FoldEvents, FirstOk;
    assert (story + [e])[0] == story[0];
    assert (story + [e])[1..] == story[1..] + [e];
    FirstNamesRequest(actor, id, story[0]);
    var first := story[0].payload;
    FoldAppended(story[1..], e, Folded(None, None, first.next), actor, first.request, first.policy);
  }

  lemma FirstNamesRequest(actor: ActorContext, id: Id, first: Event)
    ensures FirstOk(actor, id, first) ==> first.payload.PolicyDecided? && first.payload.request.requestId == id
  {
  }

  lemma FoldAppended(events: seq<Event>, e: Event, start: Folded, actor: ActorContext, r: Request, p: Policy)
    ensures FoldEvents(events + [e], start, actor, r, p) ==
            match FoldEvents(events, start, actor, r, p) case None => None case Some(f) => FoldStep(f, e, actor, r, p)
  {
    hide FoldStep;
    assert (events + [e])[..|events + [e]| - 1] == events;
  }

  // ---- Submissions ----

  lemma FirstReplay(actor: ActorContext, r: Request, p: Policy, state: LifecycleState, e: Event)
    requires SubmissionValid(actor, r, p, state, PolicyRef(p))
    requires e.payload == SubmissionPayload(actor, r, p, state) && e.policyRef == PolicyRef(p)
    ensures ReplayStory([e], actor, r.requestId) == Some(Stored(actor, r, p, None, None, state, 1, [e]))
  {
    assert [e][1..] == [];
  }

  lemma NoStory(events: seq<Event>, id: Id)
    requires !MentionedIn(events, id)
    ensures Story(events, id) == []
    decreases |events|
  {
    if events != [] {
      assert !Mentions(events[|events| - 1].payload, id);
      var rest := events[..|events| - 1];
      assert forall i | 0 <= i < |rest| :: rest[i] == events[i] && !Mentions(rest[i].payload, id);
      NoStory(events[..|events| - 1], id);
    }
  }

  lemma SubmittedStory(runs: map<RunKey, RunLog>, next: map<RunKey, RunLog>, actor: ActorContext, r: Request, p: Policy,
                       state: LifecycleState, e: Event)
    requires SubmissionValid(actor, r, p, state, PolicyRef(p))
    requires e.payload == SubmissionPayload(actor, r, p, state) && e.policyRef == PolicyRef(p)
    requires var k := (actor.tenant, r.runId);
             Appended(runs, next, k, e) && next[k].owner == actor.actor && (k in runs ==> WellFormed(runs[k]))
    requires StoryRuns(runs, actor, r.requestId) == {}
    ensures ReplayRun(next, actor, r.requestId) == Some(Stored(actor, r, p, None, None, state, 1, [e]))
    ensures StoryRuns(next, actor, r.requestId) == {(actor.tenant, r.runId)}
  {
    hide ReplayStory, Story, WellFormed, ReplayRun, StoryRuns, SubmissionValid, MentionedIn;
    var k, id := (actor.tenant, r.runId), r.requestId;
    StoryRunsAppended(runs, next, k, e, actor, id);
    assert StoryRuns(next, actor, id) == {k};
    ReplayAt(next, actor, id, k);
    var before := if k in runs then runs[k].events else [];
    if k !in runs {
      NothingMentioned(id);
    } else if MentionedIn(before, id) {
      InStoryRuns(runs, actor, id, k);
    }
    NoStory(before, id);
    StoryAppended(before, e, id);
    assert Story(next[k].events, id) == [e];
    ChainsOk(next[k]);
    FirstReplay(actor, r, p, state, e);
  }

  lemma NothingMentioned(id: Id)
    ensures !MentionedIn([], id)
  {
  }

  lemma NoStoryRuns(runs: map<RunKey, RunLog>, actor: ActorContext, id: Id)
    requires forall q | q in runs && q.0 == actor.tenant :: !MentionedIn(runs[q].events, id)
    ensures StoryRuns(runs, actor, id) == {}
  {
  }

  // ---- Approvals and grants ----

  lemma ApprovedStory(runs: map<RunKey, RunLog>, next: map<RunKey, RunLog>, actor: ActorContext, id: Id, s: Stored,
                      a: Approval, e: Event)
    requires ReplayRun(runs, actor, id) == Some(s) && StoryRuns(runs, actor, id) == {(actor.tenant, s.request.runId)}
    requires StateOk(s) && s.state == ApprovalRequired && ParsedApproval(actor, a)
    requires LifecycleAuthority(actor, s.request, s.policy, Some(a), None)
    requires e.payload == ApprovalPayload(s, a) && e.policyRef == PolicyRef(s.policy) && s.actor == actor
             && s.request.requestId == id
    requires var k := (actor.tenant, s.request.runId); Appended(runs, next, k, e) && k in runs && WellFormed(runs[k])
    ensures StoryRuns(next, actor, id) == {(actor.tenant, s.request.runId)}
    ensures ReplayRun(next, actor, id)
            == Some(s.(state := Approved, version := s.version + 1, evidence := s.evidence + [e],
                       approval := Some(a)))
  {
    hide ReplayStory, Story, WellFormed, ReplayRun, StoryRuns, LifecycleAuthority;
    var k := (actor.tenant, s.request.runId);
    ReplayExtended(runs, next, e, actor, id, k);
    ExtendStory(Story(runs[k].events, id), actor, id, s, e);
  }

  lemma GrantedStory(runs: map<RunKey, RunLog>, next: map<RunKey, RunLog>, actor: ActorContext, id: Id, s: Stored,
                     g: Grant, e: Event)
    requires ReplayRun(runs, actor, id) == Some(s) && StoryRuns(runs, actor, id) == {(actor.tenant, s.request.runId)}
    requires StateOk(s) && s.state == Approved && ParsedGrant(actor, g)
    requires LifecycleAuthority(actor, s.request, s.policy, s.approval, Some(g))
    requires e.payload == GrantPayload(s, g) && e.policyRef == PolicyRef(s.policy) && s.actor == actor
             && s.request.requestId == id
    requires var k := (actor.tenant, s.request.runId); Appended(runs, next, k, e) && k in runs && WellFormed(runs[k])
    ensures StoryRuns(next, actor, id) == {(actor.tenant, s.request.runId)}
    ensures ReplayRun(next, actor, id)
            == Some(s.(state := GrantIssued, version := s.version + 1, evidence := s.evidence + [e],
                       grant := Some(g)))
  {
    hide ReplayStory, Story, WellFormed, ReplayRun, StoryRuns, LifecycleAuthority;
    var k := (actor.tenant, s.request.runId);
    ReplayExtended(runs, next, e, actor, id, k);
    ExtendStory(Story(runs[k].events, id), actor, id, s, e);
  }

  // ---- One appended event and the invariant ----

  /** One event is appended to run `r`, and besides that only the requests in `touched` change. */
  ghost predicate Grown(b: Books, v: Books, r: RunKey, e: Event, touched: set<RowKey>) {
    && Appended(b.db.runs, v.db.runs, r, e) && v.stale == b.stale && b.disturbed <= v.disturbed
    && (forall j | j in b.authors :: j in v.authors && v.authors[j] == b.authors[j])
    && (forall j | j in v.authors :: j in b.authors || j in touched)
    && (forall j | j !in touched ::
          (j in v.db.rows <==> j in b.db.rows) && (j in v.db.rows ==> v.db.rows[j] == b.db.rows[j]))
    && (forall id | Mentions(e.payload, id) && (r.0, id) !in v.disturbed ::
          && (r.0, id) in v.authors && v.db.runs[r].owner == v.authors[(r.0, id)].actor
          && ((r.0, id) in touched
              || (!LifecycleKind(e.payload) && r in b.db.runs && MentionedIn(b.db.runs[r].events, id))))
  }

  lemma GrownRuns(b: Books, v: Books, r: RunKey, e: Event, touched: set<RowKey>)
    requires RunsOk(b) && Grown(b, v, r, e, touched)
    ensures RunsOk(v)
  {
    hide WellFormed, Mentions, MentionedIn;
    forall q, id | q in v.db.runs ensures MentionOk(v, q, id) {
      if q in b.db.runs {
        assert MentionOk(b, q, id);
      } else {
        NothingMentioned(id);
      }
      if q == r {
        MentionAppended(if r in b.db.runs then b.db.runs[r].events else [], e, id);
      }
    }
  }

  /** The story of a request that the event does not concern. */
  lemma GrownStory(b: Books, v: Books, r: RunKey, e: Event, touched: set<RowKey>, j: RowKey)
    requires RunsOk(b) && Grown(b, v, r, e, touched) && j in b.authors && j !in touched && j !in v.disturbed
             && StoryOk(b.db.runs, j, b.authors[j])
    ensures StoryOk(v.db.runs, j, b.authors[j])
    ensures ReplayRun(v.db.runs, b.authors[j], j.1) == ReplayRun(b.db.runs, b.authors[j], j.1)
  {
    hide WellFormed, Mentions, MentionedIn, StoryRuns, ReplayRun, StateOk;
    var actor := b.authors[j];
    var home := (j.0, ReplayRun(b.db.runs, actor, j.1).value.request.runId);
    assert home in StoryRuns(b.db.runs, actor, j.1);
    StoryRunOwner(b.db.runs, actor, j.1, home);
    if Mentions(e.payload, j.1) && r.0 == actor.tenant && v.db.runs[r].owner == actor.actor {
      assert (r.0, j.1) == j;
      InStoryRuns(b.db.runs, actor, j.1, r);
      assert r == home;
    }
    ReplayUnaffected(b.db.runs, v.db.runs, r, e, actor, j.1, home);
  }

  lemma AllowedStays(runs: map<RunKey, RunLog>, next: map<RunKey, RunLog>, r: RunKey, e: Event, k: RowKey,
                     row: Projection)
    requires Appended(runs, next, r, e) && RowAllowed(runs, k, row)
    ensures RowAllowed(next, k, row)
  {
    hide WellFormed;
  }

  lemma GrownCache(b: Books, v: Books, r: RunKey, e: Event, touched: set<RowKey>)
    requires RunsOk(b) && StoriesOk(b) && CacheOk(b) && Grown(b, v, r, e, touched)
    requires forall j | j in touched ::
               && (j in v.db.rows ==> RowAllowed(v.db.runs, j, v.db.rows[j]))
               && (j in v.db.rows && j !in v.stale && j !in v.disturbed ==> j in v.authors)
               && (j in v.authors && j !in v.stale && j !in v.disturbed ==> Agrees(v.db, j, v.authors[j]))
    ensures CacheOk(v)
  {
    hide RunsOk, StoryOk, RowAllowed, ReplayRun, Appended, Mentions, MentionedIn;
    forall j | j in v.db.rows ensures RowAllowed(v.db.runs, j, v.db.rows[j]) {
      if j !in touched {
        AllowedStays(b.db.runs, v.db.runs, r, e, j, v.db.rows[j]);
      }
    }
    forall j | j in v.authors && j !in v.stale && j !in v.disturbed ensures Agrees(v.db, j, v.authors[j]) {
      if j !in touched {
        assert Agrees(b.db, j, b.authors[j]);
        GrownStory(b, v, r, e, touched, j);
      }
    }
  }

  lemma GrownInv(b: Books, v: Books, r: RunKey, e: Event, touched: set<RowKey>)
    requires Inv(b) && Grown(b, v, r, e, touched)
    requires forall j | j in touched ::
               && (j in v.db.rows ==> RowAllowed(v.db.runs, j, v.db.rows[j]))
               && (j in v.db.rows && j !in v.stale && j !in v.disturbed ==> j in v.authors)
               && (j in v.authors && j !in v.stale && j !in v.disturbed ==> Agrees(v.db, j, v.authors[j]))
               && (j in v.authors && j !in v.disturbed ==> StoryOk(v.db.runs, j, v.authors[j]))
    ensures Inv(v)
  {
    hide RunsOk, CacheOk, StoryOk, RowAllowed, Agrees, Appended, Mentions, MentionedIn;
    GrownRuns(b, v, r, e, touched);
    GrownCache(b, v, r, e, touched);
    forall j | j in v.authors && j !in v.disturbed ensures StoryOk(v.db.runs, j, v.authors[j]) {
      if j !in touched {
        GrownStory(b, v, r, e, touched, j);
      }
    }
  }

  // ---- Each step ----

  lemma UnmentionedRuns(b: Books, tenant: Id, id: Id)
    requires RunsOk(b) && (tenant, id) !in b.authors && (tenant, id) !in b.disturbed
    ensures forall q | q in b.db.runs && q.0 == tenant :: !MentionedIn(b.db.runs[q].events, id)
  {
    hide WellFormed, MentionedIn;
    forall q | q in b.db.runs && q.0 == tenant ensures !MentionedIn(b.db.runs[q].events, id) {
      assert MentionOk(b, q, id);
    }
  }

  /** The books after a submission that wrote. */
  function Submitted(b: Books, runs: map<RunKey, RunLog>, e: Event, actor: ActorContext, r: Request, p: Policy,
                     state: LifecycleState): Books {
    var k := (actor.tenant, r.requestId);
    b.(db := LifecycleDb(runs, b.db.rows[k := SubmittedRow(actor, r, p, state, e)]), authors := b.authors[k := actor])
  }

  lemma FreshSubmission(b: Books, runs: map<RunKey, RunLog>, e: Event, actor: ActorContext, r: Request, p: Policy,
                        state: LifecycleState, w: Writing)
    requires RunsOk(b) && SubmissionValid(actor, r, p, state, PolicyRef(p))
    requires AppendEvidence(b.db.runs, actor, r.runId, w.envelopeId, PolicyRef(p),
                            SubmissionPayload(actor, r, p, state), w.clock) == Some((runs, e))
    requires (actor.tenant, r.requestId) !in b.authors && (actor.tenant, r.requestId) !in b.disturbed
    ensures var v, k := Submitted(b, runs, e, actor, r, p, state), (actor.tenant, r.requestId);
            && Grown(b, v, (actor.tenant, r.runId), e, {k})
            && StoryOk(runs, k, actor) && Agrees(v.db, k, actor)
            && ReplayRun(runs, actor, r.requestId) == Some(Stored(actor, r, p, None, None, state, 1, [e]))
  {
    hide WellFormed, MentionedIn, StoryRuns, ReplayRun, AppendEvidence, LifecycleAuthority, Appended;
    var k, home := (actor.tenant, r.requestId), (actor.tenant, r.runId);
    AppendEvidenceAppends(b.db.runs, actor, r.runId, w.envelopeId, PolicyRef(p),
                          SubmissionPayload(actor, r, p, state), w.clock);
    UnmentionedRuns(b, actor.tenant, r.requestId);
    assert Appended(b.db.runs, runs, home, e);
    NoStoryRuns(b.db.runs, actor, r.requestId);
    SubmittedStory(b.db.runs, runs, actor, r, p, state, e);
  }

  lemma ExactRef(actor: ActorContext, r: Request, p: Policy, state: LifecycleState, ref: Ref)
    requires SubmissionValid(actor, r, p, state, ref)
    ensures SubmissionValid(actor, r, p, state, PolicyRef(p))
  {
    hide LifecycleAuthority;
  }

  /** An event and a row for a request whose story was disturbed. */
  lemma DisturbedGrows(b: Books, v: Books, r: RunKey, e: Event, k: RowKey)
    requires Inv(b) && k in v.disturbed && b.disturbed <= v.disturbed && v.stale == b.stale
    requires Appended(b.db.runs, v.db.runs, r, e) && (forall id | Mentions(e.payload, id) :: (r.0, id) == k)
    requires k in v.db.rows && v.db.rows == b.db.rows[k := v.db.rows[k]] && RowAllowed(v.db.runs, k, v.db.rows[k])
    requires v.authors == b.authors || (k in v.authors && v.authors == b.authors[k := v.authors[k]])
    ensures Inv(v)
  {
    hide StoryOk, RowAllowed, Agrees, Mentions, MentionOk, Appended;
    DisturbedRuns(b, v, r, e, k);
    forall j | j in v.db.rows ensures RowAllowed(v.db.runs, j, v.db.rows[j]) {
      if j != k { AllowedStays(b.db.runs, v.db.runs, r, e, j, b.db.rows[j]); }
    }
    forall j | j in v.authors && j !in v.disturbed
      ensures StoryOk(v.db.runs, j, v.authors[j]) && (j !in v.stale ==> Agrees(v.db, j, v.authors[j]))
    {
      DisturbedStory(b, v, r, e, k, j);
    }
  }

  lemma DisturbedRuns(b: Books, v: Books, r: RunKey, e: Event, k: RowKey)
    requires RunsOk(b) && k in v.disturbed && b.disturbed <= v.disturbed
    requires Appended(b.db.runs, v.db.runs, r, e) && (forall id | Mentions(e.payload, id) :: (r.0, id) == k)
    requires v.authors == b.authors || (k in v.authors && v.authors == b.authors[k := v.authors[k]])
    ensures RunsOk(v)
  {
    hide WellFormed, Mentions, MentionedIn;
    forall q, id | q in v.db.runs ensures MentionOk(v, q, id) {
      if q in b.db.runs {
        assert MentionOk(b, q, id);
      } else {
        NothingMentioned(id);
      }
      if q == r {
        MentionAppended(EventsIn(b.db.runs, r), e, id);
      }
    }
  }

  lemma DisturbedStory(b: Books, v: Books, r: RunKey, e: Event, k: RowKey, j: RowKey)
    requires RunsOk(b) && StoriesOk(b) && CacheOk(b) && k in v.disturbed && b.disturbed <= v.disturbed
             && v.stale == b.stale
    requires Appended(b.db.runs, v.db.runs, r, e) && (forall id | Mentions(e.payload, id) :: (r.0, id) == k)
    requires k in v.db.rows && v.db.rows == b.db.rows[k := v.db.rows[k]]
    requires v.authors == b.authors || (k in v.authors && v.authors == b.authors[k := v.authors[k]])
    requires j in v.authors && j !in v.disturbed
    ensures StoryOk(v.db.runs, j, v.authors[j]) && (j !in v.stale ==> Agrees(v.db, j, v.authors[j]))
  {
    hide WellFormed, Mentions, MentionedIn, StoryRuns, ReplayRun, StateOk, RowAllowed;
    var actor := b.authors[j];
    assert StoryOk(b.db.runs, j, actor);
    var home := (j.0, ReplayRun(b.db.runs, actor, j.1).value.request.runId);
    assert home in StoryRuns(b.db.runs, actor, j.1);
    StoryRunOwner(b.db.runs, actor, j.1, home);
    ReplayUnaffected(b.db.runs, v.db.runs, r, e, actor, j.1, home);
    if j !in v.stale { assert Agrees(b.db, j, actor); }
  }

  lemma SubmissionKeepsInv(b: Books, actor: ActorContext, r: Request, p: Policy, state: LifecycleState, ref: Ref,
                           w: Writing)
    requires Inv(b)
    ensures Inv(Apply(b, Submission(actor, r, p, state, ref, w)))
  {
    hide RowAllowed, SubmissionValid, AppendEvidence, KeyFree, StoryOk, Agrees, RunsOk, StoriesOk, CacheOk, Load, Grown,
         Appended;
    var v := Apply(b, Submission(actor, r, p, state, ref, w));
    if v != b {
      var k, home := (actor.tenant, r.requestId), (actor.tenant, r.runId);
      var x := AppendEvidence(b.db.runs, actor, r.runId, w.envelopeId, PolicyRef(p),
                              SubmissionPayload(actor, r, p, state), w.clock);
      var e := x.value.1;
      ExactRef(actor, r, p, state, ref);
      assert v.db == LifecycleDb(x.value.0, b.db.rows[k := SubmittedRow(actor, r, p, state, e)]);
      if k in v.disturbed {
        RunsWellFormed(b);
        AppendEvidenceAppends(b.db.runs, actor, r.runId, w.envelopeId, PolicyRef(p),
                              SubmissionPayload(actor, r, p, state), w.clock);
        DisturbedGrows(b, v, home, e, k);
      } else {
        assert v == Submitted(b, x.value.0, e, actor, r, p, state);
        FreshSubmission(b, x.value.0, e, actor, r, p, state, w);
        GrownInv(b, v, home, e, {k});
      }
    }
  }

  lemma RunsWellFormed(b: Books)
    requires RunsOk(b)
    ensures forall r | r in b.db.runs :: WellFormed(b.db.runs[r])
  {
    hide WellFormed, MentionOk;
  }

  /** Whoever can load a request is its author. */
  lemma LoaderIsAuthor(b: Books, actor: ActorContext, id: Id)
    requires RunsOk(b) && StoriesOk(b) && ReplayRun(b.db.runs, actor, id).Some? && (actor.tenant, id) !in b.disturbed
    ensures (actor.tenant, id) in b.authors && b.authors[(actor.tenant, id)] == actor
            && StoryOk(b.db.runs, (actor.tenant, id), actor)
  {
    hide WellFormed, MentionedIn, StoryRuns, FoldEvents, LifecycleAuthority, StateOk;
    var k := (actor.tenant, id);
    var r :| StoryRuns(b.db.runs, actor, id) == {r};
    StoryRunOwner(b.db.runs, actor, id, r);
    assert MentionOk(b, r, id);
    var author := b.authors[k];
    assert StoryOk(b.db.runs, k, author);
    SameStoryRuns(b.db.runs, actor, author, id);
    ReplayAt(b.db.runs, actor, id, r);
    ReplayAt(b.db.runs, author, id, r);
  }

  lemma SameStoryRuns(runs: map<RunKey, RunLog>, a: ActorContext, b: ActorContext, id: Id)
    requires a.tenant == b.tenant && a.actor == b.actor
    ensures StoryRuns(runs, a, id) == StoryRuns(runs, b, id)
  {
  }

  lemma StoredFacts(runs: map<RunKey, RunLog>, actor: ActorContext, id: Id)
    ensures var s := ReplayRun(runs, actor, id);
            s.Some? ==> s.value.actor == actor && s.value.request.requestId == id && s.value.evidence != []
                        && LifecycleAuthority(actor, s.value.request, s.value.policy, s.value.approval, s.value.grant)
  {
    hide WellFormed, MentionedIn, StoryRuns, FoldEvents, LifecycleAuthority;
  }

  /** A transition of a loaded request, once its event is appended. */
  ghost predicate Advanced(b: Books, v: Books, actor: ActorContext, id: Id, s: Stored, e: Event, next: Stored) {
    && v.authors == b.authors && v.stale == b.stale && v.disturbed == b.disturbed
    && Appended(b.db.runs, v.db.runs, (actor.tenant, s.request.runId), e)
    && v.db.runs[(actor.tenant, s.request.runId)].owner == actor.actor
    && LifecycleKind(e.payload) && (forall i | Mentions(e.payload, i) :: i == id)
    && StoryRuns(v.db.runs, actor, id) == {(actor.tenant, s.request.runId)}
    && ReplayRun(v.db.runs, actor, id) == Some(next) && StateOk(next) && next.evidence != []
    && next.request == s.request
    && var k := (actor.tenant, id);
       k in v.db.rows && v.db.rows == b.db.rows[k := v.db.rows[k]] && RowAllowed(v.db.runs, k, v.db.rows[k])
       && v.db.rows[k].owner == actor.actor && RowView(v.db.rows[k]) == StoredView(next)
  }

  lemma AdvancedKeepsInv(b: Books, v: Books, actor: ActorContext, id: Id, s: Stored, e: Event, next: Stored)
    requires Inv(b) && (actor.tenant, id) in b.authors && b.authors[(actor.tenant, id)] == actor
             && (actor.tenant, id) !in b.disturbed
    requires Advanced(b, v, actor, id, s, e, next)
    ensures Inv(v)
  {
    hide RunsOk, StoriesOk, CacheOk, RowAllowed, Appended, StoryRuns, ReplayRun, Mentions, MentionedIn, StateOk;
    var k := (actor.tenant, id);
    assert Grown(b, v, (actor.tenant, s.request.runId), e, {k});
    GrownInv(b, v, (actor.tenant, s.request.runId), e, {k});
  }

  /** A loaded request replays, is stored as loaded, and its home run is open to its actor. */
  lemma LoadedFacts(b: Books, actor: ActorContext, id: Id)
    requires Inv(b) && Load(b.db, actor, id).Some? && (actor.tenant, id) !in b.disturbed
    ensures var s, k := Load(b.db, actor, id).value, (actor.tenant, id);
            && k in b.authors && b.authors[k] == actor && ReplayRun(b.db.runs, actor, id) == Some(s)
            && s.actor == actor && s.request.requestId == id && s.evidence != [] && StateOk(s)
            && LifecycleAuthority(actor, s.request, s.policy, s.approval, s.grant)
            && StoryRuns(b.db.runs, actor, id) == {(actor.tenant, s.request.runId)}
            && (actor.tenant, s.request.runId) in b.db.runs && WellFormed(b.db.runs[(actor.tenant, s.request.runId)])
            && k in b.db.rows && b.db.rows[k].owner == actor.actor && RowView(b.db.rows[k]) == StoredView(s)
  {
    hide WellFormed, MentionedIn, StoryRuns, ReplayRun, LifecycleAuthority, StateOk, RowAllowed, Agrees, MentionOk;
    LoaderIsAuthor(b, actor, id);
    StoredFacts(b.db.runs, actor, id);
    var home := (actor.tenant, ReplayRun(b.db.runs, actor, id).value.request.runId);
    StoryRunOwner(b.db.runs, actor, id, home);
  }

  /** The answer of a transition that passes its checks. */
  lemma ApprovalAdvances(b: Books, actor: ActorContext, id: Id, s: Stored, expected: nat, a: Approval, w: Writing)
    requires Inv(b) && Load(b.db, actor, id) == Some(s) && (actor.tenant, id) !in b.disturbed
    requires s.state == ApprovalRequired && s.version == expected && ParsedApproval(actor, a)
    requires LifecycleAuthority(actor, s.request, s.policy, Some(a), None)
    ensures var x := WriteApproval(b.db, s, id, expected, a, w.envelopeId, w.clock);
            (x.value.None? ==> x.db == b.db)
            && (x.value.Some? ==> exists e :: Advanced(b, b.(db := x.db), actor, id, s, e, x.value.value))
  {
    hide Inv, Load, WellFormed, MentionedIn, StoryRuns, ReplayRun, LifecycleAuthority, RowAllowed, AppendEvidence,
         Appended;
    var x := WriteApproval(b.db, s, id, expected, a, w.envelopeId, w.clock);
    LoadedFacts(b, actor, id);
    if x.value.Some? {
      AppendEvidenceAppends(b.db.runs, actor, s.request.runId, w.envelopeId, PolicyRef(s.policy),
                            ApprovalPayload(s, a), w.clock);
      var e := AppendEvidence(b.db.runs, actor, s.request.runId, w.envelopeId, PolicyRef(s.policy),
                              ApprovalPayload(s, a), w.clock).value.1;
      ApprovedStory(b.db.runs, x.db.runs, actor, id, s, a, e);
      assert Advanced(b, b.(db := x.db), actor, id, s, e, x.value.value);
    }
  }

  lemma GrantAdvances(b: Books, actor: ActorContext, id: Id, s: Stored, expected: nat, g: Grant, w: Writing)
    requires Inv(b) && Load(b.db, actor, id) == Some(s) && (actor.tenant, id) !in b.disturbed
    requires (s.state == Approved || s.state == PolicyAuthorized) && s.version == expected
    requires ParsedGrant(actor, g) && LifecycleAuthority(actor, s.request, s.policy, s.approval, Some(g))
    ensures var x := WriteGrant(b.db, s, id, expected, g, w.envelopeId, w.clock);
            (x.value.None? ==> x.db == b.db)
            && (x.value.Some? ==> exists e :: Advanced(b, b.(db := x.db), actor, id, s, e, x.value.value))
  {
    hide Inv, Load, WellFormed, MentionedIn, StoryRuns, ReplayRun, LifecycleAuthority, RowAllowed, AppendEvidence,
         Appended;
    var x := WriteGrant(b.db, s, id, expected, g, w.envelopeId, w.clock);
    LoadedFacts(b, actor, id);
    if x.value.Some? {
      AppendEvidenceAppends(b.db.runs, actor, s.request.runId, w.envelopeId, PolicyRef(s.policy), GrantPayload(s, g),
                            w.clock);
      var e := AppendEvidence(b.db.runs, actor, s.request.runId, w.envelopeId, PolicyRef(s.policy),
                              GrantPayload(s, g), w.clock).value.1;
      GrantedStory(b.db.runs, x.db.runs, actor, id, s, g, e);
      assert Advanced(b, b.(db := x.db), actor, id, s, e, x.value.value);
    }
  }

  /** A transition that wrote appended one event of its request, and replaced its row. */
  ghost predicate Transition(b: LifecycleDb, v: LifecycleDb, actor: ActorContext, id: Id, run: Id, e: Event) {
    && Appended(b.runs, v.runs, (actor.tenant, run), e) && (forall i | Mentions(e.payload, i) :: i == id)
    && (actor.tenant, id) in v.rows && v.rows == b.rows[(actor.tenant, id) := v.rows[(actor.tenant, id)]]
    && RowAllowed(v.runs, (actor.tenant, id), v.rows[(actor.tenant, id)])
  }

  lemma LoadedActor(db: LifecycleDb, actor: ActorContext, id: Id)
    requires Load(db, actor, id).Some?
    ensures var s := Load(db, actor, id).value; s.actor == actor && s.request.requestId == id
  {
    hide LifecycleAuthority, StoryRuns, FoldEvents;
  }

  lemma ApprovalTransition(db: LifecycleDb, actor: ActorContext, id: Id, expected: nat, a: Approval, ref: Ref,
                           w: Writing)
    requires forall r | r in db.runs :: WellFormed(db.runs[r])
    ensures var x := Approve(db, actor, id, expected, a, ref, w.envelopeId, w.clock);
            x.db != db ==> Load(db, actor, id).Some?
                           && exists e :: Transition(db, x.db, actor, id, Load(db, actor, id).value.request.runId, e)
  {
    hide LifecycleAuthority, RowAllowed, AppendEvidence, Load, WellFormed, Appended;
    var x := Approve(db, actor, id, expected, a, ref, w.envelopeId, w.clock);
    if x.db != db {
      var s := Load(db, actor, id).value;
      LoadedActor(db, actor, id);
      AppendEvidenceAppends(db.runs, actor, s.request.runId, w.envelopeId, PolicyRef(s.policy), ApprovalPayload(s, a),
                            w.clock);
      var e := AppendEvidence(db.runs, actor, s.request.runId, w.envelopeId, PolicyRef(s.policy),
                              ApprovalPayload(s, a), w.clock).value.1;
      assert Transition(db, x.db, actor, id, s.request.runId, e);
    }
  }

  lemma GrantTransition(db: LifecycleDb, actor: ActorContext, id: Id, expected: nat, g: Grant, ref: Ref, w: Writing)
    requires forall r | r in db.runs :: WellFormed(db.runs[r])
    ensures var x := IssueGrant(db, actor, id, expected, g, ref, w.envelopeId, w.clock);
            x.db != db ==> Load(db, actor, id).Some?
                           && exists e :: Transition(db, x.db, actor, id, Load(db, actor, id).value.request.runId, e)
  {
    hide LifecycleAuthority, RowAllowed, AppendEvidence, Load, WellFormed, Appended;
    var x := IssueGrant(db, actor, id, expected, g, ref, w.envelopeId, w.clock);
    if x.db != db {
      var s := Load(db, actor, id).value;
      LoadedActor(db, actor, id);
      AppendEvidenceAppends(db.runs, actor, s.request.runId, w.envelopeId, PolicyRef(s.policy), GrantPayload(s, g),
                            w.clock);
      var e := AppendEvidence(db.runs, actor, s.request.runId, w.envelopeId, PolicyRef(s.policy), GrantPayload(s, g),
                              w.clock).value.1;
      assert Transition(db, x.db, actor, id, s.request.runId, e);
    }
  }

  lemma DisturbedTransition(b: Books, v: Books, actor: ActorContext, id: Id, run: Id)
    requires Inv(b) && (actor.tenant, id) in b.disturbed && v == b.(db := v.db)
    requires exists e :: Transition(b.db, v.db, actor, id, run, e)
    ensures Inv(v)
  {
    hide Inv, RowAllowed, Appended, Mentions;
    var e :| Transition(b.db, v.db, actor, id, run, e);
    DisturbedGrows(b, v, (actor.tenant, run), e, (actor.tenant, id));
  }

  lemma ApprovalKeepsInv(b: Books, actor: ActorContext, id: Id, expected: nat, a: Approval, ref: Ref, w: Writing)
    requires Inv(b)
    ensures Inv(Apply(b, AcceptApproval(actor, id, expected, a, ref, w)))
  {
    hide Inv, Load, LifecycleAuthority, WriteApproval, Advanced, Transition;
    var v := Apply(b, AcceptApproval(actor, id, expected, a, ref, w));
    var x := Approve(b.db, actor, id, expected, a, ref, w.envelopeId, w.clock);
    if x.db == b.db {
      assert v == b;
    } else {
      var s := Load(b.db, actor, id).value;
      if (actor.tenant, id) in b.disturbed {
        InvRuns(b);
        ApprovalTransition(b.db, actor, id, expected, a, ref, w);
        DisturbedTransition(b, v, actor, id, s.request.runId);
      } else {
        LoadedFacts(b, actor, id);
        ApprovalAdvances(b, actor, id, s, expected, a, w);
        var e :| Advanced(b, v, actor, id, s, e, x.value.value);
        AdvancedKeepsInv(b, v, actor, id, s, e, x.value.value);
      }
    }
  }

  lemma InvRuns(b: Books)
    requires Inv(b)
    ensures forall r | r in b.db.runs :: WellFormed(b.db.runs[r])
  {
    hide StoriesOk, CacheOk, WellFormed, MentionOk;
  }

  lemma GrantKeepsInv(b: Books, actor: ActorContext, id: Id, expected: nat, g: Grant, ref: Ref, w: Writing)
    requires Inv(b)
    ensures Inv(Apply(b, RecordGrant(actor, id, expected, g, ref, w)))
  {
    hide Inv, Load, LifecycleAuthority, WriteGrant, Advanced, Transition;
    var v := Apply(b, RecordGrant(actor, id, expected, g, ref, w));
    var x := IssueGrant(b.db, actor, id, expected, g, ref, w.envelopeId, w.clock);
    if x.db == b.db {
      assert v == b;
    } else {
      var s := Load(b.db, actor, id).value;
      if (actor.tenant, id) in b.disturbed {
        InvRuns(b);
        GrantTransition(b.db, actor, id, expected, g, ref, w);
        DisturbedTransition(b, v, actor, id, s.request.runId);
      } else {
        LoadedFacts(b, actor, id);
        GrantAdvances(b, actor, id, s, expected, g, w);
        var e :| Advanced(b, v, actor, id, s, e, x.value.value);
        AdvancedKeepsInv(b, v, actor, id, s, e, x.value.value);
      }
    }
  }

  lemma OtherEvidenceKeepsInv(b: Books, actor: ActorContext, run: Id, ref: Ref, payload: Payload, w: Writing)
    requires Inv(b)
    ensures Inv(Apply(b, OtherEvidence(actor, run, ref, payload, w)))
  {
    hide Inv, AppendEvidence, Appended, MentionedIn, WellFormed, Harmless, MentionedKeys, Grown;
    var v, r := Apply(b, OtherEvidence(actor, run, ref, payload, w)), (actor.tenant, run);
    var x := AppendEvidence(b.db.runs, actor, run, w.envelopeId, ref, payload, w.clock);
    if x.Some? {
      InvRuns(b);
      AppendEvidenceAppends(b.db.runs, actor, run, w.envelopeId, ref, payload, w.clock);
      OtherIsGrown(b, v, r, x.value.1);
      GrownInv(b, v, r, x.value.1, {});
    }
  }

  lemma OtherIsGrown(b: Books, v: Books, r: RunKey, e: Event)
    requires Inv(b) && Appended(b.db.runs, v.db.runs, r, e) && v.db.rows == b.db.rows
    requires v.authors == b.authors && v.stale == b.stale
             && v.disturbed == b.disturbed + if Harmless(b, r, e.payload) then {} else MentionedKeys(r.0, e.payload)
    ensures Grown(b, v, r, e, {})
  {
    hide MentionedIn, WellFormed, StoriesOk, CacheOk;
    forall id | Mentions(e.payload, id) && (r.0, id) !in v.disturbed
      ensures (r.0, id) in v.authors && v.db.runs[r].owner == v.authors[(r.0, id)].actor
              && !LifecycleKind(e.payload) && r in b.db.runs && MentionedIn(b.db.runs[r].events, id)
    {
      if r in b.db.runs { assert MentionOk(b, r, id); }
    }
  }

  lemma TamperKeepsInv(b: Books, k: RowKey, row: Option<Projection>)
    requires Inv(b)
    ensures Inv(Apply(b, Tamper(k, row)))
  {
    hide StoryOk, RowAllowed, ReplayRun, WellFormed, MentionedIn, KeyFree;
    var v := Apply(b, Tamper(k, row));
    forall j | j in v.authors && j !in v.stale && j !in v.disturbed ensures Agrees(v.db, j, v.authors[j]) {
      assert Agrees(b.db, j, b.authors[j]);
    }
    forall q, id | q in v.db.runs ensures MentionOk(v, q, id) { assert MentionOk(b, q, id); }
  }

  lemma RepairKeepsInv(b: Books, actor: ActorContext, id: Id)
    requires Inv(b)
    ensures Inv(Apply(b, Repair(actor, id)))
  {
    hide StoryOk, RowAllowed, ReplayRun, WellFormed, MentionedIn, KeyFree;
    var v, k := Apply(b, Repair(actor, id)), (actor.tenant, id);
    if Rebuild(b.db, actor, id).value.Some? {
      if k !in b.disturbed {
        LoaderIsAuthor(b, actor, id);
        StoredFacts(b.db.runs, actor, id);
        assert Agrees(v.db, k, actor);
      }
      forall j | j in v.authors && j !in v.stale && j !in v.disturbed && j != k ensures Agrees(v.db, j, v.authors[j]) {
        assert Agrees(b.db, j, b.authors[j]);
      }
      forall q, i | q in v.db.runs ensures MentionOk(v, q, i) { assert MentionOk(b, q, i); }
      forall j | j in v.authors && j !in v.disturbed ensures StoryOk(v.db.runs, j, v.authors[j]) {
        assert StoryOk(b.db.runs, j, b.authors[j]);
      }
    }
  }

  lemma StepKeepsInv(b: Books, s: Step)
    requires Inv(b)
    ensures Inv(Apply(b, s))
  {
    hide Inv, Apply;
    match s
    case Submission(actor, r, p, state, ref, w) => SubmissionKeepsInv(b, actor, r, p, state, ref, w);
    case AcceptApproval(actor, id, expected, a, ref, w) => ApprovalKeepsInv(b, actor, id, expected, a, ref, w);
    case RecordGrant(actor, id, expected, g, ref, w) => GrantKeepsInv(b, actor, id, expected, g, ref, w);
    case OtherEvidence(actor, run, ref, payload, w) => OtherEvidenceKeepsInv(b, actor, run, ref, payload, w);
    case Tamper(k, row) => TamperKeepsInv(b, k, row);
    case Repair(actor, id) => RepairKeepsInv(b, actor, id);
  }

  lemma {:induction false} ReachableInv(schedule: seq<Step>)
    ensures Inv(Run(schedule))
    decreases |schedule|
  {
    if schedule != [] {
      hide Inv, Apply;
      var rest := schedule[..|schedule| - 1];
      ReachableInv(rest);
      StepKeepsInv(Run(rest), schedule[|schedule| - 1]);
    }
  }

  /** Some schedule leads to these books. */
  ghost predicate Reachable(b: Books) { exists schedule :: Run(schedule) == b }

  lemma ReachableFacts(b: Books)
    requires Reachable(b)
    ensures Inv(b)
  {
    hide Inv, Run;
    var schedule :| Run(schedule) == b;
    ReachableInv(schedule);
  }

  /** A careful schedule disturbs no story. */
  lemma {:induction false} CarefulIsUndisturbed(schedule: seq<Step>)
    requires Careful(schedule)
    ensures Run(schedule).disturbed == {}
    decreases |schedule|
  {
    if schedule != [] {
      hide Apply, Reckless;
      var rest, s := schedule[..|schedule| - 1], schedule[|schedule| - 1];
      CarefulIsUndisturbed(rest);
      DisturbedByReckless(Run(rest), s);
    }
  }

  lemma DisturbedByReckless(b: Books, s: Step)
    requires !Reckless(b, s)
    ensures Apply(b, s).disturbed == b.disturbed
  {
    hide Submit, Approve, IssueGrant, AppendEvidence, Rebuild, Harmless, MentionedKeys, RowAllowed, KeyFree;
  }
}
