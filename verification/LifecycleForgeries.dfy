/** Lifecycle events that no submission, approval or grant wrote.  The store's generic append takes
    them like any other event, and a rebuild then makes them the request's story. */
module LifecycleForgeries {
  import opened Records
  import opened EvidenceChain
  import opened EffectStore
  import opened LifecycleStore
  import opened LifecycleExactly
  import opened LifecycleInvariant
  import opened LifecycleTheorems
  import opened LifecycleLoss

  /** The event takes a request further than a submission can. */
  predicate Promotes(p: Payload) {
    match p
    case PolicyDecided(_, _, _, _, _, _, next) => next != Denied && next != ApprovalRequired
    case ApprovalAccepted(_, _, _, _, _, _, _) => true
    case GrantRecorded(_, _, _, _, _, _, _) => true
    case _ => false
  }

  /** Without an approval a request has no grant and stands where a submission can put it. */
  predicate Guarded(s: Stored) {
    s.approval.None? ==> s.grant.None? && (s.state == Denied || s.state == ApprovalRequired)
  }

  // ---- What a fold takes from its events ----

  /** Has a grant, or stands further than a submission can put it. */
  predicate Further(f: Folded) { f.grant.Some? || (f.state != Denied && f.state != ApprovalRequired) }

  lemma StepTakes(f: Folded, e: Event, actor: ActorContext, r: Request, p: Policy)
    ensures var g := FoldStep(f, e, actor, r, p);
            g.Some? ==>
              && (g.value.approval.Some? <==> f.approval.Some? || e.payload.ApprovalAccepted?)
              && (Further(g.value) ==> Further(f) || Promotes(e.payload))
  {
  }

  lemma {:induction false} FoldTakes(events: seq<Event>, start: Folded, actor: ActorContext, r: Request, p: Policy)
    requires start.approval.None? && !Further(start)
    ensures var f := FoldEvents(events, start, actor, r, p);
            f.Some? ==>
              && (f.value.approval.Some? <==> exists e | e in events :: e.payload.ApprovalAccepted?)
              && (Further(f.value) ==> exists e | e in events :: Promotes(e.payload))
    decreases |events|
  {
    if events != [] {
      hide FoldStep, Further, Promotes;
      var rest, last := events[..|events| - 1], events[|events| - 1];
      FoldTakes(rest, start, actor, r, p);
      assert events == rest + [last];
      assert last in events;
      var f := FoldEvents(rest, start, actor, r, p);
      if f.Some? {
        StepTakes(f.value, last, actor, r, p);
      }
    }
  }

  /** The story is made of the events of its run that are in it. */
  lemma {:induction false} StoryMembers(events: seq<Event>, id: Id)
    ensures forall e :: e in Story(events, id) <==> e in events && InStory(e, id)
    decreases |events|
  {
    if events != [] {
      StoryMembers(events[..|events| - 1], id);
      assert events == events[..|events| - 1] + [events[|events| - 1]];
    }
  }

  /** One of the first `n` events of the run takes the request further. */
  ghost predicate Promoted(events: seq<Event>, n: nat, id: Id)
    requires n <= |events|
  {
    exists j | 0 <= j < n :: InStory(events[j], id) && Promotes(events[j].payload)
  }

  lemma StoryStart(story: seq<Event>, actor: ActorContext, id: Id)
    requires ReplayStory(story, actor, id).Some?
    ensures story != [] && story[0].payload.PolicyDecided?
            && (story[0].payload.next == Denied || story[0].payload.next == ApprovalRequired)
    ensures var s, first := ReplayStory(story, actor, id).value, story[0].payload;
            FoldEvents(story[1..], Folded(None, None, first.next), actor, s.request, s.policy)
            == Some(Folded(s.approval, s.grant, s.state))
  {
    hide LifecycleAuthority, FoldEvents;
  }

  /** A replayed request that has a grant or stands further than a submission can put it was promoted
      in the run of its story, and it has an approval exactly when one is among its events. */
  lemma UnguardedIsPromoted(runs: map<RunKey, RunLog>, actor: ActorContext, id: Id, r: RunKey)
    requires StoryRuns(runs, actor, id) == {r} && ReplayRun(runs, actor, id).Some?
    requires r in runs
    ensures var s, events := ReplayRun(runs, actor, id).value, runs[r].events;
            && (s.grant.Some? || (s.state != Denied && s.state != ApprovalRequired) ==> Promoted(events, |events|, id))
            && (s.approval.Some? <==> exists e | e in events :: InStory(e, id) && e.payload.ApprovalAccepted?)
  {
    hide StoryRuns, ReplayRun, ReplayStory, FoldEvents, Story, InStory, Promotes;
    ReplayedFacts(runs, actor, id);
    var s, events := ReplayRun(runs, actor, id).value, runs[r].events;
    var story := Story(events, id);
    StoryStart(story, actor, id);
    FoldTakes(story[1..], Folded(None, None, story[0].payload.next), actor, s.request, s.policy);
    StoryMembers(events, id);
    assert story == [story[0]] + story[1..];
    if e :| e in story[1..] && Promotes(e.payload) {
      var j :| 0 <= j < |events| && events[j] == e;
    }
  }

  // ---- What the writers keep ----

  /** Another run of the same owner mentions the request. */
  ghost predicate Split(runs: map<RunKey, RunLog>, r: RunKey, id: Id)
    requires r in runs
  {
    exists q :: q != r && q in runs && q.0 == r.0 && runs[q].owner == runs[r].owner && MentionedIn(runs[q].events, id)
  }

  /** The event came through the generic append, or it takes nothing further than it may: a decision
      only denies or asks for approval, and a grant comes after a promotion of its request (or its
      story is in another run). */
  ghost predicate Earned(runs: map<RunKey, RunLog>, others: map<RunKey, seq<Event>>, r: RunKey, i: nat)
    requires r in runs && i < |runs[r].events|
  {
    var e := runs[r].events[i];
    || e in OthersIn(others, r)
    || (&& (e.payload.PolicyDecided? ==> !Promotes(e.payload))
        && (e.payload.GrantRecorded? ==>
              Promoted(runs[r].events, i, e.payload.requestId) || Split(runs, r, e.payload.requestId)))
  }

  ghost predicate AllEarned(runs: map<RunKey, RunLog>, others: map<RunKey, seq<Event>>) {
    forall r, i: nat | r in runs && i < |runs[r].events| :: Earned(runs, others, r, i)
  }

  lemma SplitStays(runs: map<RunKey, RunLog>, next: map<RunKey, RunLog>, q: RunKey, e: Event, r: RunKey, id: Id)
    requires Appended(runs, next, q, e) && r in runs && Split(runs, r, id)
    ensures r in next && Split(next, r, id)
  {
    hide WellFormed, Mentions;
    var p :| p != r && p in runs && p.0 == r.0 && runs[p].owner == runs[r].owner && MentionedIn(runs[p].events, id);
    MentionAppended(runs[p].events, e, id);
    assert p in next && MentionedIn(next[p].events, id);
  }

  /** Events stay earned when one more is appended, if that one is. */
  lemma EarnedAppended(runs: map<RunKey, RunLog>, next: map<RunKey, RunLog>, others: map<RunKey, seq<Event>>,
                       more: map<RunKey, seq<Event>>, q: RunKey, e: Event)
    requires AllEarned(runs, others) && Appended(runs, next, q, e)
    requires forall r: RunKey, x | x in OthersIn(others, r) :: x in OthersIn(more, r)
    requires q in next && Earned(next, more, q, |next[q].events| - 1)
    ensures AllEarned(next, more)
  {
    hide Earned, WellFormed;
    forall r, i: nat | r in next && i < |next[r].events| ensures Earned(next, more, r, i) {
      if r in runs && i < |runs[r].events| {
        assert Earned(runs, others, r, i);
        StaysEarned(runs, next, others, more, q, e, r, i);
      }
    }
  }

  lemma StaysEarned(runs: map<RunKey, RunLog>, next: map<RunKey, RunLog>, others: map<RunKey, seq<Event>>,
                    more: map<RunKey, seq<Event>>, q: RunKey, e: Event, r: RunKey, i: nat)
    requires r in runs && i < |runs[r].events| && Earned(runs, others, r, i) && Appended(runs, next, q, e)
    requires forall s: RunKey, x | x in OthersIn(others, s) :: x in OthersIn(more, s)
    ensures r in next && i < |next[r].events| && Earned(next, more, r, i)
  {
    hide WellFormed, Split, InStory, Promotes;
    var x, n := runs[r].events[i], next[r].events;
    assert n[i] == x && forall j | 0 <= j < i :: n[j] == runs[r].events[j];
    if x.payload.GrantRecorded? && Split(runs, r, x.payload.requestId) {
      SplitStays(runs, next, q, e, r, x.payload.requestId);
    }
  }

  // ---- Each writer ----

  lemma SubmissionEarned(b: Books, actor: ActorContext, r: Request, p: Policy, state: LifecycleState, ref: Ref,
                         w: Writing)
    requires Sound(b.db) && AllEarned(b.db.runs, b.others)
    ensures AllEarned(Apply(b, Submission(actor, r, p, state, ref, w)).db.runs, b.others)
  {
    hide Sound, AllEarned, AppendEvidence, Appended, RowAllowed, KeyFree, Load, RowsByIdempotency, LifecycleAuthority;
    var v := Apply(b, Submission(actor, r, p, state, ref, w));
    if v.db.runs != b.db.runs {
      SoundRuns(b.db);
      var payload, home := SubmissionPayload(actor, r, p, state), (actor.tenant, r.runId);
      AppendEvidenceAppends(b.db.runs, actor, r.runId, w.envelopeId, PolicyRef(p), payload, w.clock);
      var x := AppendEvidence(b.db.runs, actor, r.runId, w.envelopeId, PolicyRef(p), payload, w.clock).value;
      AppendedFacts(b.db.runs, x.0, home, x.1);
      EarnedAppended(b.db.runs, x.0, b.others, b.others, home, x.1);
    }
  }

  lemma ApprovalEarned(b: Books, actor: ActorContext, id: Id, expected: nat, a: Approval, ref: Ref, w: Writing)
    requires Sound(b.db) && AllEarned(b.db.runs, b.others)
    ensures AllEarned(Apply(b, AcceptApproval(actor, id, expected, a, ref, w)).db.runs, b.others)
  {
    hide Sound, AllEarned, AppendEvidence, Appended, RowAllowed, Load, LifecycleAuthority;
    var v := Apply(b, AcceptApproval(actor, id, expected, a, ref, w));
    if v.db.runs != b.db.runs {
      SoundRuns(b.db);
      var s := Load(b.db, actor, id).value;
      var payload, home := ApprovalPayload(s, a), (s.actor.tenant, s.request.runId);
      AppendEvidenceAppends(b.db.runs, s.actor, s.request.runId, w.envelopeId, PolicyRef(s.policy), payload, w.clock);
      var x := AppendEvidence(b.db.runs, s.actor, s.request.runId, w.envelopeId, PolicyRef(s.policy), payload,
                              w.clock).value;
      AppendedFacts(b.db.runs, x.0, home, x.1);
      EarnedAppended(b.db.runs, x.0, b.others, b.others, home, x.1);
    }
  }

  /** A grant is recorded only for a request that was promoted, or whose story is in another run. */
  lemma GrantIsEarned(db: LifecycleDb, others: map<RunKey, seq<Event>>, next: map<RunKey, RunLog>, actor: ActorContext,
                      id: Id, e: Event)
    requires Sound(db) && Load(db, actor, id).Some?
    requires var s := Load(db, actor, id).value;
             && (s.state == PolicyAuthorized || s.state == Approved)
             && Appended(db.runs, next, (actor.tenant, s.request.runId), e)
             && e.payload.GrantRecorded? && e.payload.requestId == id
             && next[(actor.tenant, s.request.runId)].owner == actor.actor
    ensures var r := (actor.tenant, Load(db, actor, id).value.request.runId);
            r in next && |next[r].events| > 0 && Earned(next, others, r, |next[r].events| - 1)
  {
    hide Sound, Load, WellFormed, RowAllowed, StoryRuns, ReplayRun, LifecycleAuthority, Promoted;
    LoadMeans(db, actor, id);
    var s := Load(db, actor, id).value;
    var r := (actor.tenant, s.request.runId);
    AppendedFacts(db.runs, next, r, e);
    ReplayedFacts(db.runs, actor, id);
    var q :| StoryRuns(db.runs, actor, id) == {q};
    StoryRunOwner(db.runs, actor, id, q);
    if q == r {
      UnguardedIsPromoted(db.runs, actor, id, r);
      PromotedStays(db.runs[r].events, next[r].events, id);
    } else {
      assert q in next && next[q] == db.runs[q];
      assert Split(next, r, id);
    }
  }

  lemma PromotedStays(events: seq<Event>, longer: seq<Event>, id: Id)
    requires |events| <= |longer| && longer[..|events|] == events && Promoted(events, |events|, id)
    ensures Promoted(longer, |events|, id)
  {
    hide InStory, Promotes;
    var j :| 0 <= j < |events| && InStory(events[j], id) && Promotes(events[j].payload);
    assert longer[j] == longer[..|events|][j];
  }

  lemma GrantEarned(b: Books, actor: ActorContext, id: Id, expected: nat, g: Grant, ref: Ref, w: Writing)
    requires Sound(b.db) && AllEarned(b.db.runs, b.others)
    ensures AllEarned(Apply(b, RecordGrant(actor, id, expected, g, ref, w)).db.runs, b.others)
  {
    hide Sound, AllEarned, AppendEvidence, Appended, RowAllowed, Load, LifecycleAuthority, Earned;
    var v := Apply(b, RecordGrant(actor, id, expected, g, ref, w));
    if v.db.runs != b.db.runs {
      SoundRuns(b.db);
      LoadMeans(b.db, actor, id);
      var s := Load(b.db, actor, id).value;
      var payload, home := GrantPayload(s, g), (actor.tenant, s.request.runId);
      AppendEvidenceAppends(b.db.runs, actor, s.request.runId, w.envelopeId, PolicyRef(s.policy), payload, w.clock);
      var x := AppendEvidence(b.db.runs, actor, s.request.runId, w.envelopeId, PolicyRef(s.policy), payload,
                              w.clock).value;
      GrantIsEarned(b.db, b.others, x.0, actor, id, x.1);
      EarnedAppended(b.db.runs, x.0, b.others, b.others, home, x.1);
    }
  }

  lemma OtherEarned(b: Books, actor: ActorContext, run: Id, ref: Ref, payload: Payload, w: Writing)
    requires Sound(b.db) && AllEarned(b.db.runs, b.others)
    ensures var v := Apply(b, OtherEvidence(actor, run, ref, payload, w)); AllEarned(v.db.runs, v.others)
  {
    hide Sound, AllEarned, AppendEvidence, Appended, Harmless, MentionedKeys;
    var v, r := Apply(b, OtherEvidence(actor, run, ref, payload, w)), (actor.tenant, run);
    var x := AppendEvidence(b.db.runs, actor, run, w.envelopeId, ref, payload, w.clock);
    if x.Some? {
      SoundRuns(b.db);
      AppendEvidenceAppends(b.db.runs, actor, run, w.envelopeId, ref, payload, w.clock);
      AppendedFacts(b.db.runs, x.value.0, r, x.value.1);
      EarnedAppended(b.db.runs, x.value.0, b.others, v.others, r, x.value.1);
    }
  }

  lemma StepKeepsEarned(b: Books, s: Step)
    requires Sound(b.db) && AllEarned(b.db.runs, b.others)
    ensures var v := Apply(b, s); AllEarned(v.db.runs, v.others)
  {
    hide Sound, AllEarned, Submit, Approve, IssueGrant, AppendEvidence, Rebuild, RowAllowed, KeyFree, Harmless,
         MentionedKeys;
    match s
    case Submission(actor, r, p, state, ref, w) => SubmissionEarned(b, actor, r, p, state, ref, w);
    case AcceptApproval(actor, id, expected, a, ref, w) => ApprovalEarned(b, actor, id, expected, a, ref, w);
    case RecordGrant(actor, id, expected, g, ref, w) => GrantEarned(b, actor, id, expected, g, ref, w);
    case OtherEvidence(actor, run, ref, payload, w) => OtherEarned(b, actor, run, ref, payload, w);
    case Tamper(_, _) =>
    case Repair(actor, id) => RebuildKeepsRuns(b.db, actor, id);
  }

  lemma RebuildKeepsRuns(db: LifecycleDb, actor: ActorContext, id: Id)
    ensures Rebuild(db, actor, id).db.runs == db.runs
  {
    hide ReplayRun, RowAllowed, KeyFree;
  }

  lemma {:induction false} RunEarned(schedule: seq<Step>)
    ensures AllEarned(Run(schedule).db.runs, Run(schedule).others)
    decreases |schedule|
  {
    if schedule != [] {
      hide Apply, AllEarned, Sound;
      var rest := schedule[..|schedule| - 1];
      RunEarned(rest);
      assert Reachable(Run(rest));
      ReachableSound(Run(rest));
      StepKeepsEarned(Run(rest), schedule[|schedule| - 1]);
    }
  }

  // ---- Unapproved grants are forged ----

  /** An event that promotes the request, and is no approval, came through the generic append into the
      run of its story. */
  ghost predicate Forged(b: Books, actor: ActorContext, id: Id) {
    exists r, i: nat ::
      && r in StoryRuns(b.db.runs, actor, id) && r in b.db.runs && i < |b.db.runs[r].events|
      && InStory(b.db.runs[r].events[i], id) && Promotes(b.db.runs[r].events[i].payload)
      && !b.db.runs[r].events[i].payload.ApprovalAccepted? && b.db.runs[r].events[i] in OthersIn(b.others, r)
  }

  lemma {:induction false} FirstPromotion(events: seq<Event>, n: nat, id: Id) returns (i: nat)
    requires n <= |events| && Promoted(events, n, id)
    ensures i < n && InStory(events[i], id) && Promotes(events[i].payload) && !Promoted(events, i, id)
    decreases n
  {
    hide InStory, Promotes;
    var j: nat :| j < n && InStory(events[j], id) && Promotes(events[j].payload);
    if Promoted(events, j, id) {
      i := FirstPromotion(events, j, id);
    } else {
      i := j;
    }
  }

  /** Whatever happened: what loads or can be rebuilt without an approval, and has a grant or stands
      further than a submission can put it, does so by a forged event. */
  lemma UnguardedIsForged(b: Books, actor: ActorContext, id: Id)
    requires Reachable(b) && ReplayRun(b.db.runs, actor, id).Some? && !Guarded(ReplayRun(b.db.runs, actor, id).value)
    ensures Forged(b, actor, id)
  {
    hide StoryRuns, ReplayRun, Reachable, Run, InStory, Promotes, Promoted;
    SomeSchedule(b);
    var schedule :| Run(schedule) == b;
    RunEarned(schedule);
    ReplayedFacts(b.db.runs, actor, id);
    var r :| StoryRuns(b.db.runs, actor, id) == {r};
    UnguardedIsPromoted(b.db.runs, actor, id, r);
    var events := b.db.runs[r].events;
    var i := FirstPromotion(events, |events|, id);
    assert Earned(b.db.runs, b.others, r, i);
    FirstIsForeign(b.db.runs, b.others, actor, id, r, i);
  }

  lemma FirstIsForeign(runs: map<RunKey, RunLog>, others: map<RunKey, seq<Event>>, actor: ActorContext, id: Id,
                       r: RunKey, i: nat)
    requires StoryRuns(runs, actor, id) == {r} && r in runs && i < |runs[r].events| && Earned(runs, others, r, i)
    requires InStory(runs[r].events[i], id) && Promotes(runs[r].events[i].payload)
    requires !runs[r].events[i].payload.ApprovalAccepted? && !Promoted(runs[r].events, i, id)
    ensures runs[r].events[i] in OthersIn(others, r)
  {
    hide Promoted, Split, StoryRuns;
    NotSplit(runs, actor, id, r);
  }

  lemma NotSplit(runs: map<RunKey, RunLog>, actor: ActorContext, id: Id, r: RunKey)
    requires StoryRuns(runs, actor, id) == {r} && r in runs
    ensures !Split(runs, r, id)
  {
    hide MentionedIn, StoryRuns;
    assert r in StoryRuns(runs, actor, id);
    StoryRunOwner(runs, actor, id, r);
    forall q | q != r && q in runs && q.0 == r.0 && runs[q].owner == runs[r].owner
      ensures !MentionedIn(runs[q].events, id) {
      if MentionedIn(runs[q].events, id) {
        InStoryRuns(runs, actor, id, q);
      }
    }
  }

  /** Of every grant that loads, on any schedule: it fits the request, the policy and the approval if
      there is one, which then fits a policy that requires it.  It has none exactly when its story has
      a forged promotion and no approval. */
  lemma LoadedGrantsExactly(b: Books, actor: ActorContext, id: Id)
    requires Reachable(b) && Load(b.db, actor, id).Some? && Load(b.db, actor, id).value.grant.Some?
    ensures var s := Load(b.db, actor, id).value;
            && Permits(s.grant.value, actor, s.request, s.policy, s.approval)
            && (s.approval.Some? ==> Approves(s.approval.value, s.request, s.policy))
            && (s.approval.None? <==>
                  Forged(b, actor, id) && forall e | e in s.evidence :: !e.payload.ApprovalAccepted?)
  {
    hide Reachable, StoryRuns, ReplayRun, Forged, Sound, Load, InStory, Story, Promoted, LifecycleAuthority, Approves,
         Permits;
    ReachableSound(b);
    LoadMeans(b.db, actor, id);
    LoadedAuthority(b, actor, id);
    ReplayedFacts(b.db.runs, actor, id);
    var s := Load(b.db, actor, id).value;
    var r :| StoryRuns(b.db.runs, actor, id) == {r};
    UnguardedIsPromoted(b.db.runs, actor, id, r);
    StoryMembers(b.db.runs[r].events, id);
    EvidenceIsStory(Story(b.db.runs[r].events, id), actor, id);
    if s.approval.None? {
      UnguardedIsForged(b, actor, id);
    }
  }

  lemma EvidenceIsStory(story: seq<Event>, actor: ActorContext, id: Id)
    ensures ReplayStory(story, actor, id).Some? ==> ReplayStory(story, actor, id).value.evidence == story
  {
    hide FoldEvents, LifecycleAuthority;
  }

  /** Of every grant that a call records, on any schedule: without a forged event in the story it comes
      after an approval that fits a policy that requires it. */
  lemma RecordedGrantsWereApproved(b: Books, actor: ActorContext, id: Id, expected: nat, g: Grant, ref: Ref, w: Writing)
    requires Reachable(b) && IssueGrant(b.db, actor, id, expected, g, ref, w.envelopeId, w.clock).value.Some?
    requires !Forged(b, actor, id)
    ensures var s := Load(b.db, actor, id).value;
            && s.approval.Some? && Approves(s.approval.value, s.request, s.policy)
            && Permits(g, actor, s.request, s.policy, s.approval)
  {
    hide Reachable, ReplayRun, Forged, Sound, Load, WriteGrant, LifecycleAuthority, Approves, Permits;
    ReachableSound(b);
    LoadMeans(b.db, actor, id);
    LoadedAuthority(b, actor, id);
    var s := Load(b.db, actor, id).value;
    AuthorityExactly(actor, s.request, s.policy, s.approval, Some(g));
    if s.approval.None? {
      UnguardedIsForged(b, actor, id);
    }
  }

  // ---- One generic append, then a rebuild ----

  /** The books after somebody's event and the author's rebuild. */
  ghost function Adopted(b: Books, actor: ActorContext, id: Id, writer: ActorContext, run: Id, ref: Ref,
                         payload: Payload, w: Writing): Books {
    Apply(Apply(b, OtherEvidence(writer, run, ref, payload, w)), Repair(actor, id))
  }

  /** An event of the request's story that promotes it and is no approval. */
  predicate Forges(actor: ActorContext, id: Id, writer: ActorContext, payload: Payload) {
    Concerns(actor, id, writer, payload) && Promotes(payload) && !payload.ApprovalAccepted?
  }

  /** The event turns up in the story. */
  predicate Joins(actor: ActorContext, id: Id, writer: ActorContext, payload: Payload) {
    Concerns(actor, id, writer, payload) && LifecycleKind(payload)
  }

  /** From any state in which a request loads, somebody's event and then a rebuild: the request loads
      with the event in its story exactly when the event is one of its lifecycle where its story is,
      the replay loop takes it, the result fits the request and the table holds it.  It loads as
      before exactly when the event does not concern it, or is of another kind where its story is. */
  lemma AdoptedExactly(b: Books, actor: ActorContext, id: Id, writer: ActorContext, run: Id, ref: Ref, payload: Payload,
                       w: Writing)
    requires Reachable(b) && Load(b.db, actor, id).Some?
    requires AppendEvidence(b.db.runs, writer, run, w.envelopeId, ref, payload, w.clock).Some?
    ensures var s, e := Load(b.db, actor, id).value,
                        AppendEvidence(b.db.runs, writer, run, w.envelopeId, ref, payload, w.clock).value.1;
            var f := FoldStep(Folded(s.approval, s.grant, s.state), e, actor, s.request, s.policy);
            var home := StoryRuns(b.db.runs, actor, id) == {(writer.tenant, run)};
            Load(Adopted(b, actor, id, writer, run, ref, payload, w).db, actor, id) ==
            if !Concerns(actor, id, writer, payload) || (home && !LifecycleKind(payload)) then Some(s)
            else if home && f.Some? && (f.value.state == GrantIssued <==> f.value.grant.Some?)
                    && LifecycleAuthority(actor, s.request, s.policy, f.value.approval, f.value.grant)
            then Some(Stored(actor, s.request, s.policy, f.value.approval, f.value.grant, f.value.state, s.version + 1,
                             s.evidence + [e]))
            else None
  {
    hide Reachable, Sound, AppendEvidence, Appended, StoryRuns, ReplayRun, WellFormed, LifecycleAuthority, Load,
         Mentions, Harmless, MentionedKeys, RowAllowed, FoldStep, Rebuild, KeyFree, ColumnsOf;
    var s, r := Load(b.db, actor, id).value, (writer.tenant, run);
    var x := AppendEvidence(b.db.runs, writer, run, w.envelopeId, ref, payload, w.clock).value;
    var v := Apply(b, OtherEvidence(writer, run, ref, payload, w));
    ReachableSound(b);
    SoundRuns(b.db);
    LoadMeans(b.db, actor, id);
    AppendEvidenceAppends(b.db.runs, writer, run, w.envelopeId, ref, payload, w.clock);
    AppendedFacts(b.db.runs, x.0, r, x.1);
    ForeignEvidenceExact(b, actor, id, writer, run, ref, payload, w);
    ForeignReplay(b.db.runs, x.0, r, x.1, actor, id);
    RepairMakesLoad(v, actor, id);
    RebuildPassesExactly(v.db, actor, id);
    ReplayedFacts(b.db.runs, actor, id);
    if Joins(actor, id, writer, payload) && StoryRuns(b.db.runs, actor, id) == {r} {
      HomeReplay(b.db.runs, x.0, actor, id, r, x.1);
    }
  }

  /** So, of a request that is guarded, exactly the forging events lose the guard, and only while it
      has no approval: with one, every event that is taken leaves it there. */
  lemma ForgedExactly(b: Books, actor: ActorContext, id: Id, writer: ActorContext, run: Id, ref: Ref, payload: Payload,
                      w: Writing)
    requires Reachable(b) && Load(b.db, actor, id).Some? && Guarded(Load(b.db, actor, id).value)
    requires AppendEvidence(b.db.runs, writer, run, w.envelopeId, ref, payload, w.clock).Some?
    requires Load(Adopted(b, actor, id, writer, run, ref, payload, w).db, actor, id).Some?
    ensures var s, t := Load(b.db, actor, id).value,
            Load(Adopted(b, actor, id, writer, run, ref, payload, w).db, actor, id).value;
            && (Guarded(t) <==> s.approval.Some? || !Forges(actor, id, writer, payload))
            && (t.grant.Some? && t.approval.None? <==>
                  s.approval.None? && Forges(actor, id, writer, payload) && payload.GrantRecorded?)
  {
    hide Reachable, AppendEvidence, StoryRuns, LifecycleAuthority, Load, Adopted, Mentions, ReplayRun;
    AdoptedExactly(b, actor, id, writer, run, ref, payload, w);
    AppendedPayload(b.db.runs, writer, run, ref, payload, w);
  }

  lemma AppendedPayload(runs: map<RunKey, RunLog>, actor: ActorContext, run: Id, ref: Ref, payload: Payload, w: Writing)
    requires AppendEvidence(runs, actor, run, w.envelopeId, ref, payload, w.clock).Some?
    ensures AppendEvidence(runs, actor, run, w.envelopeId, ref, payload, w.clock).value.1.payload == payload
  {
  }

  // ---- Runs whose other writers write no lifecycle events ----

  predicate PlainWriters(schedule: seq<Step>) {
    forall i | 0 <= i < |schedule| && schedule[i].OtherEvidence? :: !LifecycleKind(schedule[i].payload)
  }

  lemma {:induction false} PlainOthers(schedule: seq<Step>, r: RunKey)
    requires PlainWriters(schedule)
    ensures forall e | e in OthersIn(Run(schedule).others, r) :: !LifecycleKind(e.payload)
    decreases |schedule|
  {
    if schedule != [] {
      hide Apply;
      PlainOthers(schedule[..|schedule| - 1], r);
      PlainStep(Run(schedule[..|schedule| - 1]), schedule[|schedule| - 1], r);
    }
  }

  lemma PlainStep(b: Books, s: Step, r: RunKey)
    requires (forall e | e in OthersIn(b.others, r) :: !LifecycleKind(e.payload))
             && (s.OtherEvidence? ==> !LifecycleKind(s.payload))
    ensures forall e | e in OthersIn(Apply(b, s).others, r) :: !LifecycleKind(e.payload)
  {
    hide Submit, Approve, IssueGrant, AppendEvidence, Rebuild, RowAllowed, KeyFree, Harmless, MentionedKeys;
    if s.OtherEvidence? && AppendEvidence(b.db.runs, s.actor, s.run, s.w.envelopeId, s.ref, s.payload,
                                          s.w.clock).Some? {
      AppendedPayload(b.db.runs, s.actor, s.run, s.ref, s.payload, s.w);
    }
  }

  /** When no other writer appends lifecycle events, whatever else happens (requests submitted again
      after a loss, foreign mentions, tampering, rebuilds): what loads without an approval has no grant
      and stands where it was submitted, and every grant comes after an approval that fits a policy
      that requires it. */
  lemma PlainWritersApprove(schedule: seq<Step>, actor: ActorContext, id: Id)
    requires PlainWriters(schedule) && Load(Run(schedule).db, actor, id).Some?
    ensures var s := Load(Run(schedule).db, actor, id).value;
            && Guarded(s)
            && (s.grant.Some? ==>
                  && s.approval.Some? && Approves(s.approval.value, s.request, s.policy)
                  && Permits(s.grant.value, actor, s.request, s.policy, s.approval))
  {
    hide Run, StoryRuns, ReplayRun, Load, Sound, OthersIn, LifecycleAuthority, Approves, Permits;
    var b := Run(schedule);
    assert Reachable(b);
    ReachableSound(b);
    LoadMeans(b.db, actor, id);
    LoadedAuthority(b, actor, id);
    if Forged(b, actor, id) {
      var r, i: nat :|
        && r in StoryRuns(b.db.runs, actor, id) && r in b.db.runs && i < |b.db.runs[r].events|
        && InStory(b.db.runs[r].events[i], id) && Promotes(b.db.runs[r].events[i].payload)
        && !b.db.runs[r].events[i].payload.ApprovalAccepted? && b.db.runs[r].events[i] in OthersIn(b.others, r);
      PlainOthers(schedule, r);
    } else if !Guarded(Load(b.db, actor, id).value) {
      UnguardedIsForged(b, actor, id);
    }
  }
}
