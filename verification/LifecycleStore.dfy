/** The event-sourced request lifecycle: evidence is the authority, the lifecycle table is a cache
    of it that can be rebuilt by replay. */
module LifecycleStore {
  import opened Records
  import opened EvidenceChain
  import opened EffectStore

  /** The columns that the table keeps beside the JSON documents. */
  datatype Columns = Columns(run: Id, requestDigest: Digest, idempotencyKey: Id, operation: Id, policyDigest: Digest)

  datatype Projection = Projection(
    owner: Id, columns: Columns, actor: ActorContext, request: Request, policy: Policy,
    approvals: seq<Approval>, grant: Option<Grant>, state: LifecycleState, version: nat,
    lastSequence: nat, lastDigest: Digest)

  datatype Stored = Stored(
    actor: ActorContext, request: Request, policy: Policy, approval: Option<Approval>,
    grant: Option<Grant>, state: LifecycleState, version: nat, evidence: seq<Event>)

  datatype LifecycleDb = LifecycleDb(runs: map<RunKey, RunLog>, rows: map<RowKey, Projection>)

  datatype Answer = Answer(db: LifecycleDb, value: Option<Stored>)

  // ---- Authority ----

  /** The durable table knows `allow`, which no policy decision record may carry, and does not
      know `authorize` or `transform`, which one may. */
  function InitialState(d: Decision): Option<LifecycleState> {
    match d
    case Deny => Some(Denied)
    case RequireApproval => Some(ApprovalRequired)
    case Allow => Some(PolicyAuthorized)
    case _ => None
  }

  predicate ParsedRequest(actor: ActorContext, r: Request) {
    r.tenant == actor.tenant && r.idempotency.tenant == actor.tenant
  }

  predicate ParsedPolicy(actor: ActorContext, p: Policy) { p.tenant == actor.tenant && p.decision != Allow }

  predicate ParsedApproval(actor: ActorContext, a: Approval) { a.tenant == actor.tenant }

  predicate ParsedGrant(actor: ActorContext, g: Grant) {
    g.tenant == actor.tenant && g.idempotency.tenant == actor.tenant
  }

  predicate ApprovalFits(r: Request, p: Policy, a: Approval) {
    && p.decision == RequireApproval
    && a.requestId == r.requestId && a.requestDigest == OfRequest(r)
    && a.decisionId == p.decisionId && a.policyDigest == OfPolicy(p)
    && a.approved && a.dutiesSatisfied && a.constraints == p.constraints
    && p.decidedAt <= a.issuedAt < a.expiresAt
  }

  predicate GrantFits(actor: ActorContext, r: Request, p: Policy, approval: Option<Approval>, g: Grant) {
    && g.tenant == actor.tenant && g.actor == actor.actor && g.runId == r.runId
    && g.requestId == r.requestId && g.requestDigest == OfRequest(r)
    && g.decisionId == p.decisionId && g.policyDigest == OfPolicy(p)
    && g.approvalRefs == (match approval case Some(a) => [ApprovalRef(a)] case None => [])
    && g.constraints == p.constraints && g.isolation == p.isolation
    && g.idempotency == r.idempotency && g.toolId == r.toolId && g.toolVersion == r.toolVersion
    && (match approval case Some(a) => a.issuedAt case None => p.decidedAt) <= g.issuedAt < g.expiresAt
  }

  /** `_validate_lifecycle_authority`. */
  predicate LifecycleAuthority(actor: ActorContext, r: Request, p: Policy, approval: Option<Approval>,
                               grant: Option<Grant>) {
    && r.actorDigest == OfActor(actor) && r.tenant == actor.tenant && r.actor == actor.actor
    && p.tenant == actor.tenant && p.requestId == r.requestId && p.requestDigest == OfRequest(r)
    && (approval.Some? ==> ApprovalFits(r, p, approval.value))
    && (grant.Some? ==> GrantFits(actor, r, p, approval, grant.value))
  }

  // ---- Replay ----

  predicate LifecycleKind(p: Payload) { p.PolicyDecided? || p.ApprovalAccepted? || p.GrantRecorded? }

  /** The payload carries the request id, at its top level or inside a request. */
  predicate Mentions(p: Payload, id: Id) {
    match p
    case PolicyDecided(_, _, r, _, _, _, _) => r.requestId == id
    case ApprovalAccepted(_, rid, _, _, _, _, _) => rid == id
    case GrantRecorded(_, rid, _, _, _, _, _) => rid == id
    case OtherPayload(_, _, mentioned) => mentioned == Some(id)
    case _ => false
  }

  predicate InStory(e: Event, id: Id) { Mentions(e.payload, id) && LifecycleKind(e.payload) }

  function Story(events: seq<Event>, id: Id): (s: seq<Event>)
    ensures forall i | 0 <= i < |s| :: InStory(s[i], id)
    decreases |events|
  {
    if events == [] then []
    else
      var rest, last := Story(events[..|events| - 1], id), events[|events| - 1];
      if InStory(last, id) then rest + [last] else rest
  }

  predicate ChainOkAt(events: seq<Event>, i: nat)
    requires i < |events|
  {
    && events[i].sequence == i
    && events[i].prior == (if i == 0 then None else Some(OfEvent(events[i - 1])))
    && (0 < i ==> events[i - 1].recordedAt <= events[i].recordedAt)
  }

  predicate ChainOk(events: seq<Event>) {
    forall i | 0 <= i < |events| :: ChainOkAt(events, i)
  }

  predicate MentionedIn(events: seq<Event>, id: Id) {
    exists i | 0 <= i < |events| :: Mentions(events[i].payload, id)
  }

  /** The runs of the actor that mention a request. */
  function StoryRuns(runs: map<RunKey, RunLog>, actor: ActorContext, id: Id): set<RunKey> {
    set r | r in runs && r.0 == actor.tenant && runs[r].owner == actor.actor && MentionedIn(runs[r].events, id)
  }

  predicate FirstOk(actor: ActorContext, id: Id, first: Event) {
    match first.payload
    case PolicyDecided(writer, author, r, p, rd, pd, next) =>
      && author == actor && ParsedRequest(actor, r) && ParsedPolicy(actor, p) && r.requestId == id
      && writer == actor.actor && rd == OfRequest(r) && pd == OfPolicy(p)
      && InitialState(p.decision) == Some(next) && first.policyRef == PolicyRef(p)
    case _ => false
  }

  datatype Folded = Folded(approval: Option<Approval>, grant: Option<Grant>, state: LifecycleState)

  /** One turn of the replay loop. */
  function FoldStep(f: Folded, e: Event, actor: ActorContext, r: Request, p: Policy): Option<Folded> {
    if e.policyRef != PolicyRef(p) then None
    else
      match e.payload
      case ApprovalAccepted(writer, rid, rd, pd, a, ad, next) =>
        if f.approval.Some? || f.grant.Some? || !ParsedApproval(actor, a) || writer != actor.actor || rid != r.requestId
           || rd != OfRequest(r) || pd != OfPolicy(p) || ad != OfApproval(a) || next != Approved then None
        else Some(Folded(Some(a), f.grant, next))
      case GrantRecorded(writer, rid, rd, pd, g, gd, next) =>
        if f.grant.Some? || !ParsedGrant(actor, g) || writer != actor.actor || rid != r.requestId
           || rd != OfRequest(r) || pd != OfPolicy(p) || gd != OfGrant(g) || next != GrantIssued then None
        else Some(Folded(f.approval, Some(g), next))
      case PolicyDecided(_, _, _, _, _, _, next) => Some(f.(state := next))
      case _ => Some(f)
  }

  function FoldEvents(events: seq<Event>, start: Folded, actor: ActorContext, r: Request, p: Policy): Option<Folded>
    decreases |events|
  {
    if events == [] then Some(start)
    else
      match FoldEvents(events[..|events| - 1], start, actor, r, p)
      case None => None
      case Some(f) => FoldStep(f, events[|events| - 1], actor, r, p)
  }

  /** Replay of the story of one request, given the events of its run. */
  function ReplayStory(story: seq<Event>, actor: ActorContext, id: Id): Option<Stored> {
    if story == [] || !FirstOk(actor, id, story[0]) then None
    else
      var r, p := story[0].payload.request, story[0].payload.policy;
      match FoldEvents(story[1..], Folded(None, None, story[0].payload.next), actor, r, p)
      case None => None
      case Some(f) =>
        if LifecycleAuthority(actor, r, p, f.approval, f.grant)
        then Some(Stored(actor, r, p, f.approval, f.grant, f.state, |story|, story)) else None
  }

  /** `_replay_lifecycle`. */
  ghost function ReplayRun(runs: map<RunKey, RunLog>, actor: ActorContext, id: Id): Option<Stored> {
    if r :| StoryRuns(runs, actor, id) == {r} then
      if ChainOk(runs[r].events) then ReplayStory(Story(runs[r].events, id), actor, id) else None
    else None
  }

  // ---- Load ----

  datatype View = View(
    actor: ActorContext, request: Request, policy: Policy, approval: Option<Approval>, grant: Option<Grant>,
    state: LifecycleState, version: nat, lastSequence: nat, lastDigest: Digest)

  /** What a load reads from a row: of several approvals only the first. */
  function RowView(row: Projection): View {
    View(row.actor, row.request, row.policy, if row.approvals == [] then None else Some(row.approvals[0]),
         row.grant, row.state, row.version, row.lastSequence, row.lastDigest)
  }

  function StoredView(s: Stored): View
    requires s.evidence != []
  {
    var last := s.evidence[|s.evidence| - 1];
    View(s.actor, s.request, s.policy, s.approval, s.grant, s.state, s.version, last.sequence, OfEvent(last))
  }

  function RowFor(rows: map<RowKey, Projection>, actor: ActorContext, id: Id): Option<Projection> {
    var k := (actor.tenant, id);
    if k in rows && rows[k].owner == actor.actor then Some(rows[k]) else None
  }

  /** `_load_lifecycle_with_cursor`. */
  ghost function Load(db: LifecycleDb, actor: ActorContext, id: Id): Option<Stored> {
    match RowFor(db.rows, actor, id)
    case None => None
    case Some(row) =>
      match ReplayRun(db.runs, actor, id)
      case None => None
      case Some(s) => if s.evidence != [] && RowView(row) == StoredView(s) then Some(s) else None
  }

  // ---- Writes ----

  function ColumnsOf(r: Request, p: Policy): Columns {
    Columns(r.runId, OfRequest(r), r.idempotency.key, r.idempotency.operation, OfPolicy(p))
  }

  /** The table's CHECK and foreign-key constraints. */
  predicate RowAllowed(runs: map<RunKey, RunLog>, k: RowKey, row: Projection) {
    && row.actor.tenant == k.0 && row.actor.actor == row.owner
    && row.request.tenant == k.0 && row.request.actor == row.owner && row.request.requestId == k.1
    && row.policy.tenant == k.0 && row.policy.requestId == k.1 && row.policy.requestDigest == row.columns.requestDigest
    && row.columns == ColumnsOf(row.request, row.policy)
    && 0 < row.version
    && (row.state == GrantIssued <==> row.grant.Some?)
    && (row.grant.Some? ==>
          var g := row.grant.value;
          && g.tenant == k.0 && g.actor == row.owner && g.runId == row.columns.run && g.requestId == k.1
          && g.requestDigest == row.columns.requestDigest && g.policyDigest == row.columns.policyDigest
          && g.idempotency.key == row.columns.idempotencyKey && g.idempotency.operation == row.columns.operation)
    && (k.0, row.columns.run) in runs && runs[(k.0, row.columns.run)].owner == row.owner
  }

  /** UNIQUE (tenant, idempotency key). */
  predicate KeyFree(rows: map<RowKey, Projection>, k: RowKey, idempotencyKey: Id) {
    forall j | j in rows && j != k && j.0 == k.0 :: rows[j].columns.idempotencyKey != idempotencyKey
  }

  function RowsByIdempotency(rows: map<RowKey, Projection>, actor: ActorContext, idempotencyKey: Id): set<RowKey> {
    set k | k in rows && k.0 == actor.tenant && rows[k].owner == actor.actor
      && rows[k].columns.idempotencyKey == idempotencyKey
  }

  function SubmissionPayload(actor: ActorContext, r: Request, p: Policy, state: LifecycleState): Payload {
    PolicyDecided(actor.actor, actor, r, p, OfRequest(r), OfPolicy(p), state)
  }

  function SubmittedRow(actor: ActorContext, r: Request, p: Policy, state: LifecycleState, e: Event): Projection {
    Projection(actor.actor, ColumnsOf(r, p), actor, r, p, [], None, state, 1, e.sequence, OfEvent(e))
  }

  predicate SubmissionValid(actor: ActorContext, r: Request, p: Policy, state: LifecycleState, ref: Ref) {
    && ParsedRequest(actor, r) && ParsedPolicy(actor, p) && LifecycleAuthority(actor, r, p, None, None)
    && InitialState(p.decision) == Some(state) && ref == PolicyRef(p)
  }

  /** The first submission of a request: evidence and projection, or neither. */
  function SubmitNew(db: LifecycleDb, actor: ActorContext, r: Request, p: Policy, state: LifecycleState,
                     envelopeId: Id, clock: int): Answer {
    var k := (actor.tenant, r.requestId);
    match AppendEvidence(db.runs, actor, r.runId, envelopeId, PolicyRef(p), SubmissionPayload(actor, r, p, state),
                         clock)
    case None => Answer(db, None)
    case Some((runs, e)) =>
      var row := SubmittedRow(actor, r, p, state, e);
      if k in db.rows || !KeyFree(db.rows, k, r.idempotency.key) || !RowAllowed(runs, k, row) then Answer(db, None)
      else Answer(LifecycleDb(runs, db.rows[k := row]), Some(Stored(actor, r, p, None, None, state, 1, [e])))
  }

  /** `persist_submission`. */
  ghost function Submit(db: LifecycleDb, actor: ActorContext, r: Request, p: Policy, state: LifecycleState, ref: Ref,
                        envelopeId: Id, clock: int): Answer {
    var k := (actor.tenant, r.requestId);
    if !SubmissionValid(actor, r, p, state, ref) then Answer(db, None)
    else
      var found := RowsByIdempotency(db.rows, actor, r.idempotency.key);
      if found == {} then SubmitNew(db, actor, r, p, state, envelopeId, clock)
      else if found == {k} && OfRequest(db.rows[k].request) == OfRequest(r)
      then Answer(db, Load(db, actor, r.requestId))
      else Answer(db, None)
  }

  function ApprovalPayload(s: Stored, a: Approval): Payload {
    ApprovalAccepted(s.actor.actor, s.request.requestId, OfRequest(s.request), OfPolicy(s.policy), a, OfApproval(a),
                     Approved)
  }

  function WriteApproval(db: LifecycleDb, current: Stored, id: Id, expected: nat, a: Approval, envelopeId: Id,
                         clock: int): Answer {
    var actor, k := current.actor, (current.actor.tenant, id);
    match AppendEvidence(db.runs, actor, current.request.runId, envelopeId, PolicyRef(current.policy),
                         ApprovalPayload(current, a), clock)
    case None => Answer(db, None)
    case Some((runs, e)) =>
      match RowFor(db.rows, actor, id)
      case None => Answer(db, None)
      case Some(row) =>
        var next := row.(approvals := [a], state := Approved, version := row.version + 1, lastSequence := e.sequence,
                         lastDigest := OfEvent(e));
        if row.state != ApprovalRequired || row.version != expected || !RowAllowed(runs, k, next) then Answer(db, None)
        else Answer(LifecycleDb(runs, db.rows[k := next]),
                    Some(current.(state := Approved, version := expected + 1, evidence := current.evidence + [e],
                                  approval := Some(a))))
  }

  /** `persist_approval`. */
  ghost function Approve(db: LifecycleDb, actor: ActorContext, id: Id, expected: nat, a: Approval, ref: Ref,
                         envelopeId: Id, clock: int): Answer {
    if !ParsedApproval(actor, a) then Answer(db, None)
    else
      match Load(db, actor, id)
      case None => Answer(db, None)
      case Some(current) =>
        if current.state == Approved then Answer(db, if current.approval == Some(a) then Some(current) else None)
        else if current.state != ApprovalRequired || current.version != expected then Answer(db, None)
        else if !LifecycleAuthority(actor, current.request, current.policy, Some(a), None)
                || ref != PolicyRef(current.policy)
        then Answer(db, None)
        else WriteApproval(db, current, id, expected, a, envelopeId, clock)
  }

  function GrantPayload(s: Stored, g: Grant): Payload {
    GrantRecorded(s.actor.actor, s.request.requestId, OfRequest(s.request), OfPolicy(s.policy), g, OfGrant(g),
                  GrantIssued)
  }

  function WriteGrant(db: LifecycleDb, current: Stored, id: Id, expected: nat, g: Grant, envelopeId: Id,
                      clock: int): Answer {
    var actor, k := current.actor, (current.actor.tenant, id);
    match AppendEvidence(db.runs, actor, current.request.runId, envelopeId, PolicyRef(current.policy),
                         GrantPayload(current, g), clock)
    case None => Answer(db, None)
    case Some((runs, e)) =>
      match RowFor(db.rows, actor, id)
      case None => Answer(db, None)
      case Some(row) =>
        var next := row.(grant := Some(g), state := GrantIssued, version := row.version + 1,
                         lastSequence := e.sequence, lastDigest := OfEvent(e));
        if (row.state != PolicyAuthorized && row.state != Approved) || row.version != expected
           || !RowAllowed(runs, k, next)
        then Answer(db, None)
        else Answer(LifecycleDb(runs, db.rows[k := next]),
                    Some(current.(state := GrantIssued, version := expected + 1, evidence := current.evidence + [e],
                                  grant := Some(g))))
  }

  /** `persist_grant`. */
  ghost function IssueGrant(db: LifecycleDb, actor: ActorContext, id: Id, expected: nat, g: Grant, ref: Ref,
                            envelopeId: Id, clock: int): Answer {
    if !ParsedGrant(actor, g) then Answer(db, None)
    else
      match Load(db, actor, id)
      case None => Answer(db, None)
      case Some(current) =>
        if current.state == GrantIssued then Answer(db, if current.grant == Some(g) then Some(current) else None)
        else if (current.state != PolicyAuthorized && current.state != Approved) || current.version != expected
        then Answer(db, None)
        else if !LifecycleAuthority(actor, current.request, current.policy, current.approval, Some(g))
                || ref != PolicyRef(current.policy)
        then Answer(db, None)
        else WriteGrant(db, current, id, expected, g, envelopeId, clock)
  }

  function RebuiltRow(s: Stored): Projection
    requires s.evidence != []
  {
    var last := s.evidence[|s.evidence| - 1];
    Projection(s.actor.actor, ColumnsOf(s.request, s.policy), s.actor, s.request, s.policy,
               if s.approval.Some? then [s.approval.value] else [], s.grant, s.state, s.version, last.sequence,
               OfEvent(last))
  }

  /** The upsert of `rebuild_lifecycle`: an existing row keeps its owner and its key columns. */
  function Upsert(db: LifecycleDb, k: RowKey, made: Projection): Option<LifecycleDb> {
    if !RowAllowed(db.runs, k, made) then None
    else if k !in db.rows then
      if KeyFree(db.rows, k, made.columns.idempotencyKey) then Some(db.(rows := db.rows[k := made])) else None
    else
      var next := made.(owner := db.rows[k].owner, columns := db.rows[k].columns);
      if db.rows[k].owner == made.owner && RowAllowed(db.runs, k, next) then Some(db.(rows := db.rows[k := next]))
      else None
  }

  /** `rebuild_lifecycle`. */
  ghost function Rebuild(db: LifecycleDb, actor: ActorContext, id: Id): Answer {
    match ReplayRun(db.runs, actor, id)
    case None => Answer(db, None)
    case Some(s) =>
      if s.evidence == [] then Answer(db, None)
      else
        match Upsert(db, (actor.tenant, id), RebuiltRow(s))
        case None => Answer(db, None)
        case Some(next) => Answer(next, Some(s))
  }

  // ---- The replay loops ----

  /** A fold that failed stays failed. */
  lemma {:induction false} FoldFailureStays(events: seq<Event>, n: nat, start: Folded, actor: ActorContext,
                                            r: Request, p: Policy)
    requires n <= |events| && FoldEvents(events[..n], start, actor, r, p) == None
    ensures FoldEvents(events, start, actor, r, p) == None
    decreases |events|
  {
    if n == |events| {
      assert events[..n] == events;
    } else {
      assert events[..|events| - 1][..n] == events[..n];
      FoldFailureStays(events[..|events| - 1], n, start, actor, r, p);
    }
  }

  lemma OnlyRun(s: set<RunKey>, r: RunKey)
    requires r in s
    ensures |s| == 1 <==> s == {r}
  {
    if |s| == 1 {
      assert |s - {r}| == 0;
      assert s == {r};
    }
  }

  method CheckChain(events: seq<Event>) returns (ok: bool)
    ensures ok == ChainOk(events)
  {
    var prior: Option<Digest>, priorTime: Option<int> := None, None;
    for i := 0 to |events|
      invariant forall j | 0 <= j < i :: ChainOkAt(events, j)
      invariant prior == if i == 0 then None else Some(OfEvent(events[i - 1]))
      invariant priorTime == if i == 0 then None else Some(events[i - 1].recordedAt)
    {
      var e := events[i];
      if e.sequence != i || e.prior != prior || (priorTime.Some? && e.recordedAt < priorTime.value) {
        assert !ChainOkAt(events, i);
        return false;
      }
      prior, priorTime := Some(OfEvent(e)), Some(e.recordedAt);
    }
    ok := true;
  }

  method SelectStory(events: seq<Event>, id: Id) returns (story: seq<Event>)
    ensures story == Story(events, id)
  {
    story := [];
    for i := 0 to |events|
      invariant story == Story(events[..i], id)
    {
      assert events[..i + 1][..i] == events[..i];
      if InStory(events[i], id) {
        story := story + [events[i]];
      }
    }
    assert events[..|events|] == events;
  }

  /** The loop over the events after the first one. */
  method FoldLoop(events: seq<Event>, first: LifecycleState, actor: ActorContext, r: Request, p: Policy)
      returns (f: Option<Folded>)
    ensures f == FoldEvents(events, Folded(None, None, first), actor, r, p)
  {
    ghost var start := Folded(None, None, first);
    var approval: Option<Approval>, grant: Option<Grant>, state := None, None, first;
    for i := 0 to |events|
      invariant FoldEvents(events[..i], start, actor, r, p) == Some(Folded(approval, grant, state))
    {
      var e := events[i];
      assert events[..i + 1][..i] == events[..i];
      var valid := true;
      match e.payload {
        case ApprovalAccepted(writer, rid, rd, pd, a, ad, next) =>
          valid := approval.None? && grant.None? && ParsedApproval(actor, a) && writer == actor.actor
            && rid == r.requestId
                   && rd == OfRequest(r) && pd == OfPolicy(p) && ad == OfApproval(a) && next == Approved;
          approval, state := Some(a), next;
        case GrantRecorded(writer, rid, rd, pd, g, gd, next) =>
          valid := grant.None? && ParsedGrant(actor, g) && writer == actor.actor && rid == r.requestId
                   && rd == OfRequest(r) && pd == OfPolicy(p) && gd == OfGrant(g) && next == GrantIssued;
          grant, state := Some(g), next;
        case PolicyDecided(_, _, _, _, _, _, next) =>
          state := next;
        case _ =>
      }
      if !valid || e.policyRef != PolicyRef(p) {
        FoldFailureStays(events, i + 1, start, actor, r, p);
        return None;
      }
    }
    assert events[..|events|] == events;
    f := Some(Folded(approval, grant, state));
  }

  /** The store object.  A method that raises leaves the tables as they were. */
  class PostgresLifecycleStore {
    var runs: map<RunKey, RunLog>
    var rows: map<RowKey, Projection>

    ghost function Db(): LifecycleDb
      reads this
    {
      LifecycleDb(runs, rows)
    }

    constructor ()
      ensures Db() == LifecycleDb(map[], map[])
    {
      runs, rows := map[], map[];
    }

    method ReplayLifecycle(actor: ActorContext, id: Id) returns (s: Option<Stored>)
      ensures s == ReplayRun(runs, actor, id)
      ensures s.Some? ==> s.value.evidence != [] && s.value.actor == actor
    {
      var candidates := StoryRuns(runs, actor, id);
      if candidates == {} {
        return None;
      }
      var k :| k in candidates;
      OnlyRun(candidates, k);
      if |candidates| != 1 {
        assert forall r :: candidates == {r} ==> k in {r} && r == k;
        return None;
      }
      var events := runs[k].events;
      var ok := CheckChain(events);
      var story := SelectStory(events, id);
      if !ok || story == [] || !FirstOk(actor, id, story[0]) {
        return None;
      }
      var first := story[0].payload;
      var folded := FoldLoop(story[1..], first.next, actor, first.request, first.policy);
      if folded.None? || !LifecycleAuthority(actor, first.request, first.policy, folded.value.approval,
                                             folded.value.grant) {
        return None;
      }
      s := Some(Stored(actor, first.request, first.policy, folded.value.approval, folded.value.grant,
                       folded.value.state, |story|, story));
    }

    method LoadLifecycle(actor: ActorContext, id: Id) returns (s: Option<Stored>)
      ensures s == Load(Db(), actor, id)
      ensures s.Some? ==> s.value.evidence != [] && s.value.actor == actor
    {
      var row := RowFor(rows, actor, id);
      if row.None? {
        return None;
      }
      var rebuilt := ReplayLifecycle(actor, id);
      if rebuilt.None? || RowView(row.value) != StoredView(rebuilt.value) {
        return None;
      }
      s := rebuilt;
    }

    method PersistSubmission(actor: ActorContext, r: Request, p: Policy, state: LifecycleState, ref: Ref,
                             envelopeId: Id, clock: int)
      returns (s: Option<Stored>)
      modifies this
      ensures Answer(Db(), s) == Submit(old(Db()), actor, r, p, state, ref, envelopeId, clock)
    {
      if !SubmissionValid(actor, r, p, state, ref) {
        return None;
      }
      var k := (actor.tenant, r.requestId);
      var found := RowsByIdempotency(rows, actor, r.idempotency.key);
      if found != {} {
        if found == {k} && OfRequest(rows[k].request) == OfRequest(r) {
          s := LoadLifecycle(actor, r.requestId);
          return;
        }
        return None;
      }
      var before := runs;
      var appended := AppendEvidence(runs, actor, r.runId, envelopeId, ref, SubmissionPayload(actor, r, p, state),
                                     clock);
      if appended.None? {
        return None;
      }
      var e := appended.value.1;
      runs := appended.value.0;
      var row := SubmittedRow(actor, r, p, state, e);
      if k in rows || !KeyFree(rows, k, r.idempotency.key) || !RowAllowed(runs, k, row) {
        runs := before;
        return None;
      }
      rows := rows[k := row];
      s := Some(Stored(actor, r, p, None, None, state, 1, [e]));
    }

    method PersistApproval(actor: ActorContext, id: Id, expected: nat, a: Approval, ref: Ref, envelopeId: Id,
                           clock: int)
      returns (s: Option<Stored>)
      modifies this
      ensures Answer(Db(), s) == Approve(old(Db()), actor, id, expected, a, ref, envelopeId, clock)
    {
      hide LifecycleAuthority, RowAllowed, AppendEvidence, ReplayRun;
      if !ParsedApproval(actor, a) {
        return None;
      }
      var loaded := LoadLifecycle(actor, id);
      if loaded.None? {
        return None;
      }
      var current := loaded.value;
      if current.state == Approved {
        return if current.approval == Some(a) then loaded else None;
      }
      if current.state != ApprovalRequired || current.version != expected
         || !LifecycleAuthority(actor, current.request, current.policy, Some(a), None)
         || ref != PolicyRef(current.policy) {
        return None;
      }
      var k, before := (actor.tenant, id), runs;
      var appended := AppendEvidence(runs, actor, current.request.runId, envelopeId, ref, ApprovalPayload(current, a),
                                     clock);
      if appended.None? {
        return None;
      }
      var e := appended.value.1;
      runs := appended.value.0;
      var next := rows[k].(approvals := [a], state := Approved, version := rows[k].version + 1,
                           lastSequence := e.sequence, lastDigest := OfEvent(e));
      if rows[k].state != ApprovalRequired || rows[k].version != expected || !RowAllowed(runs, k, next) {
        runs := before;
        return None;
      }
      rows := rows[k := next];
      s := Some(current.(state := Approved, version := expected + 1, evidence := current.evidence + [e],
                         approval := Some(a)));
    }

    method PersistGrant(actor: ActorContext, id: Id, expected: nat, g: Grant, ref: Ref, envelopeId: Id, clock: int)
      returns (s: Option<Stored>)
      modifies this
      ensures Answer(Db(), s) == IssueGrant(old(Db()), actor, id, expected, g, ref, envelopeId, clock)
    {
      hide LifecycleAuthority, RowAllowed, AppendEvidence, ReplayRun;
      if !ParsedGrant(actor, g) {
        return None;
      }
      var loaded := LoadLifecycle(actor, id);
      if loaded.None? {
        return None;
      }
      var current := loaded.value;
      if current.state == GrantIssued {
        return if current.grant == Some(g) then loaded else None;
      }
      if (current.state != PolicyAuthorized && current.state != Approved) || current.version != expected
         || !LifecycleAuthority(actor, current.request, current.policy, current.approval, Some(g))
         || ref != PolicyRef(current.policy) {
        return None;
      }
      var k, before := (actor.tenant, id), runs;
      var appended := AppendEvidence(runs, actor, current.request.runId, envelopeId, ref, GrantPayload(current, g),
                                     clock);
      if appended.None? {
        return None;
      }
      var e := appended.value.1;
      runs := appended.value.0;
      var next := rows[k].(grant := Some(g), state := GrantIssued, version := rows[k].version + 1,
                           lastSequence := e.sequence, lastDigest := OfEvent(e));
      if (rows[k].state != PolicyAuthorized && rows[k].state != Approved) || rows[k].version != expected
         || !RowAllowed(runs, k, next) {
        runs := before;
        return None;
      }
      rows := rows[k := next];
      s := Some(current.(state := GrantIssued, version := expected + 1, evidence := current.evidence + [e],
                         grant := Some(g)));
    }

    method RebuildLifecycle(actor: ActorContext, id: Id) returns (s: Option<Stored>)
      modifies this`rows
      ensures Answer(Db(), s) == Rebuild(old(Db()), actor, id)
    {
      var rebuilt := ReplayLifecycle(actor, id);
      if rebuilt.None? {
        return None;
      }
      var k, made := (actor.tenant, id), RebuiltRow(rebuilt.value);
      if !RowAllowed(runs, k, made) {
        return None;
      }
      if k !in rows {
        if !KeyFree(rows, k, made.columns.idempotencyKey) {
          return None;
        }
        rows := rows[k := made];
      } else {
        var next := made.(owner := rows[k].owner, columns := rows[k].columns);
        if rows[k].owner != made.owner || !RowAllowed(runs, k, next) {
          return None;
        }
        rows := rows[k := next];
      }
      s := rebuilt;
    }
  }
}
