/** What approvals, grants, submissions and stories have to say for the lifecycle store to take them, field
    by field. */
module LifecycleExactly {
  import opened Records
  import opened EvidenceChain
  import opened EffectStore
  import opened LifecycleStore

  // ---- Authority ----

  /** The actor makes this request itself, and the decision is about it. */
  predicate Asks(actor: ActorContext, r: Request, p: Policy) {
    && r.tenant == actor.tenant && r.actor == actor.actor && r.actorDigest == OfActor(actor)
    && p.tenant == actor.tenant && p.requestId == r.requestId && p.requestDigest == OfRequest(r)
  }

  /** An approval that approves, with its duties done, just this request under just this decision, which
      required one; with its constraints; issued after it and not yet over then. */
  predicate Approves(a: Approval, r: Request, p: Policy) {
    && a.approved && a.dutiesSatisfied && p.decision == RequireApproval
    && a.requestId == r.requestId && a.requestDigest == OfRequest(r)
    && a.decisionId == p.decisionId && a.policyDigest == OfPolicy(p) && a.constraints == p.constraints
    && p.decidedAt <= a.issuedAt && a.issuedAt < a.expiresAt
  }

  /** A grant to this actor for just this request, decision and approval, issued after them. */
  predicate Permits(g: Grant, actor: ActorContext, r: Request, p: Policy, approval: Option<Approval>) {
    && g.tenant == actor.tenant && g.actor == actor.actor && g.runId == r.runId
    && g.requestId == r.requestId && g.requestDigest == OfRequest(r)
    && g.toolId == r.toolId && g.toolVersion == r.toolVersion && g.idempotency == r.idempotency
    && g.decisionId == p.decisionId && g.policyDigest == OfPolicy(p)
    && g.constraints == p.constraints && g.isolation == p.isolation && g.issuedAt < g.expiresAt
    && match approval
       case None => g.approvalRefs == [] && p.decidedAt <= g.issuedAt
       case Some(a) => g.approvalRefs == [Ref(a.approvalId, OfApproval(a))] && a.issuedAt <= g.issuedAt
  }

  lemma ApprovesExactly(a: Approval, r: Request, p: Policy)
    ensures ApprovalFits(r, p, a) <==> Approves(a, r, p)
  {
  }

  lemma PermitsExactly(g: Grant, actor: ActorContext, r: Request, p: Policy, approval: Option<Approval>)
    ensures GrantFits(actor, r, p, approval, g) <==> Permits(g, actor, r, p, approval)
  {
  }

  /** What the store demands of all that is recorded of a request is this and nothing else. */
  lemma AuthorityExactly(actor: ActorContext, r: Request, p: Policy, approval: Option<Approval>, grant: Option<Grant>)
    ensures LifecycleAuthority(actor, r, p, approval, grant) <==>
              && Asks(actor, r, p) && (approval.Some? ==> Approves(approval.value, r, p))
              && (grant.Some? ==> Permits(grant.value, actor, r, p, approval))
  {
    hide ApprovalFits, GrantFits, Approves, Permits;
    if approval.Some? {
      ApprovesExactly(approval.value, r, p);
    }
    if grant.Some? {
      PermitsExactly(grant.value, actor, r, p, approval);
    }
  }

  /** A submission is valid when the actor asks, all of one tenant, and the decision starts in the state
      handed in: denied or waiting for an approval.  A decision to authorise or to transform starts
      nowhere. */
  predicate MaySubmit(actor: ActorContext, r: Request, p: Policy, state: LifecycleState, ref: Ref) {
    && Asks(actor, r, p) && r.idempotency.tenant == actor.tenant && ref == Ref(p.decisionId, OfPolicy(p))
    && ((p.decision == Deny && state == Denied) || (p.decision == RequireApproval && state == ApprovalRequired))
  }

  lemma MaySubmitExactly(actor: ActorContext, r: Request, p: Policy, state: LifecycleState, ref: Ref)
    ensures SubmissionValid(actor, r, p, state, ref) <==> MaySubmit(actor, r, p, state, ref)
  {
  }

  // ---- Stories ----

  /** The event that a story begins with: this very actor's decision about its request of this id. */
  predicate Opens(e: Event, actor: ActorContext, id: Id) {
    && e.payload.PolicyDecided?
    && var r, p := e.payload.request, e.payload.policy;
       && e.payload == PolicyDecided(actor.actor, actor, r, p, OfRequest(r), OfPolicy(p), e.payload.next)
       && r.requestId == id && r.tenant == actor.tenant && r.idempotency.tenant == actor.tenant
       && p.tenant == actor.tenant && e.policyRef == Ref(p.decisionId, OfPolicy(p))
       && ((p.decision == Deny && e.payload.next == Denied)
           || (p.decision == RequireApproval && e.payload.next == ApprovalRequired))
  }

  lemma OpensExactly(e: Event, actor: ActorContext, id: Id)
    ensures FirstOk(actor, id, e) <==> Opens(e, actor, id)
  {
  }

  /** A later event of the story: under its decision, and if it is an approval or a grant, one by this actor
      for this request that says what it says, the first of its kind, and no approval after a grant. */
  predicate Follows(f: Folded, e: Event, actor: ActorContext, r: Request, p: Policy) {
    && e.policyRef == Ref(p.decisionId, OfPolicy(p))
    && match e.payload
       case ApprovalAccepted(_, _, _, _, a, _, _) =>
         && f.approval == None && f.grant == None && a.tenant == actor.tenant
         && e.payload == ApprovalAccepted(actor.actor, r.requestId, OfRequest(r), OfPolicy(p), a, OfApproval(a),
                                          Approved)
       case GrantRecorded(_, _, _, _, g, _, _) =>
         && f.grant == None && g.tenant == actor.tenant && g.idempotency.tenant == actor.tenant
         && e.payload == GrantRecorded(actor.actor, r.requestId, OfRequest(r), OfPolicy(p), g, OfGrant(g), GrantIssued)
       case _ => true
  }

  /** The replay takes exactly these events, and from each what it says. */
  lemma FollowsExactly(f: Folded, e: Event, actor: ActorContext, r: Request, p: Policy)
    ensures FoldStep(f, e, actor, r, p).Some? <==> Follows(f, e, actor, r, p)
    ensures Follows(f, e, actor, r, p) ==>
              var g := FoldStep(f, e, actor, r, p).value;
              && g.approval == (if e.payload.ApprovalAccepted? then Some(e.payload.approval) else f.approval)
              && g.grant == (if e.payload.GrantRecorded? then Some(e.payload.grant) else f.grant)
              && g.state == match e.payload
                            case ApprovalAccepted(_, _, _, _, _, _, _) => Approved
                            case GrantRecorded(_, _, _, _, _, _, _) => GrantIssued
                            case PolicyDecided(_, _, _, _, _, _, next) => next
                            case _ => f.state
  {
  }
}
