/** The governed records and their digests.

    A record keeps the fields that the modelled code reads.  Time is an integer number of
    microseconds.  A SHA-256 digest of canonical bytes is a constructor applied to the record,
    so equal digests mean equal records; `JsonRoundTrip` proves the half of that idealisation
    which does not rest on the hash function.  A self-digest field, which every parser
    recomputes, is the digest of the record itself and is not stored. */
module Records {
  datatype Option<+T> = None | Some(value: T)

  type Id = string

  datatype Decision = Authorize | Deny | Transform | RequireApproval | Allow

  datatype Constraint = Constraint(id: Id, version: Id, parameters: Id)

  datatype ActorContext = ActorContext(tenant: Id, actor: Id, issuedAt: int, expiresAt: int, claims: Id)

  datatype Idempotency = Idempotency(tenant: Id, key: Id, operation: Id)

  datatype Request = Request(
    tenant: Id, actor: Id, requestId: Id, runId: Id, actorDigest: Digest, toolId: Id,
    toolVersion: Id, effectClasses: Id, idempotency: Idempotency, requestedAt: int)

  datatype Policy = Policy(
    tenant: Id, decisionId: Id, requestId: Id, requestDigest: Digest, decision: Decision,
    constraints: seq<Constraint>, isolation: Id, decidedAt: int)

  datatype Approval = Approval(
    tenant: Id, approvalId: Id, requestId: Id, requestDigest: Digest, decisionId: Id,
    policyDigest: Digest, approved: bool, dutiesRequired: bool, dutiesSatisfied: bool,
    constraints: seq<Constraint>, issuedAt: int, expiresAt: int)

  datatype Ref = Ref(id: Id, digest: Digest)

  datatype Grant = Grant(
    tenant: Id, grantId: Id, actor: Id, runId: Id, requestId: Id, requestDigest: Digest,
    toolId: Id, toolVersion: Id, decisionId: Id, policyDigest: Digest, approvalRefs: seq<Ref>,
    constraints: seq<Constraint>, isolation: Id, issuedAt: int, expiresAt: int,
    idempotency: Idempotency, nonce: Id)

  datatype Status = Succeeded | StatusIndeterminate

  datatype Outcome = Outcome(
    outcomeId: Id, scopeActor: Digest, scopeFrom: int, scopeUntil: int, runId: Id,
    requestRef: Ref, status: Status, intentDigest: Digest, provenance: Digest, result: Id,
    policyRef: Ref, reviewerRefs: seq<Ref>, idempotency: Idempotency, occurredAt: int)

  /** Everything one effect dispatch is authorised by. */
  datatype Authority = Authority(
    actor: ActorContext, request: Request, policy: Policy, approvals: seq<Approval>, grant: Grant)

  datatype LifecycleState = Denied | ApprovalRequired | PolicyAuthorized | Approved | GrantIssued

  datatype Payload =
    | PolicyDecided(writer: Id, actor: ActorContext, request: Request, policy: Policy,
                    requestDigest: Digest, policyDigest: Digest, next: LifecycleState)
    | ApprovalAccepted(writer: Id, requestId: Id, requestDigest: Digest, policyDigest: Digest,
                       approval: Approval, recordDigest: Digest, next: LifecycleState)
    | GrantRecorded(writer: Id, requestId: Id, requestDigest: Digest, policyDigest: Digest,
                    grant: Grant, recordDigest: Digest, next: LifecycleState)
    | EffectIntent(writer: Id, requestDigest: Digest, policyDigest: Digest, grantDigest: Digest,
                   effectClasses: Id, isolation: Id)
    | EffectOutcome(writer: Id, requestDigest: Digest, grantDigest: Digest, outcomeDigest: Digest,
                    status: Status, recovery: bool)
    | OtherPayload(writer: Id, kind: Id, mentioned: Option<Id>)

  datatype Event = Event(
    tenant: Id, run: Id, sequence: nat, recordedAt: int, prior: Option<Digest>,
    envelopeId: Id, policyRef: Ref, payload: Payload)

  datatype Digest =
    | OfActor(actorContext: ActorContext)
    | OfRequest(request: Request)
    | OfPolicy(policy: Policy)
    | OfApproval(approval: Approval)
    | OfGrant(grant: Grant)
    | OfOutcome(outcome: Outcome)
    | OfEvent(event: Event)
    | OfProvenance(grantDigest: Digest, intentDigest: Digest, result: Id)
    | OfBinding(actorDigest: Digest, requestDigest: Digest, policyDigest: Digest,
                approvalDigests: seq<Digest>, constraints: seq<Constraint>, isolation: Id,
                boundGrant: Digest, tenant: Id, actorId: Id, runId: Id,
                idempotency: Idempotency, expiresAt: int)

  function ApprovalRef(a: Approval): Ref { Ref(a.approvalId, OfApproval(a)) }

  function ApprovalRefs(s: seq<Approval>): seq<Ref> { seq(|s|, i requires 0 <= i < |s| => ApprovalRef(s[i])) }

  function PolicyRef(p: Policy): Ref { Ref(p.decisionId, OfPolicy(p)) }

  function RequestRef(r: Request): Ref { Ref(r.requestId, OfRequest(r)) }

  /** `execution_binding_digest`. */
  function BindingDigest(a: Authority): Digest {
    OfBinding(
      OfActor(a.actor), OfRequest(a.request), OfPolicy(a.policy),
      seq(|a.approvals|, i requires 0 <= i < |a.approvals| => OfApproval(a.approvals[i])),
      a.grant.constraints, a.grant.isolation, OfGrant(a.grant), a.request.tenant,
      a.request.actor, a.request.runId, a.request.idempotency, a.grant.expiresAt)
  }

  /** No authority input can drift under an unchanged binding digest. */
  lemma BindingDetectsDrift(a: Authority, b: Authority)
    ensures BindingDigest(a) == BindingDigest(b) <==> a == b
  {
    if BindingDigest(a) == BindingDigest(b) {
      var da, db := BindingDigest(a).approvalDigests, BindingDigest(b).approvalDigests;
      assert |da| == |a.approvals| && |db| == |b.approvals|;
      forall i | 0 <= i < |a.approvals| ensures a.approvals[i] == b.approvals[i] {
        assert da[i] == OfApproval(a.approvals[i]) && db[i] == OfApproval(b.approvals[i]);
      }
      assert a.approvals == b.approvals;
    }
  }
}
