/** The kernel's grant issuer and the validator that every grant has to pass, before it is recorded
    and again before it is executed. */
module GrantIssue {
  import opened Records
  import opened Samples
  import opened EvidenceChain

  type ConstraintKey = (Id, Id)

  function KeyOf(c: Constraint): ConstraintKey { (c.id, c.version) }

  // ---- Merging constraints ----

  /** Where a key is in an ordered dictionary of constraints. */
  function Find(cs: seq<Constraint>, k: ConstraintKey): (r: Option<nat>)
    ensures r.Some? ==> r.value < |cs| && KeyOf(cs[r.value]) == k
    ensures r.None? ==> forall i | 0 <= i < |cs| :: KeyOf(cs[i]) != k
  {
    if cs == [] then None
    else if KeyOf(cs[0]) == k then Some(0)
    else match Find(cs[1..], k) case None => None case Some(i) => Some(i + 1)
  }

  predicate DistinctConstraints(cs: seq<Constraint>) {
    forall i, j | 0 <= i < j < |cs| :: KeyOf(cs[i]) != KeyOf(cs[j])
  }

  function Flatten(records: seq<seq<Constraint>>): seq<Constraint> {
    if records == [] then [] else records[0] + Flatten(records[1..])
  }

  predicate Conflicting(cs: seq<Constraint>) {
    exists i, j | 0 <= i < j < |cs| :: KeyOf(cs[i]) == KeyOf(cs[j]) && cs[i] != cs[j]
  }

  /** Each constraint once, where it occurs first. */
  function FirstOccurrences(cs: seq<Constraint>): seq<Constraint>
    decreases |cs|
  {
    if cs == [] then []
    else
      var before, c := FirstOccurrences(cs[..|cs| - 1]), cs[|cs| - 1];
      if c in before then before else before + [c]
  }

  /** `merged` is the dictionary after the constraints in `done`. */
  ghost predicate Merged(merged: seq<Constraint>, done: seq<Constraint>) {
    && merged == FirstOccurrences(done) && !Conflicting(done)
    && DistinctConstraints(merged) && (forall c :: c in merged <==> c in done)
  }

  /** One turn of the loop: a new key is added, a known one must carry the same constraint. */
  method AddConstraint(merged: seq<Constraint>, c: Constraint, ghost done: seq<Constraint>)
      returns (r: Option<seq<Constraint>>)
    requires Merged(merged, done)
    ensures r.None? ==> Conflicting(done + [c])
    ensures r.Some? ==> Merged(r.value, done + [c])
  {
    var at := Find(merged, KeyOf(c));
    if at.Some? && merged[at.value] != c {
      ConflictFound(done, c, merged[at.value]);
      return None;
    }
    NoConflictAdded(merged, done, c, at);
    assert (done + [c])[..|done + [c]| - 1] == done;
    r := Some(if at.None? then merged + [c] else merged);
  }

  /** The inner loop: the constraints of one record. */
  method MergeRecord(start: seq<Constraint>, cs: seq<Constraint>, ghost done: seq<Constraint>)
      returns (r: Option<seq<Constraint>>)
    requires Merged(start, done)
    ensures r.None? ==> Conflicting(done + cs)
    ensures r.Some? ==> Merged(r.value, done + cs)
  {
    hide Merged, Conflicting;
    var merged := start;
    assert done + cs[..0] == done;
    for j := 0 to |cs|
      invariant Merged(merged, done + cs[..j])
    {
      var next := AddConstraint(merged, cs[j], done + cs[..j]);
      SplitAt(done, cs, j);
      if next.None? {
        ConflictStays(done + cs[..j] + [cs[j]], cs[j + 1..]);
        return None;
      }
      merged := next.value;
    }
    assert cs[..|cs|] == cs;
    r := Some(merged);
  }

  lemma SplitAt(done: seq<Constraint>, cs: seq<Constraint>, j: nat)
    requires j < |cs|
    ensures done + cs[..j] + [cs[j]] == done + cs[..j + 1]
    ensures done + cs[..j] + [cs[j]] + cs[j + 1..] == done + cs
  {
  }

  lemma {:induction false} FlattenAppended(records: seq<seq<Constraint>>, last: seq<Constraint>)
    ensures Flatten(records + [last]) == Flatten(records) + last
  {
    if records == [] {
      assert records + [last] == [last] && [last][1..] == [];
      assert Flatten([last]) == last + Flatten([last][1..]);
    } else {
      assert (records + [last])[1..] == records[1..] + [last];
      FlattenAppended(records[1..], last);
      assert records[0] + (Flatten(records[1..]) + last) == Flatten(records) + last;
    }
  }

  lemma {:induction false} PrefixConflict(records: seq<seq<Constraint>>, n: nat)
    requires n <= |records| && Conflicting(Flatten(records[..n]))
    ensures Conflicting(Flatten(records))
    decreases |records|
  {
    if n == |records| {
      assert records[..n] == records;
    } else {
      hide Conflicting, Flatten;
      var rest := records[..|records| - 1];
      assert rest[..n] == records[..n];
      PrefixConflict(rest, n);
      assert records == rest + [records[|records| - 1]];
      FlattenAppended(rest, records[|records| - 1]);
      ConflictStays(Flatten(rest), records[|records| - 1]);
    }
  }

  /** `_merge_constraints` fills a dictionary record by record.  It fails exactly when two of the
      constraints share a key and differ; otherwise the result holds each of them once, in the
      order of their first occurrences. */
  method MergeConstraints(records: seq<seq<Constraint>>) returns (r: Option<seq<Constraint>>)
    ensures r.None? <==> Conflicting(Flatten(records))
    ensures r.Some? ==> r.value == FirstOccurrences(Flatten(records))
    ensures r.Some? ==> DistinctConstraints(r.value) && (forall c :: c in r.value <==> c in Flatten(records))
  {
    var merged: seq<Constraint> := [];
    assert Merged(merged, Flatten(records[..0]));
    for i := 0 to |records|
      invariant Merged(merged, Flatten(records[..i]))
    {
      hide Merged, Conflicting, Flatten;
      assert records[..i + 1] == records[..i] + [records[i]];
      FlattenAppended(records[..i], records[i]);
      var next := MergeRecord(merged, records[i], Flatten(records[..i]));
      if next.None? {
        PrefixConflict(records, i + 1);
        return None;
      }
      merged := next.value;
    }
    assert records[..|records|] == records;
    r := Some(merged);
  }

  lemma ConflictFound(done: seq<Constraint>, c: Constraint, x: Constraint)
    requires x in done && KeyOf(x) == KeyOf(c) && x != c
    ensures Conflicting(done + [c])
  {
    var i :| 0 <= i < |done| && done[i] == x;
    assert (done + [c])[i] == x && (done + [c])[|done|] == c;
  }

  lemma ConflictStays(a: seq<Constraint>, b: seq<Constraint>)
    requires Conflicting(a)
    ensures Conflicting(a + b)
  {
    var i, j :| 0 <= i < j < |a| && KeyOf(a[i]) == KeyOf(a[j]) && a[i] != a[j];
    assert (a + b)[i] == a[i] && (a + b)[j] == a[j];
  }

  lemma NoConflictAdded(merged: seq<Constraint>, done: seq<Constraint>, c: Constraint, at: Option<nat>)
    requires !Conflicting(done) && (forall x :: x in merged <==> x in done)
    requires at == Find(merged, KeyOf(c)) && (at.Some? ==> merged[at.value] == c)
    requires DistinctConstraints(merged)
    ensures !Conflicting(done + [c])
  {
    forall i | 0 <= i < |done| && KeyOf(done[i]) == KeyOf(c) ensures done[i] == c {
      assert done[i] in merged;
      var m :| 0 <= m < |merged| && merged[m] == done[i];
    }
  }

  // ---- What merging leaves of the policy's list ----

  predicate NoRepetition(cs: seq<Constraint>) { forall i, j | 0 <= i < j < |cs| :: cs[i] != cs[j] }

  lemma {:induction false} FirstOccurrencesOnce(cs: seq<Constraint>)
    ensures NoRepetition(FirstOccurrences(cs)) && (forall c :: c in FirstOccurrences(cs) <==> c in cs)
    decreases |cs|
  {
    if cs != [] {
      FirstOccurrencesOnce(cs[..|cs| - 1]);
      assert cs == cs[..|cs| - 1] + [cs[|cs| - 1]];
    }
  }

  /** Each constraint of the list occurs before the first occurrence of every later one. */
  ghost predicate InFirstOrder(cs: seq<Constraint>, all: seq<Constraint>) {
    forall i, j | 0 <= i < j < |cs| :: exists m :: 0 <= m < |all| && all[m] == cs[i] && cs[j] !in all[..m + 1]
  }

  lemma {:induction false} FirstOccurrencesInOrder(cs: seq<Constraint>)
    ensures InFirstOrder(FirstOccurrences(cs), cs)
    decreases |cs|
  {
    if cs != [] {
      var before, kept := cs[..|cs| - 1], FirstOccurrences(cs);
      FirstOccurrencesInOrder(before);
      FirstOccurrencesOnce(before);
      var old_kept := FirstOccurrences(before);
      forall i, j | 0 <= i < j < |kept|
        ensures exists m :: 0 <= m < |cs| && cs[m] == kept[i] && kept[j] !in cs[..m + 1]
      {
        if j < |old_kept| {
          var m :| 0 <= m < |before| && before[m] == old_kept[i] && old_kept[j] !in before[..m + 1];
          assert cs[..m + 1] == before[..m + 1] && cs[m] == kept[i];
        } else {
          assert kept[i] in before;
          var m :| 0 <= m < |before| && before[m] == kept[i];
          assert cs[..m + 1] == before[..m + 1] && cs[m] == kept[i];
          assert forall c | c in before[..m + 1] :: c in before;
        }
      }
    }
  }

  lemma {:induction false} FirstOccurrencesOfAll(cs: seq<Constraint>)
    requires NoRepetition(cs)
    ensures FirstOccurrences(cs) == cs
    decreases |cs|
  {
    if cs != [] {
      var before := cs[..|cs| - 1];
      FirstOccurrencesOfAll(before);
      assert cs[|cs| - 1] !in before;
      assert cs == before + [cs[|cs| - 1]];
    }
  }

  lemma {:induction false} RepeatedIsIgnored(cs: seq<Constraint>, more: seq<Constraint>)
    requires forall c | c in more :: c in cs
    ensures FirstOccurrences(cs + more) == FirstOccurrences(cs)
    decreases |more|
  {
    if more == [] {
      assert cs + more == cs;
    } else {
      var rest, last := more[..|more| - 1], more[|more| - 1];
      RepeatedIsIgnored(cs, rest);
      FirstOccurrencesOnce(cs);
      assert last in more;
      assert (cs + more)[..|cs + more| - 1] == cs + rest;
    }
  }

  /** Without a conflict each key is left once. */
  lemma FirstOccurrencesDistinct(cs: seq<Constraint>)
    requires !Conflicting(cs)
    ensures DistinctConstraints(FirstOccurrences(cs))
  {
    FirstOccurrencesOnce(cs);
    var kept := FirstOccurrences(cs);
    forall i, j | 0 <= i < j < |kept| ensures KeyOf(kept[i]) != KeyOf(kept[j]) {
      assert kept[i] in cs && kept[j] in cs;
      var m :| 0 <= m < |cs| && cs[m] == kept[i];
      var n :| 0 <= n < |cs| && cs[n] == kept[j];
    }
  }

  /** Durably a grant must list the policy's constraints just as they are, and so must the approval.
      The merged list is that list exactly when no key occurs in it twice. */
  lemma MergedListIsPolicyList(cs: seq<Constraint>)
    requires !Conflicting(cs)
    ensures FirstOccurrences(Flatten([cs, cs])) == cs <==> DistinctConstraints(cs)
    ensures FirstOccurrences(Flatten([cs])) == cs <==> DistinctConstraints(cs)
  {
    FlattenTwo(cs, cs);
    FlattenOne(cs);
    assert [cs] + [] == [cs];
    RepeatedIsIgnored(cs, cs);
    FirstOccurrencesOnce(cs);
    if NoRepetition(cs) {
      FirstOccurrencesOfAll(cs);
    }
  }

  // ---- The validator ----

  /** `constraint_bindings`: the parameters by key, unless a key is duplicated. */
  method ConstraintBindings(cs: seq<Constraint>) returns (r: Option<map<ConstraintKey, Id>>)
    ensures r.Some? <==> DistinctConstraints(cs)
    ensures r.Some? ==> forall k, x :: (k in r.value && r.value[k] == x) <==> Constraint(k.0, k.1, x) in cs
  {
    var bindings: map<ConstraintKey, Id> := map[];
    for i := 0 to |cs|
      invariant DistinctConstraints(cs[..i])
      invariant forall k, x :: (k in bindings && bindings[k] == x) <==> Constraint(k.0, k.1, x) in cs[..i]
    {
      var c := cs[i];
      assert cs[..i + 1] == cs[..i] + [c];
      if KeyOf(c) in bindings {
        var x := Constraint(c.id, c.version, bindings[KeyOf(c)]);
        assert x in cs[..i];
        return None;
      }
      forall j | 0 <= j < i ensures KeyOf(cs[j]) != KeyOf(c) {
        assert cs[j] in cs[..i] && cs[j] == Constraint(cs[j].id, cs[j].version, cs[j].parameters);
      }
      bindings := bindings[KeyOf(c) := c.parameters];
    }
    assert cs[..|cs|] == cs;
    r := Some(bindings);
  }

  /** Every constraint of one list is among those of another. */
  predicate Carries(grant: seq<Constraint>, cs: seq<Constraint>) {
    forall c | c in cs :: c in grant
  }

  predicate SupportedBy(cs: seq<Constraint>, registry: set<ConstraintKey>) {
    forall c | c in cs :: KeyOf(c) in registry
  }

  const NO_EFFECT: Id := "no_effect"

  predicate PolicyBinds(p: Policy, r: Request) {
    p.tenant == r.tenant && p.requestId == r.requestId && p.requestDigest == OfRequest(r)
  }

  predicate ApprovalBinds(a: Approval, p: Policy, r: Request) {
    && PolicyBinds(p, r)
    && a.tenant == r.tenant && a.requestId == r.requestId && a.requestDigest == OfRequest(r)
    && a.decisionId == p.decisionId && a.policyDigest == OfPolicy(p)
  }

  predicate DistinctApprovals(approvals: seq<Approval>) {
    forall i, j | 0 <= i < j < |approvals| :: approvals[i].approvalId != approvals[j].approvalId
  }

  /** What the validator demands of an approval that the grant refers to. */
  predicate ApprovalSupports(a: Approval, ref: Ref, g: Grant, p: Policy, r: Request, registry: set<ConstraintKey>,
                             trusted: set<Digest>) {
    && ApprovalBinds(a, p, r) && SupportedBy(a.constraints, registry)
    && OfApproval(a) == ref.digest && a.approved && (a.dutiesRequired ==> a.dutiesSatisfied)
    && a.issuedAt <= g.issuedAt <= a.expiresAt && g.expiresAt <= a.expiresAt
    && DistinctConstraints(a.constraints) && Carries(g.constraints, a.constraints)
    && OfApproval(a) in trusted
  }

  /** `validate_grant_binding`.  `trusted` holds the records whose proofs verify now. */
  predicate GrantValid(g: Grant, r: Request, p: Policy, approvals: seq<Approval>, registry: set<ConstraintKey>,
                       trusted: set<Digest>) {
    && PolicyBinds(p, r)
    && SupportedBy(p.constraints, registry) && SupportedBy(g.constraints, registry)
    && g.tenant == r.tenant && g.actor == r.actor && g.runId == r.runId && g.requestId == r.requestId
    && g.requestDigest == OfRequest(r) && g.toolId == r.toolId && g.toolVersion == r.toolVersion
    && g.decisionId == p.decisionId && g.policyDigest == OfPolicy(p)
    && (p.decision == Authorize || p.decision == RequireApproval)
    && p.isolation != NO_EFFECT && g.isolation == p.isolation
    && r.requestedAt <= p.decidedAt <= g.issuedAt
    && DistinctConstraints(g.constraints) && DistinctConstraints(p.constraints) && Carries(g.constraints, p.constraints)
    && DistinctApprovals(approvals)
    && (p.decision == RequireApproval ==> g.approvalRefs != [])
    && (forall ref | ref in g.approvalRefs ::
          exists a | a in approvals :: a.approvalId == ref.id && ApprovalSupports(a, ref, g, p, r, registry, trusted))
    && OfGrant(g) in trusted
  }

  method CarriesAll(grant: map<ConstraintKey, Id>, cs: seq<Constraint>, ghost carried: seq<Constraint>)
      returns (ok: bool)
    requires forall k, x :: (k in grant && grant[k] == x) <==> Constraint(k.0, k.1, x) in carried
    ensures ok == (DistinctConstraints(cs) && Carries(carried, cs))
  {
    var wanted := ConstraintBindings(cs);
    if wanted.None? {
      return false;
    }
    forall c | c in cs ensures c in carried <==> (KeyOf(c) in grant && grant[KeyOf(c)] == c.parameters) {
      assert c == Constraint(c.id, c.version, c.parameters);
    }
    ok := forall c | c in cs :: KeyOf(c) in grant && grant[KeyOf(c)] == c.parameters;
  }

  /** The supplied approvals by id, unless an id is supplied twice. */
  method CollectApprovals(approvals: seq<Approval>) returns (r: Option<map<Id, Approval>>)
    ensures r.Some? <==> DistinctApprovals(approvals)
    ensures r.Some? ==> forall id, a :: (id in r.value && r.value[id] == a) <==> (a in approvals && a.approvalId == id)
  {
    var supplied: map<Id, Approval> := map[];
    for i := 0 to |approvals|
      invariant DistinctApprovals(approvals[..i])
      invariant forall id, a :: (id in supplied && supplied[id] == a) <==> (a in approvals[..i] && a.approvalId == id)
    {
      assert approvals[..i + 1] == approvals[..i] + [approvals[i]];
      if approvals[i].approvalId in supplied {
        assert supplied[approvals[i].approvalId] in approvals[..i];
        return None;
      }
      forall j | 0 <= j < i ensures approvals[j].approvalId != approvals[i].approvalId {
        assert approvals[j] in approvals[..i];
      }
      supplied := supplied[approvals[i].approvalId := approvals[i]];
    }
    assert approvals[..|approvals|] == approvals;
    r := Some(supplied);
  }

  /** The validator as the source runs it: it collects the supplied approvals by id, and then
      walks the references of the grant. */
  method ValidateGrantBinding(g: Grant, r: Request, p: Policy, approvals: seq<Approval>, registry: set<ConstraintKey>,
                              trusted: set<Digest>)
    returns (ok: bool)
    ensures ok == GrantValid(g, r, p, approvals, registry, trusted)
  {
    hide PolicyBinds, ApprovalBinds, SupportedBy, Carries, DistinctConstraints;
    if !(PolicyBinds(p, r) && SupportedBy(p.constraints, registry) && SupportedBy(g.constraints, registry)
         && g.tenant == r.tenant && g.actor == r.actor && g.runId == r.runId && g.requestId == r.requestId
         && g.requestDigest == OfRequest(r) && g.toolId == r.toolId && g.toolVersion == r.toolVersion
         && g.decisionId == p.decisionId && g.policyDigest == OfPolicy(p)
         && (p.decision == Authorize || p.decision == RequireApproval)
         && p.isolation != NO_EFFECT && g.isolation == p.isolation
         && r.requestedAt <= p.decidedAt <= g.issuedAt) {
      return false;
    }
    var bindings := ConstraintBindings(g.constraints);
    if bindings.None? {
      return false;
    }
    var carries := CarriesAll(bindings.value, p.constraints, g.constraints);
    if !carries {
      return false;
    }
    var collected := CollectApprovals(approvals);
    if collected.None? {
      return false;
    }
    var supplied := collected.value;
    if p.decision == RequireApproval && g.approvalRefs == [] {
      return false;
    }
    for i := 0 to |g.approvalRefs|
      invariant forall ref | ref in g.approvalRefs[..i] ::
                  exists a | a in approvals ::
                    a.approvalId == ref.id && ApprovalSupports(a, ref, g, p, r, registry, trusted)
    {
      var ref := g.approvalRefs[i];
      assert g.approvalRefs[..i + 1] == g.approvalRefs[..i] + [ref] && ref in g.approvalRefs;
      if ref.id !in supplied {
        return false;
      }
      var a := supplied[ref.id];
      assert forall b | b in approvals && b.approvalId == ref.id :: b == a;
      var carried := CarriesAll(bindings.value, a.constraints, g.constraints);
      if !(ApprovalBinds(a, p, r) && SupportedBy(a.constraints, registry)
           && OfApproval(a) == ref.digest && a.approved && (a.dutiesRequired ==> a.dutiesSatisfied)
           && g.issuedAt <= a.expiresAt && a.issuedAt <= g.issuedAt && g.expiresAt <= a.expiresAt && carried
           && OfApproval(a) in trusted) {
        return false;
      }
    }
    assert g.approvalRefs[..|g.approvalRefs|] == g.approvalRefs;
    ok := OfGrant(g) in trusted;
  }

  // ---- The issuer ----

  const GRANT_TTL := 300_000_000

  function Min(a: int, b: int): int { if a <= b then a else b }

  /** The earliest of the time to live, the actor context's end and the approval's end. */
  function ExpiryLimit(now: int, actor: ActorContext, approval: Option<Approval>): int {
    var limit := Min(now + GRANT_TTL, actor.expiresAt);
    match approval case None => limit case Some(a) => Min(limit, a.expiresAt)
  }

  function AsList(approval: Option<Approval>): seq<Approval> {
    match approval case None => [] case Some(a) => [a]
  }

  /** The grant that `_issue_grant_locked` writes down for the issuer to sign. */
  function BuildGrant(actor: ActorContext, r: Request, p: Policy, approval: Option<Approval>,
                      constraints: seq<Constraint>, grantId: Id, nonce: Id, now: int): Grant {
    Grant(r.tenant, grantId, r.actor, r.runId, r.requestId, OfRequest(r), r.toolId, r.toolVersion, p.decisionId,
          OfPolicy(p), ApprovalRefs(AsList(approval)), constraints, p.isolation, TruncateToMillis(now),
          TruncateToMillis(ExpiryLimit(now, actor, approval)), r.idempotency, nonce)
  }

  /** Contract times have three decimals. */
  predicate Aligned(t: int) { t % 1000 == 0 }

  /** What the kernel knows of a record in an issuable state at a time `now`. */
  predicate Issuable(actor: ActorContext, r: Request, p: Policy, approval: Option<Approval>, now: int) {
    && PolicyBinds(p, r) && p.isolation != NO_EFFECT
    && p.decision == (if approval.Some? then RequireApproval else Authorize)
    && Aligned(actor.expiresAt)
    && r.requestedAt <= p.decidedAt && Aligned(p.decidedAt) && p.decidedAt <= now
    && (approval.Some? ==>
          var a := approval.value;
          && ApprovalBinds(a, p, r) && a.approved && (a.dutiesRequired ==> a.dutiesSatisfied)
          && Aligned(a.issuedAt) && Aligned(a.expiresAt) && a.issuedAt <= now)
  }

  /** Every grant lasts for a positive time of at most five minutes and outlives neither the actor
      context nor the approval, although all three ends are cut to milliseconds. */
  lemma GrantWindow(actor: ActorContext, r: Request, p: Policy, approval: Option<Approval>,
                    constraints: seq<Constraint>, grantId: Id, nonce: Id, now: int)
    requires Issuable(actor, r, p, approval, now) && now < ExpiryLimit(now, actor, approval)
    ensures var g := BuildGrant(actor, r, p, approval, constraints, grantId, nonce, now);
            && g.issuedAt <= now < g.issuedAt + 1000 && g.issuedAt < g.expiresAt <= g.issuedAt + GRANT_TTL
            && g.expiresAt <= actor.expiresAt && (approval.Some? ==> g.expiresAt <= approval.value.expiresAt)
            && p.decidedAt <= g.issuedAt && (approval.Some? ==> approval.value.issuedAt <= g.issuedAt)
  {
    hide PolicyBinds, ApprovalBinds, TruncateToMillis, Aligned;
    AlignedBelow(p.decidedAt, now);
    AlignedAbove(actor.expiresAt, now);
    TtlAligned(now);
    if approval.Some? {
      AlignedBelow(approval.value.issuedAt, now);
      AlignedAbove(approval.value.expiresAt, now);
    }
  }

  lemma TtlAligned(now: int)
    ensures TruncateToMillis(now + GRANT_TTL) == TruncateToMillis(now) + GRANT_TTL
  {
  }

  lemma AlignedBelow(t: int, now: int)
    requires Aligned(t) && t <= now
    ensures t <= TruncateToMillis(now)
  {
  }

  lemma AlignedAbove(t: int, now: int)
    requires Aligned(t)
    ensures TruncateToMillis(t) == t && (now < t ==> TruncateToMillis(now) < t)
  {
  }

  /** Issuer and validator agree: with supported constraints and trusted proofs, a grant issued
      for an issuable record, with the merged constraints, passes the validator exactly when
      neither the policy nor the approval lists a constraint key twice.  (Merging accepts an
      identical repetition, the validator does not.) */
  lemma IssuedGrantPassesExactly(actor: ActorContext, r: Request, p: Policy, approval: Option<Approval>,
                                 constraints: seq<Constraint>, grantId: Id, nonce: Id, now: int,
                                 registry: set<ConstraintKey>, trusted: set<Digest>)
    requires Issuable(actor, r, p, approval, now) && now < ExpiryLimit(now, actor, approval)
    requires var records := [p.constraints] + (if approval.Some? then [approval.value.constraints] else []);
             DistinctConstraints(constraints) && forall c :: c in constraints <==> c in Flatten(records)
    requires SupportedBy(constraints, registry)
    requires OfGrant(BuildGrant(actor, r, p, approval, constraints, grantId, nonce, now)) in trusted
    requires approval.Some? ==> OfApproval(approval.value) in trusted
    ensures GrantValid(BuildGrant(actor, r, p, approval, constraints, grantId, nonce, now), r, p, AsList(approval),
                       registry, trusted)
            <==> DistinctConstraints(p.constraints)
                 && (approval.Some? ==> DistinctConstraints(approval.value.constraints))
  {
    var g := BuildGrant(actor, r, p, approval, constraints, grantId, nonce, now);
    GrantWindow(actor, r, p, approval, constraints, grantId, nonce, now);
    FlattenTwo(p.constraints, if approval.Some? then approval.value.constraints else []);
    match approval
    case None =>
      FlattenOne(p.constraints);
      assert g.approvalRefs == [];
    case Some(a) =>
      assert [p.constraints] + [a.constraints] == [p.constraints, a.constraints];
      assert g.approvalRefs == [ApprovalRef(a)] && a in AsList(approval);
      assert ApprovalRef(a) in g.approvalRefs;
      assert DistinctConstraints(a.constraints) ==> ApprovalSupports(a, ApprovalRef(a), g, p, r, registry, trusted);
  }

  lemma FlattenOne(x: seq<Constraint>)
    ensures Flatten([x] + []) == x
  {
    assert ([x] + [])[1..] == [];
  }

  lemma FlattenTwo(x: seq<Constraint>, y: seq<Constraint>)
    ensures Flatten([x, y]) == x + y
  {
    assert [x, y][1..] == [y] && [y][1..] == [];
    assert Flatten([y]) == y + Flatten([y][1..]);
  }

  // ---- A policy that says the same thing twice ----

  const CAP := Constraint("cap", "1", "10")

  function Listing(cs: seq<Constraint>): Policy {
    POLICY.(decision := Authorize, isolation := "process", constraints := cs)
  }

  function CapGrant(cs: seq<Constraint>): Grant { BuildGrant(ACTOR, REQUEST, Listing(cs), None, [CAP], "g", "n", 0) }

  lemma CapMerges()
    ensures !Conflicting(Flatten([[CAP, CAP]])) && FirstOccurrences(Flatten([[CAP, CAP]])) == [CAP]
  {
    FlattenOne([CAP, CAP]);
    assert [[CAP, CAP]] + [] == [[CAP, CAP]];
    FirstOccurrencesOfAll([CAP]);
    RepeatedIsIgnored([CAP], [CAP]);
    assert [CAP] + [CAP] == [CAP, CAP];
  }

  lemma CapGrantPasses(cs: seq<Constraint>)
    requires cs == [CAP] || cs == [CAP, CAP]
    ensures GrantValid(CapGrant(cs), REQUEST, Listing(cs), [], {KeyOf(CAP)}, {OfGrant(CapGrant(cs))})
            <==> DistinctConstraints(cs)
  {
    hide GrantValid, BuildGrant, DistinctConstraints;
    FlattenOne(cs);
    assert DistinctConstraints([CAP]) by { AloneIsDistinct(); }
    assert Issuable(ACTOR, REQUEST, Listing(cs), None, 0) by { CapIssuable(cs); }
    IssuedGrantPassesExactly(ACTOR, REQUEST, Listing(cs), None, [CAP], "g", "n", 0, {KeyOf(CAP)},
                             {OfGrant(CapGrant(cs))});
  }

  lemma CapIssuable(cs: seq<Constraint>)
    ensures Issuable(ACTOR, REQUEST, Listing(cs), None, 0) && 0 < ExpiryLimit(0, ACTOR, None)
  {
  }

  lemma AloneIsDistinct()
    ensures DistinctConstraints([CAP]) && !DistinctConstraints([CAP, CAP])
  {
    assert [CAP, CAP][0] == [CAP, CAP][1];
  }

  /** A policy may list one constraint twice: merging takes it, the grant issued from the merged list
      is properly signed, and the validator refuses it; with the constraint listed once it passes. */
  lemma RepeatedConstraintRefused()
    ensures !Conflicting(Flatten([[CAP, CAP]])) && FirstOccurrences(Flatten([[CAP, CAP]])) == [CAP]
    ensures var cs := [CAP, CAP];
            !GrantValid(CapGrant(cs), REQUEST, Listing(cs), [], {KeyOf(CAP)}, {OfGrant(CapGrant(cs))})
    ensures var cs := [CAP];
            GrantValid(CapGrant(cs), REQUEST, Listing(cs), [], {KeyOf(CAP)}, {OfGrant(CapGrant(cs))})
  {
    hide GrantValid, CapGrant, Listing, DistinctConstraints, Conflicting, FirstOccurrences, Flatten;
    CapMerges();
    AloneIsDistinct();
    CapGrantPasses([CAP]);
    CapGrantPasses([CAP, CAP]);
  }
}
