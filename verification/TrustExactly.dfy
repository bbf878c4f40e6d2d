/** When a signed record is accepted, an artifact active and a rollback valid, in terms of the entries of
    the context themselves. */
module TrustExactly {
  import opened Records
  import opened Trust

  // ---- The one entry of a list ----

  /** What a comprehension keeps. */
  function Kept<T>(all: seq<T>, keep: T -> bool): seq<T> {
    if all == [] then [] else (if keep(all[0]) then [all[0]] else []) + Kept(all[1..], keep)
  }

  predicate None<T>(all: seq<T>, keep: T -> bool) { forall i | 0 <= i < |all| :: !keep(all[i]) }

  /** The `i`th is kept and no other. */
  predicate Only<T>(all: seq<T>, keep: T -> bool, i: nat) {
    i < |all| && keep(all[i]) && forall j | 0 <= j < |all| && j != i :: !keep(all[j])
  }

  lemma {:induction false} KeptExactly<T>(all: seq<T>, keep: T -> bool)
    ensures Kept(all, keep) == [] <==> None(all, keep)
    ensures |Kept(all, keep)| == 1 <==> exists i: nat :: Only(all, keep, i)
    ensures forall i: nat | Only(all, keep, i) :: Kept(all, keep) == [all[i]]
  {
    if all != [] {
      KeptExactly(all[1..], keep);
      KeptOne(all, keep);
    }
  }

  lemma KeptOne<T>(all: seq<T>, keep: T -> bool)
    requires all != []
    requires Kept(all[1..], keep) == [] <==> None(all[1..], keep)
    requires |Kept(all[1..], keep)| == 1 <==> exists i: nat :: Only(all[1..], keep, i)
    requires forall i: nat | Only(all[1..], keep, i) :: Kept(all[1..], keep) == [all[1..][i]]
    ensures Kept(all, keep) == [] <==> None(all, keep)
    ensures |Kept(all, keep)| == 1 <==> exists i: nat :: Only(all, keep, i)
    ensures forall i: nat | Only(all, keep, i) :: Kept(all, keep) == [all[i]]
  {
    var rest := all[1..];
    assert forall j | 0 <= j < |rest| :: rest[j] == all[j + 1];
    if None(all, keep) {
      assert None(rest, keep);
    }
    if None(rest, keep) {
      forall j | 0 < j < |all| ensures !keep(all[j]) { assert all[j] == rest[j - 1]; }
      if keep(all[0]) {
        assert Only(all, keep, 0);
      }
    }
    forall i: nat | Only(all, keep, i) ensures Kept(all, keep) == [all[i]] {
      if i == 0 {
        assert None(rest, keep);
      } else {
        assert Only(rest, keep, i - 1);
      }
    }
    forall i: nat | Only(rest, keep, i) ensures keep(all[0]) || Only(all, keep, i + 1) {
      forall j | 0 <= j < |all| && j != i + 1 && j != 0 ensures !keep(all[j]) { assert all[j] == rest[j - 1]; }
    }
  }

  // ---- Keys, invalidations and acceptances by name ----

  function KeyNamed(p: Proof): TrustedKey -> bool { (k: TrustedKey) => k.issuer == p.issuer && k.keyId == p.keyId }

  function InvalidationNamed(p: Proof): Invalidation -> bool {
    (x: Invalidation) => x.issuer == p.issuer && x.keyId == p.keyId
  }

  function AcceptanceOf(r: Signed): Acceptance -> bool { (a: Acceptance) => a.record == r }

  lemma {:induction false} KeysKept(all: seq<TrustedKey>, p: Proof)
    ensures MatchingKeys(all, p) == Kept(all, KeyNamed(p))
  {
    if all != [] { KeysKept(all[1..], p); }
  }

  lemma {:induction false} InvalidationsKept(all: seq<Invalidation>, p: Proof)
    ensures MatchingInvalidations(all, p) == Kept(all, InvalidationNamed(p))
  {
    if all != [] { InvalidationsKept(all[1..], p); }
  }

  lemma {:induction false} AcceptancesKept(all: seq<Acceptance>, r: Signed)
    ensures MatchingAcceptances(all, r) == Kept(all, AcceptanceOf(r))
  {
    if all != [] { AcceptancesKept(all[1..], r); }
  }

  /** No invalidation of the record's key, or a single one from after its issue. */
  ghost predicate Standing(r: Signed, all: seq<Invalidation>) {
    || None(all, InvalidationNamed(r.proof))
    || exists i: nat :: Only(all, InvalidationNamed(r.proof), i) && r.issuedAt < all[i].invalidFrom
  }

  lemma StandingExactly(r: Signed, all: seq<Invalidation>)
    ensures Invalidated(r, all) <==> !Standing(r, all)
  {
    InvalidationsKept(all, r.proof);
    KeptExactly(all, InvalidationNamed(r.proof));
  }

  // ---- Frozen tuples ----

  /** Strictly ascending strings, none of them empty. */
  ghost predicate Names(v: seq<Id>) {
    (forall i, j | 0 <= i < j < |v| :: ComesFirst(v[i], v[j])) && forall i | 0 <= i < |v| :: v[i] != ""
  }

  /** Pairs that ascend by their first and then by their second part, nothing in them empty. */
  ghost predicate NamePairs(v: seq<(Id, Id)>) {
    && (forall i, j | 0 <= i < j < |v| ::
          ComesFirst(v[i].0, v[j].0) || (v[i].0 == v[j].0 && ComesFirst(v[i].1, v[j].1)))
    && forall i | 0 <= i < |v| :: v[i].0 != "" && v[i].1 != ""
  }

  ghost predicate Ascends<T(!new)>(v: seq<T>, less: (T, T) -> bool) {
    forall i, j | 0 <= i < j < |v| :: less(v[i], v[j])
  }

  lemma AscendingIsCanonical<T(!new)>(v: seq<T>, less: (T, T) -> bool)
    requires StrictOrder(less)
    ensures Ascends(v, less) <==> Canonical(v, less)
  {
    if Canonical(v, less) {
      TupleAscends(Elements(v), less);
    }
    if Ascends(v, less) {
      AscendingIsSorted(v, less);
    }
  }

  lemma FirstIsLeast<T(!new)>(v: seq<T>, less: (T, T) -> bool, m: T)
    requires StrictOrder(less) && Ascends(v, less) && v != [] && Least(m, Elements(v), less)
    ensures m == v[0]
  {
    assert v[0] in Elements(v);
    assert exists k :: 0 <= k < |v| && v[k] == m && (k == 0 || less(v[0], m));
  }

  lemma OthersAfterFirst<T(!new)>(v: seq<T>, less: (T, T) -> bool)
    requires StrictOrder(less) && Ascends(v, less) && v != []
    ensures Elements(v) - {v[0]} == Elements(v[1..]) && Ascends(v[1..], less)
  {
    assert v == [v[0]] + v[1..];
    forall x | x in v[1..] ensures x != v[0] {
      var j :| 0 <= j < |v[1..]| && v[1..][j] == x;
      assert less(v[0], v[j + 1]);
    }
  }

  lemma SortedFromLeast<T(!new)>(s: set<T>, less: (T, T) -> bool) returns (m: T)
    requires StrictOrder(less) && s != {}
    ensures Least(m, s, less) && SortedTuple(s, less) == [m] + SortedTuple(s - {m}, less)
  {
    HasLeast(s, less);
    m :| Least(m, s, less) && SortedTuple(s, less) == [m] + SortedTuple(s - {m}, less);
  }

  lemma {:induction false} AscendingIsSorted<T(!new)>(v: seq<T>, less: (T, T) -> bool)
    requires StrictOrder(less) && Ascends(v, less)
    ensures v == SortedTuple(Elements(v), less)
  {
    if v == [] {
      assert Elements(v) == {};
    } else {
      hide StrictOrder, Ascends, SortedTuple;
      assert v[0] in Elements(v);
      var m := SortedFromLeast(Elements(v), less);
      FirstIsLeast(v, less, m);
      OthersAfterFirst(v, less);
      AscendingIsSorted(v[1..], less);
      assert v == [v[0]] + v[1..];
    }
  }

  lemma NamesExactly(v: seq<Id>)
    ensures CanonicalStrings(v) <==> Names(v)
  {
    hide ComesFirst, StringLess;
    StringOrder();
    AscendingIsCanonical(v, StringLess);
    forall x: string, y: string ensures StringLess(x, y) <==> ComesFirst(x, y) { StringLessExactly(x, y); }
  }

  lemma NamePairsExactly(v: seq<(Id, Id)>)
    ensures CanonicalPairs(v) <==> NamePairs(v)
  {
    hide ComesFirst, StringLess;
    PairOrder();
    AscendingIsCanonical(v, PairLess);
    forall x: string, y: string ensures StringLess(x, y) <==> ComesFirst(x, y) { StringLessExactly(x, y); }
    forall x: (Id, Id), y: (Id, Id)
      ensures PairLess(x, y) <==> ComesFirst(x.0, y.0) || (x.0 == y.0 && ComesFirst(x.1, y.1)) {}
  }

  // ---- A verified record ----

  /** The proof names the domain of the record's kind. */
  predicate InDomain(r: Signed) {
    || (r.kind == ApprovalRecord && r.proof.domain == "approval_record.v1")
    || (r.kind == AuthorizationGrant && r.proof.domain == "authorization_grant.v1")
    || (r.kind == DeliveryEnvelope && r.proof.domain == "delivery_envelope.v1")
    || (r.kind == ActivationReceipt && r.proof.domain == "activation_receipt.v1")
    || (r.kind == RollbackReceipt && r.proof.domain == "rollback_receipt.v1")
  }

  predicate InRange(t: int) { 0 <= t <= MAX_TIME }

  /** A clock, issue and expiry within a skew of each other, and the issue within a skew of the key's
      validity, with no sum out of the range of times. */
  predicate Timely(issuedAt: int, expiresAt: int, at: int, skew: int, validFrom: int, validUntil: Option<int>) {
    && issuedAt <= at + skew && at <= expiresAt + skew && validFrom - skew <= issuedAt
    && InRange(at + skew) && InRange(expiresAt + skew) && InRange(validFrom - skew)
    && (validUntil.Some? ==>
          && validFrom <= validUntil.value && issuedAt <= validUntil.value + skew && InRange(validUntil.value + skew))
  }

  /** Accepted for the first time, under the current policy, with the one key of its proof. */
  predicate AcceptedNow(r: Signed, t: TrustContext, now: int, key: TrustedKey) {
    var p := r.proof;
    var skew := t.skew.days * DAY + t.skew.seconds * 1_000_000 + t.skew.micros;
    && t.version != "" && 0 <= skew <= MAX_SAFE_INTEGER
    && p.domain in t.domains && p.issuer in t.issuers && (p.domain, p.issuer) in t.domainIssuers
    && p.algorithm in t.algorithms && p.algorithm in key.algorithms
    && Timely(r.issuedAt, r.expiresAt, now, skew, key.validFrom, key.validUntil)
    && (key.revokedAt.Some? ==> now < key.revokedAt.value)
  }

  /** Accepted before, under a frozen policy that is in order and allows its proof. */
  ghost predicate AcceptedThen(r: Signed, a: Acceptance) {
    var s, p := a.snapshot, r.proof;
    && 0 <= a.position && a.issuedAt == r.issuedAt && a.snapshotDigest == s && s.version != ""
    && s.issuer == p.issuer && s.keyId == p.keyId && s.algorithm == p.algorithm && s.domain == p.domain
    && Names(s.algorithms) && Names(s.domains) && Names(s.issuers) && NamePairs(s.domainIssuers)
    && Names(s.keyAlgorithms) && 0 <= s.skewMicros <= MAX_SAFE_INTEGER
    && p.domain in s.domains && p.issuer in s.issuers && (p.domain, p.issuer) in s.domainIssuers
    && p.algorithm in s.algorithms && p.algorithm in s.keyAlgorithms
    && Timely(r.issuedAt, r.expiresAt, a.acceptedAt, s.skewMicros, s.validFrom, s.validUntil)
    && (s.revokedAt.Some? ==> a.acceptedAt < s.revokedAt.value)
  }

  /** A well-formed record of its domain with a valid proof, under a clock, not invalidated: recorded never
      and acceptable now, or recorded once and acceptable then. */
  ghost predicate Verifies(r: Signed, t: TrustContext, proofs: set<Signed>) {
    && t.now.Some? && r.wellFormed && InDomain(r) && r in proofs && Standing(r, t.invalidations)
    && (|| (None(t.acceptances, AcceptanceOf(r))
            && exists i: nat :: Only(t.keys, KeyNamed(r.proof), i) && AcceptedNow(r, t, t.now.value, t.keys[i]))
        || exists i: nat :: Only(t.acceptances, AcceptanceOf(r), i) && AcceptedThen(r, t.acceptances[i]))
  }

  lemma DomainExactly(r: Signed)
    ensures ProofDomain(r.kind) == Some(r.proof.domain) <==> InDomain(r)
  {
  }

  /** The two ways for a record to pass, as the verification's verdict has them. */
  predicate PolicyPasses(r: Signed, t: TrustContext)
    requires t.now.Some?
  {
    && KeyUsable(r, t)
    && var key, now, skew := MatchingKeys(t.keys, r.proof)[0], t.now.value, Micros(t.skew);
       && !FirstSumsOverflow(r.issuedAt, r.expiresAt, now, skew, key)
       && r.issuedAt - skew <= now <= r.expiresAt + skew
       && InKeyWindow(r.issuedAt, skew, key.validFrom, key.validUntil)
       && (key.revokedAt.Some? ==> now < key.revokedAt.value)
  }

  ghost predicate RecordedPasses(r: Signed, a: Acceptance) {
    && HistoryBinds(a, r) && !HistoricalSumsOverflow(r.issuedAt, r.expiresAt, a.acceptedAt, a.snapshot)
    && var s, at := a.snapshot, a.acceptedAt;
       && r.issuedAt - s.skewMicros <= at <= r.expiresAt + s.skewMicros
       && InKeyWindow(r.issuedAt, s.skewMicros, s.validFrom, s.validUntil)
       && (s.validUntil.Some? ==> s.validFrom <= s.validUntil.value)
       && (s.revokedAt.Some? ==> at < s.revokedAt.value)
  }

  lemma NowExactly(r: Signed, t: TrustContext, i: nat)
    requires t.now.Some? && Only(t.keys, KeyNamed(r.proof), i)
    ensures AcceptedNow(r, t, t.now.value, t.keys[i]) <==> PolicyPasses(r, t)
  {
    KeysKept(t.keys, r.proof);
    KeptExactly(t.keys, KeyNamed(r.proof));
    hide Kept, MatchingKeys, None, Only;
  }

  lemma ThenExactly(r: Signed, a: Acceptance)
    requires a.record == r
    ensures AcceptedThen(r, a) <==> RecordedPasses(r, a)
  {
    hide CanonicalStrings, CanonicalPairs, Names, NamePairs;
    var s := a.snapshot;
    NamesExactly(s.algorithms);
    NamesExactly(s.domains);
    NamesExactly(s.issuers);
    NamesExactly(s.keyAlgorithms);
    NamePairsExactly(s.domainIssuers);
  }

  lemma PassesExactly(r: Signed, t: TrustContext, proofs: set<Signed>)
    ensures Passes(r, t, proofs) <==> Verifies(r, t, proofs)
  {
    hide Kept, Standing, InDomain, HistoryBinds, HistoricalSumsOverflow, FirstSumsOverflow, InKeyWindow, AcceptedNow,
         AcceptedThen, PolicyAllows, Invalidated, MatchingAcceptances, MatchingKeys, ProofDomain;
    DomainExactly(r);
    StandingExactly(r, t.invalidations);
    AcceptancesKept(t.acceptances, r);
    KeptExactly(t.acceptances, AcceptanceOf(r));
    KeysKept(t.keys, r.proof);
    KeptExactly(t.keys, KeyNamed(r.proof));
    forall i: nat | Only(t.acceptances, AcceptanceOf(r), i)
      ensures MatchingAcceptances(t.acceptances, r) == [t.acceptances[i]]
              && (AcceptedThen(r, t.acceptances[i]) <==> RecordedPasses(r, t.acceptances[i]))
    {
      ThenExactly(r, t.acceptances[i]);
    }
    forall i: nat | t.now.Some? && Only(t.keys, KeyNamed(r.proof), i)
      ensures AcceptedNow(r, t, t.now.value, t.keys[i]) <==> PolicyPasses(r, t)
    {
      NowExactly(r, t, i);
    }
    hide None, Only;
  }

  // ---- Active artifacts and valid rollbacks ----

  /** Each of the two has one recorded acceptance, and the first one's is earlier in the ledger. */
  ghost predicate RecordedBefore(r: Signed, q: Signed, t: TrustContext) {
    exists m: nat, n: nat ::
      && Only(t.acceptances, AcceptanceOf(r), m) && Only(t.acceptances, AcceptanceOf(q), n)
      && 0 <= t.acceptances[m].position < t.acceptances[n].position
  }

  lemma BeforeExactly(r: Signed, q: Signed, t: TrustContext)
    ensures RecordedBefore(r, q, t) <==>
              RecordedOnce(r, t) && RecordedOnce(q, t) && PositionOf(r, t) < PositionOf(q, t)
  {
    AcceptancesKept(t.acceptances, r);
    AcceptancesKept(t.acceptances, q);
    KeptExactly(t.acceptances, AcceptanceOf(r));
    KeptExactly(t.acceptances, AcceptanceOf(q));
    hide Kept, MatchingAcceptances, None, Only;
  }

  /** An artifact is active exactly when its delivery and its activation verify and were each accepted
      once, the delivery earlier in the ledger, and the activation names this delivery, of the same tenant,
      artifact and scope, in its time. */
  lemma ActiveMeans(d: Signed, receipt: Option<Signed>, t: TrustContext, proofs: set<Signed>)
    ensures IsActive(d, receipt, t, proofs) == Yes <==>
              && receipt.Some? && d.kind == DeliveryEnvelope && d.delivered && receipt.value.kind == ActivationReceipt
              && var a := receipt.value;
                 && a.runtimeAuthority && Verifies(d, t, proofs) && Verifies(a, t, proofs) && RecordedBefore(d, a, t)
                 && a.tenant == d.tenant && a.artifact == d.artifact && a.scope == d.scope
                 && a.deliveryId == d.deliveryId && a.deliveryDigest == Some(d)
                 && d.issuedAt <= a.issuedAt && a.issuedAt <= d.expiresAt
  {
    hide IsActive, Passes, Verifies, RecordedBefore, RecordedOnce, PositionOf;
    ActiveExactly(d, receipt, t, proofs);
    PassesExactly(d, t, proofs);
    if receipt.Some? {
      PassesExactly(receipt.value, t, proofs);
      BeforeExactly(d, receipt.value, t);
    }
  }

  /** A rollback is valid exactly when it and its activation verify under the runtime's authority, were
      each accepted once, the activation earlier, and it names this activation, of the same tenant, artifact
      and scope, not before it. */
  lemma RollbackMeans(b: Signed, a: Signed, t: TrustContext, proofs: set<Signed>)
    ensures RollbackValid(b, a, t, proofs) <==>
              && b.kind == RollbackReceipt && a.kind == ActivationReceipt && a.runtimeAuthority && b.runtimeAuthority
              && Verifies(a, t, proofs) && Verifies(b, t, proofs) && RecordedBefore(a, b, t)
              && b.tenant == a.tenant && b.artifact == a.artifact && b.scope == a.scope
              && b.activationRef == Some((a.recordId, a)) && a.issuedAt <= b.issuedAt
  {
    hide RollbackValid, Passes, Verifies, RecordedBefore, RecordedOnce, PositionOf;
    RollbackExactly(b, a, t, proofs);
    PassesExactly(a, t, proofs);
    PassesExactly(b, t, proofs);
    BeforeExactly(a, b, t);
  }
}
