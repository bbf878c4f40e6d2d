/** Signed records: accepted once under the trust policy of the day, judged later by the facts
    frozen at that first acceptance. */
module Trust {
  import opened Records

  // ---- Time ----

  /** Python's datetime range, in microseconds since 0001-01-01. */
  const MAX_TIME := 315_537_897_599_999_999
  const MAX_SAFE_INTEGER := 9_007_199_254_740_991
  const DAY := 86_400_000_000

  /** A normalised `timedelta`. */
  datatype TimeDelta = TimeDelta(days: int, seconds: int, micros: int)

  predicate NormalDelta(d: TimeDelta) { 0 <= d.seconds < 86_400 && 0 <= d.micros < 1_000_000 }

  /** `_timedelta_microseconds`. */
  function Micros(d: TimeDelta): int { d.days * DAY + d.seconds * 1_000_000 + d.micros }

  /** `timedelta(microseconds=n)`. */
  function FromMicros(n: int): TimeDelta {
    TimeDelta(n / DAY, n % DAY / 1_000_000, n % DAY % 1_000_000)
  }

  lemma DeltaRoundTrip(d: TimeDelta)
    requires NormalDelta(d)
    ensures FromMicros(Micros(d)) == d
  {
    var rest := d.seconds * 1_000_000 + d.micros;
    assert 0 <= rest < DAY;
    assert Micros(d) == d.days * DAY + rest;
    assert Micros(d) / DAY == d.days && Micros(d) % DAY == rest;
    assert rest / 1_000_000 == d.seconds && rest % 1_000_000 == d.micros;
  }

  /** Datetime arithmetic, which raises OverflowError outside the range. */
  function Plus(t: int, d: int): Option<int> { if 0 <= t + d <= MAX_TIME then Some(t + d) else None }

  // ---- Ordered tuples ----

  ghost predicate StrictOrder<T(!new)>(less: (T, T) -> bool) {
    && (forall x :: !less(x, x))
    && (forall x, y, z :: less(x, y) && less(y, z) ==> less(x, z))
    && (forall x, y :: x == y || less(x, y) || less(y, x))
  }

  predicate StringLess(a: string, b: string) {
    b != "" && (a == "" || a[0] < b[0] || (a[0] == b[0] && StringLess(a[1..], b[1..])))
  }

  predicate PairLess(p: (Id, Id), q: (Id, Id)) { StringLess(p.0, q.0) || (p.0 == q.0 && StringLess(p.1, q.1)) }

  lemma {:induction false} StringIrreflexive(a: string)
    ensures !StringLess(a, a)
  {
    if a != "" { StringIrreflexive(a[1..]); }
  }

  lemma {:induction false} StringTransitive(a: string, b: string, c: string)
    requires StringLess(a, b) && StringLess(b, c)
    ensures StringLess(a, c)
  {
    if a != "" && a[0] == b[0] == c[0] { StringTransitive(a[1..], b[1..], c[1..]); }
  }

  lemma {:induction false} StringTotal(a: string, b: string)
    ensures a == b || StringLess(a, b) || StringLess(b, a)
  {
    if a != "" && b != "" && a[0] == b[0] {
      StringTotal(a[1..], b[1..]);
      assert a == [a[0]] + a[1..] && b == [b[0]] + b[1..];
    }
  }

  lemma StringOrder()
    ensures StrictOrder(StringLess)
  {
    forall x ensures !StringLess(x, x) { StringIrreflexive(x); }
    forall x, y, z | StringLess(x, y) && StringLess(y, z) ensures StringLess(x, z) { StringTransitive(x, y, z); }
    forall x, y ensures x == y || StringLess(x, y) || StringLess(y, x) { StringTotal(x, y); }
  }

  lemma PairOrder()
    ensures StrictOrder(PairLess)
  {
    StringOrder();
    forall x: (Id, Id) ensures !PairLess(x, x) { StringIrreflexive(x.0); StringIrreflexive(x.1); }
    forall x: (Id, Id), y: (Id, Id), z: (Id, Id) | PairLess(x, y) && PairLess(y, z) ensures PairLess(x, z) {
      if StringLess(x.0, y.0) && StringLess(y.0, z.0) {
        StringTransitive(x.0, y.0, z.0);
      } else if x.0 == y.0 == z.0 {
        StringTransitive(x.1, y.1, z.1);
      }
    }
    forall x: (Id, Id), y: (Id, Id) ensures x == y || PairLess(x, y) || PairLess(y, x) {
      StringTotal(x.0, y.0);
      StringTotal(x.1, y.1);
    }
  }

  ghost predicate Least<T(!new)>(m: T, s: set<T>, less: (T, T) -> bool) {
    m in s && forall x | x in s :: x == m || less(m, x)
  }

  lemma {:induction false} HasLeast<T(!new)>(s: set<T>, less: (T, T) -> bool)
    requires StrictOrder(less) && s != {}
    ensures exists m :: Least(m, s, less)
  {
    var x :| x in s;
    if s == {x} {
      forall y | y in s ensures y == x { assert y in {x}; }
      assert Least(x, s, less);
    } else {
      HasLeast(s - {x}, less);
      var m :| Least(m, s - {x}, less);
      var least := if less(x, m) then x else m;
      forall y | y in s ensures y == least || less(least, y) {
        assert y == x || y in s - {x};
      }
      assert Least(least, s, less);
    }
  }

  /** `tuple(sorted(s))`. */
  ghost function SortedTuple<T(!new)>(s: set<T>, less: (T, T) -> bool): seq<T>
    requires StrictOrder(less)
  {
    if s == {} then []
    else
      HasLeast(s, less);
      var m :| Least(m, s, less);
      [m] + SortedTuple(s - {m}, less)
  }

  lemma {:induction false} SortedTupleElements<T(!new)>(s: set<T>, less: (T, T) -> bool)
    requires StrictOrder(less)
    ensures forall x :: x in SortedTuple(s, less) <==> x in s
  {
    if s != {} {
      HasLeast(s, less);
      var m :| Least(m, s, less) && SortedTuple(s, less) == [m] + SortedTuple(s - {m}, less);
      SortedTupleElements(s - {m}, less);
    }
  }

  ghost function Elements<T(!new)>(t: seq<T>): set<T> { set x | x in t }

  /** `values == tuple(sorted(set(values)))`. */
  ghost predicate Canonical<T(!new)>(t: seq<T>, less: (T, T) -> bool)
    requires StrictOrder(less)
  {
    t == SortedTuple(Elements(t), less)
  }

  lemma SortedIsCanonical<T(!new)>(s: set<T>, less: (T, T) -> bool)
    requires StrictOrder(less)
    ensures Canonical(SortedTuple(s, less), less)
  {
    SortedTupleElements(s, less);
    assert Elements(SortedTuple(s, less)) == s;
  }

  // ---- Records, keys, contexts ----

  datatype Kind =
    | ApprovalRecord | AuthorizationGrant | DeliveryEnvelope | ActivationReceipt | RollbackReceipt | OtherKind

  /** `SIGNED_PROOF_DOMAINS`. */
  function ProofDomain(k: Kind): Option<Id> {
    match k
    case ApprovalRecord => Some("approval_record.v1")
    case AuthorizationGrant => Some("authorization_grant.v1")
    case DeliveryEnvelope => Some("delivery_envelope.v1")
    case ActivationReceipt => Some("activation_receipt.v1")
    case RollbackReceipt => Some("rollback_receipt.v1")
    case OtherKind => None
  }

  datatype Proof = Proof(issuer: Id, keyId: Id, algorithm: Id, domain: Id, signature: Id)

  datatype Artifact = Artifact(kind: Id, id: Id, revision: Id, digest: Id)

  /** `wellFormed` is the verdict of `validate_record`, which depends on the record alone. */
  datatype Signed = Signed(
    kind: Kind, tenant: Id, recordId: Id, issuedAt: int, expiresAt: int, proof: Proof, wellFormed: bool,
    runtimeAuthority: bool, delivered: bool, artifact: Artifact, scope: Id, deliveryId: Id,
    deliveryDigest: Option<Signed>, activationRef: Option<(Id, Signed)>)

  datatype TrustedKey = TrustedKey(issuer: Id, keyId: Id, algorithms: set<Id>, validFrom: int,
                                   validUntil: Option<int>, revokedAt: Option<int>)

  datatype Invalidation = Invalidation(issuer: Id, keyId: Id, invalidFrom: int)

  datatype Snapshot = Snapshot(
    version: Id, issuer: Id, keyId: Id, algorithm: Id, domain: Id,
    algorithms: seq<Id>, domains: seq<Id>, issuers: seq<Id>, domainIssuers: seq<(Id, Id)>, keyAlgorithms: seq<Id>,
    validFrom: int, validUntil: Option<int>, revokedAt: Option<int>, skewMicros: int)

  /** Digests are the digested values themselves. */
  datatype Acceptance = Acceptance(
    record: Signed, issuedAt: int, acceptedAt: int, snapshot: Snapshot, snapshotDigest: Snapshot, position: int)

  /** A `now` without a timezone is `None`. */
  datatype TrustContext = TrustContext(
    now: Option<int>, keys: seq<TrustedKey>, algorithms: set<Id>, domains: set<Id>, issuers: set<Id>,
    domainIssuers: set<(Id, Id)>, version: Id, skew: TimeDelta, acceptances: seq<Acceptance>,
    invalidations: seq<Invalidation>)

  datatype Verdict = Accepted(acceptance: Acceptance) | Refused | Overflowed

  // ---- Retroactive invalidation ----

  function MatchingInvalidations(all: seq<Invalidation>, p: Proof): seq<Invalidation> {
    if all == [] then []
    else
      (if all[0].issuer == p.issuer && all[0].keyId == p.keyId then [all[0]] else [])
      + MatchingInvalidations(all[1..], p)
  }

  /** What `_enforce_retroactive_invalidation` refuses. */
  predicate Invalidated(r: Signed, all: seq<Invalidation>) {
    var m := MatchingInvalidations(all, r.proof);
    |m| > 1 || (|m| == 1 && m[0].invalidFrom <= r.issuedAt)
  }

  // ---- First acceptance ----

  function MatchingKeys(all: seq<TrustedKey>, p: Proof): seq<TrustedKey> {
    if all == [] then []
    else (if all[0].issuer == p.issuer && all[0].keyId == p.keyId then [all[0]] else []) + MatchingKeys(all[1..], p)
  }

  ghost function TakeSnapshot(p: Proof, t: TrustContext, key: TrustedKey): Snapshot {
    StringOrder();
    PairOrder();
    Snapshot(t.version, p.issuer, p.keyId, p.algorithm, p.domain,
             SortedTuple(t.algorithms, StringLess), SortedTuple(t.domains, StringLess),
             SortedTuple(t.issuers, StringLess), SortedTuple(t.domainIssuers, PairLess),
             SortedTuple(key.algorithms, StringLess), key.validFrom, key.validUntil, key.revokedAt, Micros(t.skew))
  }

  predicate SkewAllowed(d: TimeDelta) { 0 <= Micros(d) <= MAX_SAFE_INTEGER }

  /** The allowlists of the current policy. */
  predicate PolicyAllows(p: Proof, t: TrustContext) {
    && t.version != "" && SkewAllowed(t.skew)
    && p.domain in t.domains && p.issuer in t.issuers && (p.domain, p.issuer) in t.domainIssuers
    && p.algorithm in t.algorithms
  }

  datatype Window = Inside | Outside | Beyond

  /** The time checks of a first acceptance, in order; `Beyond` is an overflow of a sum. */
  function FirstTimes(issuedAt: int, expiresAt: int, now: int, skew: int, key: TrustedKey): Window {
    match Plus(expiresAt, skew)
    case None => Beyond
    case Some(expiry) =>
      if now > expiry then Outside
      else
        match Plus(now, skew)
        case None => Beyond
        case Some(latest) =>
          if issuedAt > latest then Outside else KeyTimes(issuedAt, skew, key.validFrom, key.validUntil, false)
  }

  /** The validity of the key.  History also looks for an inverted window, in the middle. */
  function KeyTimes(issuedAt: int, skew: int, validFrom: int, validUntil: Option<int>, history: bool): Window {
    match Plus(validFrom, -skew)
    case None => Beyond
    case Some(earliest) =>
      if issuedAt < earliest then Outside
      else if validUntil.None? then Inside
      else if history && validUntil.value < validFrom then Outside
      else
        match Plus(validUntil.value, skew)
        case None => Beyond
        case Some(end) => if issuedAt > end then Outside else Inside
  }

  /** The same checks against a frozen snapshot. */
  function HistoricalTimes(issuedAt: int, expiresAt: int, acceptedAt: int, s: Snapshot): Window {
    match Plus(acceptedAt, s.skewMicros)
    case None => Beyond
    case Some(latest) =>
      if issuedAt > latest then Outside
      else
        match Plus(expiresAt, s.skewMicros)
        case None => Beyond
        case Some(expiry) => if acceptedAt > expiry then Outside
          else KeyTimes(issuedAt, s.skewMicros, s.validFrom, s.validUntil, true)
  }

  ghost function AcceptFirst(r: Signed, t: TrustContext, now: int): Verdict {
    var keys := MatchingKeys(t.keys, r.proof);
    if !PolicyAllows(r.proof, t) || |keys| != 1 then Refused
    else
      var key := keys[0];
      if r.proof.algorithm !in key.algorithms || (key.validUntil.Some? && key.validUntil.value < key.validFrom)
      then Refused
      else
        match FirstTimes(r.issuedAt, r.expiresAt, now, Micros(t.skew), key)
        case Outside => Refused
        case Beyond => Overflowed
        case Inside =>
          if key.revokedAt.Some? && key.revokedAt.value <= now then Refused
          else
            var snapshot := TakeSnapshot(r.proof, t, key);
            Accepted(Acceptance(r, r.issuedAt, now, snapshot, snapshot, -1))
  }

  /** A larger skew lets more through: it never turns a passed time check into a refusal. */
  lemma LargerSkewAcceptsMore(issuedAt: int, expiresAt: int, now: int, skew: int, larger: int, key: TrustedKey)
    requires 0 <= skew <= larger && FirstTimes(issuedAt, expiresAt, now, skew, key) == Inside
    ensures FirstTimes(issuedAt, expiresAt, now, larger, key) != Outside
    ensures issuedAt - skew <= now <= expiresAt + skew && key.validFrom - skew <= issuedAt
            && (key.validUntil.Some? ==> issuedAt <= key.validUntil.value + skew)
  {
  }

  // ---- Recorded acceptance ----

  ghost predicate CanonicalStrings(v: seq<Id>) {
    StringOrder();
    Canonical(v, StringLess) && "" !in v
  }

  ghost predicate CanonicalPairs(v: seq<(Id, Id)>) {
    PairOrder();
    Canonical(v, PairLess) && forall p | p in v :: p.0 != "" && p.1 != ""
  }

  /** The checks of `_validate_historical_acceptance` before the times. */
  ghost predicate HistoryBinds(a: Acceptance, r: Signed) {
    var s := a.snapshot;
    && 0 <= a.position && a.record == r && a.issuedAt == r.issuedAt && a.snapshotDigest == s && s.version != ""
    && CanonicalStrings(s.algorithms) && CanonicalStrings(s.domains) && CanonicalStrings(s.issuers)
    && CanonicalPairs(s.domainIssuers) && CanonicalStrings(s.keyAlgorithms)
    && (s.issuer, s.keyId, s.algorithm, s.domain) == (r.proof.issuer, r.proof.keyId, r.proof.algorithm, r.proof.domain)
    && s.algorithm in s.algorithms && s.domain in s.domains && s.issuer in s.issuers
    && (s.domain, s.issuer) in s.domainIssuers && s.algorithm in s.keyAlgorithms
    && 0 <= s.skewMicros <= MAX_SAFE_INTEGER
  }

  ghost function CheckHistory(a: Acceptance, r: Signed): Verdict {
    if !HistoryBinds(a, r) then Refused
    else
      match HistoricalTimes(r.issuedAt, r.expiresAt, a.acceptedAt, a.snapshot)
      case Outside => Refused
      case Beyond => Overflowed
      case Inside => if a.snapshot.revokedAt.Some? && a.snapshot.revokedAt.value <= a.acceptedAt then Refused
        else Accepted(a)
  }

  function MatchingAcceptances(all: seq<Acceptance>, r: Signed): seq<Acceptance> {
    if all == [] then []
    else (if all[0].record == r then [all[0]] else []) + MatchingAcceptances(all[1..], r)
  }

  // ---- Verification ----

  /** `_verify_signed_record`; `proofs` holds the records whose detached proofs verify. */
  ghost function VerifySigned(r: Signed, t: TrustContext, proofs: set<Signed>, allowHistory: bool): Verdict {
    var matches := if allowHistory then MatchingAcceptances(t.acceptances, r) else [];
    if t.now.None? || ProofDomain(r.kind).None? || !r.wellFormed || Some(r.proof.domain) != ProofDomain(r.kind)
       || Invalidated(r, t.invalidations) || |matches| > 1 then Refused
    else
      var v := if matches == [] then AcceptFirst(r, t, t.now.value) else CheckHistory(matches[0], r);
      if v.Accepted? && r !in proofs then Refused else v
  }

  /** `verify_runtime_receipt`. */
  ghost function VerifyReceipt(r: Signed, t: TrustContext, proofs: set<Signed>): Verdict {
    if (r.kind != ActivationReceipt && r.kind != RollbackReceipt) || !r.runtimeAuthority then Refused
    else VerifySigned(r, t, proofs, true)
  }

  // ---- Activation and rollback ----

  /** `validate_activation_delivery_binding`. */
  predicate ActivationBinds(a: Signed, d: Signed) {
    && a.tenant == d.tenant && a.artifact == d.artifact
    && a.deliveryId == d.deliveryId && a.deliveryDigest == Some(d) && a.scope == d.scope
    && d.delivered && d.issuedAt <= a.issuedAt <= d.expiresAt
  }

  /** `validate_rollback_activation_binding`. */
  predicate RollbackBinds(b: Signed, a: Signed) {
    && b.tenant == a.tenant && b.artifact == a.artifact
    && b.activationRef == Some((a.recordId, a)) && b.scope == a.scope && a.issuedAt <= b.issuedAt
  }

  datatype Answer = Yes | No | Escapes

  /** `learning_artifact_is_active`; an OverflowError is not caught. */
  ghost function IsActive(d: Signed, receipt: Option<Signed>, t: TrustContext, proofs: set<Signed>): Answer {
    if receipt.None? then No
    else
      var a := receipt.value;
      if d.kind != DeliveryEnvelope || !d.delivered || a.kind != ActivationReceipt then No
      else
        match VerifySigned(d, t, proofs, true)
        case Refused => No
        case Overflowed => Escapes
        case Accepted(x) =>
          match VerifyReceipt(a, t, proofs)
          case Refused => No
          case Overflowed => Escapes
          case Accepted(y) => if 0 <= x.position < y.position && ActivationBinds(a, d) then Yes else No
  }

  /** `validate_rollback_lifecycle`. */
  ghost predicate RollbackValid(b: Signed, a: Signed, t: TrustContext, proofs: set<Signed>) {
    && b.kind == RollbackReceipt && a.kind == ActivationReceipt
    && |MatchingAcceptances(t.acceptances, a)| == 1 && |MatchingAcceptances(t.acceptances, b)| == 1
    && VerifyReceipt(a, t, proofs).Accepted? && VerifyReceipt(b, t, proofs).Accepted?
    && RollbackBinds(b, a)
    && 0 <= VerifyReceipt(a, t, proofs).acceptance.position < VerifyReceipt(b, t, proofs).acceptance.position
  }

  // ---- What history decides ----

  /** Two contexts that know the same history, invalidations, and whether they know the time. */
  predicate SameHistory(t: TrustContext, u: TrustContext) {
    t.acceptances == u.acceptances && t.invalidations == u.invalidations && (t.now.Some? <==> u.now.Some?)
  }

  /** Without exactly one recorded acceptance a verification never yields a ledger position. */
  lemma PositionNeedsHistory(r: Signed, t: TrustContext, proofs: set<Signed>)
    ensures VerifySigned(r, t, proofs, true).Accepted? && VerifySigned(r, t, proofs, true).acceptance.position >= 0 ==>
              && |MatchingAcceptances(t.acceptances, r)| == 1
              && VerifySigned(r, t, proofs, true).acceptance == MatchingAcceptances(t.acceptances, r)[0]
    ensures |MatchingAcceptances(t.acceptances, r)| == 0 && VerifySigned(r, t, proofs, true).Accepted? ==>
              VerifySigned(r, t, proofs, true).acceptance.position == -1
  {
    hide TakeSnapshot, HistoryBinds, HistoricalTimes, FirstTimes, PolicyAllows;
  }

  /** With a recorded acceptance a verification depends on the history alone. */
  lemma HistoryDecides(r: Signed, t: TrustContext, u: TrustContext, proofs: set<Signed>)
    requires SameHistory(t, u) && |MatchingAcceptances(t.acceptances, r)| >= 1
    ensures VerifySigned(r, t, proofs, true) == VerifySigned(r, u, proofs, true)
  {
    hide AcceptFirst, CheckHistory;
  }

  // ---- When a sum with the skew leaves the datetime range ----

  predicate OutOfRange(t: int) { t < 0 || MAX_TIME < t }

  /** A sum with the validity of the key is reached and leaves the range. */
  predicate KeySumsOverflow(issuedAt: int, skew: int, validFrom: int, validUntil: Option<int>, history: bool) {
    || OutOfRange(validFrom - skew)
    || (&& validFrom - skew <= issuedAt && validUntil.Some? && !(history && validUntil.value < validFrom)
        && OutOfRange(validUntil.value + skew))
  }

  /** A sum of a first acceptance is reached and leaves the range. */
  predicate FirstSumsOverflow(issuedAt: int, expiresAt: int, now: int, skew: int, key: TrustedKey) {
    || OutOfRange(expiresAt + skew)
    || (now <= expiresAt + skew && OutOfRange(now + skew))
    || (&& now <= expiresAt + skew && issuedAt <= now + skew
        && KeySumsOverflow(issuedAt, skew, key.validFrom, key.validUntil, false))
  }

  /** A sum of a historical check is reached and leaves the range. */
  predicate HistoricalSumsOverflow(issuedAt: int, expiresAt: int, acceptedAt: int, s: Snapshot) {
    || OutOfRange(acceptedAt + s.skewMicros)
    || (issuedAt <= acceptedAt + s.skewMicros && OutOfRange(expiresAt + s.skewMicros))
    || (&& issuedAt <= acceptedAt + s.skewMicros && acceptedAt <= expiresAt + s.skewMicros
        && KeySumsOverflow(issuedAt, s.skewMicros, s.validFrom, s.validUntil, true))
  }

  lemma TimesOverflowExactly(issuedAt: int, expiresAt: int, now: int, skew: int, key: TrustedKey, s: Snapshot)
    ensures FirstTimes(issuedAt, expiresAt, now, skew, key) == Beyond
            <==> FirstSumsOverflow(issuedAt, expiresAt, now, skew, key)
    ensures HistoricalTimes(issuedAt, expiresAt, now, s) == Beyond
            <==> HistoricalSumsOverflow(issuedAt, expiresAt, now, s)
  {
  }

  /** The time interval that a key's validity leaves for the issue time. */
  predicate InKeyWindow(issuedAt: int, skew: int, validFrom: int, validUntil: Option<int>) {
    validFrom - skew <= issuedAt && (validUntil.Some? ==> issuedAt <= validUntil.value + skew)
  }

  lemma TimesInsideExactly(issuedAt: int, expiresAt: int, now: int, skew: int, key: TrustedKey, s: Snapshot)
    ensures FirstTimes(issuedAt, expiresAt, now, skew, key) == Inside <==>
              && !FirstSumsOverflow(issuedAt, expiresAt, now, skew, key)
              && issuedAt - skew <= now <= expiresAt + skew
              && InKeyWindow(issuedAt, skew, key.validFrom, key.validUntil)
    ensures HistoricalTimes(issuedAt, expiresAt, now, s) == Inside <==>
              && !HistoricalSumsOverflow(issuedAt, expiresAt, now, s)
              && issuedAt - s.skewMicros <= now <= expiresAt + s.skewMicros
              && InKeyWindow(issuedAt, s.skewMicros, s.validFrom, s.validUntil)
              && (s.validUntil.Some? ==> s.validFrom <= s.validUntil.value)
  {
  }

  /** The checks of a verification before any policy or history. */
  predicate Examined(r: Signed, t: TrustContext) {
    && t.now.Some? && r.wellFormed && ProofDomain(r.kind) == Some(r.proof.domain)
    && !Invalidated(r, t.invalidations) && |MatchingAcceptances(t.acceptances, r)| <= 1
  }

  /** The current policy has one key for the record, and lets it be used. */
  predicate KeyUsable(r: Signed, t: TrustContext) {
    && PolicyAllows(r.proof, t) && |MatchingKeys(t.keys, r.proof)| == 1
    && var key := MatchingKeys(t.keys, r.proof)[0];
       r.proof.algorithm in key.algorithms && (key.validUntil.Some? ==> key.validFrom <= key.validUntil.value)
  }

  /** The verification of the record gets to a sum that leaves the range. */
  ghost predicate SumsOverflow(r: Signed, t: TrustContext) {
    && Examined(r, t)
    && var m := MatchingAcceptances(t.acceptances, r);
       if m == [] then
         && KeyUsable(r, t)
         && FirstSumsOverflow(r.issuedAt, r.expiresAt, t.now.value, Micros(t.skew), MatchingKeys(t.keys, r.proof)[0])
       else
         HistoryBinds(m[0], r) && HistoricalSumsOverflow(r.issuedAt, r.expiresAt, m[0].acceptedAt, m[0].snapshot)
  }

  /** The verification of the record passes: policy or history, times, revocation and proof. */
  ghost predicate Passes(r: Signed, t: TrustContext, proofs: set<Signed>) {
    && Examined(r, t) && r in proofs && !SumsOverflow(r, t)
    && var m := MatchingAcceptances(t.acceptances, r);
       if m == [] then
         && KeyUsable(r, t)
         && var key, now, skew := MatchingKeys(t.keys, r.proof)[0], t.now.value, Micros(t.skew);
            && r.issuedAt - skew <= now <= r.expiresAt + skew
            && InKeyWindow(r.issuedAt, skew, key.validFrom, key.validUntil)
            && (key.revokedAt.Some? ==> now < key.revokedAt.value)
       else
         && HistoryBinds(m[0], r)
         && var s, at := m[0].snapshot, m[0].acceptedAt;
            && r.issuedAt - s.skewMicros <= at <= r.expiresAt + s.skewMicros
            && InKeyWindow(r.issuedAt, s.skewMicros, s.validFrom, s.validUntil)
            && (s.validUntil.Some? ==> s.validFrom <= s.validUntil.value)
            && (s.revokedAt.Some? ==> at < s.revokedAt.value)
  }

  /** The verdict of a verification, from times, sums and sets alone. */
  lemma VerdictExactly(r: Signed, t: TrustContext, proofs: set<Signed>)
    ensures VerifySigned(r, t, proofs, true) == Overflowed <==> SumsOverflow(r, t)
    ensures VerifySigned(r, t, proofs, true).Accepted? <==> Passes(r, t, proofs)
  {
    hide FirstTimes, HistoricalTimes, FirstSumsOverflow, HistoricalSumsOverflow, HistoryBinds, TakeSnapshot,
         Invalidated, PolicyAllows, MatchingKeys, MatchingAcceptances, InKeyWindow;
    if Examined(r, t) {
      var m := MatchingAcceptances(t.acceptances, r);
      var none := TrustedKey("", "", {}, 0, None, None);
      var key := if KeyUsable(r, t) then MatchingKeys(t.keys, r.proof)[0] else none;
      if m == [] {
        TimesOverflowExactly(r.issuedAt, r.expiresAt, t.now.value, Micros(t.skew), key, AnySnapshot());
        TimesInsideExactly(r.issuedAt, r.expiresAt, t.now.value, Micros(t.skew), key, AnySnapshot());
      } else {
        TimesOverflowExactly(r.issuedAt, r.expiresAt, m[0].acceptedAt, 0, none, m[0].snapshot);
        TimesInsideExactly(r.issuedAt, r.expiresAt, m[0].acceptedAt, 0, none, m[0].snapshot);
      }
    }
  }

  function AnySnapshot(): Snapshot { Snapshot("", "", "", "", "", [], [], [], [], [], 0, None, None, 0) }

  /** The verification of the delivery, or after it that of the receipt, gets to such a sum. */
  ghost predicate ActiveOverflows(d: Signed, receipt: Option<Signed>, t: TrustContext, proofs: set<Signed>) {
    && receipt.Some? && d.kind == DeliveryEnvelope && d.delivered && receipt.value.kind == ActivationReceipt
    && (SumsOverflow(d, t) || (Passes(d, t, proofs) && receipt.value.runtimeAuthority
                               && SumsOverflow(receipt.value, t)))
  }

  /** An error escapes instead of an answer exactly when one of the sums of the delivery or of the
      receipt, first or historical, is reached and leaves the datetime range. */
  lemma EscapesExactly(d: Signed, receipt: Option<Signed>, t: TrustContext, proofs: set<Signed>)
    ensures IsActive(d, receipt, t, proofs) == Escapes <==> ActiveOverflows(d, receipt, t, proofs)
  {
    hide VerifySigned, SumsOverflow, Passes, ActivationBinds;
    VerdictExactly(d, t, proofs);
    if receipt.Some? {
      VerdictExactly(receipt.value, t, proofs);
    }
  }

  // ---- Noninterference ----

  /** Whether an artifact is active depends on recorded acceptances and retroactive invalidations
      only: never on the current keys, allowlists, policy version, skew or time.  The answers are
      the same exactly when both contexts, or neither, get to a sum that leaves the range. */
  lemma ActiveNoninterference(d: Signed, receipt: Option<Signed>, t: TrustContext, u: TrustContext, proofs: set<Signed>)
    requires SameHistory(t, u)
    ensures IsActive(d, receipt, t, proofs) == Yes <==> IsActive(d, receipt, u, proofs) == Yes
    ensures IsActive(d, receipt, t, proofs) == IsActive(d, receipt, u, proofs)
            <==> (ActiveOverflows(d, receipt, t, proofs) <==> ActiveOverflows(d, receipt, u, proofs))
  {
    hide VerifySigned, MatchingAcceptances, ActivationBinds, ActiveOverflows;
    EscapesExactly(d, receipt, t, proofs);
    EscapesExactly(d, receipt, u, proofs);
    if receipt.Some? {
      var a := receipt.value;
      PositionNeedsHistory(d, t, proofs);
      PositionNeedsHistory(d, u, proofs);
      PositionNeedsHistory(a, t, proofs);
      PositionNeedsHistory(a, u, proofs);
      if |MatchingAcceptances(t.acceptances, d)| >= 1 && |MatchingAcceptances(t.acceptances, a)| >= 1 {
        HistoryDecides(d, t, u, proofs);
        HistoryDecides(a, t, u, proofs);
      }
    }
  }

  /** A time is at least the skew away from both ends of the range. */
  predicate Roomy(t: int, skew: int) { skew <= t <= MAX_TIME - skew }

  predicate KeyRoomy(validFrom: int, validUntil: Option<int>, skew: int) {
    Roomy(validFrom, skew) && (validUntil.Some? ==> Roomy(validUntil.value, skew))
  }

  /** What a caller can check beforehand: every time that meets a skew is that far from the ends. */
  predicate RoomAround(r: Signed, t: TrustContext) {
    && Roomy(r.expiresAt, Micros(t.skew)) && (t.now.Some? ==> Roomy(t.now.value, Micros(t.skew)))
    && (forall key | key in t.keys :: KeyRoomy(key.validFrom, key.validUntil, Micros(t.skew)))
    && (forall a | a in t.acceptances && a.record == r ::
          var s := a.snapshot;
          && Roomy(r.expiresAt, s.skewMicros) && Roomy(a.acceptedAt, s.skewMicros)
          && KeyRoomy(s.validFrom, s.validUntil, s.skewMicros))
  }

  lemma {:induction false} MatchingKeysIn(all: seq<TrustedKey>, p: Proof)
    ensures forall key | key in MatchingKeys(all, p) :: key in all
  {
    if all != [] {
      MatchingKeysIn(all[1..], p);
    }
  }

  lemma {:induction false} MatchingAcceptancesIn(all: seq<Acceptance>, r: Signed)
    ensures forall a | a in MatchingAcceptances(all, r) :: a in all && a.record == r
  {
    if all != [] {
      MatchingAcceptancesIn(all[1..], r);
    }
  }

  lemma RoomPreventsOverflow(r: Signed, t: TrustContext)
    requires RoomAround(r, t)
    ensures !SumsOverflow(r, t)
  {
    hide Invalidated, CanonicalStrings, CanonicalPairs;
    MatchingKeysIn(t.keys, r.proof);
    MatchingAcceptancesIn(t.acceptances, r);
  }

  /** Where there is room around all times there is always an answer, and it is the same under any
      two contexts with the same history. */
  lemma SameAnswersWithRoom(d: Signed, a: Signed, t: TrustContext, u: TrustContext, proofs: set<Signed>)
    requires SameHistory(t, u)
    requires RoomAround(d, t) && RoomAround(a, t) && RoomAround(d, u) && RoomAround(a, u)
    ensures IsActive(d, Some(a), t, proofs) == IsActive(d, Some(a), u, proofs) != Escapes
  {
    hide RoomAround, SumsOverflow, Passes, IsActive, SameHistory;
    RoomPreventsOverflow(d, t);
    RoomPreventsOverflow(a, t);
    RoomPreventsOverflow(d, u);
    RoomPreventsOverflow(a, u);
    EscapesExactly(d, Some(a), t, proofs);
    ActiveNoninterference(d, Some(a), t, u, proofs);
  }

  // ---- Two contexts that give different answers ----

  const DELIVERY_DOMAIN: Id := "delivery_envelope.v1"
  const SAMPLE_PROOF := Proof("issuer", "key", "ed25519", DELIVERY_DOMAIN, "signature")

  function SampleDelivery(expiresAt: int): Signed {
    Signed(DeliveryEnvelope, "t", "d", 60_000_000, expiresAt, SAMPLE_PROOF, true, false, true,
           Artifact("skill", "a", "1", "x"), "scope", "d", None, None)
  }

  function SampleReceipt(d: Signed): Signed {
    Signed(ActivationReceipt, "t", "r", 60_000_000, 120_000_000, SAMPLE_PROOF.(domain := "activation_receipt.v1"),
           true, true, false, d.artifact, "scope", "d", Some(d), None)
  }

  /** Thirty seconds of skew, one key, and no history. */
  function SampleContext(validFrom: int): TrustContext {
    TrustContext(Some(60_000_000), [TrustedKey("issuer", "key", {"ed25519"}, validFrom, None, None)], {"ed25519"},
                 {DELIVERY_DOMAIN}, {"issuer"}, {(DELIVERY_DOMAIN, "issuer")}, "1", TimeDelta(0, 30, 0), [], [])
  }

  /** An expiry in the last millisecond of the range, and a key valid from its beginning, each let an error escape;
      under contexts with the same history the answer is no. */
  lemma AnswersDiffer()
    ensures var d := SampleDelivery(MAX_TIME - 999);
            var t, u := SampleContext(60_000_000), SampleContext(60_000_000).(keys := []);
            SameHistory(t, u) && IsActive(d, Some(SampleReceipt(d)), t, {}) == Escapes
              && IsActive(d, Some(SampleReceipt(d)), u, {}) == No
    ensures var d := SampleDelivery(120_000_000);
            var t, u := SampleContext(0), SampleContext(60_000_000);
            SameHistory(t, u) && IsActive(d, Some(SampleReceipt(d)), t, {}) == Escapes
              && IsActive(d, Some(SampleReceipt(d)), u, {}) == No
  {
    hide TakeSnapshot;
  }

  // ---- A first acceptance stays acceptable ----

  /** No empty string in the sets that a snapshot freezes. */
  predicate NamesGiven(t: TrustContext, key: TrustedKey) {
    && "" !in t.algorithms && "" !in t.domains && "" !in t.issuers && "" !in key.algorithms
    && forall p | p in t.domainIssuers :: p.0 != "" && p.1 != ""
  }

  lemma TimesStayInside(issuedAt: int, expiresAt: int, now: int, skew: int, key: TrustedKey, s: Snapshot)
    requires FirstTimes(issuedAt, expiresAt, now, skew, key) == Inside
    requires s.skewMicros == skew && s.validFrom == key.validFrom && s.validUntil == key.validUntil
    requires key.validUntil.Some? ==> key.validFrom <= key.validUntil.value
    ensures HistoricalTimes(issuedAt, expiresAt, now, s) == Inside
  {
  }

  /** The snapshot of an acceptance is in canonical form exactly when all names are non-empty. */
  lemma SnapshotCanonical(p: Proof, t: TrustContext, key: TrustedKey)
    ensures var s := TakeSnapshot(p, t, key);
            && (forall x :: x in s.algorithms <==> x in t.algorithms)
            && (forall x :: x in s.domains <==> x in t.domains)
            && (forall x :: x in s.issuers <==> x in t.issuers)
            && (forall x :: x in s.domainIssuers <==> x in t.domainIssuers)
            && (forall x :: x in s.keyAlgorithms <==> x in key.algorithms)
            && ((CanonicalStrings(s.algorithms) && CanonicalStrings(s.domains) && CanonicalStrings(s.issuers)
                 && CanonicalPairs(s.domainIssuers) && CanonicalStrings(s.keyAlgorithms)) <==> NamesGiven(t, key))
  {
    StringOrder();
    PairOrder();
    SortedIsCanonical(t.algorithms, StringLess);
    SortedIsCanonical(t.domains, StringLess);
    SortedIsCanonical(t.issuers, StringLess);
    SortedIsCanonical(t.domainIssuers, PairLess);
    SortedIsCanonical(key.algorithms, StringLess);
    SortedTupleElements(t.algorithms, StringLess);
    SortedTupleElements(t.domains, StringLess);
    SortedTupleElements(t.issuers, StringLess);
    SortedTupleElements(t.domainIssuers, PairLess);
    SortedTupleElements(key.algorithms, StringLess);
  }

  /** The history check of an acceptance that was just made passes, once it has a position. */
  lemma AcceptedChecks(r: Signed, t: TrustContext, now: int, position: nat)
    requires AcceptFirst(r, t, now).Accepted?
    ensures var x := AcceptFirst(r, t, now).acceptance.(position := position);
            CheckHistory(x, r) == if NamesGiven(t, MatchingKeys(t.keys, r.proof)[0]) then Accepted(x) else Refused
  {
    hide FirstTimes, HistoricalTimes, CanonicalStrings, CanonicalPairs, NamesGiven, TakeSnapshot;
    var key := MatchingKeys(t.keys, r.proof)[0];
    var x := AcceptFirst(r, t, now).acceptance.(position := position);
    SnapshotCanonical(r.proof, t, key);
    SnapshotFields(r.proof, t, key);
    TimesStayInside(r.issuedAt, r.expiresAt, now, Micros(t.skew), key, x.snapshot);
  }

  lemma SnapshotFields(p: Proof, t: TrustContext, key: TrustedKey)
    ensures var s := TakeSnapshot(p, t, key);
            && s.version == t.version && s.issuer == p.issuer && s.keyId == p.keyId && s.algorithm == p.algorithm
            && s.domain == p.domain
            && s.validFrom == key.validFrom && s.validUntil == key.validUntil && s.revokedAt == key.revokedAt
            && s.skewMicros == Micros(t.skew)
  {
  }

  /** An acceptance returned by a first verification and recorded once passes under every later
      context, whatever its keys, policy and time, exactly when the names it froze are non-empty
      and no retroactive invalidation covers the record (nor are there two for its key). */
  lemma FirstAcceptanceStays(r: Signed, t: TrustContext, proofs: set<Signed>, history: bool, later: TrustContext,
                             position: nat)
    requires VerifySigned(r, t, proofs, history).Accepted?
             && VerifySigned(r, t, proofs, history).acceptance.position == -1
    requires later.now.Some?
    requires MatchingAcceptances(later.acceptances, r)
             == [VerifySigned(r, t, proofs, history).acceptance.(position := position)]
    ensures var x := VerifySigned(r, t, proofs, history).acceptance.(position := position);
            && |MatchingKeys(t.keys, r.proof)| == 1
            && VerifySigned(r, later, proofs, true) ==
               if NamesGiven(t, MatchingKeys(t.keys, r.proof)[0]) && !Invalidated(r, later.invalidations)
               then Accepted(x) else Refused
  {
    hide NamesGiven, Invalidated, AcceptFirst, CheckHistory;
    var matches := if history then MatchingAcceptances(t.acceptances, r) else [];
    if matches != [] {
      HistoryHasPosition(matches[0], r);
    } else {
      OneKey(r, t, t.now.value);
      AcceptedChecks(r, t, t.now.value, position);
    }
  }

  lemma HistoryHasPosition(a: Acceptance, r: Signed)
    ensures CheckHistory(a, r).Accepted? ==> CheckHistory(a, r).acceptance == a && 0 <= a.position
  {
    hide CanonicalStrings, CanonicalPairs, HistoricalTimes;
  }

  lemma OneKey(r: Signed, t: TrustContext, now: int)
    ensures AcceptFirst(r, t, now).Accepted? ==> |MatchingKeys(t.keys, r.proof)| == 1
  {
    hide FirstTimes, TakeSnapshot;
  }

  // ---- More invalidations, more acceptances ----

  lemma {:induction false} MatchingConcat(a: seq<Invalidation>, b: seq<Invalidation>, p: Proof)
    ensures MatchingInvalidations(a + b, p) == MatchingInvalidations(a, p) + MatchingInvalidations(b, p)
  {
    if a == [] {
      assert a + b == b;
    } else {
      assert (a + b)[1..] == a[1..] + b;
      MatchingConcat(a[1..], b, p);
    }
  }

  lemma InvalidationsOnlyAdd(r: Signed, a: seq<Invalidation>, x: Invalidation, b: seq<Invalidation>)
    requires Invalidated(r, a + b)
    ensures Invalidated(r, a + [x] + b)
  {
    MatchingConcat(a, b, r.proof);
    MatchingConcat(a + [x], b, r.proof);
    MatchingConcat(a, [x], r.proof);
  }

  lemma InvalidationOnlyRefuses(r: Signed, t: TrustContext, a: seq<Invalidation>, x: Invalidation,
                                b: seq<Invalidation>, proofs: set<Signed>)
    requires t.invalidations == a + b
    ensures var v := VerifySigned(r, t.(invalidations := a + [x] + b), proofs, true);
            v == Refused || v == VerifySigned(r, t, proofs, true)
  {
    hide Invalidated, CheckHistory, FirstTimes, PolicyAllows, TakeSnapshot;
    if Invalidated(r, a + b) {
      InvalidationsOnlyAdd(r, a, x, b);
    }
    SameFirst(r, t, t.(invalidations := a + [x] + b));
  }

  /** The checks of a first acceptance look neither at invalidations nor at acceptances. */
  lemma SameFirst(r: Signed, t: TrustContext, u: TrustContext)
    requires u == t.(invalidations := u.invalidations, acceptances := u.acceptances)
    ensures forall now :: AcceptFirst(r, t, now) == AcceptFirst(r, u, now)
  {
    hide FirstTimes;
  }

  /** Adding an invalidation, anywhere in the list, can only turn an active artifact inactive. */
  lemma InvalidationOnlyDeactivates(d: Signed, receipt: Option<Signed>, t: TrustContext, a: seq<Invalidation>,
                                    x: Invalidation, b: seq<Invalidation>, proofs: set<Signed>)
    requires t.invalidations == a + b
    requires IsActive(d, receipt, t.(invalidations := a + [x] + b), proofs) == Yes
    ensures IsActive(d, receipt, t, proofs) == Yes
  {
    hide VerifySigned, ActivationBinds;
    InvalidationOnlyRefuses(d, t, a, x, b, proofs);
    InvalidationOnlyRefuses(receipt.value, t, a, x, b, proofs);
  }

  lemma {:induction false} OtherAcceptances(a: seq<Acceptance>, x: Acceptance, b: seq<Acceptance>, r: Signed)
    requires x.record != r
    ensures MatchingAcceptances(a + [x] + b, r) == MatchingAcceptances(a + b, r)
  {
    if a == [] {
      assert a + [x] + b == [x] + b && ([x] + b)[1..] == b && a + b == b;
    } else {
      assert (a + [x] + b)[1..] == a[1..] + [x] + b && (a + b)[1..] == a[1..] + b;
      OtherAcceptances(a[1..], x, b, r);
    }
  }

  /** Recording acceptances of other records changes no verdict on this one. */
  lemma OtherHistoryIrrelevant(r: Signed, t: TrustContext, a: seq<Acceptance>, x: Acceptance, b: seq<Acceptance>,
                               proofs: set<Signed>)
    requires t.acceptances == a + b && x.record != r
    ensures VerifySigned(r, t.(acceptances := a + [x] + b), proofs, true) == VerifySigned(r, t, proofs, true)
  {
    hide CheckHistory, AcceptFirst;
    OtherAcceptances(a, x, b, r);
    SameFirst(r, t, t.(acceptances := a + [x] + b));
  }

  // ---- Rollback ----

  /** If an artifact is active and its rollback validates under the same context, then delivery,
      activation and rollback were accepted in this order, were issued in this order inside the
      delivery's window, and concern one artifact revision in one tenant and scope. */
  lemma RollbackLifecycle(d: Signed, a: Signed, b: Signed, t: TrustContext, proofs: set<Signed>)
    requires IsActive(d, Some(a), t, proofs) == Yes && RollbackValid(b, a, t, proofs)
    ensures var m, n, k := MatchingAcceptances(t.acceptances, d), MatchingAcceptances(t.acceptances, a),
            MatchingAcceptances(t.acceptances, b);
            && |m| == 1 && |n| == 1 && |k| == 1 && 0 <= m[0].position < n[0].position < k[0].position
    ensures d.issuedAt <= a.issuedAt <= d.expiresAt && a.issuedAt <= b.issuedAt
    ensures d.tenant == a.tenant == b.tenant && d.scope == a.scope == b.scope && d.artifact == a.artifact == b.artifact
    ensures !Invalidated(d, t.invalidations) && !Invalidated(a, t.invalidations) && !Invalidated(b, t.invalidations)
  {
    hide TakeSnapshot, HistoryBinds, HistoricalTimes, FirstTimes, PolicyAllows, MatchingAcceptances, Invalidated;
    PositionNeedsHistory(d, t, proofs);
    PositionNeedsHistory(a, t, proofs);
    PositionNeedsHistory(b, t, proofs);
  }

  // ---- Exactly when an artifact is active, and when a rollback is valid ----

  /** One recorded acceptance, at a position in the ledger. */
  predicate RecordedOnce(r: Signed, t: TrustContext) {
    |MatchingAcceptances(t.acceptances, r)| == 1 && 0 <= MatchingAcceptances(t.acceptances, r)[0].position
  }

  function PositionOf(r: Signed, t: TrustContext): int
    requires |MatchingAcceptances(t.acceptances, r)| == 1
  {
    MatchingAcceptances(t.acceptances, r)[0].position
  }

  lemma VerdictPosition(r: Signed, t: TrustContext, proofs: set<Signed>)
    requires Passes(r, t, proofs)
    ensures var v := VerifySigned(r, t, proofs, true);
            && v.Accepted?
            && (|MatchingAcceptances(t.acceptances, r)| == 0 ==> v.acceptance.position == -1)
            && (|MatchingAcceptances(t.acceptances, r)| != 0 ==>
                  RecordedOnce(r, t) && v.acceptance.position == PositionOf(r, t))
  {
    hide TakeSnapshot, HistoricalTimes, FirstTimes, PolicyAllows, Passes, MatchingAcceptances, CanonicalStrings,
         CanonicalPairs, Invalidated;
    VerdictExactly(r, t, proofs);
  }

  /** An artifact is active exactly when its delivery and its activation pass and were each accepted
      once, the delivery earlier in the ledger, however many acceptances of other records lie between,
      and the activation names this delivery, of the same tenant, artifact and scope, in its time. */
  lemma ActiveExactly(d: Signed, receipt: Option<Signed>, t: TrustContext, proofs: set<Signed>)
    ensures IsActive(d, receipt, t, proofs) == Yes <==>
              && receipt.Some? && d.kind == DeliveryEnvelope && d.delivered && receipt.value.kind == ActivationReceipt
              && var a := receipt.value;
                 && a.runtimeAuthority && Passes(d, t, proofs) && Passes(a, t, proofs)
                 && RecordedOnce(d, t) && RecordedOnce(a, t) && PositionOf(d, t) < PositionOf(a, t)
                 && a.tenant == d.tenant && a.artifact == d.artifact && a.scope == d.scope
                 && a.deliveryId == d.deliveryId && a.deliveryDigest == Some(d)
                 && d.issuedAt <= a.issuedAt && a.issuedAt <= d.expiresAt
  {
    hide VerifySigned, Passes, SumsOverflow, MatchingAcceptances;
    VerdictExactly(d, t, proofs);
    if Passes(d, t, proofs) {
      VerdictPosition(d, t, proofs);
    }
    if receipt.Some? {
      VerdictExactly(receipt.value, t, proofs);
      if Passes(receipt.value, t, proofs) {
        VerdictPosition(receipt.value, t, proofs);
      }
    }
  }

  /** A rollback is valid exactly when it and the activation pass as runtime receipts and were each
      accepted once, the activation earlier, and it names this activation, of the same tenant, artifact
      and scope, and is not older. */
  lemma RollbackExactly(b: Signed, a: Signed, t: TrustContext, proofs: set<Signed>)
    ensures RollbackValid(b, a, t, proofs) <==>
              && b.kind == RollbackReceipt && a.kind == ActivationReceipt && a.runtimeAuthority && b.runtimeAuthority
              && Passes(a, t, proofs) && Passes(b, t, proofs)
              && RecordedOnce(a, t) && RecordedOnce(b, t) && PositionOf(a, t) < PositionOf(b, t)
              && b.tenant == a.tenant && b.artifact == a.artifact && b.scope == a.scope
              && b.activationRef == Some((a.recordId, a)) && a.issuedAt <= b.issuedAt
  {
    hide VerifySigned, Passes, SumsOverflow, MatchingAcceptances;
    VerdictExactly(a, t, proofs);
    VerdictExactly(b, t, proofs);
    if Passes(a, t, proofs) {
      VerdictPosition(a, t, proofs);
    }
    if Passes(b, t, proofs) {
      VerdictPosition(b, t, proofs);
    }
  }

  // ---- An active artifact ----

  /** What a first acceptance under the sample policy froze, for one domain. */
  function SampleSnapshot(domain: Id): Snapshot {
    Snapshot("1", "issuer", "key", "ed25519", domain, ["ed25519"], [domain], ["issuer"], [(domain, "issuer")],
             ["ed25519"], 60_000_000, None, None, 30_000_000)
  }

  function SampleAcceptance(r: Signed, position: int): Acceptance {
    Acceptance(r, r.issuedAt, 60_000_000, SampleSnapshot(r.proof.domain), SampleSnapshot(r.proof.domain), position)
  }

  /** Delivery and activation were accepted at positions 3 and 7, and another record between them. */
  function ActiveContext(d: Signed): TrustContext {
    SampleContext(60_000_000).(keys := [], acceptances := [
      SampleAcceptance(d, 3), SampleAcceptance(d.(recordId := "other"), 5), SampleAcceptance(SampleReceipt(d), 7)])
  }

  lemma SampleIsActive()
    ensures var d := SampleDelivery(120_000_000);
            IsActive(d, Some(SampleReceipt(d)), ActiveContext(d), {d, SampleReceipt(d)}) == Yes
  {
    hide IsActive, Passes;
    var d := SampleDelivery(120_000_000);
    var a, t := SampleReceipt(d), ActiveContext(d);
    SampleHistory(d, a, t);
    SamplePasses(d, t, 3, {d, a});
    SamplePasses(a, t, 7, {d, a});
    ActiveExactly(d, Some(a), t, {d, a});
  }

  lemma SampleHistory(d: Signed, a: Signed, t: TrustContext)
    requires d == SampleDelivery(120_000_000) && a == SampleReceipt(d) && t == ActiveContext(d)
    ensures MatchingAcceptances(t.acceptances, d) == [SampleAcceptance(d, 3)]
    ensures MatchingAcceptances(t.acceptances, a) == [SampleAcceptance(a, 7)]
  {
    var x, y, z := SampleAcceptance(d, 3), SampleAcceptance(d.(recordId := "other"), 5), SampleAcceptance(a, 7);
    assert t.acceptances == [x, y, z] && [x, y, z][1..] == [y, z] && [y, z][1..] == [z] && [z][1..] == [];
    assert a.kind != d.kind && d.(recordId := "other").recordId != d.recordId;
    assert d.(recordId := "other").kind != a.kind;
    assert MatchingAcceptances([z], d) == [] && MatchingAcceptances([y, z], d) == [];
    assert MatchingAcceptances([z], a) == [z] && MatchingAcceptances([y, z], a) == [z];
  }

  lemma SamplePasses(r: Signed, t: TrustContext, position: int, proofs: set<Signed>)
    requires t.now == Some(60_000_000) && t.invalidations == [] && r in proofs && r.wellFormed && 0 <= position
    requires ProofDomain(r.kind) == Some(r.proof.domain) && r.proof.domain != "" && r.proof.algorithm == "ed25519"
    requires r.proof.issuer == "issuer" && r.proof.keyId == "key" && r.issuedAt == 60_000_000
             && r.expiresAt == 120_000_000
    requires MatchingAcceptances(t.acceptances, r) == [SampleAcceptance(r, position)]
    ensures Passes(r, t, proofs) && RecordedOnce(r, t)
  {
    hide MatchingAcceptances;
    SampleCanonical("ed25519");
    SampleCanonical(r.proof.domain);
    SampleCanonical("issuer");
    SampleCanonicalPair(r.proof.domain, "issuer");
  }

  lemma SortedOne<T(!new)>(x: T, less: (T, T) -> bool)
    requires StrictOrder(less)
    ensures Canonical([x], less)
  {
    assert Elements([x]) == {x};
    HasLeast({x}, less);
    var m :| Least(m, {x}, less) && SortedTuple({x}, less) == [m] + SortedTuple({x} - {m}, less);
    assert {x} - {m} == {};
  }

  lemma SampleCanonical(x: Id)
    requires x != ""
    ensures CanonicalStrings([x])
  {
    StringOrder();
    SortedOne(x, StringLess);
  }

  lemma SampleCanonicalPair(x: Id, y: Id)
    requires x != "" && y != ""
    ensures CanonicalPairs([(x, y)])
  {
    PairOrder();
    SortedOne((x, y), PairLess);
  }

  // ---- The orders of a snapshot's tuples ----

  /** A proper prefix comes first; otherwise the first difference decides. */
  ghost predicate ComesFirst(a: string, b: string) {
    || (|a| < |b| && b[..|a|] == a)
    || exists i :: 0 <= i < |a| && i < |b| && a[..i] == b[..i] && a[i] < b[i]
  }

  lemma {:induction false} StringLessExactly(a: string, b: string)
    ensures StringLess(a, b) <==> ComesFirst(a, b)
  {
    if a != [] && b != [] {
      StringLessExactly(a[1..], b[1..]);
      if a[0] < b[0] {
        assert a[..0] == b[..0];
      } else if a[0] == b[0] {
        FirstComesFirst(a, b);
      }
    } else if a == [] && b != [] {
      assert b[..0] == a;
    }
  }

  lemma FirstComesFirst(a: string, b: string)
    requires a != [] && b != [] && a[0] == b[0]
    ensures ComesFirst(a, b) <==> ComesFirst(a[1..], b[1..])
  {
    var s, t := a[1..], b[1..];
    if ComesFirst(a, b) {
      if |a| < |b| && b[..|a|] == a {
        assert t[..|s|] == b[..|a|][1..];
      } else {
        var i :| 0 <= i < |a| && i < |b| && a[..i] == b[..i] && a[i] < b[i];
        assert s[..i - 1] == a[..i][1..] && t[..i - 1] == b[..i][1..] && s[i - 1] < t[i - 1];
      }
    }
    if ComesFirst(s, t) {
      assert a == [a[0]] + s && b == [b[0]] + t;
      if |s| < |t| && t[..|s|] == s {
        assert b[..|a|] == [b[0]] + t[..|s|];
      } else {
        var i :| 0 <= i < |s| && i < |t| && s[..i] == t[..i] && s[i] < t[i];
        assert a[..i + 1] == [a[0]] + s[..i] && b[..i + 1] == [b[0]] + t[..i] && a[i + 1] < b[i + 1];
      }
    }
  }

  /** The tuples that a snapshot freezes ascend, pairs by their first and then by their second part. */
  lemma SnapshotAscends(p: Proof, t: TrustContext, key: TrustedKey)
    ensures var s := TakeSnapshot(p, t, key);
            && (forall i, j | 0 <= i < j < |s.algorithms| :: ComesFirst(s.algorithms[i], s.algorithms[j]))
            && (forall i, j | 0 <= i < j < |s.domains| :: ComesFirst(s.domains[i], s.domains[j]))
            && (forall i, j | 0 <= i < j < |s.issuers| :: ComesFirst(s.issuers[i], s.issuers[j]))
            && (forall i, j | 0 <= i < j < |s.keyAlgorithms| :: ComesFirst(s.keyAlgorithms[i], s.keyAlgorithms[j]))
            && (forall i, j | 0 <= i < j < |s.domainIssuers| ::
                  var x, y := s.domainIssuers[i], s.domainIssuers[j];
                  ComesFirst(x.0, y.0) || (x.0 == y.0 && ComesFirst(x.1, y.1)))
  {
    hide ComesFirst, StringLess;
    StringOrder();
    PairOrder();
    StringsAscend(t.algorithms);
    StringsAscend(t.domains);
    StringsAscend(t.issuers);
    StringsAscend(key.algorithms);
    TupleAscends(t.domainIssuers, PairLess);
    forall x: string, y: string ensures StringLess(x, y) <==> ComesFirst(x, y) { StringLessExactly(x, y); }
  }

  lemma StringsAscend(s: set<string>)
    ensures StrictOrder(StringLess)
    ensures forall i, j | 0 <= i < j < |SortedTuple(s, StringLess)| ::
              ComesFirst(SortedTuple(s, StringLess)[i], SortedTuple(s, StringLess)[j])
  {
    hide ComesFirst, StringLess;
    StringOrder();
    TupleAscends(s, StringLess);
    forall i, j | 0 <= i < j < |SortedTuple(s, StringLess)|
      ensures ComesFirst(SortedTuple(s, StringLess)[i], SortedTuple(s, StringLess)[j])
    {
      StringLessExactly(SortedTuple(s, StringLess)[i], SortedTuple(s, StringLess)[j]);
    }
  }

  lemma {:induction false} TupleAscends<T(!new)>(s: set<T>, less: (T, T) -> bool)
    requires StrictOrder(less)
    ensures forall i, j | 0 <= i < j < |SortedTuple(s, less)| :: less(SortedTuple(s, less)[i], SortedTuple(s, less)[j])
  {
    if s != {} {
      HasLeast(s, less);
      var m :| Least(m, s, less) && SortedTuple(s, less) == [m] + SortedTuple(s - {m}, less);
      TupleAscends(s - {m}, less);
      SortedTupleElements(s - {m}, less);
      var rest := SortedTuple(s - {m}, less);
      forall j | 0 <= j < |rest| ensures less(m, rest[j]) { assert rest[j] in rest; }
    }
  }
}
