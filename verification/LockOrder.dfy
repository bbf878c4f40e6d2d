/** The locks that database transactions take, and why no set of them can deadlock.

    Advisory locks are numbers; distinct names are taken to hash to distinct numbers that no other
    family uses.  A transaction takes its locks one by one and drops them all when it ends. */
module LockOrder {
  import opened Records

  datatype Lock =
    | Keyed(key: int)
    | Memory(tenant: Id, id: Id)
    | Proposal(tenant: Id, id: Id)
    | LifecycleRun(tenant: Id, actor: Id, run: Id)
    | RunHead(tenant: Id, run: Id)
    | EffectRow(tenant: Id, request: Id)
    | LifecycleRow(tenant: Id, request: Id)
    | LifecycleKey(tenant: Id, idempotency: Id)

  /** The global order: by family, and by signed key among the keyed locks. */
  function Rank(l: Lock): (int, int) {
    match l
    case Keyed(k) => (0, k)
    case Memory(_, _) => (1, 0)
    case Proposal(_, _) => (2, 0)
    case LifecycleRun(_, _, _) => (3, 0)
    case RunHead(_, _) => (4, 0)
    case EffectRow(_, _) => (5, 0)
    case LifecycleRow(_, _) => (6, 0)
    case LifecycleKey(_, _) => (7, 0)
  }

  predicate Lower(a: (int, int), b: (int, int)) { a.0 < b.0 || (a.0 == b.0 && a.1 < b.1) }

  predicate Ordered(locks: seq<Lock>) {
    forall i, j | 0 <= i < j < |locks| :: Lower(Rank(locks[i]), Rank(locks[j]))
  }

  // ---- What each kind of transaction takes ----

  /** Any append of evidence. */
  function AppendLocks(tenant: Id, actor: Id, run: Id): seq<Lock> {
    [LifecycleRun(tenant, actor, run), RunHead(tenant, run)]
  }

  /** The two keyed locks of a preparation, sorted; taking one twice is no second lock. */
  function KeyLocks(idempotency: int, grant: int): seq<Lock> {
    if idempotency == grant then [Keyed(grant)]
    else if idempotency < grant then [Keyed(idempotency), Keyed(grant)] else [Keyed(grant), Keyed(idempotency)]
  }

  /** `Inserting` is a submission, or the rebuild of a lost row: the insert waits for whoever inserts
      the same request, and then for whoever inserts the same idempotency key.  `Advancing` is an
      approval, a grant or the rebuild of a present row. */
  datatype Purpose =
    | Preparing(idempotency: int, grant: int, tenant: Id, actor: Id, run: Id, request: Id)
    | Finishing(tenant: Id, actor: Id, run: Id, request: Id)
    | Renewing(tenant: Id, request: Id)
    | Appending(tenant: Id, actor: Id, run: Id)
    | Promoting(tenant: Id, memory: Id, proposal: Id, actor: Id, run: Id)
    | Inserting(tenant: Id, actor: Id, run: Id, request: Id, idempotencyKey: Id)
    | Advancing(tenant: Id, actor: Id, run: Id, request: Id)

  function LocksOf(p: Purpose): seq<Lock> {
    match p
    case Preparing(i, g, tenant, actor, run, request) =>
      KeyLocks(i, g) + AppendLocks(tenant, actor, run) + [EffectRow(tenant, request)]
    case Finishing(tenant, actor, run, request) => AppendLocks(tenant, actor, run) + [EffectRow(tenant, request)]
    case Renewing(tenant, request) => [EffectRow(tenant, request)]
    case Appending(tenant, actor, run) => AppendLocks(tenant, actor, run)
    case Promoting(tenant, memory, proposal, actor, run) =>
      [Memory(tenant, memory), Proposal(tenant, proposal)] + AppendLocks(tenant, actor, run)
    case Inserting(tenant, actor, run, request, key) =>
      AppendLocks(tenant, actor, run) + [LifecycleRow(tenant, request), LifecycleKey(tenant, key)]
    case Advancing(tenant, actor, run, request) => AppendLocks(tenant, actor, run) + [LifecycleRow(tenant, request)]
  }

  lemma EveryPurposeIsOrdered(p: Purpose)
    ensures Ordered(LocksOf(p))
  {
  }

  // ---- The transactions ----

  /** `taken` of a transaction's locks are held; `done` once it has ended. */
  datatype Txn = Txn(purpose: Purpose, taken: nat, done: bool)

  predicate Holds(t: Txn, l: Lock) {
    !t.done && exists i | 0 <= i < |LocksOf(t.purpose)| && i < t.taken :: LocksOf(t.purpose)[i] == l
  }

  predicate Free(txns: seq<Txn>, p: nat, l: Lock) {
    forall q | 0 <= q < |txns| && q != p :: !Holds(txns[q], l)
  }

  /** A transaction ends, or takes its next lock when nobody else holds it. */
  predicate Enabled(txns: seq<Txn>, p: nat)
    requires p < |txns|
  {
    var t := txns[p];
    !t.done && (t.taken >= |LocksOf(t.purpose)| || Free(txns, p, LocksOf(t.purpose)[t.taken]))
  }

  function Advance(txns: seq<Txn>, p: nat): seq<Txn>
    requires p < |txns|
  {
    if !Enabled(txns, p) then txns
    else
      var t := txns[p];
      txns[p := if t.taken >= |LocksOf(t.purpose)| then t.(done := true) else t.(taken := t.taken + 1)]
  }

  function RunAll(txns: seq<Txn>, schedule: seq<nat>): seq<Txn>
    decreases |schedule|
  {
    if schedule == [] then txns
    else
      var before, p := RunAll(txns, schedule[..|schedule| - 1]), schedule[|schedule| - 1];
      if p < |before| then Advance(before, p) else before
  }

  /** No lock has two holders. */
  ghost predicate Exclusive(txns: seq<Txn>) {
    forall p, q, l | 0 <= p < q < |txns| && Holds(txns[p], l) :: !Holds(txns[q], l)
  }

  predicate Fresh(txns: seq<Txn>) { forall p | 0 <= p < |txns| :: txns[p].taken == 0 && !txns[p].done }

  lemma AdvanceKeepsExclusive(txns: seq<Txn>, p: nat)
    requires p < |txns| && Exclusive(txns)
    ensures Exclusive(Advance(txns, p))
  {
    hide LocksOf;
    var next, t := Advance(txns, p), txns[p];
    if next != txns && t.taken < |LocksOf(t.purpose)| {
      var l := LocksOf(t.purpose)[t.taken];
      assert forall x | Holds(next[p], x) :: Holds(t, x) || x == l;
      assert forall q | 0 <= q < |txns| && q != p :: !Holds(txns[q], l);
    }
  }

  /** In every reachable state the advisory and row locks are held by one transaction each. */
  lemma {:induction false} AlwaysExclusive(txns: seq<Txn>, schedule: seq<nat>)
    requires Fresh(txns)
    ensures Exclusive(RunAll(txns, schedule)) && |RunAll(txns, schedule)| == |txns|
    decreases |schedule|
  {
    if schedule != [] {
      var rest, p := schedule[..|schedule| - 1], schedule[|schedule| - 1];
      AlwaysExclusive(txns, rest);
      if p < |txns| {
        AdvanceKeepsExclusive(RunAll(txns, rest), p);
      }
    }
  }

  // ---- What the locks are for ----

  /** What a transaction may write or decide on: the head of its run, its effect or lifecycle row, the
      records it promotes, and whatever is guarded by the keys of its preparation. */
  datatype Resource =
    | HeadOf(tenant: Id, run: Id)
    | EffectOf(tenant: Id, request: Id)
    | LifecycleOf(tenant: Id, request: Id)
    | KeyOf(tenant: Id, idempotency: Id)
    | MemoryOf(tenant: Id, memory: Id)
    | ProposalOf(tenant: Id, proposal: Id)
    | Guarded(key: int)

  predicate Touches(p: Purpose, r: Resource) {
    match r
    case HeadOf(t, run) => !p.Renewing? && p.tenant == t && p.run == run
    case EffectOf(t, q) => (p.Preparing? || p.Finishing? || p.Renewing?) && p.tenant == t && p.request == q
    case LifecycleOf(t, q) => (p.Inserting? || p.Advancing?) && p.tenant == t && p.request == q
    case KeyOf(t, key) => p.Inserting? && p.tenant == t && p.idempotencyKey == key
    case MemoryOf(t, m) => p.Promoting? && p.tenant == t && p.memory == m
    case ProposalOf(t, x) => p.Promoting? && p.tenant == t && p.proposal == x
    case Guarded(key) => p.Preparing? && (p.idempotency == key || p.grant == key)
  }

  function LockFor(r: Resource): Lock {
    match r
    case HeadOf(t, run) => RunHead(t, run)
    case EffectOf(t, q) => EffectRow(t, q)
    case LifecycleOf(t, q) => LifecycleRow(t, q)
    case KeyOf(t, key) => LifecycleKey(t, key)
    case MemoryOf(t, m) => Memory(t, m)
    case ProposalOf(t, x) => Proposal(t, x)
    case Guarded(key) => Keyed(key)
  }

  /** The transaction has all its locks, has not ended, and touches this. */
  predicate Writing(t: Txn, r: Resource) {
    !t.done && t.taken == |LocksOf(t.purpose)| && Touches(t.purpose, r)
  }

  lemma WriterHolds(t: Txn, r: Resource)
    requires Writing(t, r)
    ensures Holds(t, LockFor(r))
  {
    assert LockFor(r) in LocksOf(t.purpose);
  }

  /** In every reachable state, of the transactions that have all their locks and have not ended, no two
      touch the same thing. */
  lemma NoTwoTouch(txns: seq<Txn>, schedule: seq<nat>, p: nat, q: nat, r: Resource)
    requires Fresh(txns) && p < q < |txns|
    ensures var now := RunAll(txns, schedule);
            |now| == |txns| && !(Writing(now[p], r) && Writing(now[q], r))
  {
    hide LocksOf, Touches, LockFor, RunAll, Holds, Writing;
    AlwaysExclusive(txns, schedule);
    var now := RunAll(txns, schedule);
    if Writing(now[p], r) {
      WriterHolds(now[p], r);
    }
    if Writing(now[q], r) {
      WriterHolds(now[q], r);
    }
  }

  // ---- Progress ----

  /** What a blocked transaction waits for. */
  function Wanted(t: Txn): Lock
    requires t.taken < |LocksOf(t.purpose)|
  {
    LocksOf(t.purpose)[t.taken]
  }

  predicate Blocked(txns: seq<Txn>, p: nat)
    requires p < |txns|
  {
    !txns[p].done && !Enabled(txns, p)
  }

  /** Along one wait the wanted locks rise: the holder wants, if anything, a higher lock. */
  lemma WaitsRise(txns: seq<Txn>, p: nat) returns (q: nat)
    requires p < |txns| && Blocked(txns, p)
    ensures q < |txns| && q != p && !txns[q].done
    ensures txns[q].taken < |LocksOf(txns[q].purpose)| ==> Lower(Rank(Wanted(txns[p])), Rank(Wanted(txns[q])))
  {
    var l := Wanted(txns[p]);
    q :| 0 <= q < |txns| && q != p && Holds(txns[q], l);
    EveryPurposeIsOrdered(txns[q].purpose);
  }

  /** The position of a rank in the order, as far as a finite set of transactions can tell. */
  function Above(txns: seq<Txn>, r: (int, int)): (s: set<nat>) {
    set p: nat | p < |txns| && !txns[p].done && txns[p].taken < |LocksOf(txns[p].purpose)|
      && Lower(r, Rank(Wanted(txns[p])))
  }

  /** Following the waits from a blocked transaction ends at one that can go on. */
  lemma {:induction false} WaitEnds(txns: seq<Txn>, p: nat) returns (e: nat)
    requires p < |txns| && !txns[p].done
    ensures e < |txns| && Enabled(txns, e)
    decreases if txns[p].taken < |LocksOf(txns[p].purpose)| then |Above(txns, Rank(Wanted(txns[p])))| + 1 else 0
  {
    if Enabled(txns, p) {
      return p;
    }
    var q := WaitsRise(txns, p);
    if txns[q].taken < |LocksOf(txns[q].purpose)| {
      var a, b := Above(txns, Rank(Wanted(txns[p]))), Above(txns, Rank(Wanted(txns[q])));
      assert b <= a && q in a && q !in b;
      assert |b| < |a| by { assert b <= a - {q}; SubsetSize(b, a - {q}); }
    }
    e := WaitEnds(txns, q);
  }

  lemma {:induction false} SubsetSize(a: set<nat>, b: set<nat>)
    requires a <= b
    ensures |a| <= |b|
  {
    if a != {} {
      var x :| x in a;
      SubsetSize(a - {x}, b - {x});
    }
  }

  /** No deadlock: whatever transactions run concurrently, and however far each has come, one that
      is not over can take its next step. */
  lemma NoDeadlock(txns: seq<Txn>, schedule: seq<nat>)
    requires exists p :: 0 <= p < |RunAll(txns, schedule)| && !RunAll(txns, schedule)[p].done
    ensures exists p :: 0 <= p < |RunAll(txns, schedule)| && Enabled(RunAll(txns, schedule), p)
  {
    hide RunAll, Enabled;
    var now := RunAll(txns, schedule);
    var p: nat :| p < |now| && !now[p].done;
    var e := WaitEnds(now, p);
  }

  /** The steps that a state has left. */
  function Left(txns: seq<Txn>): nat {
    if txns == [] then 0
    else
      (if txns[0].done then 0
       else if txns[0].taken <= |LocksOf(txns[0].purpose)| then |LocksOf(txns[0].purpose)| - txns[0].taken + 1
       else 1)
      + Left(txns[1..])
  }

  /** Every step that is taken is one step nearer to the end, so that all transactions end. */
  lemma {:induction false} StepsRunOut(txns: seq<Txn>, p: nat)
    requires p < |txns| && Enabled(txns, p)
    ensures Left(Advance(txns, p)) + 1 == Left(txns)
  {
    hide LocksOf;
    LeftUpdate(txns, p, Advance(txns, p)[p]);
  }

  lemma {:induction false} LeftUpdate(txns: seq<Txn>, p: nat, t: Txn)
    requires p < |txns|
    ensures Left(txns[p := t]) + Left([txns[p]]) == Left(txns) + Left([t])
  {
    hide LocksOf;
    var next := txns[p := t];
    if p > 0 {
      assert next[1..] == txns[1..][p - 1 := t];
      LeftUpdate(txns[1..], p - 1, t);
    } else {
      assert next[1..] == txns[1..];
    }
    assert [t][1..] == [] && [txns[p]][1..] == [];
  }
}
