/** The hash-chained evidence ledger of one run (or, in process, of one tenant) and its three
    writers.  They differ only in what they do with a clock that is behind the chain. */
module EvidenceChain {
  import opened Records

  /** `isoformat(timespec="milliseconds")`: the microsecond field is cut, never rounded. */
  function TruncateToMillis(us: int): (ms: int)
    ensures ms <= us < ms + 1000 && ms % 1000 == 0
  {
    us - us % 1000
  }

  datatype Head = Head(nextSequence: nat, lastDigest: Option<Digest>, lastRecordedAt: Option<int>, version: nat)

  datatype RunLog = RunLog(owner: Id, head: Head, events: seq<Event>)

  datatype Draft = Draft(tenant: Id, run: Id, envelopeId: Id, policyRef: Ref, payload: Payload)

  datatype Writer = StoreWriter | ExecutionWriter | MemoryWriter

  const EMPTY_HEAD := Head(0, None, None, 0)

  function EmptyLog(owner: Id): RunLog { RunLog(owner, EMPTY_HEAD, []) }

  /** The time a writer stamps, or nothing when it refuses the clock. */
  function StampTime(w: Writer, last: Option<int>, clock: int): Option<int> {
    match w
    case StoreWriter =>
      if last.Some? && clock < last.value then None else Some(TruncateToMillis(clock))
    case ExecutionWriter =>
      Some(TruncateToMillis(if last.Some? && clock < last.value then last.value else clock))
    case MemoryWriter =>
      var now := TruncateToMillis(clock);
      if last.Some? && now < last.value then None else Some(now)
  }

  /** The envelope a writer builds on a head. */
  function BuildEnvelope(w: Writer, head: Head, d: Draft, clock: int): Option<Event> {
    match StampTime(w, head.lastRecordedAt, clock)
    case None => None
    case Some(t) => Some(Event(d.tenant, d.run, head.nextSequence, t, head.lastDigest, d.envelopeId, d.policyRef,
                               d.payload))
  }

  /** `commit_evidence`: insert the event and advance the head. */
  function Commit(log: RunLog, e: Event): RunLog {
    log.(head := Head(e.sequence + 1, Some(OfEvent(e)), Some(e.recordedAt), log.head.version + 1),
         events := log.events + [e])
  }

  function Append(w: Writer, log: RunLog, d: Draft, clock: int): Option<RunLog> {
    match BuildEnvelope(w, log.head, d, clock)
    case None => None
    case Some(e) => Some(Commit(log, e))
  }

  ghost predicate LinkedAt(events: seq<Event>, i: nat)
    requires i < |events|
  {
    && events[i].sequence == i
    && events[i].recordedAt % 1000 == 0
    && (i == 0 ==> events[i].prior == None)
    && (0 < i ==> events[i].prior == Some(OfEvent(events[i - 1])) && events[i - 1].recordedAt <= events[i].recordedAt)
  }

  /** Contiguous sequence numbers, linked digests, and times that never go back. */
  ghost predicate Linked(events: seq<Event>) {
    forall i | 0 <= i < |events| :: LinkedAt(events, i)
  }

  function HeadOf(events: seq<Event>): Head {
    if events == [] then EMPTY_HEAD
    else
      var last := events[|events| - 1];
      Head(|events|, Some(OfEvent(last)), Some(last.recordedAt), |events|)
  }

  ghost predicate WellFormed(log: RunLog) {
    Linked(log.events) && log.head == HeadOf(log.events)
  }

  /** One append by any writer under any clock keeps the chain well formed and adds one event.
      Truncation cannot cross the head, because the head is itself aligned to milliseconds. */
  lemma AppendKeepsChain(w: Writer, log: RunLog, d: Draft, clock: int)
    requires WellFormed(log)
    ensures Append(w, log, d, clock).Some? ==>
              var next := Append(w, log, d, clock).value;
              && WellFormed(next) && next.owner == log.owner
              && |next.events| == |log.events| + 1 && next.events[..|log.events|] == log.events
              && next.events[|log.events|].payload == d.payload
  {
    if Append(w, log, d, clock).Some? {
      var next := Append(w, log, d, clock).value;
      var n := |log.events|;
      assert next.events[..n] == log.events;
      forall i | 0 <= i <= n ensures LinkedAt(next.events, i) {
        if i < n {
          assert LinkedAt(log.events, i);
        } else if 0 < n {
          assert LinkedAt(log.events, n - 1);
        }
      }
    }
  }

  datatype Attempt = Attempt(writer: Writer, draft: Draft, clock: int)

  /** A run of append attempts; a refused one changes nothing. */
  function AppendAll(log: RunLog, attempts: seq<Attempt>): RunLog
    decreases |attempts|
  {
    if attempts == [] then log
    else
      var rest, a := attempts[..|attempts| - 1], attempts[|attempts| - 1];
      var before := AppendAll(log, rest);
      match Append(a.writer, before, a.draft, a.clock)
      case None => before
      case Some(after) => after
  }

  /** Chains stay well formed under any mixture of the three writers and any clocks. */
  lemma {:induction false} ChainsStayWellFormed(owner: Id, attempts: seq<Attempt>)
    ensures WellFormed(AppendAll(EmptyLog(owner), attempts))
    decreases |attempts|
  {
    if attempts != [] {
      var rest, a := attempts[..|attempts| - 1], attempts[|attempts| - 1];
      ChainsStayWellFormed(owner, rest);
      AppendKeepsChain(a.writer, AppendAll(EmptyLog(owner), rest), a.draft, a.clock);
    }
  }

  lemma {:induction false} TimesNeverDecrease(events: seq<Event>, i: nat, j: nat)
    requires Linked(events) && i <= j < |events|
    ensures events[i].recordedAt <= events[j].recordedAt
    decreases j
  {
    if i < j {
      TimesNeverDecrease(events, i, j - 1);
      assert LinkedAt(events, j);
    }
  }

  /** The database writer compares the raw clock, the in-process writer the truncated one; on a
      well-formed chain they accept the same clocks and stamp the same time. */
  lemma StoreAndMemoryWritersAgree(log: RunLog, d: Draft, clock: int)
    requires WellFormed(log)
    ensures Append(StoreWriter, log, d, clock) == Append(MemoryWriter, log, d, clock)
  {
    if log.events != [] {
      assert LinkedAt(log.events, |log.events| - 1);
    }
  }

  /** The execution writer never refuses; it differs from the store writer exactly on the clocks
      which the store writer refuses. */
  lemma ClampOnlyWhereRefused(log: RunLog, d: Draft, clock: int)
    requires WellFormed(log)
    ensures Append(ExecutionWriter, log, d, clock).Some?
    ensures Append(ExecutionWriter, log, d, clock) == Append(StoreWriter, log, d, clock)
            <==> (log.events == [] || log.events[|log.events| - 1].recordedAt <= clock)
  {
    if log.events != [] {
      assert LinkedAt(log.events, |log.events| - 1);
    }
  }

  /** On a well-formed chain: a writer accepts exactly when it is the execution writer, or the chain is
      empty, or the clock is not behind its last event.  The event it adds says what the draft says, follows
      the last one, and bears the clock cut to milliseconds, or just the last event's time where the clock is
      behind it. */
  lemma AppendSays(w: Writer, log: RunLog, d: Draft, clock: int)
    requires WellFormed(log)
    ensures var n := |log.events|;
            var behind := n > 0 && clock < log.events[n - 1].recordedAt;
            && (Append(w, log, d, clock).Some? <==> w == ExecutionWriter || !behind)
            && (Append(w, log, d, clock).Some? ==>
                  var events := Append(w, log, d, clock).value.events;
                  && |events| == n + 1 && events[..n] == log.events
                  && events[n].tenant == d.tenant && events[n].run == d.run && events[n].sequence == n
                  && events[n].envelopeId == d.envelopeId && events[n].policyRef == d.policyRef
                  && events[n].payload == d.payload
                  && events[n].prior == (if n == 0 then None else Some(OfEvent(log.events[n - 1])))
                  && events[n].recordedAt
                     == (if behind then log.events[n - 1].recordedAt else clock - clock % 1000))
  {
    if log.events != [] {
      assert LinkedAt(log.events, |log.events| - 1);
    }
  }

  /** The digest at the head of a chain determines the whole chain. */
  lemma {:induction false} HeadDigestDeterminesChain(a: seq<Event>, b: seq<Event>)
    requires Linked(a) && Linked(b)
    requires HeadOf(a).lastDigest == HeadOf(b).lastDigest
    ensures a == b
    decreases |a|
  {
    if a == [] || b == [] {
      assert a == b == [];
    } else {
      var m, n := |a| - 1, |b| - 1;
      assert a[m] == b[n];
      assert LinkedAt(a, m) && LinkedAt(b, n);
      assert m == n;
      forall i | 0 <= i < m ensures LinkedAt(a[..m], i) { assert LinkedAt(a, i); }
      forall i | 0 <= i < n ensures LinkedAt(b[..n], i) { assert LinkedAt(b, i); }
      HeadDigestDeterminesChain(a[..m], b[..n]);
      assert a == a[..m] + [a[m]] && b == b[..n] + [b[n]];
    }
  }

  // ---- The in-process ledger: one list of events per tenant ----

  function EventsOf(ledger: map<Id, seq<Event>>, tenant: Id): seq<Event> {
    if tenant in ledger then ledger[tenant] else []
  }

  /** One append, or a refusal, which keeps every event but leaves the empty list that
      `setdefault` made for an unknown tenant. */
  function LedgerAppend(ledger: map<Id, seq<Event>>, d: Draft, clock: int): (map<Id, seq<Event>>, Option<Event>) {
    var events := EventsOf(ledger, d.tenant);
    var e := BuildEnvelope(MemoryWriter, HeadOf(events), d, clock);
    (ledger[d.tenant := events + (match e case Some(x) => [x] case None => [])], e)
  }

  ghost predicate LedgerLinked(ledger: map<Id, seq<Event>>) { forall t | t in ledger :: Linked(ledger[t]) }

  lemma LedgerAppendLinked(ledger: map<Id, seq<Event>>, d: Draft, clock: int)
    requires LedgerLinked(ledger)
    ensures LedgerLinked(LedgerAppend(ledger, d, clock).0)
  {
    var events := EventsOf(ledger, d.tenant);
    assert Linked(events) && events + [] == events;
    AppendKeepsChain(MemoryWriter, RunLog(d.tenant, HeadOf(events), events), d, clock);
  }

  class InMemoryEvidenceLedger {
    var byTenant: map<Id, seq<Event>>

    constructor ()
      ensures byTenant == map[]
    {
      byTenant := map[];
    }

    method Append(d: Draft, clock: int) returns (r: Option<Event>)
      modifies this
      ensures (byTenant, r) == LedgerAppend(old(byTenant), d, clock)
      ensures old(LedgerLinked(byTenant)) ==> LedgerLinked(byTenant)
    {
      LedgerAppendWhere(byTenant, d, clock);
      ghost var before := byTenant;
      if d.tenant !in byTenant {
        byTenant := byTenant[d.tenant := []];
      }
      var events := byTenant[d.tenant];
      var now := TruncateToMillis(clock);
      if events != [] && now < events[|events| - 1].recordedAt {
        r := None;
        assert events + [] == events && before[d.tenant := events] == byTenant;
      } else {
        var prior := if events != [] then Some(OfEvent(events[|events| - 1])) else None;
        var e := Event(d.tenant, d.run, |events|, now, prior, d.envelopeId, d.policyRef, d.payload);
        byTenant := byTenant[d.tenant := events + [e]];
        assert before[d.tenant := events + [e]] == byTenant;
        r := Some(e);
      }
    }
  }

  lemma LedgerAppendWhere(ledger: map<Id, seq<Event>>, d: Draft, clock: int)
    ensures LedgerLinked(ledger) ==> LedgerLinked(LedgerAppend(ledger, d, clock).0)
  {
    if LedgerLinked(ledger) {
      LedgerAppendLinked(ledger, d, clock);
    }
  }
}
