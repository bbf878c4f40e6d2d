/** Runs of the in-process broker on its own: when two executor calls share an idempotency key. */
module BrokerRuns {
  import opened Records
  import opened Samples
  import opened EvidenceChain
  import opened EffectStore
  import opened EffectProtocol
  import opened EffectLedger
  import opened EffectBroker
  import GrantIssue

  /** One dispatch: the authority it presents, and what its environment does. */
  datatype Presented = Presented(auth: Authority, trial: Trial)

  /** The broker after a sequence of dispatches. */
  function BrokerRun(attempts: seq<Presented>): BrokerState
    decreases |attempts|
  {
    if attempts == [] then FRESH
    else
      var last := attempts[|attempts| - 1];
      DispatchOnce(BrokerRun(attempts[..|attempts| - 1]), last.auth, last.trial).0
  }

  function KeyOfCall(a: Authority): BindingKey { KeyOfBinding(a.request.idempotency) }

  predicate CalledUnder(calls: seq<Authority>, b: BindingKey) {
    exists i | 0 <= i < |calls| :: KeyOfCall(calls[i]) == b
  }

  predicate CalledTwice(calls: seq<Authority>, b: BindingKey) {
    exists i, j | 0 <= i < j < |calls| :: KeyOfCall(calls[i]) == KeyOfCall(calls[j]) == b
  }

  // ---- Exactly when a key is used twice ----

  /** A call under the key left no stored result, and this attempt brings a valid and unconsumed
      grant under the same key (and the ledger takes its clock). */
  predicate LetThrough(s: BrokerState, x: Presented, b: BindingKey) {
    && CalledUnder(s.calls, b) && b !in s.results
    && KeyOfCall(x.auth) == b && Dispatchable(x.auth, x.trial) && KeyOfGrant(x.auth.grant) !in s.consumed
    && LedgerAppend(s.ledger, IntentDraft(x.auth, x.trial.intent), x.trial.intent.clock).1.Some?
  }

  lemma CalledAppended(calls: seq<Authority>, a: Authority, b: BindingKey)
    ensures CalledUnder(calls + [a], b) <==> CalledUnder(calls, b) || KeyOfCall(a) == b
    ensures CalledTwice(calls + [a], b) <==> CalledTwice(calls, b) || (CalledUnder(calls, b) && KeyOfCall(a) == b)
  {
    var more := calls + [a];
    assert forall i | 0 <= i < |calls| :: more[i] == calls[i];
    assert more[|calls|] == a;
  }

  ghost predicate LetThroughAt(attempts: seq<Presented>, m: nat, b: BindingKey)
    requires m < |attempts|
  {
    LetThrough(BrokerRun(attempts[..m]), attempts[m], b)
  }

  ghost predicate LetThroughIn(attempts: seq<Presented>, b: BindingKey) {
    exists m: nat :: m < |attempts| && LetThroughAt(attempts, m, b)
  }

  lemma LetThroughAppended(attempts: seq<Presented>, b: BindingKey)
    requires attempts != []
    ensures var n := |attempts| - 1;
            LetThroughIn(attempts, b)
            <==> LetThroughIn(attempts[..n], b) || LetThrough(BrokerRun(attempts[..n]), attempts[n], b)
  {
    hide LetThrough, BrokerRun;
    var n := |attempts| - 1;
    var rest := attempts[..n];
    assert LetThroughAt(attempts, n, b) <==> LetThrough(BrokerRun(rest), attempts[n], b);
    forall m: nat | m < n ensures LetThroughAt(attempts, m, b) <==> LetThroughAt(rest, m, b) {
      assert rest[..m] == attempts[..m];
    }
  }

  /** Over every run: two executor calls share an idempotency key exactly when, after a call under it
      that left no result, the key was let through once more with another grant. */
  lemma {:induction false} KeyUsedTwiceExactly(attempts: seq<Presented>, b: BindingKey)
    ensures CalledTwice(BrokerRun(attempts).calls, b) <==> LetThroughIn(attempts, b)
    decreases |attempts|
  {
    if attempts != [] {
      hide LetThrough, LetThroughAt, LetThroughIn, DispatchOnce, CalledTwice;
      var n := |attempts| - 1;
      KeyUsedTwiceExactly(attempts[..n], b);
      OneMoreAttempt(BrokerRun(attempts[..n]), attempts[n], b);
      LetThroughAppended(attempts, b);
    }
  }

  lemma OneMoreAttempt(s: BrokerState, x: Presented, b: BindingKey)
    ensures CalledTwice(DispatchOnce(s, x.auth, x.trial).0.calls, b) <==> CalledTwice(s.calls, b) || LetThrough(s, x, b)
  {
    hide DispatchOnce, Dispatchable, CalledTwice, CalledUnder, LedgerAppend;
    CallsExactly(s, x.auth, x.trial);
    if DispatchOnce(s, x.auth, x.trial).0.calls != s.calls {
      DispatchOrder(s, x.auth, x.trial);
      CalledAppended(s.calls, x.auth, b);
    }
  }

  // ---- Which calls leave no result ----

  /** What goes wrong after the executor was called: a revert fails, the outcome cannot be built, or
      the clock has gone back since the intent. */
  predicate FailsToRecord(a: Authority, t: Trial) {
    || (t.attempted.Fails? && !t.reverts) || !t.buildOk || !ScopeDerivable(a.actor, t.stamp.clock)
    || TruncateToMillis(t.outcome.clock) < TruncateToMillis(t.intent.clock)
  }

  lemma RecordsExactly(s: BrokerState, a: Authority, t: Trial, intent: Event, status: Status, result: Id)
    requires var events := EventsOf(s.ledger, a.grant.tenant);
             events != [] && events[|events| - 1].recordedAt == TruncateToMillis(t.intent.clock)
    ensures var x := Recorded(s, a, t, intent, status, result);
            x.1.Some? <==> t.buildOk && ScopeDerivable(a.actor, t.stamp.clock)
                           && TruncateToMillis(t.intent.clock) <= TruncateToMillis(t.outcome.clock)
    ensures var x := Recorded(s, a, t, intent, status, result);
            && x.0.results.Keys == s.results.Keys + (if x.1.Some? then {KeyOfCall(a)} else {})
            && (x.1.None? ==> EventsOf(x.0.ledger, a.grant.tenant) == EventsOf(s.ledger, a.grant.tenant))
  {
    hide BuildOutcome, ScopeDerivable, TruncateToMillis, OutcomePayload;
  }

  lemma IntentIsLast(ledger: map<Id, seq<Event>>, d: Draft, clock: int)
    requires LedgerAppend(ledger, d, clock).1.Some?
    ensures var events := EventsOf(LedgerAppend(ledger, d, clock).0, d.tenant);
            events != [] && events[|events| - 1].recordedAt == TruncateToMillis(clock)
  {
    hide TruncateToMillis;
  }

  /** A dispatch that called the executor returns and stores its result exactly when nothing of that
      happened. */
  lemma CallStoresExactly(s: BrokerState, a: Authority, t: Trial)
    requires DispatchOnce(s, a, t).0.calls != s.calls
    ensures DispatchOnce(s, a, t).1.Some? <==> !FailsToRecord(a, t)
    ensures KeyOfCall(a) in DispatchOnce(s, a, t).0.results <==> !FailsToRecord(a, t)
    ensures FailsToRecord(a, t) ==>
              var events := EventsOf(DispatchOnce(s, a, t).0.ledger, a.grant.tenant);
              events != [] && events[|events| - 1].recordedAt == TruncateToMillis(t.intent.clock)
  {
    hide Dispatchable, LedgerAppend, ScopeDerivable, TruncateToMillis, Recorded;
    CallsExactly(s, a, t);
    var d := IntentDraft(a, t.intent);
    var x := LedgerAppend(s.ledger, d, t.intent.clock);
    IntentIsLast(s.ledger, d, t.intent.clock);
    var called := Called(s, a, t);
    match t.attempted
    case Answers(result) =>
      RecordsExactly(called.(world := s.world[OfGrant(a.grant) := true]), a, t, x.1.value, Succeeded, result);
    case Fails(_) =>
      RecordsExactly(called.(world := s.world[OfGrant(a.grant) := false]), a, t, x.1.value, StatusIndeterminate,
                     BROKEN_RESULT);
  }

  // ---- What a caller can do about it ----

  lemma {:induction false} RunInv(attempts: seq<Presented>)
    ensures BrokerInv(BrokerRun(attempts))
    decreases |attempts|
  {
    hide BrokerInv, DispatchOnce;
    if attempts == [] {
      FreshInv();
    } else {
      var last := attempts[|attempts| - 1];
      RunInv(attempts[..|attempts| - 1]);
      DispatchKeepsInv(BrokerRun(attempts[..|attempts| - 1]), last.auth, last.trial);
    }
  }

  lemma {:induction false} CallsWereAttempted(attempts: seq<Presented>, i: nat)
    requires i < |BrokerRun(attempts).calls|
    ensures exists m: nat :: m < |attempts| && attempts[m].auth == BrokerRun(attempts).calls[i]
    decreases |attempts|
  {
    if attempts != [] {
      hide DispatchOnce;
      var n := |attempts| - 1;
      var rest, x := attempts[..n], attempts[n];
      var s := BrokerRun(rest);
      if DispatchOnce(s, x.auth, x.trial).0.calls != s.calls {
        DispatchOrder(s, x.auth, x.trial);
      }
      if i < |s.calls| {
        CallsWereAttempted(rest, i);
        var m: nat :| m < |rest| && rest[m].auth == s.calls[i];
        assert attempts[m].auth == BrokerRun(attempts).calls[i];
      } else {
        assert attempts[n].auth == BrokerRun(attempts).calls[i];
      }
    }
  }

  /** Every attempt under the key brings one and the same grant. */
  predicate OneGrantUnder(attempts: seq<Presented>, b: BindingKey) {
    forall m, n | 0 <= m < |attempts| && 0 <= n < |attempts|
      && KeyOfCall(attempts[m].auth) == KeyOfCall(attempts[n].auth) == b ::
      attempts[m].auth.grant == attempts[n].auth.grant
  }

  /** A caller that never presents two grants under one key gets at most one call under it, however
      many dispatches fail. */
  lemma OneGrantOneCall(attempts: seq<Presented>, b: BindingKey)
    requires OneGrantUnder(attempts, b)
    ensures !CalledTwice(BrokerRun(attempts).calls, b)
  {
    hide BrokerRun, GrantOk, LedgerLinked, BrokerAuthority;
    RunInv(attempts);
    var calls := BrokerRun(attempts).calls;
    forall i: nat, j: nat | i < j < |calls| ensures !(KeyOfCall(calls[i]) == KeyOfCall(calls[j]) == b) {
      CallsWereAttempted(attempts, i);
      CallsWereAttempted(attempts, j);
      var m: nat :| m < |attempts| && attempts[m].auth == calls[i];
      var n: nat :| n < |attempts| && attempts[n].auth == calls[j];
      assert calls[i].grant != calls[j].grant;
    }
  }

  // ---- It does happen ----

  /** After a call that leaves no result, any other valid grant under the same key is executed too. */
  lemma FailedKeyIsUsedAgain(a: Authority, t: Trial, b: Authority, u: Trial)
    requires Dispatchable(a, t) && Dispatchable(b, u) && FailsToRecord(a, t)
    requires KeyOfCall(a) == KeyOfCall(b) && KeyOfGrant(a.grant) != KeyOfGrant(b.grant)
    requires TruncateToMillis(t.intent.clock) <= TruncateToMillis(u.intent.clock)
    ensures BrokerRun([Presented(a, t), Presented(b, u)]).calls == [a, b]
  {
    hide Dispatchable, TruncateToMillis, FailsToRecord, DispatchOnce, LedgerAppend, IntentPayload;
    TakesClock(FRESH.ledger, IntentDraft(a, t.intent), t.intent.clock);
    var x, y := Presented(a, t), Presented(b, u);
    assert [x, y][..1] == [x] && [x][..0] == [];
    assert BrokerRun([x]) == DispatchOnce(FRESH, a, t).0;
    CallsExactly(FRESH, a, t);
    DispatchOrder(FRESH, a, t);
    CallStoresExactly(FRESH, a, t);
    var s := BrokerRun([x]);
    SameTenant(a, t, b, u);
    TakesClock(s.ledger, IntentDraft(b, u.intent), u.intent.clock);
    CallsExactly(s, b, u);
    DispatchOrder(s, b, u);
  }

  lemma TakesClock(ledger: map<Id, seq<Event>>, d: Draft, clock: int)
    ensures var events := EventsOf(ledger, d.tenant);
            LedgerAppend(ledger, d, clock).1.Some?
            <==> events == [] || events[|events| - 1].recordedAt <= TruncateToMillis(clock)
  {
    hide TruncateToMillis;
  }

  lemma SameTenant(a: Authority, t: Trial, b: Authority, u: Trial)
    requires Dispatchable(a, t) && Dispatchable(b, u) && KeyOfCall(a) == KeyOfCall(b)
    ensures a.grant.tenant == b.grant.tenant
  {
    hide GrantIssue.GrantValid;
  }

  const AUTHORIZED := POLICY.(decision := Authorize, isolation := "process")

  function SampleGrant(id: Id): Grant {
    Grant("t", id, "alice", "run", "r", OfRequest(REQUEST), "tool", "1", "d", OfPolicy(AUTHORIZED), [], [], "process",
          0, 1000000, Idempotency("t", "key", "tool"), "n")
  }

  function SampleAuthority(id: Id): Authority { Authority(ACTOR, REQUEST, AUTHORIZED, [], SampleGrant(id)) }

  function SampleTrial(id: Id, buildOk: bool): Trial {
    Trial(0, {}, {OfGrant(SampleGrant(id))}, true, Writing("i", 0), Answers(""), buildOk, Stamp("o", 0),
          Writing("o", 0), true)
  }

  /** A run with two executor calls under one key: the first outcome could not be built. */
  lemma BrokerAloneRepeats()
    ensures var run := [Presented(SampleAuthority("g1"), SampleTrial("g1", false)),
                        Presented(SampleAuthority("g2"), SampleTrial("g2", true))];
            BrokerRun(run).calls == [SampleAuthority("g1"), SampleAuthority("g2")]
              && CalledTwice(BrokerRun(run).calls, ("t", "key"))
  {
    hide BrokerRun;
    var a, t, b, u := SampleAuthority("g1"), SampleTrial("g1", false), SampleAuthority("g2"), SampleTrial("g2", true);
    FailedKeyIsUsedAgain(a, t, b, u);
    var calls := [a, b];
    assert KeyOfCall(calls[0]) == KeyOfCall(calls[1]) == ("t", "key");
  }
}
