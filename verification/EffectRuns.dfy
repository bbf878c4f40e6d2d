/** Runs that do get somewhere: a dispatch left alone completes, a recovery passes exactly while
    the actor context is valid, and the hazard can be reached. */
module EffectRuns {
  import opened Records
  import opened Samples
  import opened EvidenceChain
  import opened EffectStore
  import opened EffectProtocol
  import opened EffectInvariant
  import opened EffectLedger
  import opened EffectTruth
  import opened EffectTheorems

  lemma RunOneMore(schedule: seq<Step>, s: Step)
    ensures Run(schedule + [s]) == Apply(Run(schedule), s)
  {
    hide Apply;
    assert (schedule + [s])[..|schedule + [s]| - 1] == schedule;
  }

  // ---- A dispatch left alone ----

  const P0: Pid := 0

  function SoloIntent(a: Authority, clock: int): Event {
    Event(a.actor.tenant, a.request.runId, 0, TruncateToMillis(clock), None, "e0", PolicyRef(a.policy),
          IntentPayload(a))
  }

  function SoloRow(a: Authority, clock: int): Row { NewRow(a, SoloIntent(a, clock), "attempt", 0, 1) }

  function SoloDb(a: Authority, clock: int, row: Row): EffectDb {
    EffectDb(map[(a.actor.tenant, a.request.runId) :=
                 EvidenceChain.Commit(EmptyLog(a.actor.actor), SoloIntent(a, clock))],
             map[KeyOf(a) := row])
  }

  function SoloWorld(a: Authority, clock: int, row: Row, held: Row, pc: Pc, effects: map<Pid, Effect>,
                     calls: seq<EffectProtocol.Call>): World {
    World(SoloDb(a, clock, row), 0, map[P0 := Dispatch(a, Some(held), pc)], effects, calls, map[],
          map[KeyOf(a) := P0], map[])
  }

  function SoloOutcome(a: Authority, clock: int, result: Id): Outcome {
    BuildOutcome(a, SoloIntent(a, clock), Succeeded, result, Stamp("o0", clock))
  }

  function SoloStart(a: Authority, clock: int): seq<Step> {
    [Begin(P0, a), LookUp(P0, true), Validate(P0, true), Select(P0, true),
     Insert(P0, Writing("e0", clock), "attempt", 1, true)]
  }

  function SoloSchedule(a: Authority, clock: int, result: Id): seq<Step> {
    SoloStart(a, clock) +
    [RenewFirst(P0, 1, true), Execute(P0, Returns(result)), Build(P0, true, Stamp("o0", clock)),
     CheckComplete(P0, true)]
  }

  function Selected(a: Authority): World { START.(procs := map[P0 := Dispatch(a, None, Inserting)]) }

  function Alone(a: Authority, pc: Pc): World { START.(procs := map[P0 := Dispatch(a, None, pc)]) }

  lemma AloneLooks(a: Authority)
    ensures DoLookUp(Alone(a, Looking), P0, true) == Alone(a, Validating)
    ensures DoSelect(Alone(a, Selecting), P0, true) == Alone(a, Inserting)
  {
    hide BindingDigest;
    assert RowsByBinding(START.db, a) == {};
  }

  lemma SoloSelects(a: Authority)
    requires ParsedForTenant(a)
    ensures Apply(Apply(Apply(Apply(START, Begin(P0, a)), LookUp(P0, true)), Validate(P0, true)), Select(P0, true))
            == Selected(a)
  {
    hide ParsedForTenant, DoLookUp, DoSelect;
    AloneLooks(a);
    assert Apply(START, Begin(P0, a)) == Alone(a, Looking);
    assert Apply(Alone(a, Looking), LookUp(P0, true)) == Alone(a, Validating);
    assert Apply(Alone(a, Validating), Validate(P0, true)) == Alone(a, Selecting);
  }

  lemma SoloInserts(a: Authority, clock: int)
    requires StoredInputsValid(a)
    ensures DoInsert(Selected(a), P0, Writing("e0", clock), "attempt", 1, true)
            == SoloWorld(a, clock, SoloRow(a, clock), SoloRow(a, clock), Renewing, map[], [])
  {
    SoloInserted(a, clock);
    hide StoredInputsValid, PrepareInsert, SoloRow;
    var v := DoInsert(Selected(a), P0, Writing("e0", clock), "attempt", 1, true);
    assert v.creators == map[KeyOf(a) := P0];
    assert v.procs == map[P0 := Dispatch(a, Some(SoloRow(a, clock)), Renewing)];
  }

  lemma SoloInserted(a: Authority, clock: int)
    requires StoredInputsValid(a)
    ensures PrepareInsert(EffectDb(map[], map[]), a, "e0", clock, "attempt", 0, 1)
            == Reply(SoloDb(a, clock, SoloRow(a, clock)), Some(SoloRow(a, clock)))
  {
    hide Chronological, ApprovalBindsStored, BindingDigest;
    assert InsertAllowed(EffectDb(map[], map[]), a);
  }

  /** The world after the intent and the row were written. */
  function SoloPrepared(a: Authority, clock: int): World {
    SoloWorld(a, clock, SoloRow(a, clock), SoloRow(a, clock), Renewing, map[], [])
  }

  function Renewed(a: Authority, clock: int): Row {
    SoloRow(a, clock).(state := Executing, leaseExpires := 1, lastRenewed := 0)
  }

  lemma SoloRenews(a: Authority, clock: int)
    requires StoredInputsValid(a)
    ensures DoRenewFirst(SoloWorld(a, clock, SoloRow(a, clock), SoloRow(a, clock), Renewing, map[], []), P0, 1, true)
            == SoloWorld(a, clock, Renewed(a, clock), Renewed(a, clock), Ready, map[], [])
    ensures Readable(Renewed(a, clock))
  {
    hide StoredInputsValid;
    var w := SoloWorld(a, clock, SoloRow(a, clock), SoloRow(a, clock), Renewing, map[], []);
    assert w.db.effects[KeyOf(a) := Renewed(a, clock)] == map[KeyOf(a) := Renewed(a, clock)];
    assert Readable(Renewed(a, clock));
  }

  function Acted(result: Id): map<Pid, Effect> { map[P0 := Effect(0, true, false)] }

  lemma SoloBuilds(a: Authority, clock: int, result: Id)
    requires ScopeDerivable(a.actor, clock)
    ensures var row, o, calls := Renewed(a, clock), SoloOutcome(a, clock, result), [EffectProtocol.Call(P0, a)];
            && DoExecute(SoloWorld(a, clock, row, row, Ready, map[], []), P0, Returns(result))
               == SoloWorld(a, clock, row, row, Ran(Succeeded, result), Acted(result), calls)
            && DoBuild(SoloWorld(a, clock, row, row, Ran(Succeeded, result), Acted(result), calls), P0, true,
                       Stamp("o0", clock))
               == SoloWorld(a, clock, row, row, Finishing(o), Acted(result), calls)
  {
    hide BuildOutcome, SoloDb, ScopeDerivable;
  }

  lemma SoloChecks(a: Authority, clock: int, result: Id)
    requires Readable(Renewed(a, clock))
    ensures var row, o, calls := Renewed(a, clock), SoloOutcome(a, clock, result), [EffectProtocol.Call(P0, a)];
            DoCheckComplete(SoloWorld(a, clock, row, row, Finishing(o), Acted(result), calls), P0, true)
            == SoloWorld(a, clock, row, row, Committing(o, row), Acted(result), calls)
  {
    hide Readable, BuildOutcome, OutcomeBinds;
    BuiltOutcomeBinds(a, SoloIntent(a, clock), Succeeded, result, Stamp("o0", clock));
  }

  lemma SoloFinishes(a: Authority, clock: int, result: Id)
    requires StoredInputsValid(a) && ScopeDerivable(a.actor, clock) && Readable(Renewed(a, clock))
    ensures var row, o, calls := Renewed(a, clock), SoloOutcome(a, clock, result), [EffectProtocol.Call(P0, a)];
            DoCheckComplete(DoBuild(DoExecute(SoloWorld(a, clock, row, row, Ready, map[], []), P0, Returns(result)),
                                    P0, true, Stamp("o0", clock)), P0, true)
            == SoloWorld(a, clock, row, row, Committing(o, row), Acted(result), calls)
  {
    hide StoredInputsValid, Readable, ScopeDerivable, DoExecute, DoBuild, DoCheckComplete;
    SoloBuilds(a, clock, result);
    SoloChecks(a, clock, result);
  }

  function Poised(a: Authority, clock: int, result: Id): World {
    SoloWorld(a, clock, Renewed(a, clock), Renewed(a, clock),
              Committing(SoloOutcome(a, clock, result), Renewed(a, clock)), Acted(result),
              [EffectProtocol.Call(P0, a)])
  }

  lemma {:induction false} PrudentWithoutReconcile(schedule: seq<Step>)
    requires forall i | 0 <= i < |schedule| :: !schedule[i].Reconcile?
    ensures Prudent(schedule)
    decreases |schedule|
  {
    if schedule != [] {
      hide Apply, Hazard;
      PrudentWithoutReconcile(schedule[..|schedule| - 1]);
    }
  }

  lemma RunThree(schedule: seq<Step>, a: Step, b: Step, c: Step)
    ensures Run(schedule + [a, b, c]) == Apply(Apply(Apply(Run(schedule), a), b), c)
  {
    hide Apply;
    RunOneMore(schedule, a);
    RunOneMore(schedule + [a], b);
    RunOneMore(schedule + [a, b], c);
    assert schedule + [a] + [b] == schedule + [a, b] && schedule + [a, b] + [c] == schedule + [a, b, c];
  }

  lemma RunFour(schedule: seq<Step>, a: Step, b: Step, c: Step, d: Step)
    ensures Run(schedule + [a, b, c, d]) == Apply(Apply(Apply(Apply(Run(schedule), a), b), c), d)
  {
    hide Apply;
    RunThree(schedule, a, b, c);
    RunOneMore(schedule + [a, b, c], d);
    assert schedule + [a, b, c] + [d] == schedule + [a, b, c, d];
  }

  lemma RunFive(schedule: seq<Step>, a: Step, b: Step, c: Step, d: Step, e: Step)
    ensures Run(schedule + [a, b, c, d, e]) == Apply(Apply(Apply(Apply(Apply(Run(schedule), a), b), c), d), e)
  {
    hide Apply;
    RunFour(schedule, a, b, c, d);
    RunOneMore(schedule + [a, b, c, d], e);
    assert schedule + [a, b, c, d] + [e] == schedule + [a, b, c, d, e];
  }

  lemma SoloPrepares(a: Authority, clock: int)
    requires StoredInputsValid(a)
    ensures Run(SoloStart(a, clock)) == SoloPrepared(a, clock)
  {
    hide Apply, StoredInputsValid, Run, SoloWorld;
    RunFive([], Begin(P0, a), LookUp(P0, true), Validate(P0, true), Select(P0, true),
            Insert(P0, Writing("e0", clock), "attempt", 1, true));
    assert [] + SoloStart(a, clock) == SoloStart(a, clock);
    ParsedInputs(a);
    SoloSelects(a);
    LastPreparingStep(a, clock);
  }

  lemma LastPreparingStep(a: Authority, clock: int)
    requires StoredInputsValid(a)
    ensures Run([]) == START
    ensures Apply(Selected(a), Insert(P0, Writing("e0", clock), "attempt", 1, true)) == SoloPrepared(a, clock)
  {
    hide StoredInputsValid, DoInsert;
    SoloInserts(a, clock);
  }

  lemma SoloReaches(a: Authority, clock: int, result: Id)
    requires StoredInputsValid(a) && ScopeDerivable(a.actor, clock)
    ensures Run(SoloSchedule(a, clock, result)) == Poised(a, clock, result)
  {
    hide Apply, StoredInputsValid, Poised, ScopeDerivable, Run, SoloWorld, Readable;
    var begin, lookUp, validate, select := Begin(P0, a), LookUp(P0, true), Validate(P0, true), Select(P0, true);
    var insert := Insert(P0, Writing("e0", clock), "attempt", 1, true);
    RunFive([], begin, lookUp, validate, select, insert);
    assert [] + SoloStart(a, clock) == SoloStart(a, clock);
    RunFour(SoloStart(a, clock), RenewFirst(P0, 1, true), Execute(P0, Returns(result)),
            Build(P0, true, Stamp("o0", clock)), CheckComplete(P0, true));
    SoloSteps(a, clock, result);
  }

  lemma SoloSteps(a: Authority, clock: int, result: Id)
    requires StoredInputsValid(a) && ScopeDerivable(a.actor, clock)
    ensures var w := Apply(Apply(Apply(Apply(Apply(Run([]), Begin(P0, a)), LookUp(P0, true)), Validate(P0, true)),
                                 Select(P0, true)),
                           Insert(P0, Writing("e0", clock), "attempt", 1, true));
            Apply(Apply(Apply(Apply(w, RenewFirst(P0, 1, true)), Execute(P0, Returns(result))),
                        Build(P0, true, Stamp("o0", clock))), CheckComplete(P0, true))
            == Poised(a, clock, result)
  {
    hide StoredInputsValid, ScopeDerivable, Readable, DoLookUp, DoSelect, DoInsert, DoRenewFirst, DoExecute, DoBuild,
         DoCheckComplete;
    ParsedInputs(a);
    SoloSelects(a);
    assert Run([]) == START;
    SoloInserts(a, clock);
    var w1 := SoloWorld(a, clock, SoloRow(a, clock), SoloRow(a, clock), Renewing, map[], []);
    assert Apply(Selected(a), Insert(P0, Writing("e0", clock), "attempt", 1, true)) == w1;
    SoloRenews(a, clock);
    var w2 := SoloWorld(a, clock, Renewed(a, clock), Renewed(a, clock), Ready, map[], []);
    assert Apply(w1, RenewFirst(P0, 1, true)) == w2;
    SoloActs(a, clock, result);
  }

  lemma SoloActs(a: Authority, clock: int, result: Id)
    requires StoredInputsValid(a) && ScopeDerivable(a.actor, clock) && Readable(Renewed(a, clock))
    ensures var w := SoloWorld(a, clock, Renewed(a, clock), Renewed(a, clock), Ready, map[], []);
            Apply(Apply(Apply(w, Execute(P0, Returns(result))), Build(P0, true, Stamp("o0", clock))),
                  CheckComplete(P0, true)) == Poised(a, clock, result)
  {
    hide StoredInputsValid, ScopeDerivable, Readable, DoExecute, DoBuild, DoCheckComplete;
    var w := SoloWorld(a, clock, Renewed(a, clock), Renewed(a, clock), Ready, map[], []);
    SoloFinishes(a, clock, result);
    assert Apply(w, Execute(P0, Returns(result))) == DoExecute(w, P0, Returns(result));
    ExecuteKeepsProcess(w, P0, Returns(result));
    BuildKeepsProcess(DoExecute(w, P0, Returns(result)), P0, Stamp("o0", clock));
  }

  lemma ExecuteKeepsProcess(w: World, p: Pid, b: Behaviour)
    requires p in w.procs
    ensures p in DoExecute(w, p, b).procs
  {
  }

  lemma BuildKeepsProcess(w: World, p: Pid, s: Stamp)
    requires p in w.procs
    ensures p in DoBuild(w, p, true, s).procs
  {
    hide BuildOutcome, ScopeDerivable;
  }

  lemma ParsedInputs(a: Authority)
    requires StoredInputsValid(a)
    ensures ParsedForTenant(a)
  {
  }

  /** Left alone, a dispatch of any valid authority completes, returns what its executor answered, and its
      effect is in place. */
  lemma SoloDispatchCompletes(a: Authority, clock: int, result: Id)
    requires StoredInputsValid(a) && ScopeDerivable(a.actor, clock)
    ensures var w := Run(SoloSchedule(a, clock, result)
                         + [EffectProtocol.Commit(P0, Writing("e1", clock), Acknowledged)]);
            && P0 in w.procs && w.procs[P0].pc == Done(SoloOutcome(a, clock, result)) && Intact(w, P0)
            && KeyOf(a) in w.db.effects && w.db.effects[KeyOf(a)].state == Completed
    ensures var o := SoloOutcome(a, clock, result);
            o.status == Succeeded && o.result == result && OutcomeOf(o, a, SoloIntent(a, clock), Stamp("o0", clock))
  {
    hide StoredInputsValid, ScopeDerivable, Run, Apply, DoCommit, OutcomeOf;
    BuiltSays(a, SoloIntent(a, clock), Succeeded, result, Stamp("o0", clock));
    SoloReaches(a, clock, result);
    RunOneMore(SoloSchedule(a, clock, result), EffectProtocol.Commit(P0, Writing("e1", clock), Acknowledged));
    SoloCommits(a, clock, result);
  }

  lemma SoloCommits(a: Authority, clock: int, result: Id)
    ensures var w := Apply(Poised(a, clock, result), EffectProtocol.Commit(P0, Writing("e1", clock), Acknowledged));
            && P0 in w.procs && w.procs[P0].pc == Done(SoloOutcome(a, clock, result)) && Intact(w, P0)
            && KeyOf(a) in w.db.effects && w.db.effects[KeyOf(a)].state == Completed
  {
    hide StoredInputsValid;
  }

  /** The hazard is reachable, and so is a row that falsely says completed. */
  lemma SoloHazard(a: Authority, clock: int, result: Id)
    requires StoredInputsValid(a) && ScopeDerivable(a.actor, clock)
    ensures var s := SoloSchedule(a, clock, result) + [EffectProtocol.Commit(P0, Writing("e1", clock), StillInFlight)];
            && PrudentlyReachable(Run(s)) && Hazard(Run(s), P0)
            && exists v :: Later(Run(s), v) && Falsified(v, KeyOf(Run(s).procs[P0].auth))
  {
    hide StoredInputsValid, ScopeDerivable, Run, Apply, Falsified, Poised, Later;
    var s := SoloSchedule(a, clock, result) + [EffectProtocol.Commit(P0, Writing("e1", clock), StillInFlight)];
    SoloReaches(a, clock, result);
    RunOneMore(SoloSchedule(a, clock, result), EffectProtocol.Commit(P0, Writing("e1", clock), StillInFlight));
    SoloGivesUp(a, clock, result);
    PrudentWithoutReconcile(s);
    EveryHazardIsReal(Run(s), P0);
  }

  lemma SoloGivesUp(a: Authority, clock: int, result: Id)
    ensures Hazard(Apply(Poised(a, clock, result), EffectProtocol.Commit(P0, Writing("e1", clock), StillInFlight)), P0)
  {
    hide StoredInputsValid;
  }

  const GRANT := Grant("t", "g", "alice", "run", "r", OfRequest(REQUEST), "tool", "1", "d", OfPolicy(POLICY), [], [],
                       "", 0, 1000000, Idempotency("t", "key", "tool"), "n")
  const SAMPLE := Authority(ACTOR, REQUEST, POLICY, [], GRANT)

  lemma SampleIsValid()
    ensures StoredInputsValid(SAMPLE) && ScopeDerivable(SAMPLE.actor, 0)
  {
    assert ApprovalRefs([]) == [];
  }

  /** Without prudence a completed row need not be true: some run records a reverted effect. */
  lemma CompletedCanBeFalse()
    ensures exists v, k :: Reachable(v) && Falsified(v, k)
  {
    hide Run, Falsified, StoredInputsValid, ScopeDerivable, Later, Reachable, PrudentlyReachable, Inv, TruthInv;
    SampleIsValid();
    SoloHazard(SAMPLE, 0, "");
    var s := SoloSchedule(SAMPLE, 0, "") + [EffectProtocol.Commit(P0, Writing("e1", 0), StillInFlight)];
    var v :| Later(Run(s), v) && Falsified(v, KeyOf(Run(s).procs[P0].auth));
    PrudentFacts(Run(s));
    LaterIsReachable(Run(s), v);
  }

  // ---- Recovery ----

  function RecoverySchedule(q: Pid, row: Row, s: Stamp, x: Writing): seq<Step> {
    [BeginRecovery(q, row.auth.actor, row.auth.request.requestId), LookUp(q, true), Build(q, true, s),
     CheckRecover(q, true), CommitRecover(q, x, true)]
  }

  function RecoveredOutcome(row: Row, s: Stamp): Outcome {
    BuildOutcome(row.auth, row.intent, StatusIndeterminate, RECOVERED_RESULT, s)
  }

  function Recoverer(w: World, q: Pid, row: Row, pc: Pc): World {
    w.(procs := w.procs[q := Process.Recovery(row.auth.actor, row.auth.request.requestId, pc)])
  }

  lemma RecoveryLooks(w: World, q: Pid, k: RowKey)
    requires k in w.db.effects && KeyOf(w.db.effects[k].auth) == k && Readable(w.db.effects[k])
             && Live(w.db.effects[k].state)
    ensures var row := w.db.effects[k];
            DoLookUp(Recoverer(w, q, row, Looking), q, true) == Recoverer(w, q, row, Outlining(row))
  {
    hide Readable;
  }

  lemma RecoveryBuilds(w: World, q: Pid, row: Row, s: Stamp)
    ensures DoBuild(Recoverer(w, q, row, Outlining(row)), q, true, s) ==
            Recoverer(w, q, row, if ScopeDerivable(row.auth.actor, s.clock)
                      then RecoverReady(RecoveredOutcome(row, s)) else Raised)
  {
    hide BuildOutcome, ScopeDerivable;
  }

  lemma RecoveryChecks(w: World, q: Pid, k: RowKey, s: Stamp)
    requires k in w.db.effects && KeyOf(w.db.effects[k].auth) == k && Readable(w.db.effects[k])
    requires Live(w.db.effects[k].state) && w.db.effects[k].leaseExpires <= w.now
    ensures var row := w.db.effects[k];
            DoCheckRecover(Recoverer(w, q, row, RecoverReady(RecoveredOutcome(row, s))), q, true)
            == Recoverer(w, q, row, RecoverCommitting(RecoveredOutcome(row, s), row))
  {
    hide Readable, OutcomeBinds, BuildOutcome;
    var row := w.db.effects[k];
    BuiltOutcomeBinds(row.auth, row.intent, StatusIndeterminate, RECOVERED_RESULT, s);
  }

  lemma RaisedStays(w: World, q: Pid)
    requires q in w.procs && w.procs[q].pc == Raised
    ensures DoCheckRecover(w, q, true) == w
  {
  }

  lemma RecoveryDoes(w: World, q: Pid, s: Stamp, x: Writing)
    requires q in w.procs
    ensures Apply(w, LookUp(q, true)) == DoLookUp(w, q, true) && Apply(w, Build(q, true, s)) == DoBuild(w, q, true, s)
    ensures Apply(w, CheckRecover(q, true)) == DoCheckRecover(w, q, true)
            && Apply(w, CommitRecover(q, x, true)) == DoCommitRecover(w, q, x, true)
  {
    hide DoLookUp, DoSelect, DoInsert, DoRenewFirst, DoHeartbeat, DoExecute, DoBuild, DoCheckComplete, DoCommit,
         DoLateCommit, DoReconcile, DoRevert, DoCheckRecover, DoCommitRecover, DoAppendOther, At;
  }

  lemma RecoveryReads(w: World, q: Pid, k: RowKey, s: Stamp)
    requires k in w.db.effects && KeyOf(w.db.effects[k].auth) == k && Readable(w.db.effects[k])
    requires Live(w.db.effects[k].state) && w.db.effects[k].leaseExpires <= w.now
    ensures var row := w.db.effects[k];
            var w2 := Apply(Apply(Recoverer(w, q, row, Looking), LookUp(q, true)), Build(q, true, s));
            Apply(w2, CheckRecover(q, true))
            == Recoverer(w, q, row, if ScopeDerivable(row.auth.actor, s.clock)
                         then RecoverCommitting(RecoveredOutcome(row, s), row) else Raised)
  {
    hide Readable, ScopeDerivable, RecoveredOutcome, Apply, DoLookUp, DoBuild, DoCheckRecover, DoCommitRecover;
    var row := w.db.effects[k];
    var none := Writing("", 0);
    RecoveryDoes(Recoverer(w, q, row, Looking), q, s, none);
    RecoveryDoes(Recoverer(w, q, row, Outlining(row)), q, s, none);
    RecoveryDoes(Recoverer(w, q, row, RecoverReady(RecoveredOutcome(row, s))), q, s, none);
    RecoveryDoes(Recoverer(w, q, row, Raised), q, s, none);
    assert DoCheckRecover(Recoverer(w, q, row, Raised), q, true) == Recoverer(w, q, row, Raised) by {
      RaisedStays(Recoverer(w, q, row, Raised), q);
    }
    RecoveryLooks(w, q, k);
    RecoveryBuilds(w, q, row, s);
    if ScopeDerivable(row.auth.actor, s.clock) {
      RecoveryChecks(w, q, k, s);
    }
  }

  lemma RecoveryCommits(w: World, q: Pid, k: RowKey, s: Stamp, x: Writing)
    requires k in w.db.effects && KeyOf(w.db.effects[k].auth) == k && RowRecorded(w.db.runs, k, w.db.effects[k])
    requires Live(w.db.effects[k].state) && w.db.effects[k].leaseExpires <= w.now
    ensures var row := w.db.effects[k];
            var v := DoCommitRecover(Recoverer(w, q, row, RecoverCommitting(RecoveredOutcome(row, s), row)), q, x,
                                     true);
            && k in v.db.effects && q in v.procs
            && (ClockPasses(w.db.runs, RunOf(k, row), x.clock) ==>
                  v.procs[q].pc == Done(RecoveredOutcome(row, s)) && v.db.effects[k].state == Indeterminate
                  && v.db.effects[k].generation == row.generation + 1)
            && (!ClockPasses(w.db.runs, RunOf(k, row), x.clock) ==> v.procs[q].pc == Raised && v.db == w.db)
  {
    hide RowRecorded, RecoveredOutcome, RecoverCommit, ClockPasses;
    RecoverCommitPasses(w.db, k, RecoveredOutcome(w.db.effects[k], s), x, w.now);
  }

  lemma RecoverCommitPasses(db: EffectDb, k: RowKey, o: Outcome, x: Writing, now: int)
    requires k in db.effects && KeyOf(db.effects[k].auth) == k && RowRecorded(db.runs, k, db.effects[k])
    requires Live(db.effects[k].state) && db.effects[k].leaseExpires <= now
    ensures var row := db.effects[k];
            var r := RecoverCommit(db, row.auth.actor, row.auth.request.requestId, row, o, x.envelopeId, x.clock, now);
            && (r.value.Some? <==> ClockPasses(db.runs, RunOf(k, row), x.clock)) && (r.value.None? ==> r.db == db)
            && k in r.db.effects
            && (r.value.Some? ==>
                  r.db.effects[k].state == Indeterminate && r.db.effects[k].generation == row.generation + 1)
  {
    hide WellFormed;
  }

  /** What a recovery run by `q` between two worlds does to a row, in either case. */
  predicate RecoveryResult(w: World, v: World, q: Pid, k: RowKey, s: Stamp, x: Writing)
    requires k in w.db.effects
  {
    var row := w.db.effects[k];
    && k in v.db.effects && q in v.procs
    && (if ScopeDerivable(row.auth.actor, s.clock) && ClockPasses(w.db.runs, RunOf(k, row), x.clock)
        then v.procs[q].pc == Done(RecoveredOutcome(row, s)) && v.db.effects[k].state == Indeterminate
             && v.db.effects[k].generation == 2
        else v.procs[q].pc == Raised && v.db == w.db)
  }

  /** After its lease has run out, a live row is recovered exactly while its actor context is
      still valid (and the evidence clock is not behind); otherwise the recovery changes nothing. */
  lemma RecoveryPassesExactly(schedule: seq<Step>, q: Pid, k: RowKey, s: Stamp, x: Writing)
    requires var w := Run(schedule);
             && q !in w.procs && k in w.db.effects && StoredInputsValid(w.db.effects[k].auth)
             && Live(w.db.effects[k].state) && w.db.effects[k].leaseExpires <= w.now
    ensures var w := Run(schedule);
            var v := Run(schedule + RecoverySchedule(q, w.db.effects[k], s, x));
            RecoveryResult(w, v, q, k, s, x)
  {
    var w := Run(schedule);
    var row := w.db.effects[k];
    hide Apply, Run, StoredInputsValid, RecoveryResult, Recoverer, Inv, LedgerOk, RowRecorded, Readable;
    ReachableLedger(schedule);
    RowFacts(w, k);
    RunFive(schedule, BeginRecovery(q, row.auth.actor, row.auth.request.requestId), LookUp(q, true), Build(q, true, s),
            CheckRecover(q, true), CommitRecover(q, x, true));
    RecoverySteps(w, q, k, s, x);
  }

  lemma RowFacts(w: World, k: RowKey)
    requires Inv(w) && LedgerOk(w.db, w.others) && k in w.db.effects
    ensures RowRecorded(w.db.runs, k, w.db.effects[k]) && KeyOf(w.db.effects[k].auth) == k
    ensures StoredInputsValid(w.db.effects[k].auth) ==> Readable(w.db.effects[k])
    ensures Live(w.db.effects[k].state) ==> w.db.effects[k].generation == 1
  {
    hide RowRecorded, RowsUnique, CallsOk, Fits, StoredInputsValid, Readable, BoundShape;
    assert RowOk(w, k);
    ReadableRows(w.db.effects[k]);
  }

  lemma RecoverySteps(w: World, q: Pid, k: RowKey, s: Stamp, x: Writing)
    requires q !in w.procs && k in w.db.effects && KeyOf(w.db.effects[k].auth) == k && Readable(w.db.effects[k])
    requires RowRecorded(w.db.runs, k, w.db.effects[k]) && w.db.effects[k].generation == 1
    requires Live(w.db.effects[k].state) && w.db.effects[k].leaseExpires <= w.now
    ensures var row := w.db.effects[k];
            var u := Apply(Apply(Apply(Apply(w, BeginRecovery(q, row.auth.actor, row.auth.request.requestId)),
                                       LookUp(q, true)), Build(q, true, s)), CheckRecover(q, true));
            var v := Apply(u, CommitRecover(q, x, true));
            RecoveryResult(w, v, q, k, s, x)
  {
    hide RowRecorded, Readable, ScopeDerivable, ClockPasses, RecoveredOutcome, Apply, DoCommitRecover, Recoverer;
    var row := w.db.effects[k];
    RecoveryBegins(w, q, row);
    RecoveryReads(w, q, k, s);
    RecoveryCommits(w, q, k, s, x);
    RecoverersExist(w, q, row);
    RecoveryDoes(Recoverer(w, q, row, RecoverCommitting(RecoveredOutcome(row, s), row)), q, s, x);
    RecoveryEnds(Recoverer(w, q, row, Raised), q, x);
  }

  lemma RecoverersExist(w: World, q: Pid, row: Row)
    ensures forall pc ::
              q in Recoverer(w, q, row, pc).procs && Recoverer(w, q, row, pc).procs[q].pc == pc
                && Recoverer(w, q, row, pc).db == w.db
  {
  }

  lemma RecoveryBegins(w: World, q: Pid, row: Row)
    requires q !in w.procs
    ensures Apply(w, BeginRecovery(q, row.auth.actor, row.auth.request.requestId)) == Recoverer(w, q, row, Looking)
  {
  }

  lemma RecoveryEnds(w: World, q: Pid, x: Writing)
    requires q in w.procs && w.procs[q].pc == Raised
    ensures Apply(w, CommitRecover(q, x, true)) == w
  {
  }
}
