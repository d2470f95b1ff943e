/** Which labs a learner can complete at all (ValidateStep, ApplyValidationResult and recordLabCompletion in
    apps/api/internal/api/handlers/session.go, with the engine's request checks): the safety results are not
    about runs in which nothing can ever be passed. */
module LabCompletion {
  import opened Ordering
  import opened Progress
  import opened ProgressStore
  import opened StepStores
  import opened Engine
  import opened ValidationProtocol
  import opened ValidationSafety
  import opened ProtocolSteps
  import Runs

  // ------------------------------------------------------------ the condition

  /** The engine accepts the step's checks. */
  predicate Checkable(step: LabStep) {
    && step.id > 0 && 1 <= |step.checks| <= 20
    && forall i :: 0 <= i < |step.checks| ==> Complete(step.checks[i])
  }

  /** There are steps, and each can be passed: by its checks with a validator, and outside release mode
      without one. */
  predicate Passable(cfg: Config, lab: seq<LabStep>) {
    && lab != []
    && if cfg.validator then forall i :: 0 <= i < |lab| ==> Checkable(lab[i]) else !cfg.release
  }

  ghost predicate Completable(cfg: Config, userId: string, labId: string) {
    exists steps: seq<Step> :: (userId, labId) in After(cfg, steps).completions
  }

  // -------------------------------------------------------- the way to the end

  lemma Next(cfg: Config, s: Sys, step: Step)
    requires Reached(cfg, s)
    ensures Reached(cfg, Exec(cfg, s, step))
  {
    Runs.ReachesNext(Machine(cfg), START, s, step);
  }

  /** The session's entry on replica 0 has the lab's steps. */
  predicate Entered(cfg: Config, id: Identity, s: Sys) {
    && id.labId in cfg.labs && WellFormed(cfg)
    && Available(s, 0, "s") && s.known == map["s" := id]
    && var ss := s.cache[(0, "s")];
       ss.labId == id.labId && ss.userId == id.userId && Ids(ss.steps) == LabIds(cfg.labs[id.labId])
  }

  predicate PassedUpTo(ss: SessionSteps, n: nat) {
    n <= |ss.steps| && forall i :: 0 <= i < n ==> ss.steps[i].status == Passed
  }

  /** Every request has been answered and every answer delivered. */
  predicate Idle(s: Sys) {
    s.calls == {} && s.position == |s.requests| == |s.results|
  }

  /** The first n steps are passed, and a finished lab is noted. */
  predicate Done(cfg: Config, id: Identity, s: Sys, n: nat) {
    && Entered(cfg, id, s) && PassedUpTo(s.cache[(0, "s")], n) && Idle(s) && s.completions == map[]
    && (0 < n == |cfg.labs[id.labId]| ==> Finished("s", id.userId, id.labId) in s.finishing)
  }

  lemma Starts(cfg: Config, id: Identity) returns (s: Sys)
    requires WellFormed(cfg) && id.labId in cfg.labs
    ensures Reached(cfg, s) && Done(cfg, id, s, 0)
  {
    Runs.ReachesSelf(Machine(cfg), START);
    Next(cfg, START, Create(0, "s", id.labId, id.userId, true));
    s := Exec(cfg, START, Create(0, "s", id.labId, id.userId, true));
  }

  lemma IndexInLab(lab: seq<LabStep>, i: nat)
    requires Increasing(LabIds(lab)) && i < |lab|
    ensures IndexOf(LabIds(lab), lab[i].id) == i && lab[i].id in LabIds(lab)
  {
    var ids := LabIds(lab);
    assert ids[i] == lab[i].id;
    assert forall j :: 0 <= j < i ==> ids[..i][j] == ids[j];
    FirstIndex(ids, lab[i].id, i);
  }

  function CallFor(cfg: Config, id: Identity, i: nat, published: bool): Call
    requires id.labId in cfg.labs && i < |cfg.labs[id.labId]|
  {
    Call(0, "s", cfg.labs[id.labId][i].id, i, published)
  }

  /** The order check lets the next step through. */
  lemma PrechecksNext(cfg: Config, id: Identity, s: Sys, n: nat)
    requires Done(cfg, id, s, n) && n < |cfg.labs[id.labId]|
    ensures Exec(cfg, s, Precheck(0, "s", cfg.labs[id.labId][n].id)) == s.(calls := {CallFor(cfg, id, n, false)})
  {
    IndexInLab(cfg.labs[id.labId], n);
  }

  lemma PublishesNext(cfg: Config, id: Identity, s: Sys, n: nat)
    requires Done(cfg, id, s, n) && n < |cfg.labs[id.labId]|
    requires cfg.validator && cfg.labs[id.labId][n].checks != []
    ensures var lab := cfg.labs[id.labId];
      Exec(cfg, s.(calls := {CallFor(cfg, id, n, false)}), Publish(CallFor(cfg, id, n, false), true)) ==
      s.(calls := {CallFor(cfg, id, n, true)}, requests := s.requests + [Request("s", lab[n].id, lab[n].checks)])
  {
    var call := CallFor(cfg, id, n, false);
    var lab, s1 := cfg.labs[id.labId], s.(calls := {call});
    IndexInLab(lab, n);
    assert CheckList(cfg, s1.known, "s", lab[n].id) == lab[n].checks;
    assert s1.calls - {call} + {call.(published := true)} == {CallFor(cfg, id, n, true)};
  }

  /** The next step is under way: requested and marked, not yet answered. */
  predicate UnderWay(cfg: Config, id: Identity, s: Sys, n: nat) {
    && Entered(cfg, id, s) && n < |cfg.labs[id.labId]| && PassedUpTo(s.cache[(0, "s")], n)
    && s.calls == {} && s.completions == map[] && s.position == |s.results| && |s.requests| == s.position + 1
    && s.requests[s.position] == Request("s", cfg.labs[id.labId][n].id, cfg.labs[id.labId][n].checks)
  }

  lemma Requests(cfg: Config, id: Identity, s: Sys, n: nat) returns (s': Sys)
    requires Reached(cfg, s) && Done(cfg, id, s, n) && n < |cfg.labs[id.labId]|
    requires cfg.validator && cfg.labs[id.labId][n].checks != []
    ensures Reached(cfg, s') && UnderWay(cfg, id, s', n)
  {
    var lab := cfg.labs[id.labId];
    Next(cfg, s, Precheck(0, "s", lab[n].id));
    PrechecksNext(cfg, id, s, n);
    var s1 := s.(calls := {CallFor(cfg, id, n, false)});
    Next(cfg, s1, Publish(CallFor(cfg, id, n, false), true));
    PublishesNext(cfg, id, s, n);
    var call := CallFor(cfg, id, n, true);
    var s2 := s.(calls := {call}, requests := s.requests + [Request("s", lab[n].id, lab[n].checks)]);
    Next(cfg, s2, Mark(call));
    MarkStep(cfg, s2, call);
    s' := Exec(cfg, s2, Mark(call));
    MarkKeepsEntry(cfg, id, s2, s', n);
  }

  lemma MarkKeepsEntry(cfg: Config, id: Identity, s: Sys, s': Sys, n: nat)
    requires Entered(cfg, id, s) && n < |cfg.labs[id.labId]| && PassedUpTo(s.cache[(0, "s")], n)
    requires (0, "s") in s'.cache && MarkedAt(s.cache[(0, "s")], s'.cache[(0, "s")], n)
    requires Rewrites(cfg, s, s', 0, "s", s'.cache[(0, "s")])
    ensures Entered(cfg, id, s') && PassedUpTo(s'.cache[(0, "s")], n)
  {
    assert Ids(s'.cache[(0, "s")].steps) == Ids(s.cache[(0, "s")].steps);
  }

  /** The engine runs the checks, all pass, and the verdict is delivered. */
  lemma Answers(cfg: Config, id: Identity, s: Sys, n: nat) returns (s': Sys)
    requires Reached(cfg, s) && UnderWay(cfg, id, s, n) && Checkable(cfg.labs[id.labId][n])
    ensures Reached(cfg, s') && Done(cfg, id, s', n + 1)
  {
    Next(cfg, s, EngineTurn(true, PASSING, true, true));
    TurnAnswers(cfg, id, s, n);
    var s1 := Exec(cfg, s, EngineTurn(true, PASSING, true, true));
    var k := |s.results|;
    IndexInLab(cfg.labs[id.labId], n);
    Next(cfg, s1, Deliver(0, k));
    DeliverStep(cfg, s1, 0, k);
    s' := Exec(cfg, s1, Deliver(0, k));
    PassKeepsEntry(cfg, id, s1, s', n);
  }

  lemma TurnAnswers(cfg: Config, id: Identity, s: Sys, n: nat)
    requires UnderWay(cfg, id, s, n) && Checkable(cfg.labs[id.labId][n])
    ensures var s', k := Exec(cfg, s, EngineTurn(true, PASSING, true, true)), |s.results|;
      && Entered(cfg, id, s') && s'.cache == s.cache && Idle(s') && s'.completions == map[] && |s'.results| == k + 1
      && s'.results[k].passed && s'.results[k].sid == "s" && s'.results[k].stepId == cfg.labs[id.labId][n].id
  {
    var req := s.requests[s.position];
    assert Runnable(req);
    assert Earned(req, true, PASSING, VerdictOf(req, true, PASSING));
  }

  lemma PassKeepsEntry(cfg: Config, id: Identity, s: Sys, s': Sys, n: nat)
    requires Entered(cfg, id, s) && n < |cfg.labs[id.labId]| && PassedUpTo(s.cache[(0, "s")], n)
    requires Idle(s) && s.completions == map[]
    requires (0, "s") in s'.cache && OpensNext(s.cache[(0, "s")], s'.cache[(0, "s")], n)
    requires s'.cache[(0, "s")].steps[n].status == Passed
      && s'.cache[(0, "s")].steps[n].stepId == s.cache[(0, "s")].steps[n].stepId
    requires Rewrites(cfg, s, s', 0, "s", s'.cache[(0, "s")]) && s'.calls == {}
      && Notes(s, s', "s", s'.cache[(0, "s")], true)
    ensures Done(cfg, id, s', n + 1)
  {
    assert Ids(s'.cache[(0, "s")].steps) == Ids(s.cache[(0, "s")].steps);
  }

  /** Without a validator. */
  lemma Mocks(cfg: Config, id: Identity, s: Sys, n: nat) returns (s': Sys)
    requires Reached(cfg, s) && Done(cfg, id, s, n) && n < |cfg.labs[id.labId]| && !cfg.validator && !cfg.release
    ensures Reached(cfg, s') && Done(cfg, id, s', n + 1)
  {
    var call := CallFor(cfg, id, n, false);
    Next(cfg, s, Precheck(0, "s", cfg.labs[id.labId][n].id));
    PrechecksNext(cfg, id, s, n);
    var s1 := s.(calls := {call});
    Next(cfg, s1, MockPass(call));
    MockStep(cfg, s1, call);
    s' := Exec(cfg, s1, MockPass(call));
    PassKeepsEntry(cfg, id, s, s', n);
  }

  lemma PassesNext(cfg: Config, id: Identity, s: Sys, n: nat) returns (s': Sys)
    requires Reached(cfg, s) && Done(cfg, id, s, n) && n < |cfg.labs[id.labId]| && Passable(cfg, cfg.labs[id.labId])
    ensures Reached(cfg, s') && Done(cfg, id, s', n + 1)
  {
    if cfg.validator {
      s' := Requests(cfg, id, s, n);
      s' := Answers(cfg, id, s', n);
    } else {
      s' := Mocks(cfg, id, s, n);
    }
  }

  /** Step after step. */
  lemma {:induction false} Passes(cfg: Config, id: Identity, n: nat) returns (s: Sys)
    requires WellFormed(cfg) && id.labId in cfg.labs && Passable(cfg, cfg.labs[id.labId]) && n <= |cfg.labs[id.labId]|
    ensures Reached(cfg, s) && Done(cfg, id, s, n)
  {
    if n == 0 {
      s := Starts(cfg, id);
    } else {
      var before := Passes(cfg, id, n - 1);
      s := PassesNext(cfg, id, before, n - 1);
    }
  }

  lemma PassableCompletes(cfg: Config, userId: string, labId: string)
    requires WellFormed(cfg) && labId in cfg.labs && Passable(cfg, cfg.labs[labId])
    requires cfg.hasDb && userId != "" && labId != ""
    ensures Completable(cfg, userId, labId)
  {
    var id := Identity(labId, userId);
    var s := Passes(cfg, id, |cfg.labs[labId]|);
    var done := RecordCompletion(Finished("s", userId, labId), true);
    Next(cfg, s, done);
    var s' := Exec(cfg, s, done);
    assert (userId, labId) in s'.completions;
    var steps: seq<Step> :| Runs.After(Machine(cfg), START, steps) == s';
    assert (userId, labId) in After(cfg, steps).completions;
  }

  // ------------------------------------------------------- there is no other way

  predicate Executed(x: Execution) {
    ValidRequest(Request(x.sid, x.stepId, x.checks))
  }

  /** Where passes and completions come from. */
  predicate Sources(cfg: Config, s: Sys) {
    && (forall k :: 0 <= k < |s.executions| ==> Executed(s.executions[k]))
    && (!cfg.validator ==> s.requests == [])
    && (!cfg.validator && cfg.release ==> s.granted == {})
    && (forall k :: k in s.completions ==> cfg.hasDb && k.0 != "" && k.1 != "")
  }

  predicate SameSources(s: Sys, s': Sys) {
    && s'.executions == s.executions && s'.requests == s.requests && s'.granted == s.granted
    && s'.completions == s.completions
  }

  lemma TableSources(cfg: Config, s: Sys, step: Step)
    requires OfTables(step)
    ensures SameSources(s, Exec(cfg, s, step))
  {
  }

  lemma CreateSources(cfg: Config, s: Sys, rep: nat, sid: string, id: Identity, cached: bool)
    ensures SameSources(s, DoCreate(cfg, s, rep, sid, id, cached))
  {
  }

  lemma {:induction false} StoreSources(cfg: Config, s: Sys, step: Step)
    requires step.Create? || step.Recover? || step.Evict? || step.RestartApi?
    ensures SameSources(s, Exec(cfg, s, step))
  {
    match step
    case Create(rep, sid, labId, userId, cached) => CreateSources(cfg, s, rep, sid, Identity(labId, userId), cached);
    case _ =>
  }

  lemma MarkSources(cfg: Config, s: Sys, call: Call)
    ensures SameSources(s, DoMark(cfg, s, call))
  {
  }

  lemma HintSources(cfg: Config, s: Sys, rep: nat, sid: string, stepId: int, level: int)
    ensures SameSources(s, DoHint(cfg, s, rep, sid, stepId, level))
  {
  }

  lemma DeliverSources(cfg: Config, s: Sys, rep: nat, k: nat)
    ensures SameSources(s, DoDeliver(cfg, s, rep, k))
  {
    if k < |s.results| && Available(s, rep, s.results[k].sid)
        && s.results[k].stepId in Ids(s.cache[(rep, s.results[k].sid)].steps) {
      DeliverStep(cfg, s, rep, k);
    }
  }

  lemma {:induction false} SectionSources(cfg: Config, s: Sys, step: Step)
    requires step.Mark? || step.Hint? || step.Deliver?
    ensures SameSources(s, Exec(cfg, s, step))
  {
    match step
    case Mark(call) => MarkSources(cfg, s, call);
    case Hint(rep, sid, stepId, level) => HintSources(cfg, s, rep, sid, stepId, level);
    case Deliver(rep, k) => DeliverSources(cfg, s, rep, k);
  }

  lemma OtherSources(cfg: Config, s: Sys, step: Step)
    requires step.Precheck? || step.DropCall? || step.EngineCommit? || step.EngineRestart?
    ensures SameSources(s, Exec(cfg, s, step))
  {
  }

  /** A pass, a request, an execution or a completion may be new. */
  predicate OfSources(step: Step) {
    step.Publish? || step.MockPass? || step.EngineTurn? || step.RecordCompletion?
  }

  lemma TurnSources(cfg: Config, s: Sys, step: Step)
    requires Sources(cfg, s) && step.EngineTurn?
    ensures Sources(cfg, Exec(cfg, s, step))
  {
  }

  lemma PublishSources(cfg: Config, s: Sys, call: Call, acked: bool)
    requires Sources(cfg, s)
    ensures Sources(cfg, DoPublish(cfg, s, call, acked))
  {
  }

  lemma MockSources(cfg: Config, s: Sys, call: Call)
    requires Sources(cfg, s)
    ensures Sources(cfg, DoMockPass(cfg, s, call))
  {
  }

  lemma RecordSources(cfg: Config, s: Sys, done: Finished, ok: bool)
    requires Sources(cfg, s)
    ensures Sources(cfg, DoRecordCompletion(cfg, s, done, ok))
  {
  }

  lemma {:induction false} CallSources(cfg: Config, s: Sys, step: Step)
    requires Sources(cfg, s) && (step.Publish? || step.MockPass? || step.RecordCompletion?)
    ensures Sources(cfg, Exec(cfg, s, step))
  {
    match step
    case Publish(call, acked) => PublishSources(cfg, s, call, acked);
    case MockPass(call) => MockSources(cfg, s, call);
    case RecordCompletion(done, ok) => RecordSources(cfg, s, done, ok);
  }

  lemma SameStep(cfg: Config, s: Sys, step: Step)
    requires !OfSources(step)
    ensures SameSources(s, Exec(cfg, s, step))
  {
    if OfTables(step) {
      TableSources(cfg, s, step);
    } else if OfStore(step) {
      StoreSources(cfg, s, step);
    } else if step.Mark? || step.Hint? || step.Deliver? {
      SectionSources(cfg, s, step);
    } else {
      OtherSources(cfg, s, step);
    }
  }

  lemma SourcesKept(cfg: Config, s: Sys, step: Step)
    requires Sources(cfg, s)
    ensures Sources(cfg, Exec(cfg, s, step))
  {
    if !OfSources(step) {
      SameStep(cfg, s, step);
    } else if step.EngineTurn? {
      TurnSources(cfg, s, step);
    } else {
      CallSources(cfg, s, step);
    }
  }

  lemma RunSources(cfg: Config, steps: seq<Step>)
    ensures Sources(cfg, After(cfg, steps))
  {
    forall t: Sys, step: Step | Sources(cfg, t) ensures Sources(cfg, Machine(cfg)(t, step)) {
      SourcesKept(cfg, t, step);
    }
    Runs.KeptByRuns(Machine(cfg), t => Sources(cfg, t), START, steps);
  }

  lemma ProvedCheckable(cfg: Config, s: Sys, sid: string, i: nat)
    requires WellFormed(cfg) && Sources(cfg, s) && sid in s.known && s.known[sid].labId in cfg.labs
    requires i < |cfg.labs[s.known[sid].labId]|
    requires Proved(cfg, s.known, s.executions, sid, cfg.labs[s.known[sid].labId][i].id)
    ensures Checkable(cfg.labs[s.known[sid].labId][i])
  {
    var lab := cfg.labs[s.known[sid].labId];
    var k :| 0 <= k < |s.executions| && Proves(cfg, s.known, s.executions[k], sid, lab[i].id);
    IndexInLab(lab, i);
    assert Executed(s.executions[k]);
    ValidRequestIff(Request(sid, lab[i].id, lab[i].checks));
  }

  lemma {:induction false} CompletedPassable(cfg: Config, steps: seq<Step>, userId: string, labId: string)
    requires WellFormed(cfg) && (userId, labId) in After(cfg, steps).completions
    ensures labId in cfg.labs && Passable(cfg, cfg.labs[labId]) && cfg.hasDb && userId != "" && labId != ""
  {
    var s := After(cfg, steps);
    var sid := s.completions[(userId, labId)];
    RunKeeps(cfg, steps);
    RunSources(cfg, steps);
    assert FinishedOk(cfg, s.known, s.granted, Finished(sid, userId, labId));
    var lab := cfg.labs[labId];
    if cfg.validator {
      forall i | 0 <= i < |lab| ensures Checkable(lab[i]) { ProvedCheckable(cfg, s, sid, i); }
    } else {
      assert (sid, lab[0].id) in s.granted;
    }
  }

  /** A lab can be completed, in some run, exactly if it has steps, each with a check list the engine accepts
      or, where there is no validator, outside release mode; and if there are tables, and the user and the lab
      have names. */
  lemma CompletableIff(cfg: Config, userId: string, labId: string)
    requires WellFormed(cfg)
    ensures Completable(cfg, userId, labId) <==>
      labId in cfg.labs && Passable(cfg, cfg.labs[labId]) && cfg.hasDb && userId != "" && labId != ""
  {
    if Completable(cfg, userId, labId) {
      var steps: seq<Step> :| (userId, labId) in After(cfg, steps).completions;
      CompletedPassable(cfg, steps, userId, labId);
    }
    if labId in cfg.labs && Passable(cfg, cfg.labs[labId]) && cfg.hasDb && userId != "" && labId != "" {
      PassableCompletes(cfg, userId, labId);
    }
  }
}
