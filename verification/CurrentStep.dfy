/** When the current step of a session always names a step that is not pending. Loading progress takes two
    queries (apps/api/internal/store/store.go), and saves leave the lock before they commit
    (apps/api/internal/api/handlers/progress.go). */
module CurrentStep {
  import opened Options
  import opened Progress
  import opened ProgressStore
  import opened StepStores
  import opened Engine
  import opened ValidationProtocol
  import opened ValidationSafety
  import Runs

  // ---------------------------------------------- a run that loses the current step

  /** A lab with a second step, whose first step's checks the engine accepts. */
  predicate Playable(lab: seq<LabStep>) {
    |lab| >= 2 && ValidRequest(Request("s", lab[0].id, lab[0].checks))
  }

  predicate Stage(cfg: Config, labId: string) {
    WellFormed(cfg) && cfg.hasDb && cfg.validator && labId in cfg.labs && Playable(cfg.labs[labId])
  }

  lemma AfterCreate(cfg: Config, s: Sys, labId: string)
    requires Reached(cfg, s)
    ensures Reached(cfg, DoCreate(cfg, s, 0, "s", Identity(labId, "u"), true))
  {
    Runs.ReachesNext(Machine(cfg), START, s, Create(0, "s", labId, "u", true));
  }

  lemma AfterPrecheck(cfg: Config, s: Sys, id: int)
    requires Reached(cfg, s)
    ensures Reached(cfg, DoPrecheck(s, 0, "s", id))
  {
    Runs.ReachesNext(Machine(cfg), START, s, Precheck(0, "s", id));
  }

  lemma AfterPublish(cfg: Config, s: Sys, call: Call)
    requires Reached(cfg, s)
    ensures Reached(cfg, DoPublish(cfg, s, call, true))
  {
    Runs.ReachesNext(Machine(cfg), START, s, Publish(call, true));
  }

  lemma AfterMark(cfg: Config, s: Sys, call: Call)
    requires Reached(cfg, s)
    ensures Reached(cfg, DoMark(cfg, s, call))
  {
    Runs.ReachesNext(Machine(cfg), START, s, Mark(call));
  }

  lemma AfterTurn(cfg: Config, s: Sys)
    requires Reached(cfg, s)
    ensures Reached(cfg, DoEngineTurn(s, true, PASSING, true, true))
  {
    Runs.ReachesNext(Machine(cfg), START, s, EngineTurn(true, PASSING, true, true));
  }

  lemma AfterDeliver(cfg: Config, s: Sys)
    requires Reached(cfg, s)
    ensures Reached(cfg, DoDeliver(cfg, s, 0, 0))
  {
    Runs.ReachesNext(Machine(cfg), START, s, Deliver(0, 0));
  }

  lemma AfterCommit(cfg: Config, s: Sys, ss: SessionSteps)
    requires Reached(cfg, s)
    ensures Reached(cfg, DoCommitSave(cfg, s, "s", ss))
  {
    Runs.ReachesNext(Machine(cfg), START, s, CommitSave("s", ss));
  }

  lemma AfterRestart(cfg: Config, s: Sys)
    requires Reached(cfg, s)
    ensures Reached(cfg, DoRestartApi(s, 0))
  {
    Runs.ReachesNext(Machine(cfg), START, s, RestartApi(0));
  }

  lemma AfterBegin(cfg: Config, s: Sys)
    requires Reached(cfg, s)
    ensures Reached(cfg, DoBeginLoad(cfg, s, 0, "s"))
  {
    Runs.ReachesNext(Machine(cfg), START, s, BeginLoad(0, "s"));
  }

  lemma AfterEnd(cfg: Config, s: Sys)
    requires Reached(cfg, s)
    ensures Reached(cfg, DoEndLoad(cfg, s, 0))
  {
    Runs.ReachesNext(Machine(cfg), START, s, EndLoad(0));
  }

  function S0(cfg: Config, labId: string): SessionSteps
    requires labId in cfg.labs
  {
    InitialFor(cfg, Identity(labId, "u"))
  }

  function Early(cfg: Config, labId: string): SessionSteps
    requires labId in cfg.labs
  {
    WithValidating(S0(cfg, labId), 0)
  }

  function FirstRequest(cfg: Config, labId: string): Request
    requires labId in cfg.labs && Playable(cfg.labs[labId])
  {
    Request("s", cfg.labs[labId][0].id, cfg.labs[labId][0].checks)
  }

  function FirstVerdict(cfg: Config, labId: string): (v: Verdict)
    requires labId in cfg.labs && Playable(cfg.labs[labId])
    ensures v.passed && v.sid == "s" && v.stepId == cfg.labs[labId][0].id
  {
    VerdictOf(FirstRequest(cfg, labId), true, PASSING)
  }

  function Late(cfg: Config, labId: string): SessionSteps
    requires labId in cfg.labs && Playable(cfg.labs[labId])
  {
    Judge(Early(cfg, labId), FirstVerdict(cfg, labId))
  }

  /** What the first step's pass does to a session of that lab. */
  lemma PassFacts(cfg: Config, labId: string, ss: SessionSteps)
    requires labId in cfg.labs && Playable(cfg.labs[labId]) && Ids(ss.steps) == LabIds(cfg.labs[labId])
    ensures var late := Judge(ss, FirstVerdict(cfg, labId));
      && cfg.labs[labId][0].id in Ids(ss.steps) && SameShape(late, ss)
      && late.currentStep == cfg.labs[labId][1].id && late.steps[1].status != Pending
  {
    var lab := cfg.labs[labId];
    assert Ids(ss.steps)[0] == lab[0].id && Ids(ss.steps)[1] == lab[1].id;
    assert IndexOf(Ids(ss.steps), lab[0].id) == 0;
    ChangesKeepShape(ss, 0, true, FirstVerdict(cfg, labId).checks, 0, 0);
    VerdictMeans(ss, 0, true, FirstVerdict(cfg, labId).checks);
  }

  lemma EarlyIds(cfg: Config, labId: string)
    requires labId in cfg.labs && Playable(cfg.labs[labId])
    ensures Ids(Early(cfg, labId).steps) == LabIds(cfg.labs[labId]) && Early(cfg, labId).steps[1].status == Pending
  {
    ChangesKeepShape(S0(cfg, labId), 0, true, [], 0, 0);
  }

  /** Once a snapshot is saved, any snapshot of the same shape may be saved over it. */
  lemma FitsNext(db: Db, sid: string, a: SessionSteps, b: SessionSteps)
    requires Fits(db, sid, a) && SameShape(a, b)
    ensures Fits(SaveTx(db, sid, a), sid, b)
  {
    IdSetOfShape(a.steps, b.steps);
  }

  lemma FitsShape(db: Db, sid: string, a: SessionSteps, b: SessionSteps)
    requires Fits(db, sid, a) && SameShape(a, b)
    ensures Fits(db, sid, b)
  {
    IdSetOfShape(a.steps, b.steps);
  }

  // -- the session exists

  predicate Fresh(cfg: Config, labId: string, s: Sys, calls: set<Call>)
    requires labId in cfg.labs
  {
    && s.known == map["s" := Identity(labId, "u")] && s.cache == map[(0, "s") := S0(cfg, labId)]
    && s.loads == map[] && s.saves == {} && s.db == SaveTx(START.db, "s", S0(cfg, labId)) && s.calls == calls
    && s.requests == [] && s.position == 0 && s.results == []
  }

  function FirstCall(cfg: Config, labId: string, published: bool): Call
    requires labId in cfg.labs && Playable(cfg.labs[labId])
  {
    Call(0, "s", cfg.labs[labId][0].id, 0, published)
  }

  lemma BegunState(cfg: Config, labId: string)
    requires Stage(cfg, labId)
    ensures Fresh(cfg, labId, DoCreate(cfg, START, 0, "s", Identity(labId, "u"), true), {})
  {
  }

  lemma Begun(cfg: Config, labId: string) returns (s: Sys)
    requires Stage(cfg, labId)
    ensures Reached(cfg, s) && Fresh(cfg, labId, s, {})
  {
    Runs.ReachesSelf(Machine(cfg), START);
    AfterCreate(cfg, START, labId);
    BegunState(cfg, labId);
    s := DoCreate(cfg, START, 0, "s", Identity(labId, "u"), true);
  }

  lemma PrecheckState(cfg: Config, labId: string, s: Sys)
    requires Stage(cfg, labId) && Fresh(cfg, labId, s, {})
    ensures Fresh(cfg, labId, DoPrecheck(s, 0, "s", cfg.labs[labId][0].id), {FirstCall(cfg, labId, false)})
  {
    var id := cfg.labs[labId][0].id;
    assert Ids(S0(cfg, labId).steps)[0] == id;
    assert IndexOf(Ids(S0(cfg, labId).steps), id) == 0;
  }

  lemma Prechecked(cfg: Config, labId: string) returns (s: Sys)
    requires Stage(cfg, labId)
    ensures Reached(cfg, s) && Fresh(cfg, labId, s, {FirstCall(cfg, labId, false)})
  {
    var s0 := Begun(cfg, labId);
    AfterPrecheck(cfg, s0, cfg.labs[labId][0].id);
    PrecheckState(cfg, labId, s0);
    s := DoPrecheck(s0, 0, "s", cfg.labs[labId][0].id);
  }

  // -- its first step is requested and marked; the snapshot is left in flight

  lemma FirstChecks(cfg: Config, labId: string, known: map<string, Identity>)
    requires Stage(cfg, labId) && known == map["s" := Identity(labId, "u")]
    ensures CheckList(cfg, known, "s", cfg.labs[labId][0].id) == cfg.labs[labId][0].checks
  {
    var lab := cfg.labs[labId];
    assert LabIds(lab)[0] == lab[0].id;
    assert IndexOf(LabIds(lab), lab[0].id) == 0;
  }

  predicate Requested(cfg: Config, labId: string, s: Sys, ss: SessionSteps, saves: set<(string, SessionSteps)>)
    requires labId in cfg.labs && Playable(cfg.labs[labId])
  {
    && s.cache == map[(0, "s") := ss] && s.loads == map[] && s.saves == saves
    && s.db == SaveTx(START.db, "s", S0(cfg, labId))
    && s.requests == [FirstRequest(cfg, labId)] && s.position == 0 && s.results == []
  }

  lemma PublishState(cfg: Config, labId: string, s: Sys)
    requires Stage(cfg, labId) && Fresh(cfg, labId, s, {FirstCall(cfg, labId, false)})
    ensures var s' := DoPublish(cfg, s, FirstCall(cfg, labId, false), true);
      Requested(cfg, labId, s', S0(cfg, labId), {}) && s'.calls == {FirstCall(cfg, labId, true)}
  {
    var call := FirstCall(cfg, labId, false);
    FirstChecks(cfg, labId, s.known);
    assert DoPublish(cfg, s, call, true).calls == {call.(published := true)};
  }

  lemma Published(cfg: Config, labId: string) returns (s: Sys)
    requires Stage(cfg, labId)
    ensures Reached(cfg, s) && Requested(cfg, labId, s, S0(cfg, labId), {}) && s.calls == {FirstCall(cfg, labId, true)}
  {
    var s0 := Prechecked(cfg, labId);
    AfterPublish(cfg, s0, FirstCall(cfg, labId, false));
    PublishState(cfg, labId, s0);
    s := DoPublish(cfg, s0, FirstCall(cfg, labId, false), true);
  }

  lemma Marked(cfg: Config, labId: string) returns (s: Sys)
    requires Stage(cfg, labId)
    ensures Reached(cfg, s) && Requested(cfg, labId, s, Early(cfg, labId), {("s", Early(cfg, labId))})
  {
    var call := FirstCall(cfg, labId, true);
    var s0 := Published(cfg, labId);
    AfterMark(cfg, s0, call);
    s := DoMark(cfg, s0, call);
  }

  // -- the engine passes it and the verdict is applied; both snapshots are in flight

  /** Two snapshots of one session such that the later one's current step is pending in the earlier one. */
  predicate Torn(early: SessionSteps, late: SessionSteps) {
    early != late && SameShape(late, early) && !CurrentNamed(early.(currentStep := late.currentStep))
  }

  lemma EarlyLateTorn(cfg: Config, labId: string)
    requires Stage(cfg, labId)
    ensures Torn(Early(cfg, labId), Late(cfg, labId))
  {
    var ids, ss := LabIds(cfg.labs[labId]), Early(cfg, labId).(currentStep := Late(cfg, labId).currentStep);
    EarlyIds(cfg, labId);
    PassFacts(cfg, labId, Early(cfg, labId));
    assert Ids(ss.steps) == ids;
    forall i | 0 <= i < |ss.steps| && ss.steps[i].stepId == ss.currentStep ensures ss.steps[i].status == Pending {
      assert ids[i] == ids[1];
      assert i == 1;
    }
  }

  predicate Answered(cfg: Config, labId: string, s: Sys, ss: SessionSteps, saves: set<(string, SessionSteps)>)
    requires labId in cfg.labs && Playable(cfg.labs[labId])
  {
    && s.cache == map[(0, "s") := ss] && s.loads == map[] && s.saves == saves
    && s.db == SaveTx(START.db, "s", S0(cfg, labId)) && s.results == [FirstVerdict(cfg, labId)]
  }

  lemma TurnState(cfg: Config, labId: string, s: Sys, ss: SessionSteps, saves: set<(string, SessionSteps)>)
    requires Stage(cfg, labId) && Requested(cfg, labId, s, ss, saves)
    ensures Answered(cfg, labId, DoEngineTurn(s, true, PASSING, true, true), ss, saves)
  {
  }

  lemma Judged(cfg: Config, labId: string) returns (s: Sys)
    requires Stage(cfg, labId)
    ensures Reached(cfg, s) && Answered(cfg, labId, s, Early(cfg, labId), {("s", Early(cfg, labId))})
  {
    var s0 := Marked(cfg, labId);
    AfterTurn(cfg, s0);
    TurnState(cfg, labId, s0, Early(cfg, labId), {("s", Early(cfg, labId))});
    s := DoEngineTurn(s0, true, PASSING, true, true);
  }

  lemma DeliverState(cfg: Config, labId: string, s: Sys, ss: SessionSteps, saves: set<(string, SessionSteps)>)
    requires Stage(cfg, labId) && Answered(cfg, labId, s, ss, saves) && Ids(ss.steps) == LabIds(cfg.labs[labId])
    ensures var s', late := DoDeliver(cfg, s, 0, 0), Judge(ss, FirstVerdict(cfg, labId));
      s'.cache == map[(0, "s") := late] && s'.loads == map[] && s'.saves == saves + {("s", late)} && s'.db == s.db
  {
    PassFacts(cfg, labId, ss);
    assert Judge(s.cache[(0, "s")], s.results[0]) == Judge(ss, FirstVerdict(cfg, labId));
  }

  predicate InFlight(s: Sys, early: SessionSteps, late: SessionSteps) {
    s.loads == map[] && s.saves == {("s", early), ("s", late)}
  }

  lemma Applied(cfg: Config, labId: string) returns (s: Sys)
    requires Stage(cfg, labId)
    ensures Reached(cfg, s) && InFlight(s, Early(cfg, labId), Late(cfg, labId)) && Fits(s.db, "s", Early(cfg, labId))
  {
    var s0 := Judged(cfg, labId);
    AfterDeliver(cfg, s0);
    s := DoDeliver(cfg, s0, 0, 0);
    EarlyIds(cfg, labId);
    DeliverState(cfg, labId, s0, Early(cfg, labId), {("s", Early(cfg, labId))});
    EarlyFits(cfg, labId);
  }

  lemma EarlyFits(cfg: Config, labId: string)
    requires Stage(cfg, labId)
    ensures Fits(SaveTx(START.db, "s", S0(cfg, labId)), "s", Early(cfg, labId))
  {
    ChangesKeepShape(S0(cfg, labId), 0, true, [], 0, 0);
    FitsNext(START.db, "s", S0(cfg, labId), Early(cfg, labId));
  }

  // -- the later snapshot commits, the process restarts and reads the header

  ghost predicate Stored(s: Sys, early: SessionSteps, late: SessionSteps) {
    && s.saves == {("s", early)} && Fits(s.db, "s", early)
    && "s" in s.db.headers && Load(s.db, "s") == Some(late)
  }

  /** Where saves may overtake each other, any one in flight may commit. */
  lemma CommitState(cfg: Config, s: Sys, ss: SessionSteps)
    requires cfg.overtaking && ("s", ss) in s.saves && Fits(s.db, "s", ss)
    ensures var s' := DoCommitSave(cfg, s, "s", ss);
      && s'.db == SaveTx(s.db, "s", ss) && Load(s'.db, "s") == Some(ss) && "s" in s'.db.headers
      && s'.saves == s.saves - {("s", ss)} && s'.loads == map r | r in s.loads :: SavedUnder(s.loads[r], "s")
  {
    SaveLoadRoundTrip(s.db, "s", ss);
  }

  lemma LateCommitted(cfg: Config, s0: Sys, early: SessionSteps, late: SessionSteps) returns (s: Sys)
    requires cfg.overtaking && Reached(cfg, s0) && InFlight(s0, early, late) && Fits(s0.db, "s", early)
      && Torn(early, late)
    ensures Reached(cfg, s) && Stored(s, early, late) && s.loads == map[]
  {
    AfterCommit(cfg, s0, late);
    s := DoCommitSave(cfg, s0, "s", late);
    FitsShape(s0.db, "s", early, late);
    CommitState(cfg, s0, late);
    FitsNext(s0.db, "s", late, early);
  }

  lemma HeaderRead(cfg: Config, s0: Sys, early: SessionSteps, late: SessionSteps) returns (s: Sys)
    requires cfg.hasDb && Reached(cfg, s0) && Stored(s0, early, late) && s0.loads == map[]
    ensures Reached(cfg, s) && Stored(s, early, late) && s.loads == map[0 := Loading("s", late, false, false)]
  {
    AfterRestart(cfg, s0);
    var s1 := DoRestartApi(s0, 0);
    AfterBegin(cfg, s1);
    s := DoBeginLoad(cfg, s1, 0, "s");
  }

  // -- the earlier snapshot overtakes it, and the steps are read

  lemma EarlyCommitted(cfg: Config, s0: Sys, early: SessionSteps, late: SessionSteps) returns (s: Sys)
    requires cfg.overtaking && Reached(cfg, s0) && Stored(s0, early, late)
      && s0.loads == map[0 := Loading("s", late, false, false)]
    ensures Reached(cfg, s) && Load(s.db, "s") == Some(early) && s.loads == map[0 := Loading("s", late, true, false)]
  {
    AfterCommit(cfg, s0, early);
    s := DoCommitSave(cfg, s0, "s", early);
    CommitState(cfg, s0, early);
  }

  lemma StepsRead(cfg: Config, s0: Sys, early: SessionSteps, late: SessionSteps) returns (s: Sys)
    requires cfg.tornBySave && Reached(cfg, s0) && Torn(early, late)
    requires Load(s0.db, "s") == Some(early) && s0.loads == map[0 := Loading("s", late, true, false)]
    ensures Reached(cfg, s) && (0, "s") in s.cache && !CurrentNamed(s.cache[(0, "s")])
  {
    AfterEnd(cfg, s0);
    s := DoEndLoad(cfg, s0, 0);
    SameCurrent(s.cache[(0, "s")], early.(currentStep := late.currentStep));
  }

  lemma SameCurrent(a: SessionSteps, b: SessionSteps)
    requires a.steps == b.steps && a.currentStep == b.currentStep
    ensures CurrentNamed(a) <==> CurrentNamed(b)
  {
  }

  lemma LosesCurrent(cfg: Config, labId: string) returns (s: Sys)
    requires Stage(cfg, labId) && cfg.tornBySave && cfg.overtaking
    ensures Reached(cfg, s) && (0, "s") in s.cache && !CurrentNamed(s.cache[(0, "s")])
  {
    var early, late := Early(cfg, labId), Late(cfg, labId);
    EarlyLateTorn(cfg, labId);
    s := Applied(cfg, labId);
    s := LateCommitted(cfg, s, early, late);
    s := HeaderRead(cfg, s, early, late);
    s := EarlyCommitted(cfg, s, early, late);
    s := StepsRead(cfg, s, early, late);
  }

  // ---------------------------------------- a run in which the rows go during a load

  lemma AfterDelete(cfg: Config, s: Sys)
    requires Reached(cfg, s)
    ensures Reached(cfg, DoDeleteRows(s, "s"))
  {
    Runs.ReachesNext(Machine(cfg), START, s, DeleteRows("s"));
  }

  lemma FreshLoad(cfg: Config, labId: string)
    requires Stage(cfg, labId)
    ensures Load(SaveTx(START.db, "s", S0(cfg, labId)), "s") == Some(S0(cfg, labId))
  {
    SaveLoadRoundTrip(START.db, "s", S0(cfg, labId));
  }

  lemma RestartState(s: Sys)
    requires s.cache.Keys == {(0, "s")} && s.loads == map[]
    ensures var s' := DoRestartApi(s, 0); s'.cache == map[] && s'.loads == map[] && s'.db == s.db && s'.saves == s.saves
  {
  }

  lemma BeginState(cfg: Config, labId: string, s: Sys)
    requires Stage(cfg, labId) && s.db == SaveTx(START.db, "s", S0(cfg, labId)) && s.cache == map[] && s.loads == map[]
    ensures DoBeginLoad(cfg, s, 0, "s") == s.(loads := map[0 := Loading("s", S0(cfg, labId), false, false)])
  {
    FreshLoad(cfg, labId);
  }

  /** A restarted replica has read the header of a session. */
  lemma HeaderOnly(cfg: Config, labId: string) returns (s: Sys)
    requires Stage(cfg, labId)
    ensures Reached(cfg, s) && s.loads == map[0 := Loading("s", S0(cfg, labId), false, false)]
  {
    s := Begun(cfg, labId);
    AfterRestart(cfg, s);
    RestartState(s);
    s := DoRestartApi(s, 0);
    AfterBegin(cfg, s);
    BeginState(cfg, labId, s);
    s := DoBeginLoad(cfg, s, 0, "s");
  }

  /** Its rows are deleted. */
  lemma RowsGone(cfg: Config, labId: string) returns (s: Sys)
    requires Stage(cfg, labId)
    ensures Reached(cfg, s) && "s" !in s.db.steps && s.loads == map[0 := Loading("s", S0(cfg, labId), false, true)]
  {
    s := HeaderOnly(cfg, labId);
    AfterDelete(cfg, s);
    s := DoDeleteRows(s, "s");
  }

  lemma LosesSteps(cfg: Config, labId: string) returns (s: Sys)
    requires Stage(cfg, labId) && cfg.tornByDelete
    ensures Reached(cfg, s) && (0, "s") in s.cache && s.cache[(0, "s")] == S0(cfg, labId).(steps := [])
  {
    s := RowsGone(cfg, labId);
    AfterEnd(cfg, s);
    var l := s.loads[0];
    assert ReadSteps(map[]) == [];
    s := DoEndLoad(cfg, s, 0);
    assert s.cache[(0, "s")] == Met(s.db, l);
  }

  // ------------------------------------------------------------- main results

  /** A run in which a load meets the header of one snapshot and the steps of an older one. */
  lemma TornLoadLosesCurrent(cfg: Config, labId: string) returns (steps: seq<Step>, ss: SessionSteps)
    requires Stage(cfg, labId) && cfg.tornBySave && cfg.overtaking
    ensures Holds(After(cfg, steps), "s", ss) && !CurrentNamed(ss)
  {
    var s := LosesCurrent(cfg, labId);
    steps :| Runs.After(Machine(cfg), START, steps) == s;
    ss := s.cache[(0, "s")];
  }

  /** A run in which a load meets the header of a session and no steps, since they were just deleted: the
      entry stays cached, and its current step names none of the steps it has. */
  lemma DeletedLoadLosesSteps(cfg: Config, labId: string) returns (steps: seq<Step>, ss: SessionSteps)
    requires Stage(cfg, labId) && cfg.tornByDelete
    ensures Holds(After(cfg, steps), "s", ss) && ss.labId == labId
      && ss.steps == [] && ss.currentStep == cfg.labs[labId][0].id
  {
    var s := LosesSteps(cfg, labId);
    steps :| Runs.After(Machine(cfg), START, steps) == s;
    ss := s.cache[(0, "s")];
    assert LabIds(cfg.labs[labId])[0] == cfg.labs[labId][0].id;
  }

  ghost predicate AlwaysWhole(cfg: Config) {
    forall steps: seq<Step>, sid, ss :: Holds(After(cfg, steps), sid, ss) ==> Whole(cfg, ss)
  }

  /** Every state a session has anywhere has all the steps of its lab, exactly if no delete commits between
      the two queries of a load. */
  lemma WholeIff(cfg: Config, labId: string)
    requires Stage(cfg, labId)
    ensures AlwaysWhole(cfg) <==> !cfg.tornByDelete
  {
    if cfg.tornByDelete {
      var steps, ss := DeletedLoadLosesSteps(cfg, labId);
      assert |Ids(ss.steps)| != |LabIds(cfg.labs[labId])|;
      assert !Whole(cfg, ss);
    } else {
      forall steps: seq<Step>, sid, ss | Holds(After(cfg, steps), sid, ss) ensures Whole(cfg, ss) {
        HeldGood(cfg, steps, sid, ss);
      }
    }
  }

  /** The session has its lab's steps, and unless the lab has none, its current step is an open one of them. */
  predicate Named(cfg: Config, ss: SessionSteps) {
    Whole(cfg, ss) && CurrentNamed(ss)
  }

  ghost predicate CurrentAlwaysNamed(cfg: Config) {
    forall steps: seq<Step>, sid, ss :: Holds(After(cfg, steps), sid, ss) ==> Named(cfg, ss)
  }

  /** The current step always names a step of the session that is not pending, exactly if no delete commits
      between the two queries of a load, and no save does either or saves do not overtake each other. */
  lemma CurrentNamedIff(cfg: Config, labId: string)
    requires Stage(cfg, labId)
    ensures CurrentAlwaysNamed(cfg) <==> !cfg.tornByDelete && (!cfg.tornBySave || !cfg.overtaking)
  {
    WholeIff(cfg, labId);
    if cfg.tornByDelete {
      assert CurrentAlwaysNamed(cfg) ==> AlwaysWhole(cfg);
    } else if Orderly(cfg) {
      forall steps: seq<Step>, sid, ss | Holds(After(cfg, steps), sid, ss) ensures Named(cfg, ss) {
        HeldGood(cfg, steps, sid, ss);
      }
    } else {
      var steps, ss := TornLoadLosesCurrent(cfg, labId);
      assert !Named(cfg, ss);
    }
  }
}
