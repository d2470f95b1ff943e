/** The whole validation protocol: any number of API replicas with their caches, the progress tables,
    the saves still on their way, the requests topic, the engine and the results topic. Every critical
    section, transaction and message is one step; a run is any sequence of steps, so prechecks,
    publishes, marks, deliveries (again, late, out of order), restarts and lost saves interleave freely. */
module ValidationProtocol {
  import opened Ordering
  import opened Progress
  import opened ProgressStore
  import opened StepStores
  import opened Engine
  import Runs

  datatype LabStep = LabStep(id: int, checks: seq<Check>)

  /** `tornBySave`, `tornByDelete`: a save, a delete of a session may commit between the two queries of a
      load of it. `overtaking`: a save may commit over rows in which a step is open that its snapshot has
      pending, or after the rows were deleted. */
  datatype Config = Config(
    labs: map<string, seq<LabStep>>,
    hasDb: bool,
    validator: bool,
    release: bool,
    tornBySave: bool,
    tornByDelete: bool,
    overtaking: bool)

  datatype Identity = Identity(labId: string, userId: string)

  type Identities = map<string, Identity>

  /** Steps, each of one session. */
  type Grants = set<(string, int)>

  type Snapshots = set<(string, SessionSteps)>

  /** A ValidateStep request after its order check. */
  datatype Call = Call(rep: nat, sid: string, stepId: int, idx: int, published: bool)

  /** A replica holding its mutex between the header query and the steps query. `seen` is what the tables
      held at the first; only its header has been read. `saved`, `deleted`: what has committed since. */
  datatype Loading = Loading(sid: string, seen: SessionSteps, saved: bool, deleted: bool)

  datatype Finished = Finished(sid: string, userId: string, labId: string)

  /** One execution of a request's checks by the engine. */
  datatype Execution = Execution(sid: string, stepId: int, checks: seq<Check>, outcomes: seq<CheckOutcome>)

  /** `known`, `executions`, `granted` and `had` are history: the identity each session id was created
      with, every execution, every step that ever got a passing verdict, every state ever stored. */
  datatype Sys = Sys(
    known: Identities,
    cache: map<(nat, string), SessionSteps>,
    loads: map<nat, Loading>,
    db: Db,
    saves: Snapshots,
    calls: set<Call>,
    requests: seq<Request>,
    position: nat,
    committed: nat,
    results: seq<Verdict>,
    executions: seq<Execution>,
    granted: Grants,
    finishing: set<Finished>,
    completions: map<(string, string), string>,
    had: Snapshots)

  const START := Sys(map[], map[], map[], Db(map[], map[]), {}, {}, [], 0, 0, [], [], {}, {}, map[], {})

  function LabIds(lab: seq<LabStep>): (ids: seq<int>)
    ensures |ids| == |lab| && forall i :: 0 <= i < |ids| ==> ids[i] == lab[i].id
  {
    seq(|lab|, i requires 0 <= i < |lab| => lab[i].id)
  }

  predicate WellFormed(cfg: Config) {
    forall lab :: lab in cfg.labs ==> Increasing(LabIds(cfg.labs[lab]))
  }

  // ------------------------------------------------------------------ steps

  datatype Step =
    | Create(rep: nat, sid: string, labId: string, userId: string, cached: bool)
    | Recover(rep: nat, sid: string)
    | BeginLoad(rep: nat, sid: string)
    | EndLoad(rep: nat)
    | CommitSave(sid: string, ss: SessionSteps)
    | DropSave(sid: string, ss: SessionSteps)
    | DeleteRows(sid: string)
    | Evict(rep: nat, sid: string)
    | Precheck(rep: nat, sid: string, stepId: int)
    | Publish(call: Call, acked: bool)
    | Mark(call: Call)
    | MockPass(call: Call)
    | DropCall(call: Call)
    | Hint(rep: nat, sid: string, stepId: int, level: int)
    | EngineTurn(execOk: bool, vm: Vm, written: bool, acked: bool)
    | EngineCommit(offset: nat)
    | EngineRestart
    | Deliver(rep: nat, k: nat)
    | RecordCompletion(done: Finished, ok: bool)
    | RestartApi(rep: nat)

  predicate Available(s: Sys, rep: nat, sid: string) {
    (rep, sid) in s.cache && rep !in s.loads
  }

  function InitialFor(cfg: Config, id: Identity): SessionSteps
    requires id.labId in cfg.labs
  {
    Initial(id.labId, id.userId, LabIds(cfg.labs[id.labId]))
  }

  /** A dirty critical section: the entry changes, and its snapshot leaves for the tables. */
  function Write(cfg: Config, s: Sys, rep: nat, sid: string, ss: SessionSteps): Sys {
    s.(cache := s.cache[(rep, sid) := ss],
       saves := if cfg.hasDb then s.saves + {(sid, ss)} else s.saves,
       had := s.had + {(sid, ss)})
  }

  function SavedUnder(l: Loading, sid: string): Loading {
    if l.sid == sid then l.(saved := true) else l
  }

  function DeletedUnder(l: Loading, sid: string): Loading {
    if l.sid == sid then l.(deleted := true) else l
  }

  function DoCreate(cfg: Config, s: Sys, rep: nat, sid: string, id: Identity, cached: bool): Sys {
    if sid in s.known || id.labId !in cfg.labs || rep in s.loads then s
    else
      var ss := InitialFor(cfg, id);
      s.(known := s.known[sid := id],
         db := if cfg.hasDb then SaveTx(s.db, sid, ss) else s.db,
         cache := if cfg.hasDb && !cached then s.cache else s.cache[(rep, sid) := ss],
         had := s.had + {(sid, ss)})
  }

  /** Re-initialisation from the provider's session, only without a database. */
  function DoRecover(cfg: Config, s: Sys, rep: nat, sid: string): Sys {
    if cfg.hasDb || sid !in s.known || s.known[sid].labId !in cfg.labs || rep in s.loads then s
    else Write(cfg, s, rep, sid, InitialFor(cfg, s.known[sid]))
  }

  ghost function DoBeginLoad(cfg: Config, s: Sys, rep: nat, sid: string): Sys {
    if !cfg.hasDb || (rep, sid) in s.cache || rep in s.loads || sid !in s.db.headers then s
    else s.(loads := s.loads[rep := Loading(sid, Load(s.db, sid).value, false, false)])
  }

  /** The header read first, with the steps there are now. */
  ghost function Met(db: Db, l: Loading): SessionSteps {
    l.seen.(steps := ReadSteps(RowsOf(db, l.sid)))
  }

  predicate MayEnd(cfg: Config, l: Loading) {
    (l.saved ==> cfg.tornBySave) && (l.deleted ==> cfg.tornByDelete)
  }

  ghost function DoEndLoad(cfg: Config, s: Sys, rep: nat): Sys {
    if rep !in s.loads || !MayEnd(cfg, s.loads[rep]) then s
    else
      var l := s.loads[rep];
      s.(cache := s.cache[(rep, l.sid) := Met(s.db, l)], loads := s.loads - {rep})
  }

  /** The snapshot is not older than the rows it meets. */
  ghost predicate InOrder(db: Db, sid: string, ss: SessionSteps) {
    sid in db.headers && NoneCloses(Load(db, sid).value, ss)
  }

  ghost function DoCommitSave(cfg: Config, s: Sys, sid: string, ss: SessionSteps): Sys {
    if (sid, ss) !in s.saves || (!cfg.overtaking && !InOrder(s.db, sid, ss)) then s
    else
      s.(db := SaveTx(s.db, sid, ss), saves := s.saves - {(sid, ss)},
         loads := map r | r in s.loads :: SavedUnder(s.loads[r], sid))
  }

  function DoDeleteRows(s: Sys, sid: string): Sys {
    s.(db := DeleteTx(s.db, sid), loads := map r | r in s.loads :: DeletedUnder(s.loads[r], sid))
  }

  function DoPrecheck(s: Sys, rep: nat, sid: string, stepId: int): Sys {
    if !Available(s, rep, sid) then s
    else
      var steps := s.cache[(rep, sid)].steps;
      var idx := IndexOf(Ids(steps), stepId);
      if idx == -1 || !EarlierPassed(steps, idx) then s
      else s.(calls := s.calls + {Call(rep, sid, stepId, idx, false)})
  }

  function CheckList(cfg: Config, known: Identities, sid: string, stepId: int): seq<Check> {
    if sid !in known || known[sid].labId !in cfg.labs then []
    else
      var lab := cfg.labs[known[sid].labId];
      var idx := IndexOf(LabIds(lab), stepId);
      if idx == -1 then [] else lab[idx].checks
  }

  function DoPublish(cfg: Config, s: Sys, call: Call, acked: bool): Sys {
    var checks := CheckList(cfg, s.known, call.sid, call.stepId);
    if call !in s.calls || call.published || !cfg.validator || checks == [] then s
    else s.(requests := s.requests + [Request(call.sid, call.stepId, checks)],
            calls := s.calls - {call} + (if acked then {call.(published := true)} else {}))
  }

  function DoMark(cfg: Config, s: Sys, call: Call): Sys {
    if call !in s.calls || !call.published || !Available(s, call.rep, call.sid) then s
    else
      var s' := s.(calls := s.calls - {call});
      var ss := s.cache[(call.rep, call.sid)];
      if 0 <= call.idx < |ss.steps| then Write(cfg, s', call.rep, call.sid, WithValidating(ss, call.idx)) else s'
  }

  /** Where a completed lab is noted for its completion row. */
  function Finish(s: Sys, sid: string, ss: SessionSteps): Sys {
    if AllPassed(ss) then s.(finishing := s.finishing + {Finished(sid, ss.userId, ss.labId)}) else s
  }

  function MockOn(cfg: Config, s: Sys, rep: nat, sid: string, stepId: int, idx: nat): Sys
    requires (rep, sid) in s.cache
  {
    var ss' := WithMockPass(s.cache[(rep, sid)], idx);
    Finish(Write(cfg, s.(granted := s.granted + {(sid, stepId)}), rep, sid, ss'), sid, ss')
  }

  /** Without a validator, and outside release mode, a step passes unchecked. */
  function DoMockPass(cfg: Config, s: Sys, call: Call): Sys {
    if call !in s.calls || call.published || cfg.validator || cfg.release || !Available(s, call.rep, call.sid) then s
    else
      var s' := s.(calls := s.calls - {call});
      if 0 <= call.idx < |s.cache[(call.rep, call.sid)].steps|
      then MockOn(cfg, s', call.rep, call.sid, call.stepId, call.idx)
      else s'
  }

  function DoHint(cfg: Config, s: Sys, rep: nat, sid: string, stepId: int, level: int): Sys {
    if !Available(s, rep, sid) || WithHint(s.cache[(rep, sid)], stepId, level) == s.cache[(rep, sid)] then s
    else Write(cfg, s, rep, sid, WithHint(s.cache[(rep, sid)], stepId, level))
  }

  function DoEngineTurn(s: Sys, execOk: bool, vm: Vm, written: bool, acked: bool): Sys {
    if s.position >= |s.requests| then s
    else
      var req := s.requests[s.position];
      var v := VerdictOf(req, execOk, vm);
      var ran :=
        if ValidRequest(req) && execOk
        then [Execution(req.sid, req.stepId, req.checks, Outcomes(req.checks, vm))]
        else [];
      s.(executions := s.executions + ran,
         results := if written || acked then s.results + [v] else s.results,
         granted := if (written || acked) && v.passed then s.granted + {(v.sid, v.stepId)} else s.granted,
         position := if acked then s.position + 1 else s.committed)
  }

  function DoDeliver(cfg: Config, s: Sys, rep: nat, k: nat): Sys {
    if k >= |s.results| || !Available(s, rep, s.results[k].sid) then s
    else
      var v := s.results[k];
      var ss := s.cache[(rep, v.sid)];
      if v.stepId !in Ids(ss.steps) then s
      else
        var ss' := Judge(ss, v);
        var s' := Write(cfg, s, rep, v.sid, ss');
        if v.passed then Finish(s', v.sid, ss') else s'
  }

  function DoRecordCompletion(cfg: Config, s: Sys, d: Finished, ok: bool): Sys {
    if d !in s.finishing then s
    else
      var s' := s.(finishing := s.finishing - {d});
      if !ok || !cfg.hasDb || d.userId == "" || d.labId == "" || (d.userId, d.labId) in s.completions then s'
      else s'.(completions := s.completions[(d.userId, d.labId) := d.sid])
  }

  function DoRestartApi(s: Sys, rep: nat): Sys {
    s.(cache := map k | k in s.cache && k.0 != rep :: s.cache[k],
       loads := s.loads - {rep},
       calls := set c | c in s.calls && c.rep != rep)
  }

  ghost function Exec(cfg: Config, s: Sys, step: Step): Sys {
    match step
    case Create(rep, sid, labId, userId, cached) => DoCreate(cfg, s, rep, sid, Identity(labId, userId), cached)
    case Recover(rep, sid) => DoRecover(cfg, s, rep, sid)
    case BeginLoad(rep, sid) => DoBeginLoad(cfg, s, rep, sid)
    case EndLoad(rep) => DoEndLoad(cfg, s, rep)
    case CommitSave(sid, ss) => DoCommitSave(cfg, s, sid, ss)
    case DropSave(sid, ss) => s.(saves := s.saves - {(sid, ss)})
    case DeleteRows(sid) => DoDeleteRows(s, sid)
    case Evict(rep, sid) => if rep in s.loads then s else s.(cache := s.cache - {(rep, sid)})
    case Precheck(rep, sid, stepId) => DoPrecheck(s, rep, sid, stepId)
    case Publish(call, acked) => DoPublish(cfg, s, call, acked)
    case Mark(call) => DoMark(cfg, s, call)
    case MockPass(call) => DoMockPass(cfg, s, call)
    case DropCall(call) => s.(calls := s.calls - {call})
    case Hint(rep, sid, stepId, level) => DoHint(cfg, s, rep, sid, stepId, level)
    case EngineTurn(execOk, vm, written, acked) => DoEngineTurn(s, execOk, vm, written, acked)
    case EngineCommit(offset) => if s.committed <= offset <= s.position then s.(committed := offset) else s
    case EngineRestart => s.(position := s.committed)
    case Deliver(rep, k) => DoDeliver(cfg, s, rep, k)
    case RecordCompletion(done, ok) => DoRecordCompletion(cfg, s, done, ok)
    case RestartApi(rep) => DoRestartApi(s, rep)
  }

  ghost function Machine(cfg: Config): (Sys, Step) -> Sys {
    (s, step) => Exec(cfg, s, step)
  }

  /** The state after a run; a step that is not possible changes nothing. */
  ghost function After(cfg: Config, steps: seq<Step>): Sys {
    Runs.After(Machine(cfg), START, steps)
  }

  ghost predicate Reached(cfg: Config, s: Sys) {
    Runs.Reaches(Machine(cfg), START, s)
  }

  // -------------------------------------------------------------- invariant

  /** Steps that have been opened only after every earlier one was granted a pass. */
  predicate StepsSound(granted: Grants, sid: string, steps: seq<StepState>) {
    forall i :: 0 <= i < |steps| ==>
      && (steps[i].status != Pending ==> forall j :: 0 <= j < i ==> (sid, steps[j].stepId) in granted)
      && (steps[i].status == Passed ==> (sid, steps[i].stepId) in granted)
  }

  predicate Owned(cfg: Config, known: Identities, sid: string, ss: SessionSteps) {
    && sid in known && known[sid].labId in cfg.labs
    && ss.labId == known[sid].labId && ss.userId == known[sid].userId
  }

  predicate Whole(cfg: Config, ss: SessionSteps) {
    ss.labId in cfg.labs && Ids(ss.steps) == LabIds(cfg.labs[ss.labId])
  }

  /** No load meets rows older than its header. */
  predicate Orderly(cfg: Config) {
    !cfg.tornBySave || !cfg.overtaking
  }

  /** What is true of every state a session has anywhere. A load torn by a delete sees no steps at all. */
  predicate Good(cfg: Config, known: Identities, granted: Grants, sid: string, ss: SessionSteps) {
    && Owned(cfg, known, sid, ss)
    && (ss.steps == [] || Whole(cfg, ss))
    && (!cfg.tornByDelete ==> Whole(cfg, ss))
    && StepsSound(granted, sid, ss.steps)
    && (Orderly(cfg) ==> CurrentNamed(ss))
  }

  /** A step may be judged once every earlier step of its session was granted a pass. */
  predicate MayJudge(cfg: Config, known: Identities, granted: Grants, sid: string, stepId: int) {
    && sid in known && known[sid].labId in cfg.labs
    && var ids := LabIds(cfg.labs[known[sid].labId]);
       stepId in ids && forall j :: 0 <= j < IndexOf(ids, stepId) ==> (sid, ids[j]) in granted
  }

  predicate Proves(cfg: Config, known: Identities, x: Execution, sid: string, stepId: int) {
    && x.sid == sid && x.stepId == stepId
    && |x.checks| > 0 && x.checks == CheckList(cfg, known, sid, stepId)
    && |x.outcomes| == |x.checks| && AllOk(x.outcomes)
  }

  ghost predicate Proved(cfg: Config, known: Identities, xs: seq<Execution>, sid: string, stepId: int) {
    exists k :: 0 <= k < |xs| && Proves(cfg, known, xs[k], sid, stepId)
  }

  /** Every step of a session's lab was granted a pass, and there is at least one. */
  predicate AllGranted(cfg: Config, known: Identities, granted: Grants, sid: string) {
    && sid in known && known[sid].labId in cfg.labs
    && cfg.labs[known[sid].labId] != []
    && forall i :: 0 <= i < |cfg.labs[known[sid].labId]| ==> (sid, cfg.labs[known[sid].labId][i].id) in granted
  }

  predicate CacheOk(cfg: Config, known: Identities, granted: Grants, cache: map<(nat, string), SessionSteps>) {
    forall k :: k in cache ==> Good(cfg, known, granted, k.1, cache[k])
  }

  predicate SavesOk(cfg: Config, known: Identities, granted: Grants, saves: Snapshots, had: Snapshots) {
    forall x :: x in saves ==> Good(cfg, known, granted, x.0, x.1) && Whole(cfg, x.1) && x in had
  }

  ghost predicate RowOk(cfg: Config, known: Identities, granted: Grants, db: Db, had: Snapshots, sid: string)
    requires sid in db.headers
  {
    var ss := Load(db, sid).value;
    Good(cfg, known, granted, sid, ss) && Whole(cfg, ss) && (sid, ss) in had
  }

  ghost predicate DbOk(cfg: Config, known: Identities, granted: Grants, db: Db, had: Snapshots) {
    && db.headers.Keys == db.steps.Keys
    && forall sid :: sid in db.headers ==> RowOk(cfg, known, granted, db, had, sid)
  }

  /** What a load has read is good, its session has rows unless they were deleted since, and as long as no
      older snapshot can come in between, the rows it will meet close no step of it. */
  ghost predicate LoadOk(cfg: Config, known: Identities, granted: Grants, db: Db, l: Loading) {
    && Good(cfg, known, granted, l.sid, l.seen) && Whole(cfg, l.seen)
    && (!l.deleted ==> l.sid in db.headers)
    && (l.sid in db.headers && (l.saved ==> !cfg.overtaking) ==> NoneCloses(l.seen, Load(db, l.sid).value))
  }

  ghost predicate LoadsOk(cfg: Config, known: Identities, granted: Grants, db: Db, loads: map<nat, Loading>) {
    forall r :: r in loads ==> LoadOk(cfg, known, granted, db, loads[r])
  }

  predicate CallsOk(cfg: Config, known: Identities, granted: Grants, calls: set<Call>) {
    forall c :: c in calls ==>
      MayJudge(cfg, known, granted, c.sid, c.stepId) && c.idx == IndexOf(LabIds(cfg.labs[known[c.sid].labId]), c.stepId)
  }

  predicate RequestsOk(cfg: Config, known: Identities, granted: Grants, requests: seq<Request>) {
    forall k :: 0 <= k < |requests| ==>
      && MayJudge(cfg, known, granted, requests[k].sid, requests[k].stepId)
      && requests[k].checks == CheckList(cfg, known, requests[k].sid, requests[k].stepId)
  }

  predicate ResultsOk(cfg: Config, known: Identities, granted: Grants, results: seq<Verdict>) {
    forall k :: 0 <= k < |results| ==>
      && MayJudge(cfg, known, granted, results[k].sid, results[k].stepId)
      && (results[k].passed ==> (results[k].sid, results[k].stepId) in granted)
  }

  ghost predicate GrantsOk(cfg: Config, known: Identities, granted: Grants, xs: seq<Execution>) {
    && (forall g :: g in granted ==> g.0 in known)
    && (cfg.validator ==> forall g :: g in granted ==> Proved(cfg, known, xs, g.0, g.1))
  }

  predicate FinishedOk(cfg: Config, known: Identities, granted: Grants, d: Finished) {
    AllGranted(cfg, known, granted, d.sid) && known[d.sid] == Identity(d.labId, d.userId)
  }

  predicate DonesOk(
      cfg: Config, known: Identities, granted: Grants, finishing: set<Finished>,
      completions: map<(string, string), string>) {
    && (forall d :: d in finishing ==> FinishedOk(cfg, known, granted, d))
    && (forall k :: k in completions ==> FinishedOk(cfg, known, granted, Finished(completions[k], k.0, k.1)))
  }

  ghost predicate Inv(cfg: Config, s: Sys) {
    && CacheOk(cfg, s.known, s.granted, s.cache)
    && SavesOk(cfg, s.known, s.granted, s.saves, s.had)
    && DbOk(cfg, s.known, s.granted, s.db, s.had)
    && LoadsOk(cfg, s.known, s.granted, s.db, s.loads)
    && CallsOk(cfg, s.known, s.granted, s.calls)
    && RequestsOk(cfg, s.known, s.granted, s.requests)
    && ResultsOk(cfg, s.known, s.granted, s.results)
    && GrantsOk(cfg, s.known, s.granted, s.executions)
    && DonesOk(cfg, s.known, s.granted, s.finishing, s.completions)
    && s.committed <= s.position <= |s.requests|
  }
}
