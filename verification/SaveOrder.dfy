/** Runs of the validation protocol in which one replica's saves of a session commit in the order its critical
    sections made them (apps/api/internal/api/handlers/progress.go). */
module SaveOrder {
  import opened Options
  import opened Progress
  import opened ProgressStore
  import opened StepStores
  import opened Engine
  import opened ValidationProtocol
  import opened ValidationSafety
  import opened CurrentStep
  import Runs

  type Numbers = map<(string, SessionSteps), nat>

  /** `made`: the saves on their way, numbered in the order they were made. */
  datatype Queued = Queued(sys: Sys, made: Numbers, next: nat)

  const NOTHING := Queued(START, map[], 0)

  predicate OneReplica(step: Step) {
    match step
    case Create(rep, _, _, _, _) => rep == 0
    case Recover(rep, _) => rep == 0
    case BeginLoad(rep, _) => rep == 0
    case EndLoad(rep) => rep == 0
    case Evict(rep, _) => rep == 0
    case Precheck(rep, _, _) => rep == 0
    case Hint(rep, _, _, _) => rep == 0
    case Deliver(rep, _) => rep == 0
    case RestartApi(rep) => rep == 0
    case _ => true
  }

  predicate First(made: Numbers, sid: string, ss: SessionSteps) {
    (sid, ss) in made && forall x :: x in made && x.0 == sid ==> made[(sid, ss)] <= made[x]
  }

  predicate Unsaved(made: Numbers, sid: string) {
    exists x :: x in made && x.0 == sid
  }

  /** One replica; a save commits after the earlier ones of its session, and before the session's rows are
      deleted; no load is torn by a delete; with `waits`, a load ends only when the session has no save on
      its way. */
  predicate InTurn(waits: bool, q: Queued, step: Step) {
    && OneReplica(step)
    && match step
       case CommitSave(sid, ss) => First(q.made, sid, ss) && sid in q.sys.db.headers
       case EndLoad(rep) =>
         rep in q.sys.loads ==>
           !q.sys.loads[rep].deleted && (waits ==> !Unsaved(q.made, q.sys.loads[rep].sid))
       case _ => true
  }

  function Numbered(made: Numbers, next: nat, saves: Snapshots): Numbers {
    map x | x in saves :: if x in made then made[x] else next
  }

  function Moved(q: Queued, s: Sys): Queued {
    Queued(s, Numbered(q.made, q.next, s.saves), q.next + 1)
  }

  ghost function Turn(cfg: Config, waits: bool, q: Queued, step: Step): Queued {
    if InTurn(waits, q, step) then Moved(q, Exec(cfg, q.sys, step)) else q
  }

  ghost function TurnMachine(cfg: Config, waits: bool): (Queued, Step) -> Queued {
    (q, step) => Turn(cfg, waits, q, step)
  }

  // ------------------------------------------------- rows, saves, entry: only growing

  predicate InLine(made: Numbers, next: nat) {
    && (forall x :: x in made ==> made[x] < next)
    && (forall x, y :: x in made && y in made && x.0 == y.0 && made[x] <= made[y] ==> NoneCloses(x.1, y.1))
  }

  /** The rows of the session, if it has any, have no step open that `ss` has pending. */
  ghost predicate RowsBehind(db: Db, sid: string, ss: SessionSteps) {
    sid in db.headers ==> NoneCloses(Load(db, sid).value, ss)
  }

  predicate SavesBehind(made: Numbers, sid: string, ss: SessionSteps) {
    forall x :: x in made && x.0 == sid ==> NoneCloses(x.1, ss)
  }

  ghost predicate SavesAhead(db: Db, made: Numbers) {
    forall x :: x in made ==> RowsBehind(db, x.0, x.1)
  }

  type Cache = map<(nat, string), SessionSteps>

  ghost predicate EntriesAhead(db: Db, made: Numbers, cache: Cache) {
    forall k :: k in cache ==> k.0 == 0 && RowsBehind(db, k.1, cache[k]) && SavesBehind(made, k.1, cache[k])
  }

  /** The rows of a session, its saves in the order they were made, and the cached entry: none closes a step
      that one before it has open. */
  ghost predicate Chain(cfg: Config, q: Queued) {
    && q.made.Keys == q.sys.saves
    && InLine(q.made, q.next)
    && SavesAhead(q.sys.db, q.made)
    && EntriesAhead(q.sys.db, q.made, q.sys.cache)
    && (cfg.hasDb || (q.sys.db == START.db && q.sys.saves == {}))
  }

  lemma FewerInLine(made: Numbers, next: nat, saves: Snapshots)
    requires InLine(made, next) && saves <= made.Keys
    ensures InLine(Numbered(made, next, saves), next + 1)
  {
  }

  /** Nothing new is cached, saved or stored. */
  predicate Quiet(s: Sys, s': Sys) {
    && s'.db == s.db && s'.saves <= s.saves
    && forall k :: k in s'.cache ==> k in s.cache && s'.cache[k] == s.cache[k]
  }

  lemma QuietKeeps(cfg: Config, q: Queued, s: Sys)
    requires Chain(cfg, q) && Quiet(q.sys, s)
    ensures Chain(cfg, Moved(q, s))
  {
    FewerInLine(q.made, q.next, s.saves);
  }

  /** A critical section stores a state that closes nothing of the cached one. */
  predicate Stores(cfg: Config, s: Sys, s': Sys, sid: string, ss: SessionSteps) {
    && (0, sid) in s.cache && NoneCloses(s.cache[(0, sid)], ss)
    && s'.cache == s.cache[(0, sid) := ss] && s'.db == s.db
    && s'.saves == (if cfg.hasDb then s.saves + {(sid, ss)} else s.saves)
  }

  lemma Behind(db: Db, made: Numbers, sid: string, entry: SessionSteps, ss: SessionSteps)
    requires RowsBehind(db, sid, entry) && SavesBehind(made, sid, entry) && NoneCloses(entry, ss)
    ensures RowsBehind(db, sid, ss) && SavesBehind(made, sid, ss)
  {
    if sid in db.headers { ClosesTransitively(Load(db, sid).value, entry, ss); }
  }

  lemma MoreInLine(made: Numbers, next: nat, sid: string, ss: SessionSteps)
    requires InLine(made, next) && SavesBehind(made, sid, ss)
    ensures InLine(Numbered(made, next, made.Keys + {(sid, ss)}), next + 1)
  {
    var made' := Numbered(made, next, made.Keys + {(sid, ss)});
    forall x, y | x in made' && y in made' && x.0 == y.0 && made'[x] <= made'[y] ensures NoneCloses(x.1, y.1) {
      if x in made && y in made {
        assert NoneCloses(x.1, y.1);
      } else if x in made {
        assert y == (sid, ss);
      }
    }
  }

  lemma EntryPut(db: Db, made: Numbers, cache: Cache, sid: string, ss: SessionSteps)
    requires EntriesAhead(db, made, cache) && RowsBehind(db, sid, ss) && SavesBehind(made, sid, ss)
    ensures EntriesAhead(db, made, cache[(0, sid) := ss])
  {
  }

  lemma EntriesMore(db: Db, made: Numbers, made': Numbers, cache: Cache, sid: string)
    requires EntriesAhead(db, made, cache) && (0, sid) in cache
    requires made'.Keys == made.Keys + {(sid, cache[(0, sid)])}
    ensures EntriesAhead(db, made', cache)
  {
    forall k | k in cache ensures SavesBehind(made', k.1, cache[k]) {
      assert k == (0, k.1) && SavesBehind(made, k.1, cache[k]);
    }
  }

  /** The tables or the cache change while the saves stay. */
  lemma SavesStay(cfg: Config, q: Queued, s: Sys)
    requires Chain(cfg, q) && s.saves == q.sys.saves && SavesAhead(s.db, q.made) && EntriesAhead(s.db, q.made, s.cache)
    requires cfg.hasDb || s.db == START.db
    ensures Chain(cfg, Moved(q, s))
  {
    FewerInLine(q.made, q.next, s.saves);
    assert Numbered(q.made, q.next, s.saves) == q.made;
  }

  lemma SaveMore(cfg: Config, q: Queued, s: Sys, sid: string, ss: SessionSteps)
    requires Chain(cfg, q) && cfg.hasDb && s.db == q.sys.db && s.saves == q.sys.saves + {(sid, ss)}
    requires RowsBehind(s.db, sid, ss) && SavesBehind(q.made, sid, ss)
    requires EntriesAhead(s.db, q.made, s.cache) && (0, sid) in s.cache && s.cache[(0, sid)] == ss
    ensures Chain(cfg, Moved(q, s))
  {
    MoreInLine(q.made, q.next, sid, ss);
    EntriesMore(s.db, q.made, Moved(q, s).made, s.cache, sid);
  }

  lemma StoreKeeps(cfg: Config, q: Queued, s: Sys, sid: string, ss: SessionSteps)
    requires Chain(cfg, q) && Stores(cfg, q.sys, s, sid, ss)
    ensures Chain(cfg, Moved(q, s))
  {
    Behind(q.sys.db, q.made, sid, q.sys.cache[(0, sid)], ss);
    EntryPut(q.sys.db, q.made, q.sys.cache, sid, ss);
    if cfg.hasDb { SaveMore(cfg, q, s, sid, ss); } else { SavesStay(cfg, q, s); }
  }

  // ------------------------------------------------------------------ steps of the tables

  lemma RowsSame(db: Db, db': Db, made: Numbers, cache: Cache)
    requires SavesAhead(db, made) && EntriesAhead(db, made, cache)
    requires forall x :: x in made && x.0 in db'.headers ==> Load(db', x.0) == Load(db, x.0)
    requires forall k :: k in cache && k.1 in db'.headers ==> Load(db', k.1) == Load(db, k.1)
    ensures SavesAhead(db', made) && EntriesAhead(db', made, cache)
  {
    forall x | x in made ensures RowsBehind(db', x.0, x.1) { assert RowsBehind(db, x.0, x.1); }
    forall k | k in cache ensures RowsBehind(db', k.1, cache[k]) { assert RowsBehind(db, k.1, cache[k]); }
  }

  lemma UnknownNotSaving(cfg: Config, s: Sys, sid: string)
    requires Inv(cfg, s) && sid !in s.known
    ensures (forall x :: x in s.saves ==> x.0 != sid) && (forall k :: k in s.cache ==> k.1 != sid)
  {
  }

  lemma CreatedRows(cfg: Config, s: Sys, sid: string, id: Identity)
    requires WellFormed(cfg) && Inv(cfg, s) && sid !in s.known && id.labId in cfg.labs
    ensures var db' := SaveTx(s.db, sid, InitialFor(cfg, id));
      && Load(db', sid) == Some(InitialFor(cfg, id))
      && (forall other :: other != sid ==> Load(db', other) == Load(s.db, other))
  {
    var ss := InitialFor(cfg, id);
    NewSessionKeeps(cfg, s, sid, id);
    SavedRow(cfg, s.known[sid := id], s.granted, s.db, s.had + {(sid, ss)}, sid, ss);
    forall other | other != sid ensures Load(SaveTx(s.db, sid, ss), other) == Load(s.db, other) {
      SaveElsewhere(s.db, sid, ss, other);
    }
  }

  lemma CreateChain(cfg: Config, q: Queued, sid: string, id: Identity, cached: bool)
    requires WellFormed(cfg) && Inv(cfg, q.sys) && Chain(cfg, q)
    ensures Chain(cfg, Moved(q, DoCreate(cfg, q.sys, 0, sid, id, cached)))
  {
    var s, s' := q.sys, DoCreate(cfg, q.sys, 0, sid, id, cached);
    if sid in s.known || id.labId !in cfg.labs || 0 in s.loads {
      QuietKeeps(cfg, q, s');
    } else {
      UnknownNotSaving(cfg, s, sid);
      CreatedRows(cfg, s, sid, id);
      RowsSame(s.db, s'.db, q.made, s.cache);
      EntryPut(s'.db, q.made, s.cache, sid, InitialFor(cfg, id));
      SavesStay(cfg, q, s');
    }
  }

  lemma EndLoadChain(cfg: Config, q: Queued)
    requires Chain(cfg, q) && InTurn(true, q, EndLoad(0))
    ensures Chain(cfg, Moved(q, DoEndLoad(cfg, q.sys, 0)))
  {
    var s, s' := q.sys, DoEndLoad(cfg, q.sys, 0);
    if 0 in s.loads && MayEnd(cfg, s.loads[0]) {
      EntryPut(s.db, q.made, s.cache, s.loads[0].sid, Met(s.db, s.loads[0]));
    }
    SavesStay(cfg, q, s');
  }

  lemma CommittedRows(
      cfg: Config, known: Identities, granted: Grants, db: Db, had: Snapshots, sid: string, ss: SessionSteps)
    requires WellFormed(cfg) && DbOk(cfg, known, granted, db, had)
    requires Owned(cfg, known, sid, ss) && Whole(cfg, ss)
    ensures var db' := SaveTx(db, sid, ss);
      Load(db', sid) == Some(ss) && forall other :: other != sid ==> Load(db', other) == Load(db, other)
  {
    SavedRow(cfg, known, granted, db, had, sid, ss);
    forall other | other != sid ensures Load(SaveTx(db, sid, ss), other) == Load(db, other) {
      SaveElsewhere(db, sid, ss, other);
    }
  }

  lemma RowsNow(db: Db, db': Db, made: Numbers, next: nat, cache: Cache, sid: string, ss: SessionSteps)
    requires InLine(made, next) && SavesAhead(db, made) && EntriesAhead(db, made, cache) && First(made, sid, ss)
    requires Load(db', sid) == Some(ss) && forall other :: other != sid ==> Load(db', other) == Load(db, other)
    ensures SavesAhead(db', made) && EntriesAhead(db', made, cache)
  {
    forall x | x in made ensures RowsBehind(db', x.0, x.1) { assert RowsBehind(db, x.0, x.1); }
    forall k | k in cache ensures RowsBehind(db', k.1, cache[k]) {
      assert RowsBehind(db, k.1, cache[k]) && SavesBehind(made, k.1, cache[k]);
    }
  }

  /** The first save in line becomes the rows. */
  lemma CommitChain(cfg: Config, q: Queued, sid: string, ss: SessionSteps)
    requires WellFormed(cfg) && Inv(cfg, q.sys) && Chain(cfg, q) && First(q.made, sid, ss)
    ensures Chain(cfg, Moved(q, DoCommitSave(cfg, q.sys, sid, ss)))
  {
    var s, s' := q.sys, DoCommitSave(cfg, q.sys, sid, ss);
    if s'.db == s.db && s'.saves <= s.saves {
      QuietKeeps(cfg, q, s');
    } else {
      assert Good(cfg, s.known, s.granted, sid, ss) && Whole(cfg, ss);
      CommittedRows(cfg, s.known, s.granted, s.db, s.had, sid, ss);
      RowsNow(s.db, s'.db, q.made, q.next, s.cache, sid, ss);
      RowsChange(cfg, q, s');
    }
  }

  lemma RowsChange(cfg: Config, q: Queued, s: Sys)
    requires Chain(cfg, q) && cfg.hasDb && s.saves <= q.sys.saves && s.cache == q.sys.cache
    requires SavesAhead(s.db, q.made) && EntriesAhead(s.db, q.made, s.cache)
    ensures Chain(cfg, Moved(q, s))
  {
    FewerInLine(q.made, q.next, s.saves);
  }

  lemma DeleteChain(cfg: Config, q: Queued, sid: string)
    requires Chain(cfg, q)
    ensures Chain(cfg, Moved(q, DoDeleteRows(q.sys, sid)))
  {
    var s' := DoDeleteRows(q.sys, sid);
    RowsSame(q.sys.db, s'.db, q.made, q.sys.cache);
    SavesStay(cfg, q, s');
  }

  // ----------------------------------------------------------------- critical sections

  lemma RecoverChain(cfg: Config, q: Queued, sid: string)
    requires Chain(cfg, q)
    ensures Chain(cfg, Moved(q, DoRecover(cfg, q.sys, 0, sid)))
  {
    var s' := DoRecover(cfg, q.sys, 0, sid);
    if !cfg.hasDb && (0, sid) in s'.cache { EntryPut(q.sys.db, q.made, q.sys.cache, sid, s'.cache[(0, sid)]); }
    SavesStay(cfg, q, s');
  }

  lemma MarkChain(cfg: Config, q: Queued, call: Call)
    requires Chain(cfg, q)
    ensures Chain(cfg, Moved(q, DoMark(cfg, q.sys, call)))
  {
    var s, s' := q.sys, DoMark(cfg, q.sys, call);
    if Quiet(s, s') {
      QuietKeeps(cfg, q, s');
    } else {
      var ss := s.cache[(call.rep, call.sid)];
      ChangesNeverClose(ss, call.idx, false, [], 0, 0);
      StoreKeeps(cfg, q, s', call.sid, WithValidating(ss, call.idx));
    }
  }

  lemma MockOpens(ss: SessionSteps, idx: int)
    ensures NoneCloses(ss, WithMockPass(ss, idx))
  {
    ChangesNeverClose(ss, idx, false, [], 0, 0);
  }

  lemma MockStores(cfg: Config, s: Sys, call: Call, ss: SessionSteps)
    requires (0, call.sid) in s.cache && ss == s.cache[(0, call.sid)] && 0 <= call.idx < |ss.steps|
    ensures Stores(cfg, s, MockOn(cfg, s, 0, call.sid, call.stepId, call.idx), call.sid, WithMockPass(ss, call.idx))
  {
    MockOpens(ss, call.idx);
  }

  lemma MockPassChain(cfg: Config, q: Queued, call: Call)
    requires Chain(cfg, q)
    ensures Chain(cfg, Moved(q, DoMockPass(cfg, q.sys, call)))
  {
    var s, s' := q.sys, DoMockPass(cfg, q.sys, call);
    if s'.cache == s.cache && s'.saves == s.saves {
      QuietKeeps(cfg, q, s');
    } else {
      var ss := s.cache[(call.rep, call.sid)];
      MockStores(cfg, s.(calls := s.calls - {call}), call, ss);
      StoreKeeps(cfg, q, s', call.sid, WithMockPass(ss, call.idx));
    }
  }

  lemma HintChain(cfg: Config, q: Queued, sid: string, stepId: int, level: int)
    requires Chain(cfg, q)
    ensures Chain(cfg, Moved(q, DoHint(cfg, q.sys, 0, sid, stepId, level)))
  {
    var s, s' := q.sys, DoHint(cfg, q.sys, 0, sid, stepId, level);
    if Quiet(s, s') {
      QuietKeeps(cfg, q, s');
    } else {
      var ss := s.cache[(0, sid)];
      ChangesNeverClose(ss, 0, false, [], stepId, level);
      StoreKeeps(cfg, q, s', sid, WithHint(ss, stepId, level));
    }
  }

  lemma JudgeOpens(ss: SessionSteps, v: Verdict)
    ensures NoneCloses(ss, Judge(ss, v))
  {
    ChangesNeverClose(ss, IndexOf(Ids(ss.steps), v.stepId), v.passed, v.checks, 0, 0);
  }

  lemma DeliverStores(cfg: Config, s: Sys, k: nat)
    requires k < |s.results| && Available(s, 0, s.results[k].sid)
    requires s.results[k].stepId in Ids(s.cache[(0, s.results[k].sid)].steps)
    ensures var v := s.results[k]; Stores(cfg, s, DoDeliver(cfg, s, 0, k), v.sid, Judge(s.cache[(0, v.sid)], v))
  {
    JudgeOpens(s.cache[(0, s.results[k].sid)], s.results[k]);
  }

  lemma DeliverChain(cfg: Config, q: Queued, k: nat)
    requires Chain(cfg, q)
    ensures Chain(cfg, Moved(q, DoDeliver(cfg, q.sys, 0, k)))
  {
    var s, s' := q.sys, DoDeliver(cfg, q.sys, 0, k);
    if s' == s {
      QuietKeeps(cfg, q, s');
    } else {
      DeliverStores(cfg, s, k);
      StoreKeeps(cfg, q, s', s.results[k].sid, Judge(s.cache[(0, s.results[k].sid)], s.results[k]));
    }
  }

  predicate OfSection(step: Step) {
    step.Mark? || step.MockPass? || step.Hint? || step.Deliver?
  }

  lemma {:induction false} SectionChain(cfg: Config, q: Queued, step: Step)
    requires Chain(cfg, q) && OneReplica(step) && OfSection(step)
    ensures Chain(cfg, Moved(q, Exec(cfg, q.sys, step)))
  {
    match step
    case Mark(call) => MarkChain(cfg, q, call);
    case MockPass(call) => MockPassChain(cfg, q, call);
    case Hint(rep, sid, stepId, level) => HintChain(cfg, q, sid, stepId, level);
    case Deliver(rep, k) => DeliverChain(cfg, q, k);
  }

  predicate Placing(step: Step) {
    step.Create? || step.Recover? || step.EndLoad? || step.CommitSave? || step.DeleteRows?
  }

  lemma {:induction false} PlacingChain(cfg: Config, q: Queued, step: Step)
    requires WellFormed(cfg) && Inv(cfg, q.sys) && Chain(cfg, q) && InTurn(true, q, step) && Placing(step)
    ensures Chain(cfg, Moved(q, Exec(cfg, q.sys, step)))
  {
    match step
    case Create(rep, sid, labId, userId, cached) => CreateChain(cfg, q, sid, Identity(labId, userId), cached);
    case Recover(rep, sid) => RecoverChain(cfg, q, sid);
    case EndLoad(rep) => EndLoadChain(cfg, q);
    case CommitSave(sid, ss) => CommitChain(cfg, q, sid, ss);
    case DeleteRows(sid) => DeleteChain(cfg, q, sid);
  }

  lemma QuietStore(cfg: Config, s: Sys, step: Step)
    requires OfStore(step) && !Placing(step)
    ensures Quiet(s, Exec(cfg, s, step))
  {
  }

  lemma QuietStep(cfg: Config, s: Sys, step: Step)
    requires !OfSection(step) && !Placing(step)
    ensures Quiet(s, Exec(cfg, s, step))
  {
    if OfStore(step) { QuietStore(cfg, s, step); }
  }

  lemma {:induction false} StepChain(cfg: Config, q: Queued, step: Step)
    requires WellFormed(cfg) && Inv(cfg, q.sys) && Chain(cfg, q) && InTurn(true, q, step)
    ensures Chain(cfg, Moved(q, Exec(cfg, q.sys, step)))
  {
    if OfSection(step) {
      SectionChain(cfg, q, step);
    } else if Placing(step) {
      PlacingChain(cfg, q, step);
    } else {
      QuietStep(cfg, q.sys, step);
      QuietKeeps(cfg, q, Exec(cfg, q.sys, step));
    }
  }

  // ------------------------------------------------------------------------- whole runs

  /** The same system, in which no save overtakes another and no load is torn by a delete. */
  function Calm(cfg: Config): Config {
    cfg.(overtaking := false, tornByDelete := false)
  }

  lemma FirstInOrder(cfg: Config, q: Queued, sid: string, ss: SessionSteps)
    requires Chain(cfg, q) && First(q.made, sid, ss) && sid in q.sys.db.headers
    ensures InOrder(q.sys.db, sid, ss)
  {
    assert RowsBehind(q.sys.db, sid, ss);
  }

  /** A step taken in turn is one of the calm system. */
  lemma CalmStep(cfg: Config, q: Queued, step: Step)
    requires Chain(Calm(cfg), q) && InTurn(true, q, step)
    ensures Exec(cfg, q.sys, step) == Exec(Calm(cfg), q.sys, step)
  {
    if step.CommitSave? {
      CalmCommit(cfg, q, step.sid, step.ss);
    } else if step.EndLoad? {
      CalmEnd(cfg, q);
    } else {
      CalmElsewhere(cfg, q.sys, step);
    }
  }

  lemma CalmCommit(cfg: Config, q: Queued, sid: string, ss: SessionSteps)
    requires Chain(Calm(cfg), q) && First(q.made, sid, ss) && sid in q.sys.db.headers
    ensures DoCommitSave(cfg, q.sys, sid, ss) == DoCommitSave(Calm(cfg), q.sys, sid, ss)
  {
    FirstInOrder(Calm(cfg), q, sid, ss);
  }

  lemma CalmEnd(cfg: Config, q: Queued)
    requires InTurn(true, q, EndLoad(0))
    ensures DoEndLoad(cfg, q.sys, 0) == DoEndLoad(Calm(cfg), q.sys, 0)
  {
  }

  lemma CalmElsewhere(cfg: Config, s: Sys, step: Step)
    requires !step.CommitSave? && !step.EndLoad?
    ensures Exec(cfg, s, step) == Exec(Calm(cfg), s, step)
  {
    if OfStore(step) {
      CalmStore(cfg, s, step);
    } else if OfSection(step) {
      CalmSection(cfg, s, step);
    } else if OfEngine(step) {
      CalmEngine(cfg, s, step);
    } else {
      CalmCall(cfg, s, step);
    }
  }

  lemma CalmStore(cfg: Config, s: Sys, step: Step)
    requires OfStore(step) && !step.CommitSave? && !step.EndLoad?
    ensures Exec(cfg, s, step) == Exec(Calm(cfg), s, step)
  {
  }

  lemma CalmSection(cfg: Config, s: Sys, step: Step)
    requires OfSection(step)
    ensures Exec(cfg, s, step) == Exec(Calm(cfg), s, step)
  {
  }

  lemma CalmEngine(cfg: Config, s: Sys, step: Step)
    requires OfEngine(step) && !OfSection(step)
    ensures Exec(cfg, s, step) == Exec(Calm(cfg), s, step)
  {
  }

  lemma CalmPublish(cfg: Config, s: Sys, call: Call, acked: bool)
    ensures DoPublish(cfg, s, call, acked) == DoPublish(Calm(cfg), s, call, acked)
  {
    assert CheckList(cfg, s.known, call.sid, call.stepId) == CheckList(Calm(cfg), s.known, call.sid, call.stepId);
  }

  lemma CalmCall(cfg: Config, s: Sys, step: Step)
    requires step.Precheck? || step.Publish? || step.DropCall?
    ensures Exec(cfg, s, step) == Exec(Calm(cfg), s, step)
  {
    if step.Publish? { CalmPublish(cfg, s, step.call, step.acked); }
  }

  ghost predicate CalmlyReached(cfg: Config, q: Queued) {
    Chain(Calm(cfg), q) && Runs.Reaches(Machine(Calm(cfg)), START, q.sys)
  }

  lemma ReachedInv(cfg: Config, s: Sys)
    requires WellFormed(cfg) && Runs.Reaches(Machine(cfg), START, s)
    ensures Inv(cfg, s)
  {
    var steps: seq<Step> :| Runs.After(Machine(cfg), START, steps) == s;
    RunKeeps(cfg, steps);
  }

  lemma TurnKeeps(cfg: Config, q: Queued, step: Step)
    requires WellFormed(cfg) && CalmlyReached(cfg, q)
    ensures CalmlyReached(cfg, Turn(cfg, true, q, step))
  {
    if InTurn(true, q, step) {
      ReachedInv(Calm(cfg), q.sys);
      CalmStep(cfg, q, step);
      StepChain(Calm(cfg), q, step);
      Runs.ReachesNext(Machine(Calm(cfg)), START, q.sys, step);
    }
  }

  ghost function AfterTurns(cfg: Config, waits: bool, steps: seq<Step>): Queued {
    Runs.After(TurnMachine(cfg, waits), NOTHING, steps)
  }

  /** Every run in turn is a run of the calm system. */
  lemma {:induction false} TurnsKeep(cfg: Config, steps: seq<Step>)
    requires WellFormed(cfg)
    ensures CalmlyReached(cfg, AfterTurns(cfg, true, steps))
  {
    Runs.ReachesSelf(Machine(Calm(cfg)), START);
    forall q: Queued, step: Step | CalmlyReached(cfg, q) ensures CalmlyReached(cfg, TurnMachine(cfg, true)(q, step)) {
      TurnKeeps(cfg, q, step);
    }
    Runs.KeptByRuns(TurnMachine(cfg, true), q => CalmlyReached(cfg, q), NOTHING, steps);
  }

  /** Whatever the configuration allows, in a run in which one replica's saves commit in turn and its loads
      wait for them, the current step of every session is always an open one of its lab's steps. */
  lemma InTurnNamed(cfg: Config, steps: seq<Step>, sid: string, ss: SessionSteps)
    requires WellFormed(cfg) && Holds(AfterTurns(cfg, true, steps).sys, sid, ss)
    ensures Named(cfg, ss)
  {
    TurnsKeep(cfg, steps);
    var s := AfterTurns(cfg, true, steps).sys;
    var calm: seq<Step> :| Runs.After(Machine(Calm(cfg)), START, calm) == s;
    HeldGood(Calm(cfg), calm, sid, ss);
  }

  // ------------------------------------------------ a run whose load did not wait

  ghost predicate Turned(cfg: Config, q: Queued) {
    Runs.Reaches(TurnMachine(cfg, false), NOTHING, q)
  }

  lemma Next(cfg: Config, q: Queued, step: Step)
    requires Turned(cfg, q) && InTurn(false, q, step)
    ensures Turned(cfg, Moved(q, Exec(cfg, q.sys, step)))
  {
    Runs.ReachesNext(TurnMachine(cfg, false), NOTHING, q, step);
  }

  lemma Registers(cfg: Config, labId: string) returns (q: Queued)
    requires Stage(cfg, labId)
    ensures Turned(cfg, q) && q.made == map[] && Fresh(cfg, labId, q.sys, {FirstCall(cfg, labId, false)})
  {
    var id := cfg.labs[labId][0].id;
    Runs.ReachesSelf(TurnMachine(cfg, false), NOTHING);
    Next(cfg, NOTHING, Create(0, "s", labId, "u", true));
    BegunState(cfg, labId);
    q := Moved(NOTHING, DoCreate(cfg, START, 0, "s", Identity(labId, "u"), true));
    Next(cfg, q, Precheck(0, "s", id));
    PrecheckState(cfg, labId, q.sys);
    q := Moved(q, DoPrecheck(q.sys, 0, "s", id));
  }

  lemma Answers(cfg: Config, labId: string) returns (q: Queued)
    requires Stage(cfg, labId)
    ensures Turned(cfg, q) && q.made == map[] && Answered(cfg, labId, q.sys, S0(cfg, labId), {})
  {
    var call := FirstCall(cfg, labId, false);
    q := Registers(cfg, labId);
    Next(cfg, q, Publish(call, true));
    PublishState(cfg, labId, q.sys);
    q := Moved(q, DoPublish(cfg, q.sys, call, true));
    Next(cfg, q, EngineTurn(true, PASSING, true, true));
    TurnState(cfg, labId, q.sys, S0(cfg, labId), {});
    q := Moved(q, DoEngineTurn(q.sys, true, PASSING, true, true));
  }

  function PassedSteps(cfg: Config, labId: string): SessionSteps
    requires labId in cfg.labs && Playable(cfg.labs[labId])
  {
    Judge(S0(cfg, labId), FirstVerdict(cfg, labId))
  }

  /** The pass is on its way to the tables. */
  predicate OnWay(cfg: Config, labId: string, q: Queued)
    requires labId in cfg.labs && Playable(cfg.labs[labId])
  {
    && q.sys.db == SaveTx(START.db, "s", S0(cfg, labId)) && q.sys.saves == {("s", PassedSteps(cfg, labId))}
    && q.made.Keys == q.sys.saves && q.made[("s", PassedSteps(cfg, labId))] < q.next
  }

  lemma StillOnWay(cfg: Config, labId: string, q: Queued, s: Sys)
    requires labId in cfg.labs && Playable(cfg.labs[labId]) && OnWay(cfg, labId, q)
    requires s.db == q.sys.db && s.saves == q.sys.saves
    ensures OnWay(cfg, labId, Moved(q, s))
  {
  }

  lemma NextDeliver(cfg: Config, q: Queued)
    requires Turned(cfg, q)
    ensures Turned(cfg, Moved(q, DoDeliver(cfg, q.sys, 0, 0)))
  {
    Next(cfg, q, Deliver(0, 0));
  }

  lemma Passes(cfg: Config, labId: string) returns (q: Queued)
    requires Stage(cfg, labId)
    ensures Turned(cfg, q) && OnWay(cfg, labId, q) && q.sys.loads == map[]
      && q.sys.cache == map[(0, "s") := PassedSteps(cfg, labId)]
  {
    q := Answers(cfg, labId);
    NextDeliver(cfg, q);
    DeliverState(cfg, labId, q.sys, S0(cfg, labId), {});
    q := Moved(q, DoDeliver(cfg, q.sys, 0, 0));
  }

  lemma Restarts(cfg: Config, labId: string) returns (q: Queued)
    requires Stage(cfg, labId)
    ensures Turned(cfg, q) && OnWay(cfg, labId, q) && q.sys.loads == map[] && q.sys.cache == map[]
  {
    q := Passes(cfg, labId);
    Next(cfg, q, RestartApi(0));
    RestartState(q.sys);
    StillOnWay(cfg, labId, q, DoRestartApi(q.sys, 0));
    q := Moved(q, DoRestartApi(q.sys, 0));
  }

  lemma EndState(cfg: Config, labId: string, s: Sys)
    requires Stage(cfg, labId) && s.db == SaveTx(START.db, "s", S0(cfg, labId)) && s.cache == map[]
    requires s.loads == map[0 := Loading("s", S0(cfg, labId), false, false)]
    ensures DoEndLoad(cfg, s, 0) == s.(cache := map[(0, "s") := S0(cfg, labId)], loads := map[])
  {
    FreshLoad(cfg, labId);
    assert Met(s.db, s.loads[0]) == S0(cfg, labId);
  }

  /** The process reads the session without the pass. */
  lemma ReadsHeader(cfg: Config, labId: string) returns (q: Queued)
    requires Stage(cfg, labId)
    ensures Turned(cfg, q) && OnWay(cfg, labId, q) && q.sys.cache == map[]
      && q.sys.loads == map[0 := Loading("s", S0(cfg, labId), false, false)]
  {
    q := Restarts(cfg, labId);
    BeginState(cfg, labId, q.sys);
    Next(cfg, q, BeginLoad(0, "s"));
    StillOnWay(cfg, labId, q, DoBeginLoad(cfg, q.sys, 0, "s"));
    q := Moved(q, DoBeginLoad(cfg, q.sys, 0, "s"));
  }

  lemma Reloads(cfg: Config, labId: string) returns (q: Queued)
    requires Stage(cfg, labId)
    ensures Turned(cfg, q) && OnWay(cfg, labId, q) && q.sys.loads == map[]
      && q.sys.cache == map[(0, "s") := S0(cfg, labId)]
  {
    q := ReadsHeader(cfg, labId);
    EndState(cfg, labId, q.sys);
    Next(cfg, q, EndLoad(0));
    StillOnWay(cfg, labId, q, DoEndLoad(cfg, q.sys, 0));
    q := Moved(q, DoEndLoad(cfg, q.sys, 0));
  }

  function Hinted(cfg: Config, labId: string): SessionSteps
    requires labId in cfg.labs && Playable(cfg.labs[labId])
  {
    WithHint(S0(cfg, labId), cfg.labs[labId][0].id, 1)
  }

  lemma HintedFacts(cfg: Config, labId: string)
    requires labId in cfg.labs && Playable(cfg.labs[labId])
    ensures var h := Hinted(cfg, labId);
      h != S0(cfg, labId) && SameShape(h, S0(cfg, labId)) && h.steps[1].status == Pending
  {
    var id, ss := cfg.labs[labId][0].id, S0(cfg, labId);
    assert Ids(ss.steps)[0] == id;
    assert IndexOf(Ids(ss.steps), id) == 0;
    assert Hinted(cfg, labId).steps[0].hintLevel == 1;
    ChangesKeepShape(ss, 0, false, [], id, 1);
  }

  /** A hint makes a later save, of an older state. */
  lemma Hints(cfg: Config, labId: string) returns (q: Queued)
    requires Stage(cfg, labId)
    ensures Turned(cfg, q) && q.sys.db == SaveTx(START.db, "s", S0(cfg, labId)) && q.made.Keys == q.sys.saves
    ensures q.sys.saves == {("s", PassedSteps(cfg, labId)), ("s", Hinted(cfg, labId))}
    ensures First(q.made, "s", PassedSteps(cfg, labId))
  {
    var id := cfg.labs[labId][0].id;
    q := Reloads(cfg, labId);
    HintedFacts(cfg, labId);
    Next(cfg, q, Hint(0, "s", id, 1));
    q := Moved(q, DoHint(cfg, q.sys, 0, "s", id, 1));
  }

  lemma PassInOrder(cfg: Config, labId: string)
    requires Stage(cfg, labId)
    ensures var db := SaveTx(START.db, "s", S0(cfg, labId));
      InOrder(db, "s", PassedSteps(cfg, labId)) && Fits(db, "s", PassedSteps(cfg, labId))
  {
    var ss := S0(cfg, labId);
    FreshLoad(cfg, labId);
    PassFacts(cfg, labId, ss);
    ChangesNeverClose(ss, IndexOf(Ids(ss.steps), cfg.labs[labId][0].id), true, FirstVerdict(cfg, labId).checks, 0, 0);
    FitsNext(START.db, "s", ss, PassedSteps(cfg, labId));
  }

  lemma NextCommit(cfg: Config, q: Queued, ss: SessionSteps)
    requires Turned(cfg, q) && First(q.made, "s", ss) && "s" in q.sys.db.headers
    ensures Turned(cfg, Moved(q, DoCommitSave(cfg, q.sys, "s", ss)))
  {
    Next(cfg, q, CommitSave("s", ss));
  }

  lemma PassNotHint(cfg: Config, labId: string)
    requires labId in cfg.labs && Playable(cfg.labs[labId])
    ensures !NoneCloses(PassedSteps(cfg, labId), Hinted(cfg, labId))
  {
    HintedFacts(cfg, labId);
    PassFacts(cfg, labId, S0(cfg, labId));
  }

  lemma CommitFirst(cfg: Config, s: Sys, ss: SessionSteps)
    requires ("s", ss) in s.saves && InOrder(s.db, "s", ss) && Fits(s.db, "s", ss)
    ensures var s' := DoCommitSave(cfg, s, "s", ss);
      s'.saves == s.saves - {("s", ss)} && "s" in s'.db.headers && Load(s'.db, "s") == Some(ss)
  {
    SaveLoadRoundTrip(s.db, "s", ss);
  }

  /** The earlier save commits first, as it should. */
  lemma CommitEarlier(cfg: Config, q: Queued, late: SessionSteps, hinted: SessionSteps) returns (q': Queued)
    requires Turned(cfg, q) && q.sys.saves == {("s", late), ("s", hinted)} && late != hinted
    requires First(q.made, "s", late) && InOrder(q.sys.db, "s", late) && Fits(q.sys.db, "s", late)
    ensures Turned(cfg, q') && q'.made.Keys == {("s", hinted)} && "s" in q'.sys.db.headers
    ensures Load(q'.sys.db, "s") == Some(late)
  {
    CommitFirst(cfg, q.sys, late);
    NextCommit(cfg, q, late);
    q' := Moved(q, DoCommitSave(cfg, q.sys, "s", late));
  }

  lemma LateSave(cfg: Config, labId: string) returns (q: Queued)
    requires Stage(cfg, labId)
    ensures Turned(cfg, q) && q.made.Keys == {("s", Hinted(cfg, labId))} && "s" in q.sys.db.headers
    ensures Load(q.sys.db, "s") == Some(PassedSteps(cfg, labId))
  {
    q := Hints(cfg, labId);
    PassNotHint(cfg, labId);
    PassInOrder(cfg, labId);
    q := CommitEarlier(cfg, q, PassedSteps(cfg, labId), Hinted(cfg, labId));
  }

  // ------------------------------------------------------------------------ main result

  ghost predicate AlwaysInOrder(cfg: Config, waits: bool) {
    forall steps: seq<Step>, sid, ss ::
      InTurn(waits, AfterTurns(cfg, waits, steps), CommitSave(sid, ss)) ==>
      InOrder(AfterTurns(cfg, waits, steps).sys.db, sid, ss)
  }

  /** A run with one replica whose saves commit in the order they were made, after which the next one in
      line closes a step of the rows. */
  lemma ReloadedUnderSave(cfg: Config, labId: string) returns (steps: seq<Step>, ss: SessionSteps)
    requires Stage(cfg, labId)
    ensures var q := AfterTurns(cfg, false, steps);
      InTurn(false, q, CommitSave("s", ss)) && !InOrder(q.sys.db, "s", ss)
  {
    var q := LateSave(cfg, labId);
    PassNotHint(cfg, labId);
    assert !InOrder(q.sys.db, "s", Hinted(cfg, labId));
    steps :| Runs.After(TurnMachine(cfg, false), NOTHING, steps) == q;
    ss := Hinted(cfg, labId);
  }

  lemma InTurnInOrder(cfg: Config, steps: seq<Step>, sid: string, ss: SessionSteps)
    requires WellFormed(cfg) && InTurn(true, AfterTurns(cfg, true, steps), CommitSave(sid, ss))
    ensures InOrder(AfterTurns(cfg, true, steps).sys.db, sid, ss)
  {
    TurnsKeep(cfg, steps);
    FirstInOrder(Calm(cfg), AfterTurns(cfg, true, steps), sid, ss);
  }

  /** With one replica whose saves of a session commit in the order they were made, no commit closes a step
      of the rows it meets, exactly if no load ends while a save of its session is on its way. */
  lemma InOrderIffWaits(cfg: Config, labId: string, waits: bool)
    requires Stage(cfg, labId)
    ensures AlwaysInOrder(cfg, waits) <==> waits
  {
    if waits {
      forall steps: seq<Step>, sid, ss | InTurn(true, AfterTurns(cfg, true, steps), CommitSave(sid, ss))
        ensures InOrder(AfterTurns(cfg, true, steps).sys.db, sid, ss)
      {
        InTurnInOrder(cfg, steps, sid, ss);
      }
    } else {
      var steps, ss := ReloadedUnderSave(cfg, labId);
    }
  }
}
