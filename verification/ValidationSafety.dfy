/** Safety of the validation protocol over every run. */
module ValidationSafety {
  import opened Options
  import opened Progress
  import opened ProgressStore
  import opened StepStores
  import opened Engine
  import opened ValidationProtocol
  import Runs

  // ---------------------------------------------------- history only grows

  predicate Grows(known: Identities, granted: Grants, known': Identities, granted': Grants) {
    && (forall sid :: sid in known ==> sid in known' && known'[sid] == known[sid])
    && granted <= granted'
  }

  lemma StateGrows(cfg: Config, s: Sys, known': Identities, granted': Grants, had': Snapshots)
    requires Inv(cfg, s) && Grows(s.known, s.granted, known', granted') && s.had <= had'
    ensures CacheOk(cfg, known', granted', s.cache)
    ensures SavesOk(cfg, known', granted', s.saves, had')
    ensures DbOk(cfg, known', granted', s.db, had')
    ensures LoadsOk(cfg, known', granted', s.db, s.loads)
  {
    forall sid, ss | Good(cfg, s.known, s.granted, sid, ss) ensures Good(cfg, known', granted', sid, ss) {}
    forall sid | sid in s.db.headers ensures RowOk(cfg, known', granted', s.db, had', sid) {
      assert RowOk(cfg, s.known, s.granted, s.db, s.had, sid);
    }
  }

  lemma JudgeGrows(
      cfg: Config, known: Identities, granted: Grants, known': Identities, granted': Grants, sid: string,
      stepId: int)
    requires Grows(known, granted, known', granted') && MayJudge(cfg, known, granted, sid, stepId)
    ensures MayJudge(cfg, known', granted', sid, stepId)
    ensures CheckList(cfg, known', sid, stepId) == CheckList(cfg, known, sid, stepId)
  {
  }

  lemma MessagesGrow(cfg: Config, s: Sys, known': Identities, granted': Grants)
    requires Inv(cfg, s) && Grows(s.known, s.granted, known', granted')
    ensures CallsOk(cfg, known', granted', s.calls)
    ensures RequestsOk(cfg, known', granted', s.requests)
    ensures ResultsOk(cfg, known', granted', s.results)
    ensures DonesOk(cfg, known', granted', s.finishing, s.completions)
  {
    forall sid, stepId | MayJudge(cfg, s.known, s.granted, sid, stepId)
      ensures MayJudge(cfg, known', granted', sid, stepId)
        && CheckList(cfg, known', sid, stepId) == CheckList(cfg, s.known, sid, stepId)
    {
      JudgeGrows(cfg, s.known, s.granted, known', granted', sid, stepId);
    }
  }

  lemma ProofsGrow(
      cfg: Config, known: Identities, xs: seq<Execution>, known': Identities, xs': seq<Execution>, sid: string,
      stepId: int)
    requires sid in known && sid in known' && known'[sid] == known[sid] && xs <= xs'
    requires Proved(cfg, known, xs, sid, stepId)
    ensures Proved(cfg, known', xs', sid, stepId)
  {
    var k :| 0 <= k < |xs| && Proves(cfg, known, xs[k], sid, stepId);
    assert Proves(cfg, known', xs'[k], sid, stepId);
  }

  lemma GrantsGrow(
      cfg: Config, known: Identities, granted: Grants, xs: seq<Execution>, known': Identities,
      xs': seq<Execution>)
    requires GrantsOk(cfg, known, granted, xs)
    requires forall sid :: sid in known ==> sid in known' && known'[sid] == known[sid]
    requires xs <= xs'
    ensures GrantsOk(cfg, known', granted, xs')
  {
    if cfg.validator {
      forall g | g in granted ensures Proved(cfg, known', xs', g.0, g.1) {
        ProofsGrow(cfg, known, xs, known', xs', g.0, g.1);
      }
    }
  }

  // ------------------------------------------------------ critical sections

  lemma InitialGood(cfg: Config, known: Identities, granted: Grants, sid: string)
    requires sid in known && known[sid].labId in cfg.labs
    ensures Good(cfg, known, granted, sid, InitialFor(cfg, known[sid])) && Whole(cfg, InitialFor(cfg, known[sid]))
  {
  }

  lemma ValidatingGood(cfg: Config, known: Identities, granted: Grants, sid: string, ss: SessionSteps, idx: nat)
    requires Good(cfg, known, granted, sid, ss) && idx < |ss.steps|
    requires forall j :: 0 <= j < idx ==> (sid, ss.steps[j].stepId) in granted
    ensures Good(cfg, known, granted, sid, WithValidating(ss, idx)) && Whole(cfg, WithValidating(ss, idx))
  {
    var ss' := WithValidating(ss, idx);
    assert Ids(ss'.steps) == Ids(ss.steps);
    CurrentKept(ss, ss');
  }

  /** The current step stays named while ids, the current id and openness are kept. */
  lemma CurrentKept(ss: SessionSteps, ss': SessionSteps)
    requires NoneCloses(ss, ss') && ss'.currentStep == ss.currentStep
    requires forall i :: 0 <= i < |ss.steps| ==> ss'.steps[i].stepId == ss.steps[i].stepId
    ensures CurrentNamed(ss) ==> CurrentNamed(ss')
  {
    if CurrentNamed(ss) && ss.steps != [] {
      var i :| 0 <= i < |ss.steps| && ss.steps[i].stepId == ss.currentStep && ss.steps[i].status != Pending;
      assert ss'.steps[i].stepId == ss'.currentStep;
    }
  }

  lemma HintGood(
      cfg: Config, known: Identities, granted: Grants, sid: string, ss: SessionSteps, stepId: int, level: int)
    requires Good(cfg, known, granted, sid, ss) && WithHint(ss, stepId, level) != ss
    ensures Good(cfg, known, granted, sid, WithHint(ss, stepId, level)) && Whole(cfg, WithHint(ss, stepId, level))
  {
    var ss' := WithHint(ss, stepId, level);
    assert Ids(ss'.steps) == Ids(ss.steps);
    CurrentKept(ss, ss');
  }

  lemma JudgedSound(granted: Grants, sid: string, ss: SessionSteps, idx: nat, passed: bool, checks: seq<CheckOutcome>)
    requires StepsSound(granted, sid, ss.steps) && idx < |ss.steps|
    requires forall j :: 0 <= j < idx ==> (sid, ss.steps[j].stepId) in granted
    requires passed ==> (sid, ss.steps[idx].stepId) in granted
    ensures StepsSound(granted, sid, WithVerdict(ss, idx, passed, checks).steps)
  {
    var ss' := WithVerdict(ss, idx, passed, checks);
    VerdictMeans(ss, idx, passed, checks);
    ChangesKeepShape(ss, idx, passed, checks, 0, 0);
    assert forall i :: 0 <= i < |ss.steps| ==> ss'.steps[i].stepId == Ids(ss'.steps)[i] == Ids(ss.steps)[i];
  }

  /** Judging a step whose predecessors were granted: the verdict's effect, read off VerdictMeans. */
  lemma JudgedGood(
      cfg: Config, known: Identities, granted: Grants, sid: string, ss: SessionSteps, idx: nat, passed: bool,
      checks: seq<CheckOutcome>)
    requires Good(cfg, known, granted, sid, ss) && idx < |ss.steps|
    requires forall j :: 0 <= j < idx ==> (sid, ss.steps[j].stepId) in granted
    requires passed ==> (sid, ss.steps[idx].stepId) in granted
    ensures var ss' := WithVerdict(ss, idx, passed, checks); Good(cfg, known, granted, sid, ss') && Whole(cfg, ss')
  {
    ChangesKeepShape(ss, idx, passed, checks, 0, 0);
    JudgedSound(granted, sid, ss, idx, passed, checks);
    VerdictCurrent(ss, idx, passed, checks);
  }

  lemma VerdictCurrent(ss: SessionSteps, idx: nat, passed: bool, checks: seq<CheckOutcome>)
    requires idx < |ss.steps|
    ensures CurrentNamed(ss) ==> CurrentNamed(WithVerdict(ss, idx, passed, checks))
  {
    var ss' := WithVerdict(ss, idx, passed, checks);
    VerdictMeans(ss, idx, passed, checks);
    if passed && idx + 1 < |ss.steps| {
      assert ss'.steps[idx + 1].stepId == ss'.currentStep;
    } else {
      CurrentKept(ss, ss');
    }
  }

  lemma VerdictGood(cfg: Config, known: Identities, granted: Grants, ss: SessionSteps, v: Verdict)
    requires Good(cfg, known, granted, v.sid, ss) && v.stepId in Ids(ss.steps)
    requires MayJudge(cfg, known, granted, v.sid, v.stepId)
    requires v.passed ==> (v.sid, v.stepId) in granted
    ensures Good(cfg, known, granted, v.sid, Judge(ss, v)) && Whole(cfg, Judge(ss, v))
  {
    assert Ids(ss.steps) == LabIds(cfg.labs[ss.labId]);
    JudgedGood(cfg, known, granted, v.sid, ss, IndexOf(Ids(ss.steps), v.stepId), v.passed, v.checks);
  }

  lemma CountedGood(cfg: Config, known: Identities, granted: Grants, sid: string, ss: SessionSteps, idx: nat)
    requires Good(cfg, known, granted, sid, ss) && idx < |ss.steps|
    ensures Good(cfg, known, granted, sid, WithAttempt(ss, idx))
    ensures forall i :: 0 <= i < |ss.steps| ==> WithAttempt(ss, idx).steps[i].stepId == ss.steps[i].stepId
  {
    var counted := WithAttempt(ss, idx);
    assert forall i :: 0 <= i < |ss.steps| ==> counted.steps[i].stepId == Ids(counted.steps)[i] == Ids(ss.steps)[i];
    CurrentKept(ss, counted);
  }

  /** A mock pass is a passing verdict with one more attempt. */
  lemma MockGood(cfg: Config, known: Identities, granted: Grants, sid: string, ss: SessionSteps, idx: nat)
    requires Good(cfg, known, granted, sid, ss) && idx < |ss.steps|
    requires forall j :: 0 <= j <= idx ==> (sid, ss.steps[j].stepId) in granted
    ensures Good(cfg, known, granted, sid, WithMockPass(ss, idx)) && Whole(cfg, WithMockPass(ss, idx))
  {
    CountedGood(cfg, known, granted, sid, ss, idx);
    MockPassIsVerdict(ss, idx);
    JudgedGood(cfg, known, granted, sid, WithAttempt(ss, idx), idx, true, ss.steps[idx].checks);
  }

  // ----------------------------------------------------------- transactions

  lemma WholeIdSet(cfg: Config, a: SessionSteps, b: SessionSteps)
    requires Whole(cfg, a) && Whole(cfg, b) && a.labId == b.labId
    ensures IdSet(a.steps) == IdSet(b.steps)
  {
    IdSetOfShape(a.steps, b.steps);
  }

  lemma SnapshotFits(
      cfg: Config, known: Identities, granted: Grants, db: Db, had: Snapshots, sid: string, ss: SessionSteps)
    requires WellFormed(cfg) && DbOk(cfg, known, granted, db, had)
    requires Owned(cfg, known, sid, ss) && Whole(cfg, ss)
    ensures Fits(db, sid, ss)
  {
    if sid in db.headers {
      assert RowOk(cfg, known, granted, db, had, sid);
      LoadedShape(db.headers[sid], RowsOf(db, sid));
      WholeIdSet(cfg, Load(db, sid).value, ss);
    }
  }

  lemma SavedRow(cfg: Config, known: Identities, granted: Grants, db: Db, had: Snapshots, sid: string, ss: SessionSteps)
    requires WellFormed(cfg) && DbOk(cfg, known, granted, db, had)
    requires Owned(cfg, known, sid, ss) && Whole(cfg, ss)
    ensures Load(SaveTx(db, sid, ss), sid) == Some(ss)
  {
    SnapshotFits(cfg, known, granted, db, had, sid, ss);
    SaveLoadRoundTrip(db, sid, ss);
  }

  lemma RowUntouched(cfg: Config, known: Identities, granted: Grants, db: Db, db': Db, had: Snapshots, other: string)
    requires other in db.headers && other in db'.headers && RowOk(cfg, known, granted, db, had, other)
    requires Load(db', other) == Load(db, other)
    ensures RowOk(cfg, known, granted, db', had, other)
  {
  }

  /** Saving a whole snapshot replaces a session's rows entirely: the tables never hold a mix. */
  lemma SaveKeepsDb(
      cfg: Config, known: Identities, granted: Grants, db: Db, had: Snapshots, sid: string, ss: SessionSteps)
    requires WellFormed(cfg) && DbOk(cfg, known, granted, db, had)
    requires Good(cfg, known, granted, sid, ss) && Whole(cfg, ss) && (sid, ss) in had
    ensures DbOk(cfg, known, granted, SaveTx(db, sid, ss), had)
  {
    SavedRow(cfg, known, granted, db, had, sid, ss);
    var db' := SaveTx(db, sid, ss);
    assert db'.headers.Keys == db'.steps.Keys;
    forall other | other in db'.headers ensures RowOk(cfg, known, granted, db', had, other) {
      if other != sid {
        SaveElsewhere(db, sid, ss, other);
        RowUntouched(cfg, known, granted, db, db', had, other);
      }
    }
  }

  lemma ClosesTransitively(a: SessionSteps, b: SessionSteps, c: SessionSteps)
    requires NoneCloses(a, b) && NoneCloses(b, c)
    ensures NoneCloses(a, c)
  {
  }

  lemma SaveKeepsLoad(
      cfg: Config, known: Identities, granted: Grants, db: Db, l: Loading, sid: string, ss: SessionSteps)
    requires LoadOk(cfg, known, granted, db, l) && Load(SaveTx(db, sid, ss), sid) == Some(ss)
    requires cfg.overtaking || InOrder(db, sid, ss)
    ensures LoadOk(cfg, known, granted, SaveTx(db, sid, ss), SavedUnder(l, sid))
  {
    if l.sid != sid {
      SaveElsewhere(db, sid, ss, l.sid);
    } else if !cfg.overtaking {
      ClosesTransitively(l.seen, Load(db, sid).value, ss);
    }
  }

  /** A save that commits in order, or where order does not matter, leaves every load sound. */
  lemma SaveKeepsLoads(
      cfg: Config, known: Identities, granted: Grants, db: Db, loads: map<nat, Loading>, sid: string,
      ss: SessionSteps)
    requires LoadsOk(cfg, known, granted, db, loads) && Load(SaveTx(db, sid, ss), sid) == Some(ss)
    requires cfg.overtaking || InOrder(db, sid, ss)
    ensures LoadsOk(cfg, known, granted, SaveTx(db, sid, ss), map r | r in loads :: SavedUnder(loads[r], sid))
  {
    var loads' := map r | r in loads :: SavedUnder(loads[r], sid);
    forall r | r in loads' ensures LoadOk(cfg, known, granted, SaveTx(db, sid, ss), loads'[r]) {
      SaveKeepsLoad(cfg, known, granted, db, loads[r], sid, ss);
    }
  }

  /** A save of a session that nobody loads. */
  lemma SaveApartKeepsLoads(
      cfg: Config, known: Identities, granted: Grants, db: Db, loads: map<nat, Loading>, sid: string,
      ss: SessionSteps)
    requires LoadsOk(cfg, known, granted, db, loads) && forall r :: r in loads ==> loads[r].sid != sid
    ensures LoadsOk(cfg, known, granted, SaveTx(db, sid, ss), loads)
  {
    forall r | r in loads ensures LoadOk(cfg, known, granted, SaveTx(db, sid, ss), loads[r]) {
      SaveElsewhere(db, sid, ss, loads[r].sid);
    }
  }

  lemma DeleteKeepsLoads(cfg: Config, known: Identities, granted: Grants, db: Db, loads: map<nat, Loading>, sid: string)
    requires LoadsOk(cfg, known, granted, db, loads)
    ensures LoadsOk(cfg, known, granted, DeleteTx(db, sid), map r | r in loads :: DeletedUnder(loads[r], sid))
  {
    var loads' := map r | r in loads :: DeletedUnder(loads[r], sid);
    forall r | r in loads' ensures LoadOk(cfg, known, granted, DeleteTx(db, sid), loads'[r]) {
      assert LoadOk(cfg, known, granted, db, loads[r]);
      if loads[r].sid != sid { assert Load(DeleteTx(db, sid), loads[r].sid) == Load(db, loads[r].sid); }
    }
  }

  lemma DeleteKeepsDb(cfg: Config, known: Identities, granted: Grants, db: Db, had: Snapshots, sid: string)
    requires DbOk(cfg, known, granted, db, had)
    ensures DbOk(cfg, known, granted, DeleteTx(db, sid), had)
  {
    var db' := DeleteTx(db, sid);
    forall other | other in db'.headers ensures RowOk(cfg, known, granted, db', had, other) {
      assert RowOk(cfg, known, granted, db, had, other);
      assert Load(db', other) == Load(db, other);
    }
  }

  // ------------------------------------------------------------- each step

  /** A replica stores a good, whole state. */
  lemma WriteKeeps(cfg: Config, s: Sys, rep: nat, sid: string, ss: SessionSteps)
    requires Inv(cfg, s) && Good(cfg, s.known, s.granted, sid, ss) && Whole(cfg, ss)
    ensures Inv(cfg, Write(cfg, s, rep, sid, ss))
  {
    StateGrows(cfg, s, s.known, s.granted, s.had + {(sid, ss)});
  }

  lemma FinishKeeps(cfg: Config, s: Sys, sid: string, ss: SessionSteps)
    requires Inv(cfg, s) && Good(cfg, s.known, s.granted, sid, ss) && Whole(cfg, ss)
    ensures Inv(cfg, Finish(s, sid, ss))
  {
    if AllPassed(ss) {
      var lab := cfg.labs[ss.labId];
      forall i | 0 <= i < |lab| ensures (sid, lab[i].id) in s.granted {
        assert Ids(ss.steps)[i] == LabIds(lab)[i];
        assert ss.steps[i].status == Passed;
      }
      assert FinishedOk(cfg, s.known, s.granted, Finished(sid, ss.userId, ss.labId));
    }
  }

  /** A session id never seen before becomes known. */
  lemma NewSessionKeeps(cfg: Config, s: Sys, sid: string, id: Identity)
    requires Inv(cfg, s) && sid !in s.known && id.labId in cfg.labs
    ensures Inv(cfg, s.(known := s.known[sid := id], had := s.had + {(sid, InitialFor(cfg, id))}))
  {
    var known' := s.known[sid := id];
    StateGrows(cfg, s, known', s.granted, s.had + {(sid, InitialFor(cfg, id))});
    MessagesGrow(cfg, s, known', s.granted);
    GrantsGrow(cfg, s.known, s.granted, s.executions, known', s.executions);
  }

  /** Its first snapshot is stored with it. */
  lemma FirstSaveKeeps(cfg: Config, s: Sys, sid: string, ss: SessionSteps)
    requires WellFormed(cfg) && Inv(cfg, s) && Good(cfg, s.known, s.granted, sid, ss) && Whole(cfg, ss)
      && (sid, ss) in s.had
    requires forall r :: r in s.loads ==> s.loads[r].sid != sid
    ensures Inv(cfg, s.(db := SaveTx(s.db, sid, ss)))
  {
    SaveKeepsDb(cfg, s.known, s.granted, s.db, s.had, sid, ss);
    SaveApartKeepsLoads(cfg, s.known, s.granted, s.db, s.loads, sid, ss);
  }

  lemma CachedKeeps(cfg: Config, s: Sys, rep: nat, sid: string, ss: SessionSteps)
    requires Inv(cfg, s) && Good(cfg, s.known, s.granted, sid, ss)
    ensures Inv(cfg, s.(cache := s.cache[(rep, sid) := ss]))
  {
  }

  lemma UnknownNotLoading(cfg: Config, s: Sys, sid: string)
    requires LoadsOk(cfg, s.known, s.granted, s.db, s.loads) && sid !in s.known
    ensures forall r :: r in s.loads ==> s.loads[r].sid != sid
  {
    forall r | r in s.loads ensures s.loads[r].sid != sid {
      assert LoadOk(cfg, s.known, s.granted, s.db, s.loads[r]);
    }
  }

  lemma {:induction false} CreateKeeps(cfg: Config, s: Sys, rep: nat, sid: string, id: Identity, cached: bool)
    requires WellFormed(cfg) && Inv(cfg, s)
    ensures Inv(cfg, DoCreate(cfg, s, rep, sid, id, cached))
  {
    if sid !in s.known && id.labId in cfg.labs && rep !in s.loads {
      var ss := InitialFor(cfg, id);
      var s1 := s.(known := s.known[sid := id], had := s.had + {(sid, ss)});
      UnknownNotLoading(cfg, s, sid);
      NewSessionKeeps(cfg, s, sid, id);
      InitialGood(cfg, s1.known, s1.granted, sid);
      if cfg.hasDb { FirstSaveKeeps(cfg, s1, sid, ss); }
      var s2 := s1.(db := if cfg.hasDb then SaveTx(s.db, sid, ss) else s.db);
      CachedKeeps(cfg, s2, rep, sid, ss);
    }
  }

  lemma RecoverKeeps(cfg: Config, s: Sys, rep: nat, sid: string)
    requires Inv(cfg, s)
    ensures Inv(cfg, DoRecover(cfg, s, rep, sid))
  {
    if sid in s.known && s.known[sid].labId in cfg.labs {
      InitialGood(cfg, s.known, s.granted, sid);
      WriteKeeps(cfg, s, rep, sid, InitialFor(cfg, s.known[sid]));
    }
  }

  lemma LoadingKeeps(cfg: Config, s: Sys, rep: nat, l: Loading)
    requires Inv(cfg, s) && LoadOk(cfg, s.known, s.granted, s.db, l)
    ensures Inv(cfg, s.(loads := s.loads[rep := l]))
  {
  }

  lemma RowsLoading(cfg: Config, known: Identities, granted: Grants, db: Db, had: Snapshots, sid: string)
    requires DbOk(cfg, known, granted, db, had) && sid in db.headers
    ensures LoadOk(cfg, known, granted, db, Loading(sid, Load(db, sid).value, false, false))
  {
    assert RowOk(cfg, known, granted, db, had, sid);
  }

  lemma BeginLoadKeeps(cfg: Config, s: Sys, rep: nat, sid: string)
    requires Inv(cfg, s)
    ensures Inv(cfg, DoBeginLoad(cfg, s, rep, sid))
  {
    if sid in s.db.headers {
      RowsLoading(cfg, s.known, s.granted, s.db, s.had, sid);
      LoadingKeeps(cfg, s, rep, Loading(sid, Load(s.db, sid).value, false, false));
    }
  }

  /** Rows that close no step of the snapshot whose header was read still have its current step open. */
  lemma NotOlderNamed(h: SessionSteps, r: SessionSteps)
    requires CurrentNamed(h) && SameShape(h, r) && NoneCloses(h, r)
    ensures CurrentNamed(r.(currentStep := h.currentStep))
  {
    assert forall i :: 0 <= i < |h.steps| ==> h.steps[i].stepId == Ids(h.steps)[i] == Ids(r.steps)[i];
    CurrentKept(h, r.(currentStep := h.currentStep));
  }

  lemma MetGood(cfg: Config, s: Sys, rep: nat)
    requires Inv(cfg, s) && rep in s.loads && MayEnd(cfg, s.loads[rep])
    ensures Good(cfg, s.known, s.granted, s.loads[rep].sid, Met(s.db, s.loads[rep]))
  {
    var l := s.loads[rep];
    assert LoadOk(cfg, s.known, s.granted, s.db, l);
    if l.sid in s.db.headers {
      assert RowOk(cfg, s.known, s.granted, s.db, s.had, l.sid);
      var rows := Load(s.db, l.sid).value;
      assert Met(s.db, l) == rows.(currentStep := l.seen.currentStep);
      if Orderly(cfg) { NotOlderNamed(l.seen, rows); }
    } else {
      assert RowsOf(s.db, l.sid) == map[];
      assert Met(s.db, l).steps == [];
    }
  }

  lemma EndLoadKeeps(cfg: Config, s: Sys, rep: nat)
    requires Inv(cfg, s)
    ensures Inv(cfg, DoEndLoad(cfg, s, rep))
  {
    if rep in s.loads && MayEnd(cfg, s.loads[rep]) {
      MetGood(cfg, s, rep);
      CachedKeeps(cfg, s, rep, s.loads[rep].sid, Met(s.db, s.loads[rep]));
    }
  }

  lemma CommitSaveKeeps(cfg: Config, s: Sys, sid: string, ss: SessionSteps)
    requires WellFormed(cfg) && Inv(cfg, s)
    ensures Inv(cfg, DoCommitSave(cfg, s, sid, ss))
  {
    if (sid, ss) in s.saves && (cfg.overtaking || InOrder(s.db, sid, ss)) {
      assert Good(cfg, s.known, s.granted, sid, ss);
      SavedRow(cfg, s.known, s.granted, s.db, s.had, sid, ss);
      SaveKeepsDb(cfg, s.known, s.granted, s.db, s.had, sid, ss);
      SaveKeepsLoads(cfg, s.known, s.granted, s.db, s.loads, sid, ss);
    }
  }

  lemma DeleteRowsKeeps(cfg: Config, s: Sys, sid: string)
    requires Inv(cfg, s)
    ensures Inv(cfg, DoDeleteRows(s, sid))
  {
    DeleteKeepsDb(cfg, s.known, s.granted, s.db, s.had, sid);
    DeleteKeepsLoads(cfg, s.known, s.granted, s.db, s.loads, sid);
  }

  lemma PrecheckKeeps(cfg: Config, s: Sys, rep: nat, sid: string, stepId: int)
    requires Inv(cfg, s)
    ensures Inv(cfg, DoPrecheck(s, rep, sid, stepId))
  {
    if Available(s, rep, sid) {
      var ss := s.cache[(rep, sid)];
      assert Good(cfg, s.known, s.granted, sid, ss);
      var idx := IndexOf(Ids(ss.steps), stepId);
      if idx >= 0 && EarlierPassed(ss.steps, idx) {
        assert Ids(ss.steps) == LabIds(cfg.labs[ss.labId]);
        forall j | 0 <= j < idx ensures (sid, LabIds(cfg.labs[ss.labId])[j]) in s.granted {
          assert ss.steps[j].status == Passed;
        }
        assert MayJudge(cfg, s.known, s.granted, sid, stepId);
      }
    }
  }

  lemma PublishKeeps(cfg: Config, s: Sys, call: Call, acked: bool)
    requires Inv(cfg, s)
    ensures Inv(cfg, DoPublish(cfg, s, call, acked))
  {
  }

  /** The index found by the order check still names the same step, whatever happened since. */
  lemma CallIndex(cfg: Config, s: Sys, call: Call)
    requires Inv(cfg, s) && call in s.calls && Available(s, call.rep, call.sid)
    requires 0 <= call.idx < |s.cache[(call.rep, call.sid)].steps|
    ensures var ss := s.cache[(call.rep, call.sid)];
      && Good(cfg, s.known, s.granted, call.sid, ss)
      && ss.steps[call.idx].stepId == call.stepId
      && forall j :: 0 <= j < call.idx ==> (call.sid, ss.steps[j].stepId) in s.granted
  {
    var ss := s.cache[(call.rep, call.sid)];
    assert Good(cfg, s.known, s.granted, call.sid, ss);
    assert Ids(ss.steps) == LabIds(cfg.labs[s.known[call.sid].labId]);
    assert forall j :: 0 <= j < |ss.steps| ==> ss.steps[j].stepId == Ids(ss.steps)[j];
  }

  lemma DropCallKeeps(cfg: Config, s: Sys, call: Call)
    requires Inv(cfg, s)
    ensures Inv(cfg, s.(calls := s.calls - {call}))
  {
  }

  lemma {:induction false} MarkKeeps(cfg: Config, s: Sys, call: Call)
    requires Inv(cfg, s)
    ensures Inv(cfg, DoMark(cfg, s, call))
  {
    if call in s.calls && call.published && Available(s, call.rep, call.sid) {
      var s' := s.(calls := s.calls - {call});
      var ss := s.cache[(call.rep, call.sid)];
      DropCallKeeps(cfg, s, call);
      if 0 <= call.idx < |ss.steps| {
        CallIndex(cfg, s, call);
        ValidatingGood(cfg, s.known, s.granted, call.sid, ss, call.idx);
        WriteKeeps(cfg, s', call.rep, call.sid, WithValidating(ss, call.idx));
      }
    }
  }

  /** A pass granted without a validator. */
  lemma GrantKeeps(cfg: Config, s: Sys, sid: string, stepId: int)
    requires Inv(cfg, s) && !cfg.validator && sid in s.known
    ensures Inv(cfg, s.(granted := s.granted + {(sid, stepId)}))
  {
    var granted' := s.granted + {(sid, stepId)};
    StateGrows(cfg, s, s.known, granted', s.had);
    MessagesGrow(cfg, s, s.known, granted');
  }

  lemma {:induction false} MockOnKeeps(cfg: Config, s: Sys, rep: nat, sid: string, stepId: int, idx: nat)
    requires Inv(cfg, s) && !cfg.validator && (rep, sid) in s.cache && idx < |s.cache[(rep, sid)].steps|
    requires s.cache[(rep, sid)].steps[idx].stepId == stepId
    requires forall j :: 0 <= j < idx ==> (sid, s.cache[(rep, sid)].steps[j].stepId) in s.granted
    ensures Inv(cfg, MockOn(cfg, s, rep, sid, stepId, idx))
  {
    var ss := s.cache[(rep, sid)];
    var s1 := s.(granted := s.granted + {(sid, stepId)});
    assert Good(cfg, s.known, s.granted, sid, ss);
    GrantKeeps(cfg, s, sid, stepId);
    assert Good(cfg, s1.known, s1.granted, sid, ss) by { assert (rep, sid) in s1.cache; }
    MockGood(cfg, s1.known, s1.granted, sid, ss, idx);
    WriteKeeps(cfg, s1, rep, sid, WithMockPass(ss, idx));
    FinishKeeps(cfg, Write(cfg, s1, rep, sid, WithMockPass(ss, idx)), sid, WithMockPass(ss, idx));
  }

  lemma {:induction false} MockPassKeeps(cfg: Config, s: Sys, call: Call)
    requires Inv(cfg, s)
    ensures Inv(cfg, DoMockPass(cfg, s, call))
  {
    if call in s.calls && !call.published && !cfg.validator && !cfg.release && Available(s, call.rep, call.sid) {
      DropCallKeeps(cfg, s, call);
      if 0 <= call.idx < |s.cache[(call.rep, call.sid)].steps| {
        CallIndex(cfg, s, call);
        MockOnKeeps(cfg, s.(calls := s.calls - {call}), call.rep, call.sid, call.stepId, call.idx);
      }
    }
  }

  lemma {:induction false} HintKeeps(cfg: Config, s: Sys, rep: nat, sid: string, stepId: int, level: int)
    requires Inv(cfg, s)
    ensures Inv(cfg, DoHint(cfg, s, rep, sid, stepId, level))
  {
    if Available(s, rep, sid) && WithHint(s.cache[(rep, sid)], stepId, level) != s.cache[(rep, sid)] {
      var ss := s.cache[(rep, sid)];
      assert Good(cfg, s.known, s.granted, sid, ss);
      HintGood(cfg, s.known, s.granted, sid, ss, stepId, level);
      WriteKeeps(cfg, s, rep, sid, WithHint(ss, stepId, level));
    }
  }

  /** A passing verdict comes with the execution that earned it. */
  lemma VerdictProved(cfg: Config, s: Sys, execOk: bool, vm: Vm)
    requires Inv(cfg, s) && s.position < |s.requests|
    ensures var req := s.requests[s.position];
      VerdictOf(req, execOk, vm).passed ==>
        Proved(cfg, s.known, DoEngineTurn(s, execOk, vm, true, true).executions, req.sid, req.stepId)
  {
    var req := s.requests[s.position];
    if VerdictOf(req, execOk, vm).passed {
      var xs := DoEngineTurn(s, execOk, vm, true, true).executions;
      var x := Execution(req.sid, req.stepId, req.checks, Outcomes(req.checks, vm));
      assert xs == s.executions + [x];
      assert Proves(cfg, s.known, xs[|s.executions|], req.sid, req.stepId);
    }
  }

  lemma EngineTurnKeeps(cfg: Config, s: Sys, execOk: bool, vm: Vm, written: bool, acked: bool)
    requires Inv(cfg, s)
    ensures Inv(cfg, DoEngineTurn(s, execOk, vm, written, acked))
  {
    if s.position < |s.requests| {
      var s' := DoEngineTurn(s, execOk, vm, written, acked);
      var req := s.requests[s.position];
      var v := VerdictOf(req, execOk, vm);
      StateGrows(cfg, s, s.known, s'.granted, s.had);
      MessagesGrow(cfg, s, s.known, s'.granted);
      GrantsGrow(cfg, s.known, s.granted, s.executions, s.known, s'.executions);
      VerdictProved(cfg, s, execOk, vm);
      JudgeGrows(cfg, s.known, s.granted, s.known, s'.granted, req.sid, req.stepId);
    }
  }

  lemma {:induction false} DeliverKeeps(cfg: Config, s: Sys, rep: nat, k: nat)
    requires Inv(cfg, s)
    ensures Inv(cfg, DoDeliver(cfg, s, rep, k))
  {
    if k < |s.results| && Available(s, rep, s.results[k].sid) {
      var v := s.results[k];
      var ss := s.cache[(rep, v.sid)];
      assert Good(cfg, s.known, s.granted, v.sid, ss);
      if v.stepId in Ids(ss.steps) {
        VerdictGood(cfg, s.known, s.granted, ss, v);
        WriteKeeps(cfg, s, rep, v.sid, Judge(ss, v));
        FinishKeeps(cfg, Write(cfg, s, rep, v.sid, Judge(ss, v)), v.sid, Judge(ss, v));
      }
    }
  }

  lemma RecordKeeps(cfg: Config, s: Sys, d: Finished, ok: bool)
    requires Inv(cfg, s)
    ensures Inv(cfg, DoRecordCompletion(cfg, s, d, ok))
  {
  }

  lemma ForgetKeeps(cfg: Config, s: Sys, rep: nat, sid: string)
    requires Inv(cfg, s)
    ensures Inv(cfg, s.(cache := s.cache - {(rep, sid)}))
    ensures Inv(cfg, DoRestartApi(s, rep))
  {
  }

  lemma DropSaveKeeps(cfg: Config, s: Sys, sid: string, ss: SessionSteps)
    requires Inv(cfg, s)
    ensures Inv(cfg, s.(saves := s.saves - {(sid, ss)}))
  {
  }

  lemma OffsetsKeep(cfg: Config, s: Sys, position: nat, committed: nat)
    requires Inv(cfg, s) && committed <= position <= |s.requests|
    ensures Inv(cfg, s.(position := position, committed := committed))
  {
  }

  predicate OfTables(step: Step) {
    step.BeginLoad? || step.EndLoad? || step.CommitSave? || step.DropSave? || step.DeleteRows?
  }

  predicate OfStore(step: Step) {
    OfTables(step) || step.Create? || step.Recover? || step.Evict? || step.RestartApi?
  }

  lemma {:induction false} TableStepKeeps(cfg: Config, s: Sys, step: Step)
    requires WellFormed(cfg) && Inv(cfg, s) && OfTables(step)
    ensures Inv(cfg, Exec(cfg, s, step))
  {
    match step
    case BeginLoad(rep, sid) => BeginLoadKeeps(cfg, s, rep, sid);
    case EndLoad(rep) => EndLoadKeeps(cfg, s, rep);
    case CommitSave(sid, ss) => CommitSaveKeeps(cfg, s, sid, ss);
    case DropSave(sid, ss) => DropSaveKeeps(cfg, s, sid, ss);
    case DeleteRows(sid) => DeleteRowsKeeps(cfg, s, sid);
  }

  lemma {:induction false} StoreStepKeeps(cfg: Config, s: Sys, step: Step)
    requires WellFormed(cfg) && Inv(cfg, s) && OfStore(step)
    ensures Inv(cfg, Exec(cfg, s, step))
  {
    if OfTables(step) {
      TableStepKeeps(cfg, s, step);
    } else {
      match step
      case Create(rep, sid, labId, userId, cached) => CreateKeeps(cfg, s, rep, sid, Identity(labId, userId), cached);
      case Recover(rep, sid) => RecoverKeeps(cfg, s, rep, sid);
      case Evict(rep, sid) => ForgetKeeps(cfg, s, rep, sid);
      case RestartApi(rep) => ForgetKeeps(cfg, s, rep, "");
    }
  }

  predicate OfEngine(step: Step) {
    step.EngineTurn? || step.EngineCommit? || step.EngineRestart? || step.Deliver? || step.RecordCompletion?
  }

  lemma {:induction false} OffsetStepKeeps(cfg: Config, s: Sys, step: Step)
    requires Inv(cfg, s) && (step.EngineCommit? || step.EngineRestart?)
    ensures Inv(cfg, Exec(cfg, s, step))
  {
    if step.EngineRestart? {
      OffsetsKeep(cfg, s, s.committed, s.committed);
    } else if s.committed <= step.offset <= s.position {
      OffsetsKeep(cfg, s, s.position, step.offset);
    }
  }

  lemma {:induction false} EngineStepKeeps(cfg: Config, s: Sys, step: Step)
    requires Inv(cfg, s) && OfEngine(step)
    ensures Inv(cfg, Exec(cfg, s, step))
  {
    if step.EngineCommit? || step.EngineRestart? {
      OffsetStepKeeps(cfg, s, step);
    } else if step.EngineTurn? {
      TurnStepKeeps(cfg, s, step);
    } else {
      ResultStepKeeps(cfg, s, step);
    }
  }

  lemma {:induction false} TurnStepKeeps(cfg: Config, s: Sys, step: Step)
    requires Inv(cfg, s) && step.EngineTurn?
    ensures Inv(cfg, Exec(cfg, s, step))
  {
    EngineTurnKeeps(cfg, s, step.execOk, step.vm, step.written, step.acked);
  }

  lemma {:induction false} ResultStepKeeps(cfg: Config, s: Sys, step: Step)
    requires Inv(cfg, s) && (step.Deliver? || step.RecordCompletion?)
    ensures Inv(cfg, Exec(cfg, s, step))
  {
    if step.Deliver? { DeliverKeeps(cfg, s, step.rep, step.k); } else { RecordStepKeeps(cfg, s, step); }
  }

  lemma {:induction false} RecordStepKeeps(cfg: Config, s: Sys, step: Step)
    requires Inv(cfg, s) && step.RecordCompletion?
    ensures Inv(cfg, Exec(cfg, s, step))
  {
    RecordKeeps(cfg, s, step.done, step.ok);
  }

  lemma {:induction false} LearnerStepKeeps(cfg: Config, s: Sys, step: Step)
    requires Inv(cfg, s) && !OfStore(step) && !OfEngine(step)
    ensures Inv(cfg, Exec(cfg, s, step))
  {
    match step
    case Precheck(rep, sid, stepId) => PrecheckKeeps(cfg, s, rep, sid, stepId);
    case Publish(call, acked) => PublishKeeps(cfg, s, call, acked);
    case Mark(call) => MarkKeeps(cfg, s, call);
    case MockPass(call) => MockPassKeeps(cfg, s, call);
    case DropCall(call) => DropCallKeeps(cfg, s, call);
    case Hint(rep, sid, stepId, level) => HintKeeps(cfg, s, rep, sid, stepId, level);
  }

  lemma {:induction false} StepKeeps(cfg: Config, s: Sys, step: Step)
    requires WellFormed(cfg) && Inv(cfg, s)
    ensures Inv(cfg, Exec(cfg, s, step))
  {
    if OfStore(step) {
      StoreStepKeeps(cfg, s, step);
    } else if OfEngine(step) {
      EngineStepKeeps(cfg, s, step);
    } else {
      LearnerStepKeeps(cfg, s, step);
    }
  }

  lemma {:induction false} RunKeeps(cfg: Config, steps: seq<Step>)
    requires WellFormed(cfg)
    ensures Inv(cfg, After(cfg, steps))
  {
    forall t: Sys, step: Step | Inv(cfg, t) ensures Inv(cfg, Machine(cfg)(t, step)) { StepKeeps(cfg, t, step); }
    Runs.KeptByRuns(Machine(cfg), t => Inv(cfg, t), START, steps);
  }

  // ------------------------------------------------------------ main results

  /** A state of this session that a replica answers from, that the tables hold, or that is being saved. */
  ghost predicate Holds(s: Sys, sid: string, ss: SessionSteps) {
    || (exists rep: nat :: (rep, sid) in s.cache && s.cache[(rep, sid)] == ss)
    || Load(s.db, sid) == Some(ss)
    || (sid, ss) in s.saves
  }

  lemma {:induction false} HeldGood(cfg: Config, steps: seq<Step>, sid: string, ss: SessionSteps)
    requires WellFormed(cfg) && Holds(After(cfg, steps), sid, ss)
    ensures Good(cfg, After(cfg, steps).known, After(cfg, steps).granted, sid, ss)
  {
    RunKeeps(cfg, steps);
    var s := After(cfg, steps);
    if Load(s.db, sid) == Some(ss) {
      assert RowOk(cfg, s.known, s.granted, s.db, s.had, sid);
    }
  }

  /** No learner gets ahead: a step has left `pending` only if every earlier step of that session has
      at some time received a passing verdict. */
  lemma {:induction false} StepsOpenInOrder(cfg: Config, steps: seq<Step>, sid: string, ss: SessionSteps)
    requires WellFormed(cfg) && Holds(After(cfg, steps), sid, ss)
    ensures forall i, j :: 0 <= j < i < |ss.steps| && ss.steps[i].status != Pending ==>
      (sid, ss.steps[j].stepId) in After(cfg, steps).granted
  {
    HeldGood(cfg, steps, sid, ss);
  }

  /** With a validator connected, a step is passed only if the engine at some time ran that step's whole,
      non-empty check list and every check passed. */
  lemma {:induction false} PassedOnlyIfChecked(cfg: Config, steps: seq<Step>, sid: string, ss: SessionSteps)
    requires WellFormed(cfg) && cfg.validator && Holds(After(cfg, steps), sid, ss)
    ensures forall i :: 0 <= i < |ss.steps| && ss.steps[i].status == Passed ==>
      Proved(cfg, After(cfg, steps).known, After(cfg, steps).executions, sid, ss.steps[i].stepId)
  {
    HeldGood(cfg, steps, sid, ss);
    RunKeeps(cfg, steps);
  }

  /** A completion row names a session of that user and lab, every step of which was proved. */
  lemma {:induction false} CompletionsEarned(cfg: Config, steps: seq<Step>, userId: string, labId: string)
    requires WellFormed(cfg) && cfg.validator && (userId, labId) in After(cfg, steps).completions
    ensures var s := After(cfg, steps);
      var sid := s.completions[(userId, labId)];
      && sid in s.known && s.known[sid] == Identity(labId, userId)
      && labId in cfg.labs && cfg.labs[labId] != []
      && forall i :: 0 <= i < |cfg.labs[labId]| ==> Proved(cfg, s.known, s.executions, sid, cfg.labs[labId][i].id)
  {
    RunKeeps(cfg, steps);
    var s := After(cfg, steps);
    assert FinishedOk(cfg, s.known, s.granted, Finished(s.completions[(userId, labId)], userId, labId));
  }

  lemma StoreStepCompletions(cfg: Config, s: Sys, step: Step)
    requires OfStore(step)
    ensures Exec(cfg, s, step).completions == s.completions
  {
  }

  lemma CompletionKept(cfg: Config, s: Sys, step: Step, key: (string, string))
    requires key in s.completions
    ensures key in Exec(cfg, s, step).completions && Exec(cfg, s, step).completions[key] == s.completions[key]
  {
    if OfStore(step) { StoreStepCompletions(cfg, s, step); }
  }

  /** Later completions never change a completion row. */
  lemma {:induction false} CompletionsStay(cfg: Config, steps: seq<Step>, more: seq<Step>, key: (string, string))
    requires key in After(cfg, steps).completions
    ensures key in After(cfg, steps + more).completions
    ensures After(cfg, steps + more).completions[key] == After(cfg, steps).completions[key]
    decreases |more|
  {
    if more == [] {
      assert steps + more == steps;
    } else {
      var init, last := more[..|more| - 1], more[|more| - 1];
      assert steps + more == (steps + init) + [last];
      CompletionsStay(cfg, steps, init, key);
      CompletionKept(cfg, After(cfg, steps + init), last, key);
      Runs.AfterOne(Machine(cfg), START, steps + init, last);
    }
  }

  /** The tables always hold one whole snapshot that the session really had, never a mix of two, in
      whatever order its saves arrive or get lost. */
  lemma {:induction false} RowsAreOneSnapshot(cfg: Config, steps: seq<Step>, sid: string)
    requires WellFormed(cfg) && sid in After(cfg, steps).db.headers
    ensures var s := After(cfg, steps);
      (sid, Load(s.db, sid).value) in s.had && Whole(cfg, Load(s.db, sid).value)
  {
    RunKeeps(cfg, steps);
    var s := After(cfg, steps);
    assert RowOk(cfg, s.known, s.granted, s.db, s.had, sid);
  }
}
