/** What the steps of the protocol that change a learner's progress do to it, and to nothing else
    (apps/api/internal/api/handlers/session.go and hint.go). */
module ProtocolSteps {
  import opened Options
  import opened Progress
  import opened ProgressStore
  import opened StepStores
  import opened Engine
  import opened ValidationProtocol
  import opened ValidationSafety

  /** One entry changes, and its snapshot leaves for the tables; these parts of the system stay. */
  predicate Rewrites(cfg: Config, s: Sys, s': Sys, rep: nat, sid: string, ss: SessionSteps) {
    && s'.cache == s.cache[(rep, sid) := ss]
    && s'.saves == (if cfg.hasDb then s.saves + {(sid, ss)} else s.saves) && s'.had == s.had + {(sid, ss)}
    && s'.known == s.known && s'.loads == s.loads && s'.db == s.db && s'.requests == s.requests
    && s'.position == s.position && s'.committed == s.committed && s'.results == s.results
    && s'.executions == s.executions && s'.completions == s.completions
  }

  /** The lab is noted as finished exactly if every step is passed now. */
  predicate Notes(s: Sys, s': Sys, sid: string, ss: SessionSteps, passed: bool) {
    s'.finishing ==
      if passed && AllPassed(ss) then s.finishing + {Finished(sid, ss.userId, ss.labId)} else s.finishing
  }

  /** A mark after a publish: the step is being validated, with one more attempt and no checks. */
  lemma MarkStep(cfg: Config, s: Sys, call: Call)
    requires call in s.calls && call.published && Available(s, call.rep, call.sid)
    requires 0 <= call.idx < |s.cache[(call.rep, call.sid)].steps|
    ensures var s', key := Exec(cfg, s, Mark(call)), (call.rep, call.sid);
      && key in s'.cache && MarkedAt(s.cache[key], s'.cache[key], call.idx)
      && Rewrites(cfg, s, s', call.rep, call.sid, s'.cache[key])
      && s'.calls == s.calls - {call} && s'.granted == s.granted && s'.finishing == s.finishing
  {
    MarkMeans(s.cache[(call.rep, call.sid)], call.idx);
  }

  /** An index out of range marks nothing and saves nothing. */
  lemma MarkOutOfRange(cfg: Config, s: Sys, call: Call)
    requires call in s.calls && call.published && Available(s, call.rep, call.sid)
    requires !(0 <= call.idx < |s.cache[(call.rep, call.sid)].steps|)
    ensures Exec(cfg, s, Mark(call)) == s.(calls := s.calls - {call})
  {
  }

  lemma WriteRewrites(cfg: Config, s: Sys, rep: nat, sid: string, ss: SessionSteps, passed: bool)
    ensures var written := Write(cfg, s, rep, sid, ss);
      var s' := if passed then Finish(written, sid, ss) else written;
      && Rewrites(cfg, s, s', rep, sid, ss) && Notes(s, s', sid, ss, passed)
      && s'.calls == s.calls && s'.granted == s.granted
  {
  }

  lemma MockWrites(cfg: Config, s: Sys, call: Call)
    requires call in s.calls && !call.published && !cfg.validator && !cfg.release && Available(s, call.rep, call.sid)
    requires 0 <= call.idx < |s.cache[(call.rep, call.sid)].steps|
    ensures var ss := WithMockPass(s.cache[(call.rep, call.sid)], call.idx);
      var before := s.(calls := s.calls - {call}, granted := s.granted + {(call.sid, call.stepId)});
      Exec(cfg, s, MockPass(call)) == Finish(Write(cfg, before, call.rep, call.sid, ss), call.sid, ss)
  {
  }

  /** A pass without a validator. */
  lemma MockStep(cfg: Config, s: Sys, call: Call)
    requires call in s.calls && !call.published && !cfg.validator && !cfg.release && Available(s, call.rep, call.sid)
    requires 0 <= call.idx < |s.cache[(call.rep, call.sid)].steps|
    ensures var s', key := Exec(cfg, s, MockPass(call)), (call.rep, call.sid);
      && key in s'.cache && PassedAt(s.cache[key], s'.cache[key], call.idx)
      && Rewrites(cfg, s, s', call.rep, call.sid, s'.cache[key])
      && s'.calls == s.calls - {call} && s'.granted == s.granted + {(call.sid, call.stepId)}
      && Notes(s, s', call.sid, s'.cache[key], true)
  {
    var ss := WithMockPass(s.cache[(call.rep, call.sid)], call.idx);
    var before := s.(calls := s.calls - {call}, granted := s.granted + {(call.sid, call.stepId)});
    MockPassMeans(s.cache[(call.rep, call.sid)], call.idx);
    MockWrites(cfg, s, call);
    WriteRewrites(cfg, before, call.rep, call.sid, ss, true);
  }

  lemma DeliverWrites(cfg: Config, s: Sys, rep: nat, k: nat)
    requires k < |s.results| && Available(s, rep, s.results[k].sid)
    requires s.results[k].stepId in Ids(s.cache[(rep, s.results[k].sid)].steps)
    ensures var v := s.results[k];
      var ss := Judge(s.cache[(rep, v.sid)], v);
      var written := Write(cfg, s, rep, v.sid, ss);
      Exec(cfg, s, Deliver(rep, k)) == if v.passed then Finish(written, v.sid, ss) else written
  {
  }

  /** A verdict, whenever it is delivered. */
  lemma DeliverStep(cfg: Config, s: Sys, rep: nat, k: nat)
    requires k < |s.results| && Available(s, rep, s.results[k].sid)
    requires s.results[k].stepId in Ids(s.cache[(rep, s.results[k].sid)].steps)
    ensures var s', v := Exec(cfg, s, Deliver(rep, k)), s.results[k];
      var key := (rep, v.sid);
      && key in s'.cache
      && JudgedAt(s.cache[key], s'.cache[key], IndexOf(Ids(s.cache[key].steps), v.stepId), v.passed, v.checks)
      && Rewrites(cfg, s, s', rep, v.sid, s'.cache[key])
      && s'.calls == s.calls && s'.granted == s.granted && Notes(s, s', v.sid, s'.cache[key], v.passed)
  {
    var v := s.results[k];
    var ss := Judge(s.cache[(rep, v.sid)], v);
    JudgeMeans(s.cache[(rep, v.sid)], v);
    DeliverWrites(cfg, s, rep, k);
    WriteRewrites(cfg, s, rep, v.sid, ss, v.passed);
  }

  /** A hint: the step's level rises, or nothing happens. */
  lemma HintStep(cfg: Config, s: Sys, rep: nat, sid: string, stepId: int, explicit: int, level: int)
    requires Available(s, rep, sid)
    requires LevelFor(s.cache[(rep, sid)], IndexOf(Ids(s.cache[(rep, sid)].steps), stepId), explicit, level)
    ensures var s', ss := Exec(cfg, s, Hint(rep, sid, stepId, explicit)), s.cache[(rep, sid)];
      var idx := IndexOf(Ids(ss.steps), stepId);
      if idx >= 0 && level > ss.steps[idx].hintLevel then
        && (rep, sid) in s'.cache && HintedAt(ss, s'.cache[(rep, sid)], idx, level)
        && Rewrites(cfg, s, s', rep, sid, s'.cache[(rep, sid)])
        && s'.calls == s.calls && s'.granted == s.granted && s'.finishing == s.finishing
      else s' == s
  {
    HintMeans(s.cache[(rep, sid)], stepId, explicit);
  }

  /** The order check: a request goes on exactly if its step is known and every earlier one is passed. */
  lemma PrecheckStep(cfg: Config, s: Sys, rep: nat, sid: string, stepId: int)
    requires Available(s, rep, sid)
    ensures var s', ss := Exec(cfg, s, Precheck(rep, sid, stepId)), s.cache[(rep, sid)];
      var idx := IndexOf(Ids(ss.steps), stepId);
      s' == if idx >= 0 && (forall j :: 0 <= j < idx ==> ss.steps[j].status == Passed)
            then s.(calls := s.calls + {Call(rep, sid, stepId, idx, false)}) else s
  {
  }

  /** A request that is not acknowledged may be in the topic all the same; its call ends there. */
  lemma PublishStep(cfg: Config, s: Sys, call: Call, acked: bool)
    requires call in s.calls && !call.published && cfg.validator
    ensures var s', checks := Exec(cfg, s, Publish(call, acked)), CheckList(cfg, s.known, call.sid, call.stepId);
      if checks == [] then s' == s
      else
        && s'.requests == s.requests + [Request(call.sid, call.stepId, checks)]
        && (call.(published := true) in s'.calls <==> acked || call.(published := true) in s.calls)
        && call !in s'.calls && s' == s.(requests := s'.requests, calls := s'.calls)
  {
  }

  /** The engine answers the request at its position: the verdict may be in the topic although the publish was
      not acknowledged, and then the request is read again from the committed offset. */
  lemma TurnStep(cfg: Config, s: Sys, execOk: bool, vm: Vm, written: bool, acked: bool)
    requires s.position < |s.requests|
    ensures var s', req := Exec(cfg, s, EngineTurn(execOk, vm, written, acked)), s.requests[s.position];
      && s'.position == (if acked then s.position + 1 else s.committed) && s'.committed == s.committed
      && s'.requests == s.requests
      && (if written || acked then
            && |s'.results| == |s.results| + 1 && s'.results[..|s.results|] == s.results
            && Earned(req, execOk, vm, s'.results[|s.results|])
            && s'.granted ==
                 if s'.results[|s.results|].passed then s.granted + {(req.sid, req.stepId)} else s.granted
          else s'.results == s.results && s'.granted == s.granted)
  {
  }

  /** A load between whose queries nothing happens finds the session as the tables have it. */
  lemma LoadSteps(cfg: Config, s: Sys, rep: nat, sid: string)
    requires cfg.hasDb && (rep, sid) !in s.cache && rep !in s.loads && sid in s.db.headers
    ensures var s' := Exec(cfg, Exec(cfg, s, BeginLoad(rep, sid)), EndLoad(rep));
      s' == s.(cache := s.cache[(rep, sid) := Load(s.db, sid).value])
  {
    var s1 := Exec(cfg, s, BeginLoad(rep, sid));
    assert s1.loads - {rep} == s.loads;
  }

  lemma CommitWrites(cfg: Config, s: Sys, sid: string, ss: SessionSteps)
    requires (sid, ss) in s.saves && (cfg.overtaking || InOrder(s.db, sid, ss))
    ensures var s' := Exec(cfg, s, CommitSave(sid, ss));
      && s'.db == SaveTx(s.db, sid, ss) && s'.saves == s.saves - {(sid, ss)}
      && s'.cache == s.cache && s'.calls == s.calls && s'.granted == s.granted
  {
  }

  /** In every reachable state a save that commits makes the rows that snapshot, whatever they were, and
      touches no other session. */
  lemma CommitStep(cfg: Config, s: Sys, sid: string, ss: SessionSteps, other: string)
    requires WellFormed(cfg) && Inv(cfg, s) && (sid, ss) in s.saves && (cfg.overtaking || InOrder(s.db, sid, ss))
    ensures var s' := Exec(cfg, s, CommitSave(sid, ss));
      && Load(s'.db, sid) == Some(ss) && (other != sid ==> Load(s'.db, other) == Load(s.db, other))
      && s'.saves == s.saves - {(sid, ss)} && s'.cache == s.cache && s'.calls == s.calls && s'.granted == s.granted
  {
    CommitWrites(cfg, s, sid, ss);
    assert Good(cfg, s.known, s.granted, sid, ss);
    SavedRow(cfg, s.known, s.granted, s.db, s.had, sid, ss);
    if other != sid { SaveElsewhere(s.db, sid, ss, other); }
  }

  /** A new session: the lab's first step open, in the tables and, if the reply arrives, in the cache. */
  lemma CreateStep(cfg: Config, s: Sys, rep: nat, sid: string, id: Identity, cached: bool)
    requires WellFormed(cfg) && sid !in s.known && id.labId in cfg.labs && rep !in s.loads
    requires sid !in s.db.headers && sid !in s.db.steps
    ensures var s' := Exec(cfg, s, Create(rep, sid, id.labId, id.userId, cached));
      && s'.known == s.known[sid := id]
      && (cfg.hasDb ==>
            && Load(s'.db, sid).Some?
            && Begins(Load(s'.db, sid).value, id.labId, id.userId, LabIds(cfg.labs[id.labId])))
      && (if cached || !cfg.hasDb then
            && (rep, sid) in s'.cache && s'.cache == s.cache[(rep, sid) := s'.cache[(rep, sid)]]
            && Begins(s'.cache[(rep, sid)], id.labId, id.userId, LabIds(cfg.labs[id.labId]))
          else s'.cache == s.cache)
  {
    SaveLoadRoundTrip(s.db, sid, InitialFor(cfg, id));
  }

  /** The first completion of a lab by a user is the one that stays. */
  lemma RecordStep(cfg: Config, s: Sys, done: Finished)
    requires done in s.finishing && cfg.hasDb && done.userId != "" && done.labId != ""
    ensures var s', key := Exec(cfg, s, RecordCompletion(done, true)), (done.userId, done.labId);
      && s'.completions.Keys == s.completions.Keys + {key}
      && s'.completions[key] == (if key in s.completions then s.completions[key] else done.sid)
      && (forall k :: k in s.completions ==> s'.completions[k] == s.completions[k])
      && s'.finishing == s.finishing - {done}
  {
  }

  /** A restarted replica has lost its cache, its loads and its calls, and nothing else has. */
  lemma RestartStep(cfg: Config, s: Sys, rep: nat)
    ensures var s' := Exec(cfg, s, RestartApi(rep));
      && (forall k :: k in s'.cache <==> k in s.cache && k.0 != rep)
      && (forall k :: k in s'.cache ==> s'.cache[k] == s.cache[k])
      && (forall c :: c in s'.calls <==> c in s.calls && c.rep != rep)
      && s' == s.(cache := s'.cache, loads := s.loads - {rep}, calls := s'.calls)
  {
  }

  /** Without tables a replica that does not know a session begins it again from its lab. */
  lemma RecoverStep(cfg: Config, s: Sys, rep: nat, sid: string)
    requires !cfg.hasDb && sid in s.known && s.known[sid].labId in cfg.labs && rep !in s.loads
    ensures var s', id := Exec(cfg, s, Recover(rep, sid)), s.known[sid];
      && (rep, sid) in s'.cache && Begins(s'.cache[(rep, sid)], id.labId, id.userId, LabIds(cfg.labs[id.labId]))
      && Rewrites(cfg, s, s', rep, sid, s'.cache[(rep, sid)])
  {
  }

  /** What gets lost is gone, and nothing else: an entry, a save on its way, a call, a session's rows. */
  lemma LossSteps(cfg: Config, s: Sys, rep: nat, sid: string, ss: SessionSteps, call: Call)
    ensures rep !in s.loads ==> Exec(cfg, s, Evict(rep, sid)) == s.(cache := s.cache - {(rep, sid)})
    ensures Exec(cfg, s, DropSave(sid, ss)) == s.(saves := s.saves - {(sid, ss)})
    ensures Exec(cfg, s, DropCall(call)) == s.(calls := s.calls - {call})
    ensures var s' := Exec(cfg, s, DeleteRows(sid));
      Load(s'.db, sid) == None && sid !in s'.db.steps && s' == s.(db := s'.db, loads := s'.loads)
    ensures forall other :: other != sid ==> Load(Exec(cfg, s, DeleteRows(sid)).db, other) == Load(s.db, other)
  {
  }
}
