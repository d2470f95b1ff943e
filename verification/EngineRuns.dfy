/** The engine's consume/commit loop (apps/validation-engine/internal/consumer/consumer.go) inside the whole
    protocol: every life of the loop over the requests topic is a run of the protocol's engine steps. */
module EngineRuns {
  import opened Progress
  import opened StepStores
  import opened Engine
  import opened ValidationProtocol
  import Runs

  /** The requests topic as the consumer reads it. */
  function Topic(s: Sys): (topic: seq<Msg>)
    ensures |topic| == |s.requests| && forall k :: 0 <= k < |topic| ==> topic[k] == Parsed(s.requests[k])
  {
    seq(|s.requests|, k requires 0 <= k < |s.requests| => Parsed(s.requests[k]))
  }

  /** The verdicts of a list, in order. */
  function Verdicts(results: seq<(nat, Verdict)>): (vs: seq<Verdict>)
    ensures |vs| == |results| && forall i :: 0 <= i < |vs| ==> vs[i] == results[i].1
  {
    seq(|results|, i requires 0 <= i < |results| => results[i].1)
  }

  /** The consumer's view of the system. */
  predicate Follows(e: State, s: Sys, earlier: seq<Verdict>) {
    e.position == s.position && e.committed == s.committed && s.results == earlier + Verdicts(e.results)
  }

  /** The engine reads and answers; everything else stays as it is. */
  predicate EngineOnly(s: Sys, s': Sys) {
    s' == s.(position := s'.position, committed := s'.committed, results := s'.results,
             executions := s'.executions, granted := s'.granted)
  }

  /** The real handler never breaks. */
  predicate Sturdy(script: seq<Turn>) {
    forall i :: 0 <= i < |script| ==> !script[i].broken
  }

  ghost predicate Leads(cfg: Config, s: Sys, s': Sys) {
    Runs.Reaches(Machine(cfg), s, s') && EngineOnly(s, s')
  }

  lemma LeadsOn(cfg: Config, s: Sys, t: Sys, u: Sys)
    requires Leads(cfg, s, t) && Leads(cfg, t, u)
    ensures Leads(cfg, s, u)
  {
    Runs.ReachesOn(Machine(cfg), s, t, u);
  }

  lemma TurnOnly(s: Sys, execOk: bool, vm: Vm, written: bool, acked: bool)
    ensures EngineOnly(s, DoEngineTurn(s, execOk, vm, written, acked))
  {
  }

  lemma StepOnly(cfg: Config, s: Sys, step: Step)
    requires step.EngineTurn? || step.EngineCommit? || step.EngineRestart?
    ensures EngineOnly(s, Exec(cfg, s, step))
  {
    if step.EngineTurn? { TurnOnly(s, step.execOk, step.vm, step.written, step.acked); }
  }

  lemma OneStep(cfg: Config, s: Sys, step: Step)
    requires step.EngineTurn? || step.EngineCommit? || step.EngineRestart?
    ensures Leads(cfg, s, Exec(cfg, s, step))
  {
    Runs.ReachesSelf(Machine(cfg), s);
    Runs.ReachesNext(Machine(cfg), s, s, step);
    StepOnly(cfg, s, step);
  }

  /** A life that is over is followed by a restart from the committed offset. */
  lemma Restarted(cfg: Config, s: Sys, e: State, earlier: seq<Verdict>) returns (s': Sys)
    requires Follows(e, s, earlier)
    ensures Leads(cfg, s, s') && Follows(Resume(e), s', earlier)
  {
    OneStep(cfg, s, EngineRestart);
    s' := Exec(cfg, s, EngineRestart);
  }

  /** A published verdict. */
  lemma Published(cfg: Config, s: Sys, e: State, earlier: seq<Verdict>, t: Turn) returns (s': Sys)
    requires Follows(e, s, earlier) && s.position < |s.requests| && !t.broken && t.publishOk
    ensures var settled := Settle(e, Topic(s)[e.position], t).0;
      Leads(cfg, s, s') && Follows(settled.(position := e.position + 1), s', earlier)
  {
    OneStep(cfg, s, EngineTurn(t.execOk, t.vm, true, true));
    s' := Exec(cfg, s, EngineTurn(t.execOk, t.vm, true, true));
    var v := VerdictOf(s.requests[s.position], t.execOk, t.vm);
    var settled := Settle(e, Topic(s)[e.position], t).0;
    assert settled.results == e.results + [(e.position, v)];
    assert Verdicts(settled.results) == Verdicts(e.results) + [v];
  }

  /** And the commit of its offset. */
  lemma Committed(cfg: Config, s: Sys, e: State, earlier: seq<Verdict>, ok: bool) returns (s': Sys)
    requires Follows(e.(position := e.position + 1), s, earlier) && e.committed <= e.position
    ensures Leads(cfg, s, s') && Follows(Commit(e, ok), s', earlier)
  {
    OneStep(cfg, s, EngineCommit(if ok then s.position else s.committed));
    s' := Exec(cfg, s, EngineCommit(if ok then s.position else s.committed));
  }

  /** A verdict that could not be published: the process ends and starts again. */
  lemma Unpublished(cfg: Config, s: Sys, e: State, earlier: seq<Verdict>, t: Turn) returns (s': Sys)
    requires Follows(e, s, earlier) && s.position < |s.requests|
    ensures Leads(cfg, s, s') && Follows(Resume(e), s', earlier)
  {
    OneStep(cfg, s, EngineTurn(t.execOk, t.vm, false, false));
    s' := Exec(cfg, s, EngineTurn(t.execOk, t.vm, false, false));
  }

  lemma TurnIsRun(cfg: Config, s: Sys, e: State, earlier: seq<Verdict>, t: Turn) returns (s': Sys)
    requires Follows(e, s, earlier) && e.committed <= e.position < |s.requests| && !t.broken
    ensures var (e', ending) := TurnStep(e, Topic(s)[e.position], t);
      Leads(cfg, s, s') && Follows(if ending == Continues then e' else Resume(e'), s', earlier)
  {
    if t.crash == CrashBeforeOutcome {
      s' := Restarted(cfg, s, e, earlier);
    } else if !t.publishOk {
      s' := Unpublished(cfg, s, e, earlier, t);
    } else {
      var settled := Settle(e, Topic(s)[e.position], t).0;
      var s1 := Published(cfg, s, e, earlier, t);
      if t.crash == CrashBeforeCommit {
        s' := Restarted(cfg, s1, settled.(position := e.position + 1), earlier);
        assert Resume(settled.(position := e.position + 1)) == Resume(settled);
      } else {
        s' := Committed(cfg, s1, settled, earlier, t.commitOk);
      }
      LeadsOn(cfg, s, s1, s');
    }
  }

  lemma {:induction false} LifeFrom(cfg: Config, s: Sys, e: State, earlier: seq<Verdict>, script: seq<Turn>)
      returns (s': Sys)
    requires Follows(e, s, earlier) && e.committed <= e.position && Sturdy(script)
    ensures Leads(cfg, s, s') && Follows(Resume(RunFrom(Topic(s), e, script).0), s', earlier)
    decreases |script|
  {
    if script == [] || e.position >= |s.requests| {
      s' := Restarted(cfg, s, e, earlier);
    } else {
      var (e', ending) := TurnStep(e, Topic(s)[e.position], script[0]);
      var s1 := TurnIsRun(cfg, s, e, earlier, script[0]);
      if ending == Continues {
        assert Topic(s1) == Topic(s);
        s' := LifeFrom(cfg, s1, e', earlier, script[1..]);
        LeadsOn(cfg, s, s1, s');
      } else {
        s' := s1;
      }
    }
  }

  /** Whatever crashes, failed publishes and failed commits a life of the consumer meets, the protocol has a run
      of engine steps that leaves the same verdicts in the results topic, in the same order, the same committed
      offset to resume from, and everything else as it was. */
  lemma LifeIsRun(cfg: Config, s: Sys, script: seq<Turn>) returns (s': Sys)
    requires s.position == s.committed && Sturdy(script)
    ensures var e := RunFrom(Topic(s), State(s.position, s.committed, [], [], []), script).0;
      && Runs.Reaches(Machine(cfg), s, s') && EngineOnly(s, s')
      && s'.results == s.results + Verdicts(e.results)
      && s'.position == s'.committed == e.committed
  {
    s' := LifeFrom(cfg, s, State(s.position, s.committed, [], [], []), s.results, script);
  }
}
