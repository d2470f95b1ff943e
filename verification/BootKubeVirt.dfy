/** Counting the boot result of one session namespace (syncBootStatus in
    apps/api/internal/kubevirt/watcher.go), called by the event watcher, by status polls and by the reaper
    on any number of replicas. The marks are namespace annotations, written by a conditional update. */
module BootKubeVirt {
  import Runs

  datatype Phase = Running | Failed | Succeeded | TimedOut | OtherPhase

  /** What syncBootStatus looks at; `started`: the started-at annotation parses. */
  datatype Namespace = Namespace(managed: bool, started: bool, ready: bool, recorded: bool)

  datatype Mark = ReadyMark | FailureMark

  datatype Call =
    | Read(version: nat, phase: Phase)
    | Wrote(mark: Mark, started: bool)
    | Over

  /** `history[v]` is the namespace at resource version v, the last one current; `marks` is
      history: the annotation writes in the order they took effect. */
  datatype Cluster = Cluster(
    history: seq<Namespace>,
    deleted: bool,
    calls: map<nat, Call>,
    marks: seq<Mark>,
    successes: nat,
    failures: nat)

  datatype Step =
    | Get(c: nat, version: nat, phase: Phase)
    | Update(c: nat, answered: bool)
    | Count(c: nat)
    | Crash(c: nat)
    | OtherWrite(managed: bool, started: bool)
    | Delete

  predicate Created(s: Cluster) {
    && |s.history| == 1 && !s.history[0].ready && !s.history[0].recorded
    && s.calls == map[] && s.marks == [] && s.successes == 0 && s.failures == 0
  }

  datatype Intent = Nothing | Write(mark: Mark)

  /** What the call would write, from the version it read. */
  function Wanted(ns: Namespace, phase: Phase): Intent {
    if !ns.managed then Nothing
    else
      match phase
      case Running => if ns.ready then Nothing else Write(ReadyMark)
      case OtherPhase => Nothing
      case _ => if ns.ready || ns.recorded then Nothing else Write(FailureMark)
  }

  function WithMark(ns: Namespace, mark: Mark): Namespace {
    match mark
    case ReadyMark => ns.(ready := true)
    case FailureMark => ns.(recorded := true)
  }

  function Written(s: Cluster, ns: Namespace, mark: Mark): Cluster {
    s.(history := s.history + [WithMark(ns, mark)], marks := s.marks + [mark])
  }

  function Move(s: Cluster, c: nat, call: Call): Cluster {
    s.(calls := s.calls[c := call])
  }

  /** A read may return any version so far. */
  function DoGet(s: Cluster, c: nat, version: nat, phase: Phase): Cluster {
    if c in s.calls || version >= |s.history| then s else Move(s, c, Read(version, phase))
  }

  /** The update is refused unless the version read is still current. */
  function DoUpdate(s: Cluster, c: nat, answered: bool): Cluster {
    if c !in s.calls || !s.calls[c].Read? || s.calls[c].version >= |s.history| then s
    else
      var version := s.calls[c].version;
      var ns := s.history[version];
      var wanted := Wanted(ns, s.calls[c].phase);
      if wanted == Nothing || s.deleted || version + 1 != |s.history| then Move(s, c, Over)
      else Move(Written(s, ns, wanted.mark), c, if answered then Wrote(wanted.mark, ns.started) else Over)
  }

  function DoCount(s: Cluster, c: nat): Cluster {
    if c !in s.calls || !s.calls[c].Wrote? then s
    else
      match s.calls[c].mark
      case ReadyMark => Move(if s.calls[c].started then s.(successes := s.successes + 1) else s, c, Over)
      case FailureMark => Move(s.(failures := s.failures + 1), c, Over)
  }

  /** Writers of other fields start from the current version too, so they carry the marks along. */
  function DoOtherWrite(s: Cluster, managed: bool, started: bool): Cluster {
    if s.deleted || s.history == [] then s
    else s.(history := s.history + [s.history[|s.history| - 1].(managed := managed, started := started)])
  }

  function Exec(s: Cluster, step: Step): Cluster {
    match step
    case Get(c, version, phase) => DoGet(s, c, version, phase)
    case Update(c, answered) => DoUpdate(s, c, answered)
    case Count(c) => DoCount(s, c)
    case Crash(c) => Move(s, c, Over)
    case OtherWrite(managed, started) => DoOtherWrite(s, managed, started)
    case Delete => s.(deleted := true)
  }

  const MACHINE: (Cluster, Step) -> Cluster := (s, step) => Exec(s, step)

  ghost function After(s: Cluster, steps: seq<Step>): Cluster {
    Runs.After(MACHINE, s, steps)
  }

  // -------------------------------------------------------------- invariant

  /** At most one ready mark, at most one failure mark, and no failure after ready. */
  predicate Lawful(marks: seq<Mark>) {
    marks == [] || marks == [ReadyMark] || marks == [FailureMark] || marks == [FailureMark, ReadyMark]
  }

  predicate Pending(s: Cluster, c: nat, mark: Mark) {
    c in s.calls && s.calls[c].Wrote? && s.calls[c].mark == mark
  }

  /** A mark has been counted at most once, and not while its writer is still about to count it. */
  ghost predicate CountedOnce(s: Cluster, mark: Mark, count: nat) {
    && (mark !in s.marks ==> count == 0 && forall c :: !Pending(s, c, mark))
    && count <= 1
    && (forall c :: Pending(s, c, mark) ==> count == 0)
    && (forall c, d :: Pending(s, c, mark) && Pending(s, d, mark) ==> c == d)
  }

  /** The current annotations say which marks were written. */
  predicate Marked(s: Cluster) {
    && s.history != [] && Lawful(s.marks)
    && (s.history[|s.history| - 1].ready <==> ReadyMark in s.marks)
    && (s.history[|s.history| - 1].recorded <==> FailureMark in s.marks)
  }

  ghost predicate Inv(s: Cluster) {
    && Marked(s)
    && CountedOnce(s, ReadyMark, s.successes)
    && CountedOnce(s, FailureMark, s.failures)
  }

  lemma WrittenKeeps(s: Cluster, phase: Phase)
    requires Marked(s)
    ensures var ns := s.history[|s.history| - 1]; var wanted := Wanted(ns, phase);
      wanted.Write? ==> wanted.mark !in s.marks && Marked(Written(s, ns, wanted.mark))
  {
  }

  lemma OverKeeps(s: Cluster, c: nat)
    requires Inv(s)
    ensures Inv(Move(s, c, Over))
  {
    var s' := Move(s, c, Over);
    forall d, mark | Pending(s', d, mark) ensures Pending(s, d, mark) {}
  }

  /** The writer of a new mark is the only one that will count it. */
  lemma WroteKeeps(s: Cluster, s': Cluster, c: nat, written: Mark, mark: Mark, count: nat)
    requires CountedOnce(s, mark, count) && c in s.calls && s.calls[c].Read?
    requires s'.marks == s.marks + [written] && written !in s.marks
    requires forall d :: Pending(s', d, mark) ==> Pending(s, d, mark) || (d == c && mark == written)
    ensures CountedOnce(s', mark, count)
  {
  }

  lemma MarkWritten(s: Cluster, c: nat, ns: Namespace, mark: Mark, answered: bool)
    requires Inv(s) && c in s.calls && s.calls[c].Read? && mark !in s.marks && Marked(Written(s, ns, mark))
    ensures Inv(Move(Written(s, ns, mark), c, if answered then Wrote(mark, ns.started) else Over))
  {
    var s' := Move(Written(s, ns, mark), c, if answered then Wrote(mark, ns.started) else Over);
    WroteKeeps(s, s', c, mark, ReadyMark, s.successes);
    WroteKeeps(s, s', c, mark, FailureMark, s.failures);
  }

  /** A call that finds its version current writes its mark. */
  lemma MarkKeeps(s: Cluster, c: nat, phase: Phase, answered: bool)
    requires Inv(s) && c in s.calls && s.calls[c].Read?
    ensures var ns := s.history[|s.history| - 1]; var wanted := Wanted(ns, phase);
      wanted.Write? ==>
        Inv(Move(Written(s, ns, wanted.mark), c, if answered then Wrote(wanted.mark, ns.started) else Over))
  {
    var ns := s.history[|s.history| - 1];
    WrittenKeeps(s, phase);
    if Wanted(ns, phase).Write? { MarkWritten(s, c, ns, Wanted(ns, phase).mark, answered); }
  }

  lemma UpdateKeeps(s: Cluster, c: nat, answered: bool)
    requires Inv(s)
    ensures Inv(DoUpdate(s, c, answered))
  {
    OverKeeps(s, c);
    if c in s.calls && s.calls[c].Read? { MarkKeeps(s, c, s.calls[c].phase, answered); }
  }

  lemma CountKeeps(s: Cluster, c: nat)
    requires Inv(s)
    ensures Inv(DoCount(s, c))
  {
    var s' := DoCount(s, c);
    forall d, mark | Pending(s', d, mark) ensures Pending(s, d, mark) {}
    if c in s.calls && s.calls[c].Wrote? { assert Pending(s, c, s.calls[c].mark); }
  }

  lemma StepKeeps(s: Cluster, step: Step)
    requires Inv(s)
    ensures Inv(Exec(s, step))
  {
    match step
    case Update(c, answered) => UpdateKeeps(s, c, answered);
    case Count(c) => CountKeeps(s, c);
    case Crash(c) => OverKeeps(s, c);
    case _ =>
      var s' := Exec(s, step);
      forall d, mark | Pending(s', d, mark) ensures Pending(s, d, mark) {}
  }

  /** Over every interleaving, with stale reads, lost replies, other writers and deletion, the namespace
      gives at most one success and one failure, and no failure mark is written after ready-at. */
  lemma BootMarksOnce(s: Cluster, steps: seq<Step>)
    requires Created(s)
    ensures Inv(After(s, steps)) && Lawful(After(s, steps).marks)
    ensures After(s, steps).successes <= 1 && After(s, steps).failures <= 1
  {
    forall t: Cluster, step: Step | Inv(t) ensures Inv(MACHINE(t, step)) { StepKeeps(t, step); }
    Runs.KeptByRuns(MACHINE, t => Inv(t), s, steps);
  }

  // ---------------------------------------------------- every lawful log occurs

  /** What an update does whose version is current. */
  lemma UpdateWrites(s: Cluster, c: nat)
    requires s.history != [] && !s.deleted && c in s.calls && s.calls[c].Read? && s.calls[c].version + 1 == |s.history|
    ensures var ns := s.history[|s.history| - 1]; var wanted := Wanted(ns, s.calls[c].phase);
      DoUpdate(s, c, true) ==
        if wanted == Nothing then Move(s, c, Over)
        else Move(Written(s, ns, wanted.mark), c, Wrote(wanted.mark, ns.started))
  {
  }

  /** One undisturbed call. */
  lemma CallCounts(s: Cluster, t: Cluster, c: nat, phase: Phase) returns (t': Cluster)
    requires Runs.Reaches(MACHINE, s, t) && t.history != [] && !t.deleted && c !in t.calls
    requires Wanted(t.history[|t.history| - 1], phase).Write?
    ensures Runs.Reaches(MACHINE, s, t') && !t'.deleted && t'.calls.Keys == t.calls.Keys + {c}
    ensures var ns := t.history[|t.history| - 1]; var mark := Wanted(ns, phase).mark;
      && t'.marks == t.marks + [mark]
      && t'.history == t.history + [WithMark(ns, mark)]
      && t'.successes == t.successes + (if mark == ReadyMark && ns.started then 1 else 0)
      && t'.failures == t.failures + (if mark == FailureMark then 1 else 0)
  {
    var version := |t.history| - 1;
    Runs.ReachesNext(MACHINE, s, t, Get(c, version, phase));
    var t1 := DoGet(t, c, version, phase);
    Runs.ReachesNext(MACHINE, s, t1, Update(c, true));
    UpdateWrites(t1, c);
    var t2 := DoUpdate(t1, c, true);
    Runs.ReachesNext(MACHINE, s, t2, Count(c));
    t' := DoCount(t2, c);
  }

  ghost predicate Occurs(s: Cluster, marks: seq<Mark>) {
    exists t :: Runs.Reaches(MACHINE, s, t) && t.marks == marks
  }

  /** The annotation logs that occur are exactly the lawful ones: a success after a recorded failure
      included, a failure after ready excluded. */
  lemma LawfulExact(s: Cluster, marks: seq<Mark>)
    requires Created(s) && s.history[0].managed && !s.deleted
    ensures Occurs(s, marks) <==> Lawful(marks)
  {
    if Occurs(s, marks) {
      var t :| Runs.Reaches(MACHINE, s, t) && t.marks == marks;
      var steps: seq<Step> :| Runs.After(MACHINE, s, steps) == t;
      BootMarksOnce(s, steps);
    }
    Runs.ReachesSelf(MACHINE, s);
    var ready := CallCounts(s, s, 0, Running);
    var failed := CallCounts(s, s, 0, TimedOut);
    var both := CallCounts(s, failed, 1, Running);
    assert s.marks == [] && ready.marks == [ReadyMark];
    assert failed.marks == [FailureMark] && both.marks == [FailureMark, ReadyMark];
  }

  // ------------------------------------------------ crashes, deletion, other writers

  /** Once a namespace is deleted nothing is written to it any more, in any run. */
  lemma DeletedStaysAsItWas(s: Cluster, steps: seq<Step>)
    ensures var t := After(Exec(s, Delete), steps); t.marks == s.marks && t.history == s.history
  {
    Runs.KeptByRuns(
      MACHINE, (t: Cluster) => t.deleted && t.marks == s.marks && t.history == s.history, Exec(s, Delete), steps);
  }

  /** A call that crashed neither writes nor counts. */
  lemma CrashedIsOver(s: Cluster, c: nat, answered: bool)
    ensures var t := Exec(s, Crash(c)); Exec(t, Update(c, answered)) == t && Exec(t, Count(c)) == t
  {
  }

  /** Another writer carries the marks along, and a call that read before it is refused. */
  lemma OverwrittenIsRefused(s: Cluster, c: nat, managed: bool, started: bool, answered: bool)
    requires !s.deleted && s.history != [] && c in s.calls && s.calls[c].Read? && s.calls[c].version < |s.history|
    ensures var t := Exec(s, OtherWrite(managed, started));
      var last, now := s.history[|s.history| - 1], t.history[|t.history| - 1];
      && now.ready == last.ready && now.recorded == last.recorded && now.managed == managed && now.started == started
      && Exec(t, Update(c, answered)).history == t.history && Exec(t, Update(c, answered)).marks == s.marks
  {
  }

  // ------------------------------------------------------------- one whole call

  function WholeCall(s: Cluster, version: nat, phase: Phase, answered: bool): Cluster {
    DoCount(DoUpdate(DoGet(s, 0, version, phase), 0, answered), 0)
  }

  lemma WholeCallEffect(s: Cluster, version: nat, phase: Phase, answered: bool)
    requires s.calls == map[] && version < |s.history|
    ensures var ns, t := s.history[version], WholeCall(s, version, phase, answered);
      var wanted := Wanted(ns, phase);
      if wanted.Write? && !s.deleted && version + 1 == |s.history| then
        && t.history == s.history + [WithMark(ns, wanted.mark)]
        && t.successes == s.successes + (if answered && wanted.mark == ReadyMark && ns.started then 1 else 0)
        && t.failures == s.failures + (if answered && wanted.mark == FailureMark then 1 else 0)
      else t.history == s.history && t.successes == s.successes && t.failures == s.failures
  {
  }

  /** The namespace as replicas share it, with the boot counters. */
  class SharedNamespace {
    var history: seq<Namespace>
    var deleted: bool
    var successes: nat
    var failures: nat

    constructor (ns: Namespace)
      ensures history == [ns] && !deleted && successes == 0 && failures == 0
    {
      history, deleted, successes, failures := [ns], false, 0, 0;
    }

    /** syncBootStatus with its read of some version and its update at one later moment does what the
        machine's three steps do; it reports an error exactly when it had something to write and the
        write was refused or unanswered, and then counts nothing. */
    method SyncBootStatus(version: nat, phase: Phase, answered: bool) returns (err: bool)
      requires version < |history|
      modifies this
      ensures var start := Cluster(old(history), deleted, map[], [], old(successes), old(failures));
        var s := WholeCall(start, version, phase, answered);
        history == s.history && successes == s.successes && failures == s.failures
      ensures deleted == old(deleted)
      ensures err <==>
        && Wanted(old(history)[version], phase) != Nothing
        && (deleted || version + 1 != |old(history)| || !answered)
      ensures err ==> successes == old(successes) && failures == old(failures)
      ensures Wanted(old(history)[version], phase) == Nothing ==> unchanged(this)
      ensures var ns := old(history)[version];
        !ns.managed || phase == OtherPhase || ns.ready || (phase != Running && ns.recorded) ==> !err && unchanged(this)
      ensures var ns := old(history)[version];
        ns.managed && phase == Running && !ns.ready ==>
          if deleted || version + 1 != |old(history)| then err && unchanged(this)
          else
            && history == old(history) + [ns.(ready := true)] && err == !answered
            && successes == old(successes) + (if answered && ns.started then 1 else 0) && failures == old(failures)
      ensures var ns := old(history)[version];
        ns.managed && phase in {Failed, Succeeded, TimedOut} && !ns.ready && !ns.recorded ==>
          if deleted || version + 1 != |old(history)| then err && unchanged(this)
          else
            && history == old(history) + [ns.(recorded := true)] && err == !answered
            && failures == old(failures) + (if answered then 1 else 0) && successes == old(successes)
    {
      WholeCallEffect(Cluster(history, deleted, map[], [], successes, failures), version, phase, answered);
      var ns := history[version];
      if !ns.managed { return false; }
      match phase {
        case Running =>
          if ns.ready { return false; }
          err := ConditionalUpdate(version, ns.(ready := true), answered);
          if !err && ns.started { successes := successes + 1; }
        case OtherPhase =>
          err := false;
        case _ =>
          if ns.ready || ns.recorded { return false; }
          err := ConditionalUpdate(version, ns.(recorded := true), answered);
          if !err { failures := failures + 1; }
      }
    }

    /** The API server's optimistic concurrency check. */
    method ConditionalUpdate(version: nat, ns: Namespace, answered: bool) returns (err: bool)
      modifies this`history
      ensures history == if deleted || version + 1 != |old(history)| then old(history) else old(history) + [ns]
      ensures err <==> deleted || version + 1 != |old(history)| || !answered
    {
      if deleted || version + 1 != |history| { return true; }
      history := history + [ns];
      err := !answered;
    }
  }
}
