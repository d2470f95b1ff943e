/** The validation engine: request validation and verdicts (cmd/engine/main.go), the check runner
    (internal/checker/checker.go) and the consume/commit loop (internal/consumer/consumer.go). */
module Engine {
  import opened Options
  import opened Progress
  import opened StepStores

  const MAX_CHECKS := 20
  const DLQ_MAX_RETRIES := 3

  datatype Check = Check(
    kind: string, command: string, path: string, url: string, name: string, expect_: string, expectCode: int)

  datatype Request = Request(sid: string, stepId: int, checks: seq<Check>)

  /** What the VM answered when the i-th check of one validation was run. */
  type Vm = (nat, Check) -> CheckOutcome

  /** A machine on which every check passes. */
  const PASSING: Vm := (i: nat, c: Check) => CheckOutcome(c.kind, true, "")

  // ------------------------------------------------------------ one request

  predicate ValidCheck(c: Check) {
    match c.kind
    case "command" => c.command != ""
    case "file_exists" => c.path != ""
    case "dir_exists" => c.path != ""
    case "file_absent" => c.path != ""
    case "file_content" => c.path != "" && c.expect_ != ""
    case "file_content_absent" => c.path != "" && c.expect_ != ""
    case "process_running" => c.name != ""
    case "http_response" => c.url != "" && c.expectCode != 0
    case _ => false
  }

  datatype Field = Command | Path | Url | Name | Expect | ExpectCode

  /** The fields a check of each kind cannot do without. */
  const NEEDS: map<string, set<Field>> := map[
    "command" := {Command},
    "file_exists" := {Path},
    "dir_exists" := {Path},
    "file_absent" := {Path},
    "file_content" := {Path, Expect},
    "file_content_absent" := {Path, Expect},
    "process_running" := {Name},
    "http_response" := {Url, ExpectCode}]

  predicate Filled(c: Check, field: Field) {
    match field
    case Command => c.command != ""
    case Path => c.path != ""
    case Url => c.url != ""
    case Name => c.name != ""
    case Expect => c.expect_ != ""
    case ExpectCode => c.expectCode != 0
  }

  /** Of a known kind, and with the fields that kind needs. */
  predicate Complete(c: Check) {
    c.kind in NEEDS && forall field :: field in NEEDS[c.kind] ==> Filled(c, field)
  }

  lemma ValidCheckIff(c: Check)
    ensures ValidCheck(c) <==> Complete(c)
  {
    if Complete(c) {
      assert Command in NEEDS["command"] && Path in NEEDS["file_exists"] && Path in NEEDS["dir_exists"];
      assert Path in NEEDS["file_absent"] && Path in NEEDS["file_content"] && Expect in NEEDS["file_content"];
      assert Path in NEEDS["file_content_absent"] && Expect in NEEDS["file_content_absent"];
      assert Name in NEEDS["process_running"] && Url in NEEDS["http_response"] && ExpectCode in NEEDS["http_response"];
    }
  }

  predicate ValidRequest(req: Request) {
    && req.sid != "" && req.stepId > 0
    && 0 < |req.checks| <= MAX_CHECKS
    && forall i :: 0 <= i < |req.checks| ==> ValidCheck(req.checks[i])
  }

  /** A request the engine can run: it names a session and a step, and has one to twenty complete checks. */
  predicate Runnable(req: Request) {
    && req.sid != "" && req.stepId > 0 && 1 <= |req.checks| <= 20
    && forall i :: 0 <= i < |req.checks| ==> Complete(req.checks[i])
  }

  lemma ValidRequestIff(req: Request)
    ensures ValidRequest(req) <==> Runnable(req)
  {
    forall i | 0 <= i < |req.checks| ensures ValidCheck(req.checks[i]) <==> Complete(req.checks[i]) {
      ValidCheckIff(req.checks[i]);
    }
  }

  function Outcomes(checks: seq<Check>, vm: Vm): seq<CheckOutcome> {
    seq(|checks|, i requires 0 <= i < |checks| => vm(i, checks[i]))
  }

  predicate AllOk(outcomes: seq<CheckOutcome>) {
    forall i :: 0 <= i < |outcomes| ==> outcomes[i].passed
  }

  const REQUEST_ERROR := CheckOutcome("request_error", false, "")

  /** What a verdict says: the machine's answer to every check, passed or not, in order; or one error if the
      request cannot be run or the machine not be reached. */
  predicate Earned(req: Request, execOk: bool, vm: Vm, v: Verdict) {
    && v.sid == req.sid && v.stepId == req.stepId
    && if Runnable(req) && execOk then
         && |v.checks| == |req.checks|
         && (forall i :: 0 <= i < |req.checks| ==> v.checks[i] == vm(i, req.checks[i]))
         && (v.passed <==> forall i :: 0 <= i < |req.checks| ==> vm(i, req.checks[i]).passed)
       else !v.passed && |v.checks| == 1 && v.checks[0].kind == "request_error" && !v.checks[0].passed
  }

  /** The verdict published for a request: every check ran, or the request was refused. */
  function VerdictOf(req: Request, execOk: bool, vm: Vm): (v: Verdict)
    ensures Earned(req, execOk, vm, v)
    ensures v.passed ==> |req.checks| > 0 && v.checks == Outcomes(req.checks, vm) && AllOk(v.checks)
  {
    ValidRequestIff(req);
    if ValidRequest(req) && execOk
    then Verdict(req.sid, req.stepId, AllOk(Outcomes(req.checks, vm)), Outcomes(req.checks, vm))
    else Verdict(req.sid, req.stepId, false, [REQUEST_ERROR])
  }

  method RunAll(checks: seq<Check>, vm: Vm) returns (results: seq<CheckOutcome>, allPassed: bool)
    ensures results == Outcomes(checks, vm)
    ensures |results| == |checks| && forall i :: 0 <= i < |checks| ==> results[i] == vm(i, checks[i])
    ensures allPassed <==> forall i :: 0 <= i < |checks| ==> vm(i, checks[i]).passed
  {
    results, allPassed := [], true;
    for i := 0 to |checks|
      invariant results == Outcomes(checks, vm)[..i]
      invariant allPassed <==> AllOk(results)
    {
      var result := vm(i, checks[i]);
      ghost var before := results;
      results := results + [result];
      assert |before| == i && results[i] == result;
      assert AllOk(results) <==> AllOk(before) && result.passed by {
        assert forall j :: 0 <= j < i ==> results[j] == before[j];
      }
      if !result.passed { allPassed := false; }
    }
  }

  /** A failed publish is fatal; a published verdict is the one the checks earned. */
  method Handle(req: Request, execOk: bool, vm: Vm, publishOk: bool) returns (published: Option<Verdict>, fatal: bool)
    ensures fatal == !publishOk
    ensures published == if publishOk then Some(VerdictOf(req, execOk, vm)) else None
    ensures published.Some? <==> publishOk
    ensures publishOk ==> Earned(req, execOk, vm, published.value)
  {
    var refused := req.sid == "" || req.stepId <= 0 || |req.checks| == 0 || |req.checks| > MAX_CHECKS;
    if !refused {
      for i := 0 to |req.checks|
        invariant refused <==> exists j :: 0 <= j < i && !ValidCheck(req.checks[j])
      {
        if !ValidCheck(req.checks[i]) { refused := true; }
      }
    }
    if !refused && !execOk { refused := true; }
    var v := Verdict(req.sid, req.stepId, false, [REQUEST_ERROR]);
    if !refused {
      var results, allPassed := RunAll(req.checks, vm);
      v := Verdict(req.sid, req.stepId, allPassed, results);
    }
    if !publishOk { return None, true; }
    return Some(v), false;
  }

  // ----------------------------------------------------- the consume loop

  datatype Msg = Garbled(payload: string) | Parsed(req: Request)

  /** The engine as the broker sees it: one partition, and everything it ever emitted, by offset. */
  datatype State = State(
    position: nat, committed: nat, results: seq<(nat, Verdict)>, dlq: seq<(nat, Msg)>, logged: seq<(nat, Msg)>)

  datatype Crash = NoCrash | CrashBeforeOutcome | CrashBeforeCommit

  /** The environment's choices while one message is handled. `broken` is a handler that returns
      an ordinary error, which the real one never does. */
  datatype Turn = Turn(
    crash: Crash, broken: bool, execOk: bool, vm: Vm, publishOk: bool, dlqOk: nat -> bool, commitOk: bool)

  datatype Ending = Continues | Crashed | FatalAt(offset: nat)

  /** Three attempts to write the payload to the dead-letter topic; the log is the last resort. */
  function DeadLetter(s: State, msg: Msg, dlqOk: nat -> bool): State {
    if exists i :: 0 <= i < DLQ_MAX_RETRIES && dlqOk(i)
    then s.(dlq := s.dlq + [(s.position, msg)])
    else s.(logged := s.logged + [(s.position, msg)])
  }

  function Commit(s: State, ok: bool): State {
    s.(position := s.position + 1, committed := if ok then s.position + 1 else s.committed)
  }

  function Settle(s: State, msg: Msg, t: Turn): (State, bool) {
    match msg
    case Garbled(_) => (DeadLetter(s, msg, t.dlqOk), false)
    case Parsed(req) =>
      if t.broken then (DeadLetter(s, msg, t.dlqOk), false)
      else if t.publishOk then (s.(results := s.results + [(s.position, VerdictOf(req, t.execOk, t.vm))]), false)
      else (s, true)
  }

  function TurnStep(s: State, msg: Msg, t: Turn): (State, Ending) {
    if t.crash == CrashBeforeOutcome then (s, Crashed)
    else
      var (s', fatal) := Settle(s, msg, t);
      if fatal then (s', FatalAt(s.position))
      else if t.crash == CrashBeforeCommit then (s', Crashed)
      else (Commit(s', t.commitOk), Continues)
  }

  function RunFrom(topic: seq<Msg>, s: State, script: seq<Turn>): (State, Ending)
    decreases |script|
  {
    if script == [] || s.position >= |topic| then (s, Continues)
    else
      var (s', ending) := TurnStep(s, topic[s.position], script[0]);
      if ending == Continues then RunFrom(topic, s', script[1..]) else (s', ending)
  }

  /** A started or restarted engine resumes at the committed offset. */
  function Resume(s: State): State {
    s.(position := s.committed)
  }

  /** Every run of the engine, one script per life of the process. */
  function Lives(topic: seq<Msg>, s: State, scripts: seq<seq<Turn>>): State {
    if scripts == [] then s
    else RunFrom(topic, Resume(Lives(topic, s, scripts[..|scripts| - 1])), scripts[|scripts| - 1]).0
  }

  const FRESH := State(0, 0, [], [], [])

  class Consumer {
    var state: State

    constructor (s: State)
      ensures state == s
    {
      state := s;
    }

    method PublishToDlq(msg: Msg, dlqOk: nat -> bool)
      modifies this
      ensures state == DeadLetter(old(state), msg, dlqOk)
      ensures var was := old(state);
        if dlqOk(0) || dlqOk(1) || dlqOk(2) then state == was.(dlq := was.dlq + [(was.position, msg)])
        else state == was.(logged := was.logged + [(was.position, msg)])
    {
      for i := 0 to DLQ_MAX_RETRIES
        invariant state == old(state)
        invariant forall j :: 0 <= j < i ==> !dlqOk(j)
      {
        if dlqOk(i) {
          state := state.(dlq := state.dlq + [(state.position, msg)]);
          return;
        }
      }
      state := state.(logged := state.logged + [(state.position, msg)]);
    }

    method Run(topic: seq<Msg>, script: seq<Turn>) returns (ending: Ending)
      modifies this
      ensures (state, ending) == RunFrom(topic, Resume(old(state)), script)
    {
      state := state.(position := state.committed);
      for i := 0 to |script|
        invariant RunFrom(topic, state, script[i..]) == RunFrom(topic, Resume(old(state)), script)
      {
        if state.position >= |topic| { return Continues; }
        var msg, t := topic[state.position], script[i];
        assert script[i..][1..] == script[i + 1..];
        if t.crash == CrashBeforeOutcome { return Crashed; }
        match msg {
          case Garbled(_) => PublishToDlq(msg, t.dlqOk);
          case Parsed(req) =>
            if t.broken {
              PublishToDlq(msg, t.dlqOk);
            } else {
              var published, fatal := Handle(req, t.execOk, t.vm, t.publishOk);
              if fatal { return FatalAt(state.position); }
              state := state.(results := state.results + [(state.position, published.value)]);
            }
        }
        if t.crash == CrashBeforeCommit { return Crashed; }
        state := Commit(state, t.commitOk);
      }
      return Continues;
    }
  }

  // ------------------------------------------------------------- properties

  /** The i-th published verdict answers the request at offset k. */
  predicate Answers(s: State, i: int, k: nat, req: Request) {
    0 <= i < |s.results| && s.results[i].0 == k && s.results[i].1.sid == req.sid && s.results[i].1.stepId == req.stepId
  }

  ghost predicate HasOutcome(topic: seq<Msg>, s: State, k: nat)
    requires k < |topic|
  {
    || (topic[k].Parsed? && exists i :: Answers(s, i, k, topic[k].req))
    || (k, topic[k]) in s.dlq
    || (k, topic[k]) in s.logged
  }

  ghost predicate Accounted(topic: seq<Msg>, s: State) {
    && s.committed <= s.position <= |topic|
    && forall k :: 0 <= k < s.position ==> HasOutcome(topic, s, k)
  }

  lemma OutcomesKept(topic: seq<Msg>, s: State, s': State, k: nat)
    requires k < |topic| && HasOutcome(topic, s, k)
    requires s.results <= s'.results && s.dlq <= s'.dlq && s.logged <= s'.logged
    ensures HasOutcome(topic, s', k)
  {
    if topic[k].Parsed? && exists i :: Answers(s, i, k, topic[k].req) {
      var i :| Answers(s, i, k, topic[k].req);
      assert Answers(s', i, k, topic[k].req);
    }
  }

  lemma SettleGivesOutcome(topic: seq<Msg>, s: State, t: Turn)
    requires s.position < |topic|
    ensures var (s', fatal) := Settle(s, topic[s.position], t);
      && s.results <= s'.results && s.dlq <= s'.dlq && s.logged <= s'.logged
      && s'.position == s.position && s'.committed == s.committed
      && (!fatal ==> HasOutcome(topic, s', s.position))
  {
    var (s', fatal) := Settle(s, topic[s.position], t);
    if !fatal {
      if topic[s.position].Parsed? && !t.broken {
        assert Answers(s', |s.results|, s.position, topic[s.position].req);
      } else if exists i :: 0 <= i < DLQ_MAX_RETRIES && t.dlqOk(i) {
        assert s'.dlq[|s.dlq|] == (s.position, topic[s.position]);
      } else {
        assert s'.logged[|s.logged|] == (s.position, topic[s.position]);
      }
    }
  }

  /** One life of the engine keeps every handled offset accounted for, and a failed publish ends it
      with that offset still uncommitted. */
  lemma {:induction false} RunAccounted(topic: seq<Msg>, s: State, script: seq<Turn>)
    requires Accounted(topic, s)
    ensures var (s', ending) := RunFrom(topic, s, script);
      && Accounted(topic, s')
      && (ending.FatalAt? ==> s'.committed <= ending.offset < |topic| && topic[ending.offset].Parsed?)
    decreases |script|
  {
    if script != [] && s.position < |topic| {
      var t := script[0];
      SettleGivesOutcome(topic, s, t);
      var settled := Settle(s, topic[s.position], t).0;
      forall k | 0 <= k < s.position ensures HasOutcome(topic, settled, k) {
        OutcomesKept(topic, s, settled, k);
      }
      var (s', ending) := TurnStep(s, topic[s.position], t);
      if ending == Continues {
        forall k | 0 <= k < s'.position ensures HasOutcome(topic, s', k) {
          OutcomesKept(topic, settled, s', k);
        }
        RunAccounted(topic, s', script[1..]);
      }
    }
  }

  // ---------------------------------------------------- one life, turn by turn

  /** What offset k got in a turn, between two moments: the verdict its checks earned, or, if it could not be
      read or the handler broke, a dead letter, or the log if three attempts failed. */
  ghost predicate Handled(msg: Msg, k: nat, t: Turn, s: State, s': State) {
    && |s.results| <= |s'.results| && |s.dlq| <= |s'.dlq| && |s.logged| <= |s'.logged|
    && if msg.Parsed? && !t.broken then
         t.publishOk && exists i :: |s.results| <= i < |s'.results| && IsVerdict(s'.results[i], k, msg.req, t)
       else if t.dlqOk(0) || t.dlqOk(1) || t.dlqOk(2) then (k, msg) in s'.dlq[|s.dlq|..]
       else (k, msg) in s'.logged[|s.logged|..]
  }

  predicate IsVerdict(x: (nat, Verdict), k: nat, req: Request, t: Turn) {
    x.0 == k && Earned(req, t.execOk, t.vm, x.1)
  }

  predicate Extends(s: State, s': State) {
    s.results <= s'.results && s.dlq <= s'.dlq && s.logged <= s'.logged
  }

  /** How many verdicts, dead letters and log entries there are. */
  function Emitted(s: State): nat {
    |s.results| + |s.dlq| + |s.logged|
  }

  lemma SettleHandles(s: State, msg: Msg, t: Turn)
    ensures var (s', fatal) := Settle(s, msg, t);
      && Extends(s, s')
      && (fatal <==> msg.Parsed? && !t.broken && !t.publishOk)
      && (!fatal ==> Handled(msg, s.position, t, s, s') && Emitted(s') == Emitted(s) + 1)
      && (fatal ==> s' == s)
  {
    var (s', fatal) := Settle(s, msg, t);
    if !fatal {
      if msg.Parsed? && !t.broken {
        assert IsVerdict(s'.results[|s.results|], s.position, msg.req, t);
      } else if t.dlqOk(0) || t.dlqOk(1) || t.dlqOk(2) {
        assert s'.dlq[|s.dlq|..] == [(s.position, msg)];
      } else {
        assert s'.logged[|s.logged|..] == [(s.position, msg)];
      }
    }
  }

  lemma HandledWithin(msg: Msg, k: nat, t: Turn, s: State, a: State, b: State, s': State)
    requires Extends(s, a) && Handled(msg, k, t, a, b) && Extends(b, s')
    ensures Handled(msg, k, t, s, s')
  {
    if msg.Parsed? && !t.broken {
      var i :| |a.results| <= i < |b.results| && IsVerdict(b.results[i], k, msg.req, t);
      assert s'.results[i] == b.results[i];
    } else if t.dlqOk(0) || t.dlqOk(1) || t.dlqOk(2) {
      var i :| 0 <= i < |b.dlq| - |a.dlq| && b.dlq[|a.dlq|..][i] == (k, msg);
      assert s'.dlq[|s.dlq|..][i + |a.dlq| - |s.dlq|] == (k, msg);
    } else {
      var i :| 0 <= i < |b.logged| - |a.logged| && b.logged[|a.logged|..][i] == (k, msg);
      assert s'.logged[|s.logged|..][i + |a.logged| - |s.logged|] == (k, msg);
    }
  }

  /** The committed offset is one past the last handled one whose commit succeeded. */
  predicate CommittedUpTo(s: State, script: seq<Turn>, n: nat, committed: nat)
    requires n <= |script|
  {
    || (committed == s.committed && forall j :: 0 <= j < n ==> !script[j].commitOk)
    || (exists j :: 0 <= j < n && script[j].commitOk && committed == s.position + j + 1 &&
          forall l :: j < l < n ==> !script[l].commitOk)
  }

  /** Where a life ends: with the topic or the script, in a crash, or at a verdict that was not published. */
  predicate EndsAt(topic: seq<Msg>, script: seq<Turn>, n: nat, position: nat, ending: Ending)
    requires n <= |script|
  {
    match ending
    case Continues => n == |script| || position >= |topic|
    case Crashed => n < |script| && script[n].crash != NoCrash
    case FatalAt(offset) =>
      && n < |script| && offset == position && position < |topic|
      && topic[position].Parsed? && !script[n].broken && !script[n].publishOk
  }

  /** Crashing between outcome and commit leaves one outcome more. */
  function Extra(script: seq<Turn>, n: nat, ending: Ending): nat {
    if ending == Crashed && n < |script| && script[n].crash == CrashBeforeCommit then 1 else 0
  }

  /** One life: the messages from where it started, as many as it got to, one turn each and in order; each has
      exactly the outcome its turn gave it. */
  ghost predicate Lived(topic: seq<Msg>, s: State, script: seq<Turn>, s': State, ending: Ending, n: nat) {
    && n <= |script| && s'.position == s.position + n && (n > 0 ==> s'.position <= |topic|)
    && Extends(s, s')
    && Emitted(s') == Emitted(s) + n + Extra(script, n, ending)
    && (forall j :: 0 <= j < n ==> Handled(topic[s.position + j], s.position + j, script[j], s, s'))
    && CommittedUpTo(s, script, n, s'.committed)
    && EndsAt(topic, script, n, s'.position, ending)
  }

  lemma HandledFirst(topic: seq<Msg>, s: State, t: Turn, s1: State, s': State)
    requires s.position < |topic| && !Settle(s, topic[s.position], t).1
    requires s1 == Commit(Settle(s, topic[s.position], t).0, t.commitOk) && Extends(s1, s')
    ensures Extends(s, s1) && Handled(topic[s.position], s.position, t, s, s')
  {
    SettleHandles(s, topic[s.position], t);
    HandledWithin(topic[s.position], s.position, t, s, s, Settle(s, topic[s.position], t).0, s');
  }

  lemma HandledNext(
      topic: seq<Msg>, s: State, script: seq<Turn>, s1: State, s': State, ending: Ending, n: nat, j: nat)
    requires script != [] && Lived(topic, s1, script[1..], s', ending, n) && 0 < j < n + 1
    requires s1.position == s.position + 1 && Extends(s, s1)
    ensures s.position + j < |topic| && Handled(topic[s.position + j], s.position + j, script[j], s, s')
  {
    assert Handled(topic[s1.position + (j - 1)], s1.position + (j - 1), script[1..][j - 1], s1, s');
    HandledWithin(topic[s.position + j], s.position + j, script[j], s, s1, s', s');
  }

  lemma LivedNext(topic: seq<Msg>, s: State, script: seq<Turn>, s1: State, s': State, ending: Ending, n: nat)
    requires script != [] && s.position < |topic|
    requires Lived(topic, s1, script[1..], s', ending, n)
    requires s1 == Commit(Settle(s, topic[s.position], script[0]).0, script[0].commitOk)
      && !Settle(s, topic[s.position], script[0]).1
    ensures Lived(topic, s, script, s', ending, n + 1)
  {
    SettleHandles(s, topic[s.position], script[0]);
    HandledFirst(topic, s, script[0], s1, s');
    forall j | 0 <= j < n + 1 ensures Handled(topic[s.position + j], s.position + j, script[j], s, s') {
      if j > 0 { HandledNext(topic, s, script, s1, s', ending, n, j); }
    }
    CommittedNext(s, script, s1, n, s'.committed);
  }

  lemma CommittedNext(s: State, script: seq<Turn>, s1: State, n: nat, committed: nat)
    requires script != [] && n <= |script| - 1 && CommittedUpTo(s1, script[1..], n, committed)
    requires s1.position == s.position + 1 && s1.committed == if script[0].commitOk then s.position + 1 else s.committed
    ensures CommittedUpTo(s, script, n + 1, committed)
  {
    var rest := script[1..];
    assert forall l :: 0 < l < n + 1 ==> script[l] == rest[l - 1];
    if exists j :: 0 <= j < n && rest[j].commitOk && committed == s1.position + j + 1 &&
        forall l :: j < l < n ==> !rest[l].commitOk {
      var j :| 0 <= j < n && rest[j].commitOk && committed == s1.position + j + 1 &&
        forall l :: j < l < n ==> !rest[l].commitOk;
      assert script[j + 1].commitOk;
    }
  }

  /** The exact effect of one life of the engine. */
  lemma {:induction false} LifeMeans(topic: seq<Msg>, s: State, script: seq<Turn>)
    ensures var (s', ending) := RunFrom(topic, s, script);
      s'.position >= s.position && Lived(topic, s, script, s', ending, s'.position - s.position)
    decreases |script|
  {
    if script != [] && s.position < |topic| {
      SettleHandles(s, topic[s.position], script[0]);
      var (s1, ending) := TurnStep(s, topic[s.position], script[0]);
      if ending == Continues {
        LifeMeans(topic, s1, script[1..]);
        var (s', last) := RunFrom(topic, s1, script[1..]);
        LivedNext(topic, s, script, s1, s', last, s'.position - s1.position);
      }
    }
  }

  /** A life whose last commit succeeded leaves nothing to be read again. */
  lemma LastCommitKeeps(topic: seq<Msg>, s: State, script: seq<Turn>)
    ensures var s' := RunFrom(topic, s, script).0;
      var n := s'.position - s.position;
      0 < n <= |script| && script[n - 1].commitOk ==> s'.committed == s'.position && Resume(s') == s'
  {
    LifeMeans(topic, s, script);
  }

  // -------------------------------------------------------------- all lives

  /** Over any number of lives, with crashes, failed commits and failed publishes, every offset below
      the committed one ended in a verdict for its session and step, the dead-letter topic or the log. */
  lemma {:induction false} CommittedHasOutcome(topic: seq<Msg>, scripts: seq<seq<Turn>>)
    ensures Accounted(topic, Lives(topic, FRESH, scripts))
    decreases |scripts|
  {
    if scripts != [] {
      var before := Lives(topic, FRESH, scripts[..|scripts| - 1]);
      CommittedHasOutcome(topic, scripts[..|scripts| - 1]);
      forall k | 0 <= k < before.committed ensures HasOutcome(topic, Resume(before), k) {
        OutcomesKept(topic, before, Resume(before), k);
      }
      RunAccounted(topic, Resume(before), scripts[|scripts| - 1]);
    }
  }

  /** With the real handler a failed publish is never followed, in the same life, by a commit of that
      message: the life ends there and the next one starts at or before it. */
  lemma FailedPublishNotCommitted(topic: seq<Msg>, scripts: seq<seq<Turn>>, script: seq<Turn>)
    ensures var (s, ending) := RunFrom(topic, Resume(Lives(topic, FRESH, scripts)), script);
      ending.FatalAt? ==> s.committed <= ending.offset && Resume(s).position <= ending.offset
  {
    CommittedHasOutcome(topic, scripts);
    var before := Lives(topic, FRESH, scripts);
    forall k | 0 <= k < before.committed ensures HasOutcome(topic, Resume(before), k) {
      OutcomesKept(topic, before, Resume(before), k);
    }
    RunAccounted(topic, Resume(before), script);
  }
}
