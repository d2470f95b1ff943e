/** The step progress of one lab session: what the handlers of
    apps/api/internal/api/handlers/session.go read and change under the store's mutex.
    The functions are the meaning of each critical section; the methods are the loops
    that compute it. */
module Progress {
  datatype Status = Pending | Active | Validating | Passed | Failed

  datatype CheckOutcome = CheckOutcome(kind: string, passed: bool, detail: string)

  datatype StepState = StepState(stepId: int, status: Status, attempts: int, checks: seq<CheckOutcome>, hintLevel: int)

  datatype SessionSteps = SessionSteps(labId: string, userId: string, steps: seq<StepState>, currentStep: int)

  datatype PrecheckError = NoError | StepNotFound | OrderBlocked

  const MAX_HINT_LEVEL := 3

  // ---------------------------------------------------------------- reading

  function Ids(steps: seq<StepState>): (ids: seq<int>)
    ensures |ids| == |steps|
    ensures forall i :: 0 <= i < |ids| ==> ids[i] == steps[i].stepId
  {
    seq(|steps|, i requires 0 <= i < |steps| => steps[i].stepId)
  }

  predicate AllPassed(ss: SessionSteps) {
    ss.steps != [] && forall i :: 0 <= i < |ss.steps| ==> ss.steps[i].status == Passed
  }

  /** Position of the first step with this id, or -1. */
  function IndexOf(ids: seq<int>, stepId: int): (idx: int)
    ensures -1 <= idx < |ids|
    ensures idx >= 0 ==> ids[idx] == stepId && stepId !in ids[..idx]
    ensures idx == -1 <==> stepId !in ids
  {
    if ids == [] then -1
    else if ids[0] == stepId then 0
    else
      var rest := IndexOf(ids[1..], stepId);
      if rest == -1 then -1 else
        assert ids[..rest + 1] == [ids[0]] + ids[1..][..rest];
        rest + 1
  }

  predicate EarlierPassed(steps: seq<StepState>, idx: int)
    requires idx <= |steps|
  {
    forall i :: 0 <= i < idx ==> steps[i].status == Passed
  }

  /** The current step is one the learner may already work on. */
  predicate CurrentNamed(ss: SessionSteps) {
    || ss.steps == []
    || exists i :: 0 <= i < |ss.steps| && ss.steps[i].stepId == ss.currentStep && ss.steps[i].status != Pending
  }

  // --------------------------------------------------------------- changing

  function InitialStep(i: nat, stepId: int): StepState {
    StepState(stepId, if i == 0 then Active else Pending, 0, [], 0)
  }

  /** The lab's steps in order, none tried, the first one open and current. */
  predicate Begins(ss: SessionSteps, labId: string, userId: string, ids: seq<int>) {
    && ss.labId == labId && ss.userId == userId
    && |ss.steps| == |ids|
    && (forall i :: 0 <= i < |ids| ==>
          && ss.steps[i].stepId == ids[i] && ss.steps[i].attempts == 0 && ss.steps[i].hintLevel == 0
          && ss.steps[i].checks == [] && ss.steps[i].status == if i == 0 then Active else Pending)
    && ss.currentStep == if ids == [] then 0 else ids[0]
  }

  function Initial(labId: string, userId: string, ids: seq<int>): (ss: SessionSteps)
    ensures Begins(ss, labId, userId, ids) && Ids(ss.steps) == ids && CurrentNamed(ss)
  {
    var ss := SessionSteps(labId, userId, seq(|ids|, i requires 0 <= i < |ids| => InitialStep(i, ids[i])),
                           if ids == [] then 0 else ids[0]);
    assert ids != [] ==> ss.steps[0].stepId == ss.currentStep;
    ss
  }

  function WithValidating(ss: SessionSteps, idx: int): SessionSteps {
    if 0 <= idx < |ss.steps| then
      var st := ss.steps[idx];
      ss.(steps := ss.steps[idx := st.(attempts := st.attempts + 1, status := Validating, checks := [])])
    else ss
  }

  /** Opens the step after a passed one and makes it the current step. */
  function Advance(ss: SessionSteps, idx: nat): SessionSteps
    requires idx < |ss.steps|
  {
    if idx + 1 < |ss.steps| then
      var next := ss.steps[idx + 1];
      var unlocked := if next.status == Pending then ss.steps[idx + 1 := next.(status := Active)] else ss.steps;
      ss.(steps := unlocked, currentStep := next.stepId)
    else ss
  }

  function WithVerdict(ss: SessionSteps, idx: nat, passed: bool, checks: seq<CheckOutcome>): SessionSteps
    requires idx < |ss.steps|
  {
    var st := ss.steps[idx].(checks := checks, status := if passed then Passed else Failed);
    var judged := ss.(steps := ss.steps[idx := st]);
    if passed then Advance(judged, idx) else judged
  }

  function WithMockPass(ss: SessionSteps, idx: int): SessionSteps {
    if 0 <= idx < |ss.steps| then
      var st := ss.steps[idx];
      Advance(ss.(steps := ss.steps[idx := st.(attempts := st.attempts + 1, status := Passed)]), idx)
    else ss
  }

  function NextHintLevel(ss: SessionSteps, stepId: int, level: int): int {
    if level != 0 then level
    else
      var idx := IndexOf(Ids(ss.steps), stepId);
      if idx == -1 then 1
      else if ss.steps[idx].hintLevel + 1 > MAX_HINT_LEVEL then MAX_HINT_LEVEL
      else ss.steps[idx].hintLevel + 1
  }

  function WithHint(ss: SessionSteps, stepId: int, level: int): SessionSteps {
    var idx := IndexOf(Ids(ss.steps), stepId);
    if idx >= 0 && NextHintLevel(ss, stepId, level) > ss.steps[idx].hintLevel
    then ss.(steps := ss.steps[idx := ss.steps[idx].(hintLevel := NextHintLevel(ss, stepId, level))])
    else ss
  }

  /** None of the critical sections changes which steps a session has, or whose it is. */
  predicate SameShape(a: SessionSteps, b: SessionSteps) {
    a.labId == b.labId && a.userId == b.userId && Ids(a.steps) == Ids(b.steps)
  }

  lemma AdvanceKeepsIds(ss: SessionSteps, idx: nat)
    requires idx < |ss.steps|
    ensures Ids(Advance(ss, idx).steps) == Ids(ss.steps)
  {
  }

  lemma VerdictKeepsShape(ss: SessionSteps, idx: nat, passed: bool, checks: seq<CheckOutcome>)
    requires idx < |ss.steps|
    ensures SameShape(ss, WithVerdict(ss, idx, passed, checks))
  {
    var st := ss.steps[idx].(checks := checks, status := if passed then Passed else Failed);
    AdvanceKeepsIds(ss.(steps := ss.steps[idx := st]), idx);
  }

  lemma MockPassKeepsShape(ss: SessionSteps, idx: nat)
    requires idx < |ss.steps|
    ensures SameShape(ss, WithMockPass(ss, idx))
  {
    var st := ss.steps[idx].(attempts := ss.steps[idx].attempts + 1, status := Passed);
    AdvanceKeepsIds(ss.(steps := ss.steps[idx := st]), idx);
  }

  lemma HintKeepsShape(ss: SessionSteps, stepId: int, level: int)
    ensures SameShape(ss, WithHint(ss, stepId, level))
  {
  }

  lemma ChangesKeepShape(ss: SessionSteps, idx: int, passed: bool, checks: seq<CheckOutcome>, stepId: int, level: int)
    ensures SameShape(ss, WithValidating(ss, idx)) && SameShape(ss, WithMockPass(ss, idx))
    ensures SameShape(ss, WithHint(ss, stepId, level))
    ensures 0 <= idx < |ss.steps| ==> SameShape(ss, WithVerdict(ss, idx, passed, checks))
  {
    HintKeepsShape(ss, stepId, level);
    if 0 <= idx < |ss.steps| {
      VerdictKeepsShape(ss, idx, passed, checks);
      MockPassKeepsShape(ss, idx);
    }
  }

  // ------------------------------------------------ what each section means

  /** Nothing but step idx differs. */
  predicate SameBut(a: SessionSteps, b: SessionSteps, idx: nat) {
    && b.labId == a.labId && b.userId == a.userId && b.currentStep == a.currentStep
    && |b.steps| == |a.steps|
    && (forall i :: 0 <= i < |a.steps| && i != idx ==> b.steps[i] == a.steps[i])
  }

  /** After a pass of step idx the next one is open and current; no other step differs. */
  predicate OpensNext(a: SessionSteps, b: SessionSteps, idx: nat) {
    && b.labId == a.labId && b.userId == a.userId
    && |b.steps| == |a.steps|
    && (forall i :: 0 <= i < |a.steps| && i != idx && i != idx + 1 ==> b.steps[i] == a.steps[i])
    && (if idx + 1 < |a.steps| then
          && b.currentStep == a.steps[idx + 1].stepId
          && b.steps[idx + 1] ==
             (if a.steps[idx + 1].status == Pending then a.steps[idx + 1].(status := Active) else a.steps[idx + 1])
        else b.currentStep == a.currentStep)
  }

  /** Step idx is being validated: one more attempt, no checks. */
  predicate MarkedAt(a: SessionSteps, b: SessionSteps, idx: nat)
    requires idx < |a.steps|
  {
    && SameBut(a, b, idx)
    && b.steps[idx].status == Validating && b.steps[idx].checks == []
    && b.steps[idx].attempts == a.steps[idx].attempts + 1
    && b.steps[idx].stepId == a.steps[idx].stepId && b.steps[idx].hintLevel == a.steps[idx].hintLevel
  }

  /** Step idx has the verdict's status and checks, and nothing else new. */
  predicate JudgedAt(a: SessionSteps, b: SessionSteps, idx: nat, passed: bool, checks: seq<CheckOutcome>)
    requires idx < |a.steps|
  {
    && (if passed then OpensNext(a, b, idx) else SameBut(a, b, idx))
    && b.steps[idx].status == (if passed then Passed else Failed) && b.steps[idx].checks == checks
    && b.steps[idx].attempts == a.steps[idx].attempts
    && b.steps[idx].stepId == a.steps[idx].stepId && b.steps[idx].hintLevel == a.steps[idx].hintLevel
  }

  /** Step idx is passed without having been checked, in one more attempt. */
  predicate PassedAt(a: SessionSteps, b: SessionSteps, idx: nat)
    requires idx < |a.steps|
  {
    && OpensNext(a, b, idx)
    && b.steps[idx].status == Passed && b.steps[idx].checks == a.steps[idx].checks
    && b.steps[idx].attempts == a.steps[idx].attempts + 1
    && b.steps[idx].stepId == a.steps[idx].stepId && b.steps[idx].hintLevel == a.steps[idx].hintLevel
  }

  /** Step idx has a new hint level, and nothing else new. */
  predicate HintedAt(a: SessionSteps, b: SessionSteps, idx: nat, level: int)
    requires idx < |a.steps|
  {
    && SameBut(a, b, idx)
    && b.steps[idx].hintLevel == level
    && b.steps[idx].stepId == a.steps[idx].stepId && b.steps[idx].status == a.steps[idx].status
    && b.steps[idx].attempts == a.steps[idx].attempts && b.steps[idx].checks == a.steps[idx].checks
  }

  lemma MarkMeans(ss: SessionSteps, idx: int)
    ensures if 0 <= idx < |ss.steps| then MarkedAt(ss, WithValidating(ss, idx), idx) else WithValidating(ss, idx) == ss
  {
  }

  lemma VerdictMeans(ss: SessionSteps, idx: nat, passed: bool, checks: seq<CheckOutcome>)
    requires idx < |ss.steps|
    ensures JudgedAt(ss, WithVerdict(ss, idx, passed, checks), idx, passed, checks)
  {
  }

  lemma MockPassMeans(ss: SessionSteps, idx: int)
    ensures if 0 <= idx < |ss.steps| then PassedAt(ss, WithMockPass(ss, idx), idx) else WithMockPass(ss, idx) == ss
  {
  }

  /** The level asked for; if none is, one more than the step's last one, at most 3, and 1 for an unknown
      step. */
  predicate LevelFor(ss: SessionSteps, idx: int, explicit: int, level: int)
    requires idx < |ss.steps|
  {
    if explicit != 0 then level == explicit
    else if idx < 0 then level == 1
    else
      && level <= MAX_HINT_LEVEL && level <= ss.steps[idx].hintLevel + 1
      && (level == MAX_HINT_LEVEL || level == ss.steps[idx].hintLevel + 1)
  }

  /** A step's level rises to the one given and never falls. */
  predicate HintedTo(a: SessionSteps, b: SessionSteps, idx: int, level: int)
    requires idx < |a.steps|
  {
    if idx >= 0 && level > a.steps[idx].hintLevel then HintedAt(a, b, idx, level) else b == a
  }

  lemma HintMeans(ss: SessionSteps, stepId: int, explicit: int)
    ensures var idx, level := IndexOf(Ids(ss.steps), stepId), NextHintLevel(ss, stepId, explicit);
      LevelFor(ss, idx, explicit, level) && HintedTo(ss, WithHint(ss, stepId, explicit), idx, level)
  {
  }

  function WithAttempt(ss: SessionSteps, idx: nat): (r: SessionSteps)
    requires idx < |ss.steps|
    ensures Ids(r.steps) == Ids(ss.steps) && forall i :: 0 <= i < |ss.steps| ==> r.steps[i].status == ss.steps[i].status
  {
    ss.(steps := ss.steps[idx := ss.steps[idx].(attempts := ss.steps[idx].attempts + 1)])
  }

  /** A mock pass is a pass of the same step with the old checks and one more attempt. */
  lemma MockPassIsVerdict(ss: SessionSteps, idx: nat)
    requires idx < |ss.steps|
    ensures WithMockPass(ss, idx) == WithVerdict(WithAttempt(ss, idx), idx, true, ss.steps[idx].checks)
  {
    var st, counted := ss.steps[idx], WithAttempt(ss, idx);
    assert counted.steps[idx := counted.steps[idx].(checks := st.checks, status := Passed)] ==
           ss.steps[idx := st.(attempts := st.attempts + 1, status := Passed)];
  }

  predicate NoneCloses(a: SessionSteps, b: SessionSteps) {
    && |a.steps| == |b.steps|
    && forall i :: 0 <= i < |a.steps| && a.steps[i].status != Pending ==> b.steps[i].status != Pending
  }

  /** No critical section returns an opened step to pending. */
  lemma ChangesNeverClose(ss: SessionSteps, idx: int, passed: bool, checks: seq<CheckOutcome>, stepId: int, level: int)
    ensures NoneCloses(ss, WithValidating(ss, idx)) && NoneCloses(ss, WithMockPass(ss, idx))
      && NoneCloses(ss, WithHint(ss, stepId, level))
    ensures 0 <= idx < |ss.steps| ==> NoneCloses(ss, WithVerdict(ss, idx, passed, checks))
  {
  }

  // ------------------------------------------------------------------ loops

  method CheckAllPassed(ss: SessionSteps) returns (all: bool)
    ensures all == AllPassed(ss)
    ensures all <==> |ss.steps| > 0 && forall i :: 0 <= i < |ss.steps| ==> ss.steps[i].status == Passed
  {
    if |ss.steps| == 0 { return false; }
    for i := 0 to |ss.steps|
      invariant forall j :: 0 <= j < i ==> ss.steps[j].status == Passed
    {
      if ss.steps[i].status != Passed { return false; }
    }
    return true;
  }

  method FindStep(steps: seq<StepState>, stepId: int) returns (idx: int)
    ensures idx == IndexOf(Ids(steps), stepId) && -1 <= idx < |steps|
    ensures idx >= 0 ==> steps[idx].stepId == stepId && forall j :: 0 <= j < idx ==> steps[j].stepId != stepId
    ensures idx == -1 ==> forall j :: 0 <= j < |steps| ==> steps[j].stepId != stepId
  {
    for i := 0 to |steps|
      invariant stepId !in Ids(steps)[..i]
    {
      if steps[i].stepId == stepId {
        FirstIndex(Ids(steps), stepId, i);
        return i;
      }
    }
    assert Ids(steps)[..|steps|] == Ids(steps);
    return -1;
  }

  lemma FirstIndex(ids: seq<int>, stepId: int, i: nat)
    requires i < |ids| && ids[i] == stepId && stepId !in ids[..i]
    ensures IndexOf(ids, stepId) == i
  {
    if i > 0 {
      assert ids[1..][..i - 1] == ids[..i][1..];
      assert ids[..i][0] == ids[0];
      FirstIndex(ids[1..], stepId, i - 1);
    }
  }

  /** The order check made before a validation request is published. */
  method FindValidatable(ss: SessionSteps, stepId: int) returns (idx: int, err: PrecheckError)
    ensures err == NoError <==> stepId in Ids(ss.steps) && EarlierPassed(ss.steps, IndexOf(Ids(ss.steps), stepId))
    ensures err == NoError ==> idx == IndexOf(Ids(ss.steps), stepId) && idx >= 0
    ensures err == StepNotFound <==> stepId !in Ids(ss.steps)
    ensures err == OrderBlocked <==>
      stepId in Ids(ss.steps) && exists j :: 0 <= j < IndexOf(Ids(ss.steps), stepId) && ss.steps[j].status != Passed
    ensures err != NoError ==> idx == -1
  {
    var at := FindStep(ss.steps, stepId);
    if at == -1 { return -1, StepNotFound; }
    for i := 0 to at
      invariant forall j :: 0 <= j < i ==> ss.steps[j].status == Passed
    {
      if ss.steps[i].status != Passed { return -1, OrderBlocked; }
    }
    return at, NoError;
  }

  method InitSteps(labId: string, userId: string, ids: seq<int>) returns (ss: SessionSteps)
    ensures ss == Initial(labId, userId, ids) && Begins(ss, labId, userId, ids)
  {
    var steps := [];
    for i := 0 to |ids|
      invariant |steps| == i
      invariant forall j :: 0 <= j < i ==> steps[j] == InitialStep(j, ids[j])
    {
      steps := steps + [StepState(ids[i], if i == 0 then Active else Pending, 0, [], 0)];
    }
    var current := 0;
    if |steps| > 0 { current := steps[0].stepId; }
    ss := SessionSteps(labId, userId, steps, current);
  }
}
