/** Whole runs of the cached progress store (apps/api/internal/api/handlers/progress.go), in which every
    load, save and delete may fail and the process may lose its cache at any point. */
module ProgressRuns {
  import opened Options
  import opened Ordering
  import opened Progress
  import opened ProgressStore
  import opened StepStores
  import opened Transactions
  import Runs

  datatype Op =
    | OpSection(sid: string, f: Section, loadOk: bool, saveOk: bool)
    | OpPut(sid: string, ss: SessionSteps, outcome: Outcome)
    | OpTake(sid: string, loadOk: bool, deleteOk: bool)
    | OpRestart

  /** The state the caller got, if any. */
  ghost function StoreStep(s: Store, op: Op): (Store, Option<SessionSteps>) {
    match op
    case OpSection(sid, f, loadOk, saveOk) => WithSession(s, sid, f, loadOk, saveOk)
    case OpPut(sid, ss, outcome) =>
      var (s', ok) := Put(s, sid, ss, outcome);
      (s', if ok then Some(ss) else None)
    case OpTake(sid, loadOk, deleteOk) => Take(s, sid, loadOk, deleteOk)
    case OpRestart => (Restart(s), None)
  }

  ghost function StoreMachine(): (Store, Op) -> Store {
    (s, op) => StoreStep(s, op).0
  }

  ghost function StoreAfter(s: Store, ops: seq<Op>): Store {
    Runs.After(StoreMachine(), s, ops)
  }

  ghost function StoreAnswer(s: Store, ops: seq<Op>, k: nat): Option<SessionSteps>
    requires k < |ops|
  {
    StoreStep(StoreAfter(s, ops[..k]), ops[k]).1
  }

  // ------------------------------------------------------------- two plain maps

  type Sessions = map<string, SessionSteps>

  /** What callers see, what a restart would leave, and which sessions need no load. No tables. */
  datatype Memory = Memory(shown: Sessions, kept: Sessions, cached: set<string>)

  function Entry(m: Sessions, sid: string): Option<SessionSteps> {
    if sid in m then Some(m[sid]) else None
  }

  predicate Seen(m: Memory, sid: string, loadOk: bool) {
    sid in m.shown && (sid in m.cached || loadOk)
  }

  function MemoryStep(hasDb: bool, m: Memory, op: Op): (Memory, Option<SessionSteps>) {
    match op
    case OpSection(sid, f, loadOk, saveOk) =>
      if !Seen(m, sid, loadOk) then (m, None)
      else
        var (ss, dirty) := f(m.shown[sid]);
        var kept := if dirty && hasDb && saveOk then m.kept[sid := ss] else m.kept;
        (Memory(m.shown[sid := ss], kept, m.cached + {sid}), Some(m.shown[sid]))
    case OpPut(sid, ss, outcome) =>
      var kept := if hasDb && outcome != RollsBack then m.kept[sid := ss] else m.kept;
      if !hasDb || outcome == Commits then (Memory(m.shown[sid := ss], kept, m.cached + {sid}), Some(ss))
      else
        var shown := if outcome == RollsBack || sid in m.cached then m.shown else m.shown[sid := ss];
        (m.(shown := shown, kept := kept), None)
    case OpTake(sid, loadOk, deleteOk) =>
      var kept := if hasDb && deleteOk then m.kept - {sid} else m.kept;
      (Memory(Without(m.shown, sid, kept), kept, m.cached - {sid}),
       if Seen(m, sid, loadOk) then Some(m.shown[sid]) else None)
    case OpRestart => (Memory(m.kept, m.kept, {}), None)
  }

  ghost function MemoryMachine(hasDb: bool): (Memory, Op) -> Memory {
    (m, op) => MemoryStep(hasDb, m, op).0
  }

  ghost function MemoryAfter(hasDb: bool, m: Memory, ops: seq<Op>): Memory {
    Runs.After(MemoryMachine(hasDb), m, ops)
  }

  ghost function MemoryAnswer(hasDb: bool, m: Memory, ops: seq<Op>, k: nat): Option<SessionSteps>
    requires k < |ops|
  {
    MemoryStep(hasDb, MemoryAfter(hasDb, m, ops[..k]), ops[k]).1
  }

  ghost function Recall(s: Store): Memory {
    Memory(View(s), View(Restart(s)), s.cache.Keys)
  }

  /** Callers run real sections, and register progress with ids in order; a second registration of a
      session id is for the same lab, user and steps. */
  ghost predicate ProperOp(m: Memory, op: Op) {
    && (op.OpSection? ==> IsSection(op.f))
    && (op.OpPut? ==> Increasing(Ids(op.ss.steps)) && (op.sid in m.shown ==> SameShape(m.shown[op.sid], op.ss)))
  }

  ghost predicate Proper(hasDb: bool, m: Memory, ops: seq<Op>) {
    forall k :: 0 <= k < |ops| ==> ProperOp(MemoryAfter(hasDb, m, ops[..k]), ops[k])
  }

  lemma PrefixProper(hasDb: bool, m: Memory, ops: seq<Op>, n: nat)
    requires Proper(hasDb, m, ops) && n <= |ops|
    ensures Proper(hasDb, m, ops[..n])
  {
    forall k | 0 <= k < n ensures ProperOp(MemoryAfter(hasDb, m, ops[..n][..k]), ops[..n][k]) {
      assert ops[..n][..k] == ops[..k];
      assert ProperOp(MemoryAfter(hasDb, m, ops[..k]), ops[k]);
    }
  }

  ghost predicate Refines(s: Store, op: Op) {
    var (s', answer) := StoreStep(s, op);
    Valid(s') && s'.hasDb == s.hasDb && (Recall(s'), answer) == MemoryStep(s.hasDb, Recall(s), op)
  }

  lemma PutCaches(s: Store, sid: string, ss: SessionSteps, outcome: Outcome)
    ensures var (s', ok) := Put(s, sid, ss, outcome);
      var (m', answer) := MemoryStep(s.hasDb, Recall(s), OpPut(sid, ss, outcome));
      s'.hasDb == s.hasDb && s'.cache.Keys == m'.cached && answer == if ok then Some(ss) else None
  {
    assert s.cache[sid := ss].Keys == s.cache.Keys + {sid};
  }

  lemma PutLeaves(s: Store, sid: string, ss: SessionSteps, outcome: Outcome)
    requires Valid(s) && ProperOp(Recall(s), OpPut(sid, ss, outcome))
    ensures var s' := Put(s, sid, ss, outcome).0;
      Valid(s') && View(Restart(s')) == MemoryStep(s.hasDb, Recall(s), OpPut(sid, ss, outcome)).0.kept
  {
    PutKeeps(s, sid, ss, outcome);
  }

  lemma PutStepRefines(s: Store, sid: string, ss: SessionSteps, outcome: Outcome)
    requires Valid(s) && ProperOp(Recall(s), OpPut(sid, ss, outcome))
    ensures Refines(s, OpPut(sid, ss, outcome))
  {
    PutCaches(s, sid, ss, outcome);
    PutLeaves(s, sid, ss, outcome);
    PutShows(s, sid, ss, outcome);
  }

  lemma PutShows(s: Store, sid: string, ss: SessionSteps, outcome: Outcome)
    requires Valid(s) && ProperOp(Recall(s), OpPut(sid, ss, outcome))
    ensures View(Put(s, sid, ss, outcome).0) == MemoryStep(s.hasDb, Recall(s), OpPut(sid, ss, outcome)).0.shown
  {
    PutRefines(s, sid, ss, outcome);
    MatchesShape(s, sid, ss);
    if s.hasDb { WrittenLoads(s, sid, ss); }
  }

  lemma TakeStepRefines(s: Store, sid: string, loadOk: bool, deleteOk: bool)
    requires Valid(s)
    ensures Refines(s, OpTake(sid, loadOk, deleteOk))
  {
    TakeRefines(s, sid, loadOk, deleteOk);
  }

  lemma RestartStepRefines(s: Store)
    requires Valid(s)
    ensures Refines(s, OpRestart)
  {
    RestartHarmlessIff(s);
    assert Restart(Restart(s)) == Restart(s) && Restart(s).cache.Keys == {};
  }

  lemma StepRefines(s: Store, op: Op)
    requires Valid(s) && ProperOp(Recall(s), op)
    ensures Refines(s, op)
  {
    match op
    case OpSection(sid, f, loadOk, saveOk) => WithSessionRefines(s, sid, f, loadOk, saveOk);
    case OpPut(sid, ss, outcome) => PutStepRefines(s, sid, ss, outcome);
    case OpTake(sid, loadOk, deleteOk) => TakeStepRefines(s, sid, loadOk, deleteOk);
    case OpRestart => RestartStepRefines(s);
  }

  /** Over every run, whatever fails, cache and tables are the two plain maps: one that callers see, and
      one that changes with completed saves and deletes only. */
  lemma {:induction false} RunRefines(s: Store, ops: seq<Op>)
    requires Valid(s) && Proper(s.hasDb, Recall(s), ops)
    ensures var s' := StoreAfter(s, ops);
      Valid(s') && s'.hasDb == s.hasDb && Recall(s') == MemoryAfter(s.hasDb, Recall(s), ops)
    decreases |ops|
  {
    if ops != [] {
      var n := |ops| - 1;
      PrefixProper(s.hasDb, Recall(s), ops, n);
      RunRefines(s, ops[..n]);
      assert ProperOp(MemoryAfter(s.hasDb, Recall(s), ops[..n]), ops[n]);
      StepRefines(StoreAfter(s, ops[..n]), ops[n]);
    }
  }

  /** And every answer is the one the plain maps give. */
  lemma {:induction false} AnswersRefine(s: Store, ops: seq<Op>, k: nat)
    requires Valid(s) && Proper(s.hasDb, Recall(s), ops) && k < |ops|
    ensures StoreAnswer(s, ops, k) == MemoryAnswer(s.hasDb, Recall(s), ops, k)
  {
    PrefixProper(s.hasDb, Recall(s), ops, k);
    RunRefines(s, ops[..k]);
    assert ProperOp(MemoryAfter(s.hasDb, Recall(s), ops[..k]), ops[k]);
    StepRefines(StoreAfter(s, ops[..k]), ops[k]);
  }

  // ---------------------------------------------------- what a restart leaves

  /** The operation decides what a restart would leave of the session: its save or delete completed, or its
      cached entry is gone. */
  predicate Settles(hasDb: bool, m: Memory, op: Op, sid: string) {
    match op
    case OpSection(id, f, loadOk, saveOk) => id == sid && Seen(m, sid, loadOk) && f(m.shown[sid]).1 && hasDb && saveOk
    case OpPut(id, _, outcome) => id == sid && hasDb && outcome != RollsBack
    case OpTake(id, _, _) => id == sid
    case OpRestart => true
  }

  /** What it leaves: the session as then shown, or as registered. */
  function SettledAs(hasDb: bool, m: Memory, op: Op, sid: string): Option<SessionSteps> {
    if op.OpPut? then Some(op.ss) else Entry(MemoryStep(hasDb, m, op).0.shown, sid)
  }

  /** A registration over a cached entry, whose reply is lost: callers keep seeing the entry. */
  predicate Masked(hasDb: bool, m: Memory, op: Op) {
    op.OpPut? && hasDb && op.outcome == CommitsUnanswered && op.sid in m.cached
  }

  /** How many operations the run has up to the last one that settled the session. */
  ghost function LastSettled(hasDb: bool, m: Memory, ops: seq<Op>, sid: string): (n: nat)
    ensures n <= |ops|
  {
    if ops == [] then 0
    else
      var init := ops[..|ops| - 1];
      if Settles(hasDb, MemoryAfter(hasDb, m, init), ops[|ops| - 1], sid) then |ops|
      else LastSettled(hasDb, m, init, sid)
  }

  /** What the run last settled the session as; at first, what the store shows. */
  ghost function Settled(hasDb: bool, m: Memory, ops: seq<Op>, sid: string): Option<SessionSteps> {
    var n := LastSettled(hasDb, m, ops, sid);
    if n == 0 then Entry(m.shown, sid) else SettledAs(hasDb, MemoryAfter(hasDb, m, ops[..n - 1]), ops[n - 1], sid)
  }

  ghost predicate LastMasked(hasDb: bool, m: Memory, ops: seq<Op>, sid: string) {
    var n := LastSettled(hasDb, m, ops, sid);
    n > 0 && Masked(hasDb, MemoryAfter(hasDb, m, ops[..n - 1]), ops[n - 1])
  }

  lemma StepKeeps(hasDb: bool, m: Memory, op: Op, sid: string)
    ensures var m' := MemoryStep(hasDb, m, op).0;
      && Entry(m'.kept, sid) ==
           (if Settles(hasDb, m, op, sid) then SettledAs(hasDb, m, op, sid) else Entry(m.kept, sid))
      && (Settles(hasDb, m, op, sid) && !Masked(hasDb, m, op) ==> SettledAs(hasDb, m, op, sid) == Entry(m'.shown, sid))
  {
  }

  lemma SettledPrefix(hasDb: bool, m: Memory, ops: seq<Op>, sid: string)
    requires ops != [] && LastSettled(hasDb, m, ops, sid) < |ops|
    ensures var init := ops[..|ops| - 1];
      LastSettled(hasDb, m, ops, sid) == LastSettled(hasDb, m, init, sid) &&
      Settled(hasDb, m, ops, sid) == Settled(hasDb, m, init, sid)
  {
    var n, init := LastSettled(hasDb, m, ops, sid), ops[..|ops| - 1];
    if n > 0 { assert ops[..n - 1] == init[..n - 1]; }
  }

  /** The kept value is what the session was last settled as. */
  lemma {:induction false} KeptIsLastSettled(hasDb: bool, m: Memory, ops: seq<Op>, sid: string)
    requires Entry(m.kept, sid) == Entry(m.shown, sid)
    ensures Entry(MemoryAfter(hasDb, m, ops).kept, sid) == Settled(hasDb, m, ops, sid)
    decreases |ops|
  {
    if ops != [] {
      var init, last := ops[..|ops| - 1], ops[|ops| - 1];
      var before := MemoryAfter(hasDb, m, init);
      KeptIsLastSettled(hasDb, m, init, sid);
      StepKeeps(hasDb, before, last, sid);
      if !Settles(hasDb, before, last, sid) { SettledPrefix(hasDb, m, ops, sid); }
    }
  }

  /** And that is what was shown then, except after a masked registration. */
  lemma SettledShown(hasDb: bool, m: Memory, ops: seq<Op>, sid: string)
    requires !LastMasked(hasDb, m, ops, sid)
    ensures Settled(hasDb, m, ops, sid) ==
      Entry(MemoryAfter(hasDb, m, ops[..LastSettled(hasDb, m, ops, sid)]).shown, sid)
  {
    var n := LastSettled(hasDb, m, ops, sid);
    if n > 0 {
      LastSettles(hasDb, m, ops, sid);
      assert ops[..n][..n - 1] == ops[..n - 1];
      StepKeeps(hasDb, MemoryAfter(hasDb, m, ops[..n - 1]), ops[n - 1], sid);
    }
  }

  lemma {:induction false} LastSettles(hasDb: bool, m: Memory, ops: seq<Op>, sid: string)
    requires LastSettled(hasDb, m, ops, sid) > 0
    ensures var n := LastSettled(hasDb, m, ops, sid);
      Settles(hasDb, MemoryAfter(hasDb, m, ops[..n - 1]), ops[n - 1], sid)
    decreases |ops|
  {
    var n, init := LastSettled(hasDb, m, ops, sid), ops[..|ops| - 1];
    if n < |ops| {
      LastSettles(hasDb, m, init, sid);
      assert ops[..n - 1] == init[..n - 1];
    }
  }

  /** What callers see of a session after a run. */
  ghost function ShownAfter(s: Store, ops: seq<Op>, sid: string): Option<SessionSteps> {
    Lookup(StoreAfter(s, ops), sid, true)
  }

  /** After every run a restart shows each session as it was last settled, so losing the cache is harmless
      for a session exactly when it is still so. That is as it was shown then, except after a registration
      whose reply was lost while callers went on seeing the cached entry. */
  lemma {:induction false} RestartShowsLastSettled(s: Store, ops: seq<Op>, sid: string)
    requires Valid(s) && Coherent(s) && Proper(s.hasDb, Recall(s), ops)
    ensures var n, settled := LastSettled(s.hasDb, Recall(s), ops, sid), Settled(s.hasDb, Recall(s), ops, sid);
      && ShownAfter(s, ops + [OpRestart], sid) == settled
      && (ShownAfter(s, ops + [OpRestart], sid) == ShownAfter(s, ops, sid) <==> ShownAfter(s, ops, sid) == settled)
      && (!LastMasked(s.hasDb, Recall(s), ops, sid) ==> settled == ShownAfter(s, ops[..n], sid))
  {
    var n := LastSettled(s.hasDb, Recall(s), ops, sid);
    RestartHarmlessIff(s);
    KeptIsLastSettled(s.hasDb, Recall(s), ops, sid);
    RunRefines(s, ops);
    ShownThen(s, ops, sid, n);
    if !LastMasked(s.hasDb, Recall(s), ops, sid) { SettledShown(s.hasDb, Recall(s), ops, sid); }
    Runs.AfterOne(StoreMachine(), s, ops, OpRestart);
    EntryIsLookup(Restart(StoreAfter(s, ops)), sid);
  }

  lemma ShownThen(s: Store, ops: seq<Op>, sid: string, n: nat)
    requires Valid(s) && Proper(s.hasDb, Recall(s), ops) && n <= |ops|
    ensures ShownAfter(s, ops[..n], sid) == Entry(MemoryAfter(s.hasDb, Recall(s), ops[..n]).shown, sid)
  {
    PrefixProper(s.hasDb, Recall(s), ops, n);
    RunRefines(s, ops[..n]);
    EntryIsLookup(StoreAfter(s, ops[..n]), sid);
  }

  lemma EntryIsLookup(s: Store, sid: string)
    ensures Entry(View(s), sid) == Lookup(s, sid, true)
  {
  }

  predicate Leaves(hasDb: bool, m: Memory, op: Op, sid: string) {
    Entry(MemoryStep(hasDb, m, op).0.shown, sid) == Entry(m.shown, sid)
  }

  /** If no operation since then changed the session, it is harmless unless that one was masked and
      registered something else. */
  lemma {:induction false} UnchangedSinceSettled(s: Store, ops: seq<Op>, sid: string)
    requires Valid(s) && Coherent(s) && Proper(s.hasDb, Recall(s), ops)
    requires forall k :: LastSettled(s.hasDb, Recall(s), ops, sid) <= k < |ops| ==>
      Leaves(s.hasDb, MemoryAfter(s.hasDb, Recall(s), ops[..k]), ops[k], sid)
    ensures var n := LastSettled(s.hasDb, Recall(s), ops, sid);
      ShownAfter(s, ops + [OpRestart], sid) == ShownAfter(s, ops, sid) <==>
      (LastMasked(s.hasDb, Recall(s), ops, sid) ==> ShownAfter(s, ops[..n], sid) == Some(ops[n - 1].ss))
  {
    var n := LastSettled(s.hasDb, Recall(s), ops, sid);
    ShownSame(s.hasDb, Recall(s), ops, sid, n);
    RestartShowsLastSettled(s, ops, sid);
    assert ops[..|ops|] == ops;
    ShownThen(s, ops, sid, |ops|);
    ShownThen(s, ops, sid, n);
  }

  lemma {:induction false} ShownSame(hasDb: bool, m: Memory, ops: seq<Op>, sid: string, n: nat)
    requires n <= |ops|
    requires forall k :: n <= k < |ops| ==> Leaves(hasDb, MemoryAfter(hasDb, m, ops[..k]), ops[k], sid)
    ensures Entry(MemoryAfter(hasDb, m, ops).shown, sid) == Entry(MemoryAfter(hasDb, m, ops[..n]).shown, sid)
    decreases |ops|
  {
    if n == |ops| {
      assert ops[..n] == ops;
    } else {
      var init := ops[..|ops| - 1];
      assert Leaves(hasDb, MemoryAfter(hasDb, m, init), ops[|init|], sid);
      assert forall k :: 0 <= k <= |init| ==> init[..k] == ops[..k];
      ShownSame(hasDb, m, init, sid, n);
    }
  }

  // ------------------------------------------------------- runs in which it shows

  const NEW := Store(true, map[], Db(map[], map[]))

  /** There are such stores for every session: register it in a new one. */
  lemma {:induction false} Registered(sid: string, ss: SessionSteps) returns (s: Store)
    requires Increasing(Ids(ss.steps))
    ensures s == StoreAfter(NEW, [OpPut(sid, ss, Commits)])
    ensures Valid(s) && s.hasDb && Coherent(s) && View(s) == map[sid := ss]
  {
    var put := OpPut(sid, ss, Commits);
    s := StoreStep(NEW, put).0;
    assert View(NEW) == map[] && View(Restart(NEW)) == map[] && NEW.cache.Keys == {};
    assert [] + [put] == [put];
    Runs.AfterOne(StoreMachine(), NEW, [], put);
    StepRefines(NEW, put);
    RestartHarmlessIff(s);
  }

  lemma OneOperation(s: Store, op: Op, sid: string)
    requires Valid(s) && ProperOp(Recall(s), op)
    ensures var m := MemoryStep(s.hasDb, Recall(s), op).0;
      ShownAfter(s, [op], sid) == Entry(m.shown, sid) && ShownAfter(s, [op] + [OpRestart], sid) == Entry(m.kept, sid)
  {
    var s' := StoreStep(s, op).0;
    assert [] + [op] == [op];
    Runs.AfterOne(StoreMachine(), s, [], op);
    Runs.AfterOne(StoreMachine(), s, [op], OpRestart);
    StepRefines(s, op);
    EntryIsLookup(s', sid);
    EntryIsLookup(Restart(s'), sid);
  }

  lemma LostMark(m: Memory, sid: string)
    requires sid in m.shown && m.kept == m.shown && m.shown[sid].steps != []
    ensures var ss, m' := m.shown[sid], MemoryStep(true, m, OpSection(sid, MarkValidating(0), true, false)).0;
      && Entry(m'.shown, sid) == Some(WithValidating(ss, 0)) && Entry(m'.kept, sid) == Some(ss)
      && WithValidating(ss, 0) != ss
  {
    var ss := m.shown[sid];
    assert WithValidating(ss, 0).steps[0].attempts == ss.steps[0].attempts + 1;
  }

  /** A mark whose save is lost is shown until the restart and gone after it. */
  lemma LostSaveShows(s: Store, sid: string)
    requires Valid(s) && s.hasDb && Coherent(s) && sid in View(s) && View(s)[sid].steps != []
    ensures var ss, mark := View(s)[sid], OpSection(sid, MarkValidating(0), true, false);
      && ShownAfter(s, [mark], sid) == Some(WithValidating(ss, 0))
      && ShownAfter(s, [mark] + [OpRestart], sid) == Some(ss)
      && WithValidating(ss, 0) != ss
  {
    RestartHarmlessIff(s);
    OneOperation(s, OpSection(sid, MarkValidating(0), true, false), sid);
    LostMark(Recall(s), sid);
  }

  /** A removal whose delete failed comes back. */
  lemma {:induction false} FailedDeleteShows(s: Store, sid: string)
    requires Valid(s) && s.hasDb && Coherent(s) && sid in View(s)
    ensures ShownAfter(s, [OpTake(sid, true, false)], sid) == Some(View(s)[sid])
  {
    RestartHarmlessIff(s);
    OneOperation(s, OpTake(sid, true, false), sid);
  }

  /** A registration whose reply is lost: the caller is told of a failure, and the session is there. */
  lemma {:induction false} UnansweredPutShows(s: Store, sid: string, ss: SessionSteps)
    requires Valid(s) && s.hasDb && sid !in View(s) && Increasing(Ids(ss.steps))
    ensures var put := OpPut(sid, ss, CommitsUnanswered);
      StoreAnswer(s, [put], 0) == None && ShownAfter(s, [put], sid) == Some(ss)
  {
    OneOperation(s, OpPut(sid, ss, CommitsUnanswered), sid);
  }

  // ---------------------------------------------------------- nothing fails

  predicate Completes(op: Op) {
    match op
    case OpSection(_, _, loadOk, saveOk) => loadOk && saveOk
    case OpPut(_, _, outcome) => outcome == Commits
    case OpTake(_, loadOk, deleteOk) => loadOk && deleteOk
    case OpRestart => true
  }

  predicate AllComplete(ops: seq<Op>) {
    forall k :: 0 <= k < |ops| ==> Completes(ops[k])
  }

  /** One plain map, where a restart does nothing. */
  function PlainStep(m: Sessions, op: Op): (Sessions, Option<SessionSteps>) {
    match op
    case OpSection(sid, f, _, _) => (if sid in m then m[sid := f(m[sid]).0] else m, Entry(m, sid))
    case OpPut(sid, ss, _) => (m[sid := ss], Some(ss))
    case OpTake(sid, _, _) => (m - {sid}, Entry(m, sid))
    case OpRestart => (m, None)
  }

  const PLAIN_MACHINE: (Sessions, Op) -> Sessions := (m, op) => PlainStep(m, op).0

  ghost function PlainAfter(m: Sessions, ops: seq<Op>): Sessions {
    Runs.After(PLAIN_MACHINE, m, ops)
  }

  ghost function PlainAnswer(m: Sessions, ops: seq<Op>, k: nat): Option<SessionSteps>
    requires k < |ops|
  {
    PlainStep(PlainAfter(m, ops[..k]), ops[k]).1
  }

  lemma CompleteStep(m: Memory, op: Op)
    requires m.shown == m.kept && Completes(op) && ProperOp(m, op)
    ensures var (m', answer) := MemoryStep(true, m, op);
      m'.shown == m'.kept && (m'.shown, answer) == PlainStep(m.shown, op)
  {
  }

  lemma {:induction false} CompleteRun(m: Memory, ops: seq<Op>)
    requires m.shown == m.kept && AllComplete(ops) && Proper(true, m, ops)
    ensures var m' := MemoryAfter(true, m, ops); m'.shown == m'.kept == PlainAfter(m.shown, ops)
    decreases |ops|
  {
    if ops != [] {
      var n := |ops| - 1;
      PrefixProper(true, m, ops, n);
      CompleteRun(m, ops[..n]);
      assert Completes(ops[n]) && ProperOp(MemoryAfter(true, m, ops[..n]), ops[n]);
      CompleteStep(MemoryAfter(true, m, ops[..n]), ops[n]);
    }
  }

  /** When every load, save and delete completes, then however often the process loses its cache, no
      caller can tell the store from one plain map. */
  lemma {:induction false} StoreRefinesPlainMap(s: Store, ops: seq<Op>, k: nat)
    requires Valid(s) && s.hasDb && Coherent(s) && AllComplete(ops) && Proper(true, Recall(s), ops) && k < |ops|
    ensures StoreAnswer(s, ops, k) == PlainAnswer(View(s), ops, k)
  {
    RestartHarmlessIff(s);
    AnswersRefine(s, ops, k);
    PrefixProper(true, Recall(s), ops, k);
    CompleteRun(Recall(s), ops[..k]);
    assert Completes(ops[k]) && ProperOp(MemoryAfter(true, Recall(s), ops[..k]), ops[k]);
    CompleteStep(MemoryAfter(true, Recall(s), ops[..k]), ops[k]);
  }
}
