/** The handlers' store of step progress, updated in place. Each method is proved to do, in one
    critical section, what the corresponding function on values says. */
module StepStores {
  import opened Options
  import opened Ordering
  import opened Progress
  import opened ProgressStore
  import opened Transactions

  datatype Verdict = Verdict(sid: string, stepId: int, passed: bool, checks: seq<CheckOutcome>)

  function Reading(): (f: Section)
    ensures IsSection(f)
  {
    (x: SessionSteps) => (x, false)
  }

  function MarkValidating(idx: int): (f: Section)
    ensures IsSection(f)
  {
    (x: SessionSteps) => (WithValidating(x, idx), 0 <= idx < |x.steps|)
  }

  function MockPassing(idx: int): (f: Section)
    ensures IsSection(f)
  {
    (x: SessionSteps) => (WithMockPass(x, idx), 0 <= idx < |x.steps|)
  }

  function Hinting(stepId: int, level: int): (f: Section)
    ensures IsSection(f)
  {
    assert forall x :: SameShape(x, WithHint(x, stepId, level)) by {
      forall x ensures SameShape(x, WithHint(x, stepId, level)) { HintKeepsShape(x, stepId, level); }
    }
    (x: SessionSteps) => (WithHint(x, stepId, level), WithHint(x, stepId, level) != x)
  }

  function Judge(x: SessionSteps, v: Verdict): SessionSteps {
    var idx := IndexOf(Ids(x.steps), v.stepId);
    if idx == -1 then x else WithVerdict(x, idx, v.passed, v.checks)
  }

  lemma JudgeMeans(x: SessionSteps, v: Verdict)
    ensures SameShape(x, Judge(x, v))
    ensures var idx := IndexOf(Ids(x.steps), v.stepId);
      if idx >= 0 then JudgedAt(x, Judge(x, v), idx, v.passed, v.checks) else Judge(x, v) == x
  {
    var idx := IndexOf(Ids(x.steps), v.stepId);
    if idx >= 0 {
      VerdictKeepsShape(x, idx, v.passed, v.checks);
      VerdictMeans(x, idx, v.passed, v.checks);
    }
  }

  function Judging(v: Verdict): (f: Section)
    ensures IsSection(f)
  {
    (x: SessionSteps) => (Judge(x, v), v.stepId in Ids(x.steps))
  }

  /** A session was shown as `seen`, is now held as `ss`, and its snapshot is in the tables if it was
      `saved`; no other session is touched. */
  ghost predicate Replaced(s: Store, s': Store, sid: string, ss: SessionSteps, saved: bool) {
    && s'.hasDb == s.hasDb
    && s'.cache == s.cache[sid := ss]
    && (if saved then sid in s'.db.headers && (Valid(s) ==> Load(s'.db, sid) == Some(ss)) else s'.db == s.db)
    && (forall other :: other != sid ==> Load(s'.db, other) == Load(s.db, other))
  }

  lemma SectionReplaces(s: Store, sid: string, loadOk: bool, ss: SessionSteps, saved: bool)
    requires Lookup(s, sid, loadOk).Some? && SameShape(Lookup(s, sid, loadOk).value, ss) && (saved ==> s.hasDb)
    ensures Replaced(s, Written(s, sid, ss, saved), sid, ss, saved)
  {
    forall other | other != sid ensures Load(Written(s, sid, ss, saved).db, other) == Load(s.db, other) {
      SaveElsewhere(s.db, sid, ss, other);
    }
    if saved && Valid(s) {
      ViewMatches(s, sid);
      IdSetOfShape(View(s)[sid].steps, ss.steps);
      WrittenLoads(s, sid, ss);
    }
  }

  lemma SectionWrites(s: Store, sid: string, f: Section, loadOk: bool, saveOk: bool)
    requires Lookup(s, sid, loadOk).Some?
    ensures var (ss, dirty) := f(Lookup(s, sid, loadOk).value);
      WithSession(s, sid, f, loadOk, saveOk).0 == Written(s, sid, ss, dirty && s.hasDb && saveOk)
  {
  }

  lemma HintWrites(s: Store, sid: string, stepId: int, explicit: int, loadOk: bool, saveOk: bool)
    requires Lookup(s, sid, loadOk).Some?
    ensures var seen := Lookup(s, sid, loadOk).value;
      var ss := WithHint(seen, stepId, explicit);
      var s' := Written(s, sid, ss, ss != seen && s.hasDb && saveOk);
      Hints(s, s', sid, stepId, explicit, loadOk, saveOk, seen.labId, NextHintLevel(seen, stepId, explicit))
  {
    var seen := Lookup(s, sid, loadOk).value;
    HintMeans(seen, stepId, explicit);
    HintKeepsShape(seen, stepId, explicit);
    var ss := WithHint(seen, stepId, explicit);
    SectionReplaces(s, sid, loadOk, ss, ss != seen && s.hasDb && saveOk);
  }

  /** The answer to a request for a hint, and what it leaves. */
  ghost predicate Hints(
      s: Store, s': Store, sid: string, stepId: int, explicit: int, loadOk: bool, saveOk: bool, labId: string,
      level: int)
    requires Lookup(s, sid, loadOk).Some?
  {
    var seen := Lookup(s, sid, loadOk).value;
    var idx := IndexOf(Ids(seen.steps), stepId);
    && labId == seen.labId && LevelFor(seen, idx, explicit, level)
    && sid in s'.cache && HintedTo(seen, s'.cache[sid], idx, level)
    && Replaced(s, s', sid, s'.cache[sid], s'.cache[sid] != seen && s.hasDb && saveOk)
  }

  lemma HintSection(s: Store, sid: string, stepId: int, explicit: int, loadOk: bool, saveOk: bool)
    requires Lookup(s, sid, loadOk).Some?
    ensures var seen := Lookup(s, sid, loadOk).value;
      var ss := WithHint(seen, stepId, explicit);
      WithSession(s, sid, Hinting(stepId, explicit), loadOk, saveOk).0 ==
        Written(s, sid, ss, ss != seen && s.hasDb && saveOk)
  {
    SectionWrites(s, sid, Hinting(stepId, explicit), loadOk, saveOk);
  }

  lemma HintEffect(
      s: Store, s': Store, sid: string, stepId: int, explicit: int, loadOk: bool, saveOk: bool, ss: SessionSteps,
      level: int)
    requires Lookup(s, sid, loadOk).Some?
    requires var seen := Lookup(s, sid, loadOk).value;
      && ss == WithHint(seen, stepId, explicit) && level == NextHintLevel(seen, stepId, explicit)
      && s' == Written(s, sid, ss, ss != seen && s.hasDb && saveOk)
    ensures Hints(s, s', sid, stepId, explicit, loadOk, saveOk, Lookup(s, sid, loadOk).value.labId, level)
    ensures s' == WithSession(s, sid, Hinting(stepId, explicit), loadOk, saveOk).0
  {
    HintWrites(s, sid, stepId, explicit, loadOk, saveOk);
    HintSection(s, sid, stepId, explicit, loadOk, saveOk);
  }

  /** What a section without effect leaves: the entry it may have loaded. */
  ghost predicate OnlyFetched(s: Store, s': Store, sid: string, loadOk: bool) {
    match Lookup(s, sid, loadOk)
    case None => s' == s
    case Some(seen) => s' == s.(cache := s.cache[sid := seen])
  }

  class StepStore {
    const hasDb: bool
    var cache: map<string, SessionSteps>
    var db: Db
    var completions: map<(string, string), string>

    ghost function State(): Store
      reads this
    {
      Store(hasDb, cache, db)
    }

    constructor (hasDb: bool, db: Db, completions: map<(string, string), string>)
      ensures State() == Store(hasDb, map[], db) && this.completions == completions
    {
      this.hasDb := hasDb;
      this.cache := map[];
      this.db := db;
      this.completions := completions;
    }

    static method UpsertSteps(before: map<int, StepRow>, steps: seq<StepState>) returns (rows: map<int, StepRow>)
      ensures rows == UpsertAll(before, steps)
    {
      rows := before;
      for i := 0 to |steps|
        invariant rows == UpsertAll(before, steps[..i])
      {
        UpsertNext(before, steps, i);
        rows := rows[steps[i].stepId := ToRow(steps[i])];
      }
      assert steps[..|steps|] == steps;
    }

    /** One transaction: the header, then every step; nothing of it remains if it is rolled back. */
    method SaveProgress(sid: string, ss: SessionSteps, outcome: Outcome) returns (saved: bool)
      modifies this`db
      ensures saved == (outcome == Commits)
      ensures db == if outcome == RollsBack then old(db) else SaveTx(old(db), sid, ss)
    {
      var headers := UpsertHeader(db.headers, sid, ss);
      var rows := UpsertSteps(RowsOf(db, sid), ss.steps);
      if outcome != RollsBack { db := Db(headers, db.steps[sid := rows]); }
      return outcome == Commits;
    }

    static method OrderById(keys: set<int>) returns (ids: seq<int>)
      ensures ids == Ordered(keys)
    {
      var rest := keys;
      ids := [];
      while rest != {}
        invariant Increasing(ids)
        invariant forall x :: x in keys <==> x in ids || x in rest
        invariant forall x, y :: x in ids && y in rest ==> x < y
        decreases rest
      {
        ghost var least := MinOf(rest);
        var id :| id in rest && forall x :: x in rest ==> id <= x;
        assert forall i :: 0 <= i < |ids| ==> ids[i] in ids;
        ids, rest := ids + [id], rest - {id};
      }
      IncreasingUnique(ids, Ordered(keys));
    }

    static method ReadRows(rows: map<int, StepRow>) returns (steps: seq<StepState>)
      ensures steps == ReadSteps(rows)
    {
      var ids := OrderById(rows.Keys);
      steps := [];
      for i := 0 to |ids|
        invariant |steps| == i
        invariant forall j :: 0 <= j < i ==> ids[j] in rows && steps[j] == FromRow(ids[j], rows[ids[j]])
      {
        assert ids[i] in rows.Keys;
        steps := steps + [FromRow(ids[i], rows[ids[i]])];
      }
    }

    /** Two queries: the header, and the steps as they are by then; `later` are the tables at the second. */
    method LoadProgress(sid: string, ok: bool, later: Db) returns (p: Option<SessionSteps>)
      ensures p == if ok && sid in db.headers then Some(Loaded(db.headers[sid], RowsOf(later, sid))) else None
      ensures later == db ==> p == if ok then Load(db, sid) else None
    {
      if !ok || sid !in db.headers { return None; }
      var header := db.headers[sid];
      var steps := ReadRows(RowsOf(later, sid));
      return Some(SessionSteps(header.labId, header.userId, steps, header.currentStep));
    }

    /** The first half of a critical section: the cached entry, loaded on a miss. */
    method Fetch(sid: string, loadOk: bool) returns (seen: Option<SessionSteps>)
      modifies this`cache
      ensures seen == Lookup(old(State()), sid, loadOk)
      ensures cache == if seen.Some? then old(cache)[sid := seen.value] else old(cache)
    {
      if sid in cache {
        assert cache[sid := cache[sid]] == cache;
        return Some(cache[sid]);
      }
      if !hasDb { return None; }
      seen := LoadProgress(sid, loadOk, db);
      if seen.Some? { cache := cache[sid := seen.value]; }
    }

    method WithSession(sid: string, f: Section, loadOk: bool, saveOk: bool) returns (seen: Option<SessionSteps>)
      modifies this`cache, this`db
      ensures (State(), seen) == ProgressStore.WithSession(old(State()), sid, f, loadOk, saveOk)
    {
      seen := Fetch(sid, loadOk);
      if seen.None? { return; }
      var (ss', dirty) := f(seen.value);
      cache := cache[sid := ss'];
      assert cache == old(cache)[sid := ss'];
      if dirty && hasDb { var _ := SaveProgress(sid, ss', if saveOk then Commits else RollsBack); }
    }

    method Put(sid: string, ss: SessionSteps, outcome: Outcome) returns (ok: bool)
      modifies this`cache, this`db
      ensures (State(), ok) == ProgressStore.Put(old(State()), sid, ss, outcome)
    {
      if hasDb {
        var saved := SaveProgress(sid, ss, outcome);
        if !saved { return false; }
      }
      cache := cache[sid := ss];
      return true;
    }

    method Take(sid: string, loadOk: bool, deleteOk: bool) returns (last: Option<SessionSteps>)
      modifies this`cache, this`db
      ensures (State(), last) == ProgressStore.Take(old(State()), sid, loadOk, deleteOk)
    {
      last := if sid in cache then Some(cache[sid]) else None;
      cache := cache - {sid};
      if hasDb {
        if last.None? { last := LoadProgress(sid, loadOk, db); }
        if deleteOk { db := DeleteTx(db, sid); }
      }
    }

    method Completed(sid: string, loadOk: bool) returns (done: bool)
      modifies this`cache
      ensures State() == ProgressStore.WithSession(old(State()), sid, Reading(), loadOk, true).0
      ensures OnlyFetched(old(State()), State(), sid, loadOk)
      ensures done <==> Lookup(old(State()), sid, loadOk).Some? && AllPassed(Lookup(old(State()), sid, loadOk).value)
    {
      var seen := Fetch(sid, loadOk);
      if seen.None? { return false; }
      done := CheckAllPassed(seen.value);
    }

    method FindValidatableStepIndex(sid: string, stepId: int, loadOk: bool)
      returns (found: bool, idx: int, err: PrecheckError)
      modifies this`cache
      ensures State() == ProgressStore.WithSession(old(State()), sid, Reading(), loadOk, true).0
      ensures OnlyFetched(old(State()), State(), sid, loadOk)
      ensures found <==> Lookup(old(State()), sid, loadOk).Some?
      ensures found && err == NoError <==>
        found && var ss := Lookup(old(State()), sid, loadOk).value;
        stepId in Ids(ss.steps) && EarlierPassed(ss.steps, IndexOf(Ids(ss.steps), stepId))
      ensures found && err == NoError ==> idx == IndexOf(Ids(Lookup(old(State()), sid, loadOk).value.steps), stepId)
    {
      var seen := Fetch(sid, loadOk);
      if seen.None? { return false, -1, StepNotFound; }
      idx, err := FindValidatable(seen.value, stepId);
      return true, idx, err;
    }

    static method MarkEntry(entry: SessionSteps, idx: int) returns (ss: SessionSteps, dirty: bool)
      ensures (ss, dirty) == MarkValidating(idx)(entry)
    {
      ss := entry;
      if idx < 0 || idx >= |ss.steps| { return ss, false; }
      var st := ss.steps[idx];
      st := st.(attempts := st.attempts + 1);
      st := st.(status := Status.Validating);
      st := st.(checks := []);
      return ss.(steps := ss.steps[idx := st]), true;
    }

    /** The second half of a critical section: the new entry, and its snapshot saved if dirty. */
    method Commit(sid: string, ss: SessionSteps, dirty: bool, saveOk: bool)
      modifies this`cache, this`db
      ensures cache == old(cache)[sid := ss]
      ensures db == if dirty && hasDb && saveOk then SaveTx(old(db), sid, ss) else old(db)
    {
      cache := cache[sid := ss];
      if dirty && hasDb { var _ := SaveProgress(sid, ss, if saveOk then Commits else RollsBack); }
    }

    method MarkStepValidating(sid: string, idx: int, loadOk: bool, saveOk: bool)
      modifies this`cache, this`db
      ensures State() == ProgressStore.WithSession(old(State()), sid, MarkValidating(idx), loadOk, saveOk).0
      ensures var seen := Lookup(old(State()), sid, loadOk);
        if seen.Some? && 0 <= idx < |seen.value.steps| then
          && sid in cache && MarkedAt(seen.value, cache[sid], idx)
          && Replaced(old(State()), State(), sid, cache[sid], hasDb && saveOk)
        else OnlyFetched(old(State()), State(), sid, loadOk)
    {
      var seen := Fetch(sid, loadOk);
      if seen.None? { return; }
      var ss, dirty := MarkEntry(seen.value, idx);
      MarkMeans(seen.value, idx);
      SectionReplaces(old(State()), sid, loadOk, ss, dirty && hasDb && saveOk);
      Commit(sid, ss, dirty, saveOk);
      assert cache == old(cache)[sid := ss];
    }

    /** The step after a passed one is opened if it was still closed, and becomes current. */
    static method OpenNext(ss: SessionSteps, idx: nat) returns (r: SessionSteps)
      requires idx < |ss.steps|
      ensures r == Advance(ss, idx)
    {
      r := ss;
      if idx + 1 < |r.steps| {
        if r.steps[idx + 1].status == Pending {
          r := r.(steps := r.steps[idx + 1 := r.steps[idx + 1].(status := Active)]);
        }
        r := r.(currentStep := r.steps[idx + 1].stepId);
      }
    }

    static method PassEntry(entry: SessionSteps, idx: int) returns (ss: SessionSteps, dirty: bool, all: bool)
      ensures (ss, dirty) == MockPassing(idx)(entry)
      ensures all <==> dirty && AllPassed(ss)
    {
      ss := entry;
      if idx < 0 || idx >= |ss.steps| { return ss, false, false; }
      var st := ss.steps[idx];
      st := st.(attempts := st.attempts + 1, status := Passed);
      ss := OpenNext(ss.(steps := ss.steps[idx := st]), idx);
      all := CheckAllPassed(ss);
      return ss, true, all;
    }

    method MarkStepPassed(sid: string, idx: int, loadOk: bool, saveOk: bool)
      returns (completed: Option<(string, string)>)
      modifies this`cache, this`db
      ensures State() == ProgressStore.WithSession(old(State()), sid, MockPassing(idx), loadOk, saveOk).0
      ensures var seen := Lookup(old(State()), sid, loadOk);
        if seen.Some? && 0 <= idx < |seen.value.steps| then
          && sid in cache && PassedAt(seen.value, cache[sid], idx)
          && Replaced(old(State()), State(), sid, cache[sid], hasDb && saveOk)
          && completed == if AllPassed(cache[sid]) then Some((seen.value.userId, seen.value.labId)) else None
        else OnlyFetched(old(State()), State(), sid, loadOk) && completed == None
    {
      var seen := Fetch(sid, loadOk);
      if seen.None? { return None; }
      var ss, dirty, all := PassEntry(seen.value, idx);
      MockPassMeans(seen.value, idx);
      ChangesKeepShape(seen.value, idx, true, [], 0, 0);
      SectionReplaces(old(State()), sid, loadOk, ss, dirty && hasDb && saveOk);
      completed := if all then Some((ss.userId, ss.labId)) else None;
      Commit(sid, ss, dirty, saveOk);
      assert cache == old(cache)[sid := ss];
    }

    /** What ApplyValidationResult does to the entry it found. */
    static method JudgeEntry(entry: SessionSteps, v: Verdict) returns (ss: SessionSteps, dirty: bool, all: bool)
      ensures (ss, dirty) == Judging(v)(entry)
      ensures all <==> dirty && v.passed && AllPassed(ss)
    {
      ss, all := entry, false;
      var idx := FindStep(ss.steps, v.stepId);
      if idx == -1 { return ss, false, false; }
      var outcomes := [];
      for i := 0 to |v.checks|
        invariant outcomes == v.checks[..i]
      {
        outcomes := outcomes + [v.checks[i]];
      }
      assert outcomes == v.checks;
      var st := ss.steps[idx].(checks := outcomes);
      if v.passed {
        ss := OpenNext(ss.(steps := ss.steps[idx := st.(status := Passed)]), idx);
        all := CheckAllPassed(ss);
      } else {
        ss := ss.(steps := ss.steps[idx := st.(status := Failed)]);
      }
      return ss, true, all;
    }

    method ApplyValidationResult(v: Verdict, loadOk: bool, saveOk: bool) returns (completed: Option<(string, string)>)
      modifies this`cache, this`db
      ensures State() == ProgressStore.WithSession(old(State()), v.sid, Judging(v), loadOk, saveOk).0
      ensures var seen := Lookup(old(State()), v.sid, loadOk);
        if seen.Some? && v.stepId in Ids(seen.value.steps) then
          && v.sid in cache
          && JudgedAt(seen.value, cache[v.sid], IndexOf(Ids(seen.value.steps), v.stepId), v.passed, v.checks)
          && Replaced(old(State()), State(), v.sid, cache[v.sid], hasDb && saveOk)
          && completed ==
             if v.passed && AllPassed(cache[v.sid]) then Some((seen.value.userId, seen.value.labId)) else None
        else OnlyFetched(old(State()), State(), v.sid, loadOk) && completed == None
    {
      var seen := Fetch(v.sid, loadOk);
      if seen.None? { return None; }
      var ss, dirty, all := JudgeEntry(seen.value, v);
      JudgeMeans(seen.value, v);
      SectionReplaces(old(State()), v.sid, loadOk, ss, dirty && hasDb && saveOk);
      completed := if all then Some((ss.userId, ss.labId)) else None;
      Commit(v.sid, ss, dirty, saveOk);
      assert cache == old(cache)[v.sid := ss];
    }

    /** The level to give a hint at, and the entry with that level noted. */
    static method HintEntry(entry: SessionSteps, stepId: int, explicit: int)
      returns (ss: SessionSteps, dirty: bool, level: int)
      ensures ss == WithHint(entry, stepId, explicit) && (dirty <==> ss != entry)
      ensures level == NextHintLevel(entry, stepId, explicit)
    {
      ss, dirty, level := entry, false, explicit;
      var idx := FindStep(ss.steps, stepId);
      if idx == -1 {
        if level == 0 { level := 1; }
        return;
      }
      var st := ss.steps[idx];
      if level == 0 {
        level := st.hintLevel + 1;
        if level > MAX_HINT_LEVEL { level := MAX_HINT_LEVEL; }
      }
      if level > st.hintLevel {
        ss, dirty := ss.(steps := ss.steps[idx := st.(hintLevel := level)]), true;
        assert ss.steps[idx] != entry.steps[idx];
      }
    }

    method NextHint(sid: string, stepId: int, explicit: int, loadOk: bool, saveOk: bool)
      returns (labId: string, level: int, ok: bool)
      modifies this`cache, this`db
      ensures State() == ProgressStore.WithSession(old(State()), sid, Hinting(stepId, explicit), loadOk, saveOk).0
      ensures ok <==> Lookup(old(State()), sid, loadOk).Some?
      ensures ok ==> Hints(old(State()), State(), sid, stepId, explicit, loadOk, saveOk, labId, level)
      ensures !ok ==> State() == old(State())
    {
      var seen := Fetch(sid, loadOk);
      if seen.None? { return "", 0, false; }
      var ss, dirty, next := HintEntry(seen.value, stepId, explicit);
      Commit(sid, ss, dirty, saveOk);
      HintEffect(old(State()), State(), sid, stepId, explicit, loadOk, saveOk, ss, next);
      return seen.value.labId, next, true;
    }

    /** INSERT ... ON CONFLICT DO NOTHING: the first completion of a lab by a user stays. */
    method RecordCompletion(userId: string, labId: string, sid: string, ok: bool)
      modifies this`completions
      ensures completions ==
        if hasDb && ok && userId != "" && labId != "" && (userId, labId) !in old(completions)
        then old(completions)[(userId, labId) := sid] else old(completions)
    {
      if labId == "" || userId == "" || !hasDb || !ok { return; }
      if (userId, labId) !in completions { completions := completions[(userId, labId) := sid]; }
    }
  }
}
