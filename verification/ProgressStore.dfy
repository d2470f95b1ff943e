/** The progress tables (apps/api/internal/store/store.go) and the in-memory map that caches
    them (apps/api/internal/api/handlers/progress.go). */
module ProgressStore {
  import opened Options
  import opened Ordering
  import opened Progress
  import opened Transactions

  datatype Header = Header(labId: string, userId: string, currentStep: int)

  datatype StepRow = StepRow(status: Status, attempts: int, hintLevel: int, checks: seq<CheckOutcome>)

  /** session_progress and session_steps; the second table is keyed by session, then step id. */
  datatype Db = Db(headers: map<string, Header>, steps: map<string, map<int, StepRow>>)

  // ----------------------------------------------------------- SQL statements

  function ToRow(st: StepState): StepRow {
    StepRow(st.status, st.attempts, st.hintLevel, st.checks)
  }

  function FromRow(stepId: int, row: StepRow): StepState {
    StepState(stepId, row.status, row.attempts, row.checks, row.hintLevel)
  }

  function RowsOf(db: Db, sid: string): map<int, StepRow> {
    if sid in db.steps then db.steps[sid] else map[]
  }

  function UpsertHeader(headers: map<string, Header>, sid: string, ss: SessionSteps): map<string, Header> {
    headers[sid := if sid in headers then headers[sid].(currentStep := ss.currentStep)
                   else Header(ss.labId, ss.userId, ss.currentStep)]
  }

  function UpsertAll(rows: map<int, StepRow>, steps: seq<StepState>): (r: map<int, StepRow>)
    ensures r.Keys == rows.Keys + IdSet(steps)
    ensures forall id :: id in rows && id !in IdSet(steps) ==> r[id] == rows[id]
  {
    if steps == [] then rows
    else
      var last := steps[|steps| - 1];
      var init := steps[..|steps| - 1];
      assert IdSet(steps) == IdSet(init) + {last.stepId} by {
        assert steps == init + [last];
      }
      UpsertAll(rows, init)[last.stepId := ToRow(last)]
  }

  lemma UpsertNext(rows: map<int, StepRow>, steps: seq<StepState>, i: nat)
    requires i < |steps|
    ensures UpsertAll(rows, steps[..i + 1]) == UpsertAll(rows, steps[..i])[steps[i].stepId := ToRow(steps[i])]
  {
    assert steps[..i + 1][..i] == steps[..i];
  }

  function IdSet(steps: seq<StepState>): (ids: set<int>)
    ensures forall id :: id in ids <==> exists i :: 0 <= i < |steps| && steps[i].stepId == id
  {
    set st | st in steps :: st.stepId
  }

  function SaveTx(db: Db, sid: string, ss: SessionSteps): Db {
    Db(UpsertHeader(db.headers, sid, ss), db.steps[sid := UpsertAll(RowsOf(db, sid), ss.steps)])
  }

  /** Deleting the header cascades to the steps. */
  function DeleteTx(db: Db, sid: string): Db {
    Db(db.headers - {sid}, db.steps - {sid})
  }

  // ------------------------------------------------------- ORDER BY step_id

  ghost function ReadSteps(rows: map<int, StepRow>): (steps: seq<StepState>)
    ensures Ids(steps) == Ordered(rows.Keys)
  {
    var ids := Ordered(rows.Keys);
    assert forall i :: 0 <= i < |ids| ==> ids[i] in rows.Keys;
    seq(|ids|, i requires 0 <= i < |ids| => FromRow(ids[i], rows[ids[i]]))
  }

  ghost function Loaded(header: Header, rows: map<int, StepRow>): SessionSteps {
    SessionSteps(header.labId, header.userId, ReadSteps(rows), header.currentStep)
  }

  ghost function Load(db: Db, sid: string): Option<SessionSteps> {
    if sid in db.headers then Some(Loaded(db.headers[sid], RowsOf(db, sid))) else None
  }

  lemma UpsertLast(rows: map<int, StepRow>, steps: seq<StepState>)
    requires steps != []
    ensures var n := |steps| - 1;
      UpsertAll(rows, steps) == UpsertAll(rows, steps[..n])[steps[n].stepId := ToRow(steps[n])]
  {
  }

  lemma {:induction false} UpsertedRow(rows: map<int, StepRow>, steps: seq<StepState>, i: nat)
    requires Increasing(Ids(steps)) && i < |steps|
    ensures UpsertAll(rows, steps)[steps[i].stepId] == ToRow(steps[i])
    ensures var row, st := UpsertAll(rows, steps)[steps[i].stepId], steps[i];
      row.status == st.status && row.attempts == st.attempts && row.hintLevel == st.hintLevel && row.checks == st.checks
  {
    var init := steps[..|steps| - 1];
    UpsertLast(rows, steps);
    assert Ids(init) == Ids(steps)[..|init|];
    if i < |init| {
      assert Ids(steps)[i] < Ids(steps)[|init|];
      UpsertedRow(rows, init, i);
    }
  }

  /** Rows a session may have when `ss` is saved over them: none, or rows of the same steps. */
  ghost predicate Fits(db: Db, sid: string, ss: SessionSteps) {
    && Increasing(Ids(ss.steps))
    && RowsOf(db, sid).Keys <= IdSet(ss.steps)
    && (sid in db.headers ==> db.headers[sid].labId == ss.labId && db.headers[sid].userId == ss.userId)
  }

  lemma SavedIds(rows: map<int, StepRow>, steps: seq<StepState>)
    requires Increasing(Ids(steps)) && rows.Keys <= IdSet(steps)
    ensures Ordered(UpsertAll(rows, steps).Keys) == Ids(steps)
  {
    var keys := UpsertAll(rows, steps).Keys;
    forall x ensures x in Ids(steps) <==> x in Ordered(keys) {
      if x in keys {
        var i :| 0 <= i < |steps| && steps[i].stepId == x;
        assert Ids(steps)[i] == x;
      }
    }
    IncreasingUnique(Ids(steps), Ordered(keys));
  }

  lemma {:induction false} SavedSteps(rows: map<int, StepRow>, steps: seq<StepState>)
    requires Increasing(Ids(steps)) && rows.Keys <= IdSet(steps)
    ensures ReadSteps(UpsertAll(rows, steps)) == steps
  {
    SavedIds(rows, steps);
    var back := ReadSteps(UpsertAll(rows, steps));
    forall i | 0 <= i < |steps| ensures back[i] == steps[i] {
      UpsertedRow(rows, steps, i);
      assert Ids(back)[i] == Ids(steps)[i];
    }
  }

  /** Saving by per-step upserts and loading back in step order returns the saved snapshot exactly when
      its ids increase and the session had no rows of other steps and no header of another lab or user. */
  lemma SaveLoadRoundTrip(db: Db, sid: string, ss: SessionSteps)
    ensures Load(SaveTx(db, sid, ss), sid) == Some(ss) <==> Fits(db, sid, ss)
  {
    if Fits(db, sid, ss) {
      SavedSteps(RowsOf(db, sid), ss.steps);
    }
    if Load(SaveTx(db, sid, ss), sid) == Some(ss) {
      var rows := UpsertAll(RowsOf(db, sid), ss.steps);
      LoadedShape(SaveTx(db, sid, ss).headers[sid], rows);
      assert Loaded(SaveTx(db, sid, ss).headers[sid], rows) == ss;
    }
  }

  // ------------------------------------------------ the cached store, on values

  /** One API process: its map and the database, if one is configured. */
  datatype Store = Store(hasDb: bool, cache: map<string, SessionSteps>, db: Db)

  /** A closure handed to withSession: the new state and whether it is dirty. */
  type Section = SessionSteps -> (SessionSteps, bool)

  ghost predicate IsSection(f: Section) {
    forall x :: SameShape(x, f(x).0) && (!f(x).1 ==> f(x).0 == x)
  }

  ghost function Lookup(s: Store, sid: string, loadOk: bool): Option<SessionSteps> {
    if sid in s.cache then Some(s.cache[sid])
    else if s.hasDb && loadOk then Load(s.db, sid)
    else None
  }

  /** `saveOk`: the save takes effect, whether or not its reply arrives; a failure is only logged. */
  ghost function WithSession(
      s: Store, sid: string, f: Section, loadOk: bool, saveOk: bool): (Store, Option<SessionSteps>) {
    match Lookup(s, sid, loadOk)
    case None => (s, None)
    case Some(ss) =>
      var (ss', dirty) := f(ss);
      var db := if dirty && s.hasDb && saveOk then SaveTx(s.db, sid, ss') else s.db;
      (Store(s.hasDb, s.cache[sid := ss'], db), Some(ss))
  }

  ghost function Put(s: Store, sid: string, ss: SessionSteps, outcome: Outcome): (Store, bool) {
    var db := if s.hasDb && outcome != RollsBack then SaveTx(s.db, sid, ss) else s.db;
    if s.hasDb && outcome != Commits then (s.(db := db), false) else (Store(s.hasDb, s.cache[sid := ss], db), true)
  }

  ghost function Take(s: Store, sid: string, loadOk: bool, deleteOk: bool): (Store, Option<SessionSteps>) {
    (Store(s.hasDb, s.cache - {sid}, if s.hasDb && deleteOk then DeleteTx(s.db, sid) else s.db), Lookup(s, sid, loadOk))
  }

  ghost function Restart(s: Store): Store {
    s.(cache := map[])
  }

  /** What the store answers for every session: the one plain map it stands for. */
  ghost function View(s: Store): (m: map<string, SessionSteps>)
    ensures forall sid :: sid in m <==> Lookup(s, sid, true).Some?
    ensures forall sid :: sid in m ==> m[sid] == Lookup(s, sid, true).value
  {
    map sid | sid in s.cache.Keys + (if s.hasDb then s.db.headers.Keys else {}) :: Lookup(s, sid, true).value
  }

  ghost predicate Valid(s: Store) {
    && s.db.headers.Keys == s.db.steps.Keys
    && (forall sid :: sid in s.cache ==> Increasing(Ids(s.cache[sid].steps)))
    && (s.hasDb ==> forall sid :: sid in s.cache ==>
          && sid in s.db.headers
          && s.db.headers[sid].labId == s.cache[sid].labId
          && s.db.headers[sid].userId == s.cache[sid].userId
          && s.db.steps[sid].Keys == IdSet(s.cache[sid].steps))
  }

  /** Every cached session is exactly what its rows say. */
  ghost predicate Coherent(s: Store) {
    forall sid :: sid in s.cache ==> s.hasDb && Load(s.db, sid) == Some(s.cache[sid])
  }

  lemma IdSetOfShape(a: seq<StepState>, b: seq<StepState>)
    requires Ids(a) == Ids(b)
    ensures IdSet(a) == IdSet(b)
  {
    forall id ensures id in IdSet(a) <==> id in IdSet(b) {
      if id in IdSet(a) {
        var i :| 0 <= i < |a| && a[i].stepId == id;
        assert Ids(b)[i] == id;
        assert b[i].stepId == id;
      }
      if id in IdSet(b) {
        var i :| 0 <= i < |b| && b[i].stepId == id;
        assert Ids(a)[i] == id;
        assert a[i].stepId == id;
      }
    }
  }

  lemma LoadedShape(header: Header, rows: map<int, StepRow>)
    ensures Increasing(Ids(Loaded(header, rows).steps))
    ensures IdSet(Loaded(header, rows).steps) == rows.Keys
  {
    var steps := ReadSteps(rows);
    forall id ensures id in IdSet(steps) <==> id in rows.Keys {
      if id in rows.Keys {
        assert id in Ordered(rows.Keys);
        var i :| 0 <= i < |steps| && Ids(steps)[i] == id;
        assert steps[i].stepId == id;
      }
      if id in IdSet(steps) {
        var i :| 0 <= i < |steps| && steps[i].stepId == id;
        assert Ids(steps)[i] in Ordered(rows.Keys);
      }
    }
  }

  ghost function Written(s: Store, sid: string, ss: SessionSteps, saved: bool): Store {
    Store(s.hasDb, s.cache[sid := ss], if saved then SaveTx(s.db, sid, ss) else s.db)
  }

  /** Rows of `sid`, if any, belong to the same steps, lab and user as `ss`. */
  ghost predicate RowsMatch(s: Store, sid: string, ss: SessionSteps) {
    sid in s.db.headers && sid in s.db.steps ==>
      && s.db.headers[sid].labId == ss.labId
      && s.db.headers[sid].userId == ss.userId
      && s.db.steps[sid].Keys == IdSet(ss.steps)
  }

  lemma WrittenValid(s: Store, sid: string, ss: SessionSteps, saved: bool)
    requires Valid(s) && Increasing(Ids(ss.steps))
    requires saved ==> s.hasDb
    requires s.hasDb ==> RowsMatch(s, sid, ss) && (saved || sid in s.db.headers)
    ensures Valid(Written(s, sid, ss, saved))
  {
    var s' := Written(s, sid, ss, saved);
    if saved {
      assert s'.db.steps[sid].Keys == RowsOf(s.db, sid).Keys + IdSet(ss.steps);
    }
    forall other | other in s'.cache && s.hasDb
      ensures other in s'.db.headers && RowsMatch(s', other, s'.cache[other])
    {
      if other != sid { assert other in s.cache; }
    }
  }

  lemma WrittenLoads(s: Store, sid: string, ss: SessionSteps)
    requires Valid(s) && Increasing(Ids(ss.steps)) && RowsMatch(s, sid, ss)
    ensures Load(SaveTx(s.db, sid, ss), sid) == Some(ss)
  {
    SaveLoadRoundTrip(s.db, sid, ss);
  }

  lemma SaveElsewhere(db: Db, sid: string, ss: SessionSteps, other: string)
    requires other != sid
    ensures Load(SaveTx(db, sid, ss), other) == Load(db, other)
  {
  }

  lemma WrittenElsewhere(s: Store, sid: string, ss: SessionSteps, saved: bool, other: string)
    requires (saved ==> s.hasDb) && other != sid
    ensures Lookup(Written(s, sid, ss, saved), other, true) == Lookup(s, other, true)
    ensures Load(Written(s, sid, ss, saved).db, other) == Load(s.db, other)
  {
    SaveElsewhere(s.db, sid, ss, other);
  }

  lemma ViewIs(s: Store, m: map<string, SessionSteps>)
    requires forall sid :: Lookup(s, sid, true) == if sid in m then Some(m[sid]) else None
    ensures View(s) == m
  {
  }

  lemma WrittenView(s: Store, sid: string, ss: SessionSteps, saved: bool)
    requires saved ==> s.hasDb
    ensures View(Written(s, sid, ss, saved)) == View(s)[sid := ss]
  {
    var s' := Written(s, sid, ss, saved);
    var m := View(s)[sid := ss];
    forall other ensures Lookup(s', other, true) == if other in m then Some(m[other]) else None {
      if other != sid {
        WrittenElsewhere(s, sid, ss, saved, other);
        assert other in m <==> other in View(s);
      }
    }
    ViewIs(s', m);
  }

  /** Whatever the store shows for a session has ordered steps that match its rows. */
  lemma ViewMatches(s: Store, sid: string)
    requires Valid(s) && sid in View(s)
    ensures Increasing(Ids(View(s)[sid].steps))
    ensures s.hasDb ==> sid in s.db.headers && RowsMatch(s, sid, View(s)[sid])
  {
    if sid !in s.cache { LoadedShape(s.db.headers[sid], RowsOf(s.db, sid)); }
  }

  /** What the store would show after losing its cache, once `ss` was written and perhaps saved. */
  lemma WrittenKept(s: Store, sid: string, ss: SessionSteps, saved: bool)
    requires Valid(s) && Increasing(Ids(ss.steps)) && (s.hasDb ==> RowsMatch(s, sid, ss)) && (saved ==> s.hasDb)
    ensures View(Restart(Written(s, sid, ss, saved))) == if saved then View(Restart(s))[sid := ss] else View(Restart(s))
  {
    var s' := Written(s, sid, ss, saved);
    var m := if saved then View(Restart(s))[sid := ss] else View(Restart(s));
    if saved { WrittenLoads(s, sid, ss); }
    forall other ensures Lookup(Restart(s'), other, true) == if other in m then Some(m[other]) else None {
      if other != sid { SaveElsewhere(s.db, sid, ss, other); }
    }
    ViewIs(Restart(s'), m);
  }

  /** The session is cached, or can be loaded. */
  ghost predicate Visible(s: Store, sid: string, loadOk: bool) {
    sid in View(s) && (sid in s.cache || loadOk)
  }

  lemma SectionIsWrite(s: Store, sid: string, f: Section, loadOk: bool, saveOk: bool)
    requires Valid(s)
    ensures WithSession(s, sid, f, loadOk, saveOk) ==
      if Visible(s, sid, loadOk) then
        var (ss', dirty) := f(View(s)[sid]);
        (Written(s, sid, ss', dirty && s.hasDb && saveOk), Some(View(s)[sid]))
      else (s, None)
  {
  }

  /** Writing new progress of the same shape over what the store shows. */
  lemma {:induction false} WriteRefines(s: Store, sid: string, ss: SessionSteps, saved: bool)
    requires Valid(s) && sid in View(s) && SameShape(View(s)[sid], ss) && (saved ==> s.hasDb)
    ensures var s' := Written(s, sid, ss, saved);
      && Valid(s')
      && View(s') == View(s)[sid := ss]
      && View(Restart(s')) == (if saved then View(Restart(s))[sid := ss] else View(Restart(s)))
  {
    ViewMatches(s, sid);
    IdSetOfShape(View(s)[sid].steps, ss.steps);
    WrittenValid(s, sid, ss, saved);
    WrittenView(s, sid, ss, saved);
    WrittenKept(s, sid, ss, saved);
  }

  /** A critical section acts on what the store shows as it would on one plain map, whether or not its
      save reaches the tables; what a restart would show changes exactly with a completed save. A failed
      load hides a session that is not cached. */
  lemma {:induction false} WithSessionRefines(s: Store, sid: string, f: Section, loadOk: bool, saveOk: bool)
    requires Valid(s) && IsSection(f)
    ensures var (s', seen) := WithSession(s, sid, f, loadOk, saveOk);
      Valid(s') &&
      if Visible(s, sid, loadOk) then
        && var (ss', dirty) := f(View(s)[sid]);
        && seen == Some(View(s)[sid])
        && View(s') == View(s)[sid := ss']
        && View(Restart(s')) == (if dirty && s.hasDb && saveOk then View(Restart(s))[sid := ss'] else View(Restart(s)))
        && s'.cache.Keys == s.cache.Keys + {sid}
      else s' == s && seen == None
  {
    SectionIsWrite(s, sid, f, loadOk, saveOk);
    if Visible(s, sid, loadOk) {
      var (ss', dirty) := f(View(s)[sid]);
      WriteRefines(s, sid, ss', dirty && s.hasDb && saveOk);
    }
  }

  /** Rows saved behind the cache's back, by a registration whose reply was lost. */
  ghost function Stored(s: Store, sid: string, ss: SessionSteps): Store {
    s.(db := SaveTx(s.db, sid, ss))
  }

  lemma StoredView(s: Store, sid: string, ss: SessionSteps)
    requires s.hasDb
    ensures var s' := Stored(s, sid, ss);
      View(s') == if sid in s.cache then View(s) else View(s)[sid := Load(s'.db, sid).value]
  {
    var s' := Stored(s, sid, ss);
    var m := if sid in s.cache then View(s) else View(s)[sid := Load(s'.db, sid).value];
    forall other ensures Lookup(s', other, true) == if other in m then Some(m[other]) else None {
      if other != sid {
        SaveElsewhere(s.db, sid, ss, other);
        assert other in m <==> other in View(s);
      }
    }
    ViewIs(s', m);
  }

  lemma StoredValid(s: Store, sid: string, ss: SessionSteps)
    requires Valid(s) && s.hasDb && RowsMatch(s, sid, ss)
    ensures Valid(Stored(s, sid, ss))
  {
    var s' := Stored(s, sid, ss);
    assert s'.db.steps[sid].Keys == RowsOf(s.db, sid).Keys + IdSet(ss.steps);
    forall other | other in s'.cache
      ensures other in s'.db.headers && RowsMatch(s', other, s'.cache[other])
    {
      assert other in s.cache;
    }
  }

  /** Registering progress shows it at once. If the save is rolled back it changes nothing; if only the reply
      is lost, the caller is told of a failure while the rows are there, to be shown unless the session is
      cached. Loading it back gives the same progress exactly when it fits the rows that were there. */
  lemma {:induction false} PutRefines(s: Store, sid: string, ss: SessionSteps, outcome: Outcome)
    requires Valid(s)
    ensures var (s', ok) := Put(s, sid, ss, outcome);
      && ok == (s.hasDb ==> outcome == Commits)
      && (ok ==> View(s') == View(s)[sid := ss])
      && (s.hasDb && outcome == RollsBack ==> s' == s)
      && (s.hasDb && outcome == CommitsUnanswered ==>
            && s'.cache == s.cache
            && View(s') == if sid in s.cache then View(s) else View(s)[sid := Load(s'.db, sid).value])
      && (s.hasDb && outcome != RollsBack ==> (Load(s'.db, sid) == Some(ss) <==> Fits(s.db, sid, ss)))
  {
    SaveLoadRoundTrip(s.db, sid, ss);
    if s.hasDb ==> outcome == Commits {
      WrittenView(s, sid, ss, s.hasDb);
      assert Put(s, sid, ss, outcome).0 == Written(s, sid, ss, s.hasDb);
    } else {
      StoredView(s, sid, ss);
    }
  }

  lemma MatchesShape(s: Store, sid: string, ss: SessionSteps)
    requires Valid(s) && (sid in View(s) ==> SameShape(View(s)[sid], ss))
    ensures s.hasDb ==> RowsMatch(s, sid, ss)
  {
    if s.hasDb && sid in View(s) {
      ViewMatches(s, sid);
      IdSetOfShape(View(s)[sid].steps, ss.steps);
    }
  }

  /** Progress of the same steps as any earlier progress of that session keeps the store in order. */
  lemma PutKeeps(s: Store, sid: string, ss: SessionSteps, outcome: Outcome)
    requires Valid(s) && Increasing(Ids(ss.steps)) && (sid in View(s) ==> SameShape(View(s)[sid], ss))
    ensures var (s', ok) := Put(s, sid, ss, outcome);
      && Valid(s')
      && View(Restart(s')) ==
           if s.hasDb && outcome != RollsBack then View(Restart(s))[sid := ss] else View(Restart(s))
  {
    MatchesShape(s, sid, ss);
    WrittenKept(s, sid, ss, s.hasDb);
    if s.hasDb ==> outcome == Commits {
      WrittenValid(s, sid, ss, s.hasDb);
      assert Put(s, sid, ss, outcome).0 == Written(s, sid, ss, s.hasDb);
    } else if outcome == CommitsUnanswered {
      StoredValid(s, sid, ss);
      assert Restart(Stored(s, sid, ss)) == Restart(Written(s, sid, ss, true));
    }
  }

  function Without(
      m: map<string, SessionSteps>, sid: string, left: map<string, SessionSteps>): map<string, SessionSteps> {
    if sid in left then m[sid := left[sid]] else m - {sid}
  }

  ghost function Taken(s: Store, sid: string, deleted: bool): Store {
    Store(s.hasDb, s.cache - {sid}, if deleted then DeleteTx(s.db, sid) else s.db)
  }

  lemma TakenKept(s: Store, sid: string, deleted: bool)
    requires deleted ==> s.hasDb
    ensures View(Restart(Taken(s, sid, deleted))) == if deleted then View(Restart(s)) - {sid} else View(Restart(s))
  {
    var s' := Restart(Taken(s, sid, deleted));
    var m := if deleted then View(Restart(s)) - {sid} else View(Restart(s));
    forall other ensures Lookup(s', other, true) == if other in m then Some(m[other]) else None {
      assert other in View(Restart(s)) <==> Lookup(Restart(s), other, true).Some?;
    }
    ViewIs(s', m);
  }

  lemma TakenView(s: Store, sid: string, deleted: bool)
    requires deleted ==> s.hasDb
    ensures var s' := Taken(s, sid, deleted); View(s') == Without(View(s), sid, View(Restart(s')))
  {
    var s' := Taken(s, sid, deleted);
    var m := Without(View(s), sid, View(Restart(s')));
    forall other ensures Lookup(s', other, true) == if other in m then Some(m[other]) else None {
      if other == sid {
        assert Lookup(s', sid, true) == Lookup(Restart(s'), sid, true);
      } else {
        assert other in View(s) <==> Lookup(s, other, true).Some?;
      }
    }
    ViewIs(s', m);
  }

  /** Taking returns the last state; a failed delete leaves the rows, and the session shows them again. */
  lemma {:induction false} TakeRefines(s: Store, sid: string, loadOk: bool, deleteOk: bool)
    requires Valid(s)
    ensures var (s', last) := Take(s, sid, loadOk, deleteOk);
      && Valid(s')
      && last == (if Visible(s, sid, loadOk) then Some(View(s)[sid]) else None)
      && View(Restart(s')) == (if s.hasDb && deleteOk then View(Restart(s)) - {sid} else View(Restart(s)))
      && View(s') == Without(View(s), sid, View(Restart(s')))
  {
    TakenKept(s, sid, s.hasDb && deleteOk);
    TakenView(s, sid, s.hasDb && deleteOk);
    assert Take(s, sid, loadOk, deleteOk).0 == Taken(s, sid, s.hasDb && deleteOk);
  }

  /** Losing the cache is harmless exactly when every cached session agrees with its rows. */
  lemma RestartHarmlessIff(s: Store)
    requires Valid(s)
    ensures Valid(Restart(s))
    ensures View(Restart(s)) == View(s) <==> Coherent(s)
  {
    if View(Restart(s)) == View(s) {
      forall sid | sid in s.cache ensures s.hasDb && Load(s.db, sid) == Some(s.cache[sid]) {
        assert sid in View(Restart(s)) && View(s)[sid] == s.cache[sid];
      }
    }
    if Coherent(s) {
      forall sid ensures sid in View(s) <==> sid in View(Restart(s)) {}
      forall sid | sid in View(s) ensures View(s)[sid] == View(Restart(s))[sid] {}
    }
  }
}
