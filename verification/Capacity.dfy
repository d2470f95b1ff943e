/** The global session quota under concurrent creations. The quota check of CreateSession
    (apps/api/internal/api/handlers/session.go) counts the on-prem pool first and the overflow pool later
    (apps/api/internal/session/dispatcher.go), and the session is created later still, so sessions come
    and go between the two counts and after them. */
module Capacity {
  import Runs

  /** At most `inFlight` creations are in flight at any moment: a creation is in flight from its first count
      until its session is there or can no longer come. `unseen`: how many sessions of the overflow pool a
      count of its instances by tag may miss, those whose tags are not visible yet. */
  datatype Config = Config(onPremCap: nat, overflowCap: nat, hasOverflow: bool, inFlight: nat, unseen: nat)

  function Cap(cfg: Config): nat {
    if cfg.hasOverflow then cfg.onPremCap + cfg.overflowCap else cfg.onPremCap
  }

  function Unseen(cfg: Config): nat {
    if cfg.hasOverflow then cfg.unseen else 0
  }

  /** A creation that has counted the on-prem pool and not yet the overflow pool. */
  datatype Window = Window(creator: nat, counted: nat)

  datatype Route = Unrouted | ToOnPrem | ToOverflow

  /** Active sessions per pool; windows in the order they were opened; creations past the check. */
  datatype Quota = Quota(onPrem: nat, overflow: nat, windows: seq<Window>, passed: map<nat, Route>)

  datatype Step =
    | Count(creator: nat)
    | Check(i: nat, missed: nat)
    | Drop(i: nat)
    | Choose(creator: nat)
    | Create(creator: nat)
    | Fail(creator: nat)
    | EndOnPrem
    | EndOverflow

  function Total(s: Quota): nat {
    s.onPrem + s.overflow
  }

  predicate Busy(s: Quota, creator: nat) {
    creator in s.passed || exists i :: 0 <= i < |s.windows| && s.windows[i].creator == creator
  }

  function Without(ws: seq<Window>, i: nat): seq<Window>
    requires i < |ws|
  {
    ws[..i] + ws[i + 1..]
  }

  function DoCount(cfg: Config, s: Quota, creator: nat): Quota {
    if Busy(s, creator) || |s.windows| + |s.passed| >= cfg.inFlight then s
    else s.(windows := s.windows + [Window(creator, s.onPrem)])
  }

  /** The second count, which may miss some sessions, and the verdict: refused at or above the cap; a cap of
      0 means no quota. */
  function DoCheck(cfg: Config, s: Quota, i: nat, missed: nat): Quota {
    if i >= |s.windows| || missed > Unseen(cfg) || missed > s.overflow then s
    else
      var w := s.windows[i];
      var s' := s.(windows := Without(s.windows, i));
      if Cap(cfg) > 0 && w.counted + s.overflow - missed >= Cap(cfg) then s'
      else s'.(passed := s.passed[w.creator := Unrouted])
  }

  /** The dispatcher's own count decides the pool. */
  function DoChoose(cfg: Config, s: Quota, creator: nat): Quota {
    if creator !in s.passed || s.passed[creator] != Unrouted then s
    else
      var route := if !cfg.hasOverflow || s.onPrem < cfg.onPremCap then ToOnPrem else ToOverflow;
      s.(passed := s.passed[creator := route])
  }

  function DoCreate(s: Quota, creator: nat): Quota {
    if creator !in s.passed then s
    else
      match s.passed[creator]
      case Unrouted => s
      case ToOnPrem => s.(onPrem := s.onPrem + 1, passed := s.passed - {creator})
      case ToOverflow => s.(overflow := s.overflow + 1, passed := s.passed - {creator})
  }

  function Exec(cfg: Config, s: Quota, step: Step): Quota {
    match step
    case Count(creator) => DoCount(cfg, s, creator)
    case Check(i, missed) => DoCheck(cfg, s, i, missed)
    case Drop(i) => if i < |s.windows| then s.(windows := Without(s.windows, i)) else s
    case Choose(creator) => DoChoose(cfg, s, creator)
    case Create(creator) => DoCreate(s, creator)
    case Fail(creator) => s.(passed := s.passed - {creator})
    case EndOnPrem => if s.onPrem > 0 then s.(onPrem := s.onPrem - 1) else s
    case EndOverflow => if s.overflow > 0 then s.(overflow := s.overflow - 1) else s
  }

  /** Nothing in flight, and the pools within their own limits. */
  predicate Start(cfg: Config, s: Quota) {
    && s.windows == [] && s.passed == map[] && s.onPrem <= cfg.onPremCap
    && s.overflow <= (if cfg.hasOverflow then cfg.overflowCap else 0)
  }

  function Machine(cfg: Config): (Quota, Step) -> Quota {
    (s, step) => Exec(cfg, s, step)
  }

  ghost function After(cfg: Config, s: Quota, steps: seq<Step>): Quota {
    Runs.After(Machine(cfg), s, steps)
  }

  // ------------------------------------------------------ the overshoot bound

  /** A creation that passes its check finds fewer sessions than this. */
  function Reach(cfg: Config): nat {
    Cap(cfg) + Unseen(cfg)
  }

  /** What keeps the i-th oldest open window harmless. Either few on-prem sessions were added since it
      counted, or some creation that counted after it has already been checked against the cap. */
  predicate Harmless(cfg: Config, s: Quota, i: nat)
    requires i < |s.windows|
  {
    || s.onPrem - s.windows[i].counted + |s.passed| + i + 1 <= cfg.inFlight
    || Total(s) + |s.passed| + i + 2 <= Reach(cfg) + cfg.inFlight
  }

  predicate Inv(cfg: Config, s: Quota) {
    && |s.windows| + |s.passed| <= cfg.inFlight
    && Total(s) + |s.passed| + 1 <= Reach(cfg) + cfg.inFlight
    && (forall i :: 0 <= i < |s.windows| ==> Harmless(cfg, s, i))
    && (forall i :: 0 <= i < |s.windows| ==> s.windows[i].creator !in s.passed)
    && (forall i, j :: 0 <= i < j < |s.windows| ==> s.windows[i].creator != s.windows[j].creator)
  }

  lemma CountKeeps(cfg: Config, s: Quota, creator: nat)
    requires Inv(cfg, s)
    ensures Inv(cfg, DoCount(cfg, s, creator))
  {
    var s' := DoCount(cfg, s, creator);
    forall i | 0 <= i < |s'.windows| ensures Harmless(cfg, s', i) {
      if i < |s.windows| { assert Harmless(cfg, s, i); }
    }
  }

  lemma DropKeeps(cfg: Config, s: Quota, i: nat)
    requires Inv(cfg, s) && i < |s.windows|
    ensures Inv(cfg, s.(windows := Without(s.windows, i)))
  {
    var s' := s.(windows := Without(s.windows, i));
    forall j | 0 <= j < |s'.windows| ensures Harmless(cfg, s', j) {
      assert Harmless(cfg, s, if j < i then j else j + 1);
    }
  }

  lemma CheckKeeps(cfg: Config, s: Quota, i: nat, missed: nat)
    requires Cap(cfg) > 0 && Inv(cfg, s)
    ensures Inv(cfg, DoCheck(cfg, s, i, missed))
  {
    if i < |s.windows| && missed <= Unseen(cfg) && missed <= s.overflow {
      DropKeeps(cfg, s, i);
      var w := s.windows[i];
      assert Harmless(cfg, s, i);
      if w.counted + s.overflow - missed < Cap(cfg) {
        var s' := DoCheck(cfg, s, i, missed);
        assert |s'.passed| == |s.passed| + 1;
        assert Total(s') + |s'.passed| + i + 1 <= Reach(cfg) + cfg.inFlight;
        forall j | 0 <= j < |s'.windows| ensures Harmless(cfg, s', j) {
          assert Harmless(cfg, s, if j < i then j else j + 1);
        }
      }
    }
  }

  lemma ReplaceKeepsSize(m: map<nat, Route>, k: nat, v: Route)
    requires k in m
    ensures |m[k := v]| == |m| && |m - {k}| == |m| - 1
  {
    assert m[k := v].Keys == m.Keys;
    assert (m - {k}).Keys == m.Keys - {k};
  }

  lemma ChooseKeeps(cfg: Config, s: Quota, creator: nat)
    requires Inv(cfg, s)
    ensures Inv(cfg, DoChoose(cfg, s, creator))
  {
    if creator in s.passed {
      var s' := DoChoose(cfg, s, creator);
      if s' != s { ReplaceKeepsSize(s.passed, creator, s'.passed[creator]); }
      forall i | 0 <= i < |s'.windows| ensures Harmless(cfg, s', i) { assert Harmless(cfg, s, i); }
    }
  }

  lemma LeaveKeeps(cfg: Config, s: Quota, creator: nat)
    requires Inv(cfg, s)
    ensures Inv(cfg, DoCreate(s, creator)) && Inv(cfg, s.(passed := s.passed - {creator}))
  {
    var made, gone := DoCreate(s, creator), s.(passed := s.passed - {creator});
    if creator in s.passed {
      ReplaceKeepsSize(s.passed, creator, Unrouted);
    } else {
      assert s.passed - {creator} == s.passed;
    }
    forall i | 0 <= i < |s.windows| ensures Harmless(cfg, made, i) && Harmless(cfg, gone, i) {
      assert Harmless(cfg, s, i);
    }
  }

  lemma StepKeeps(cfg: Config, s: Quota, step: Step)
    requires Cap(cfg) > 0 && Inv(cfg, s)
    ensures Inv(cfg, Exec(cfg, s, step))
  {
    match step
    case Count(creator) => CountKeeps(cfg, s, creator);
    case Check(i, missed) => CheckKeeps(cfg, s, i, missed);
    case Drop(i) => if i < |s.windows| { DropKeeps(cfg, s, i); }
    case Choose(creator) => ChooseKeeps(cfg, s, creator);
    case Create(creator) => LeaveKeeps(cfg, s, creator);
    case Fail(creator) => LeaveKeeps(cfg, s, creator);
    case _ =>
      var s' := Exec(cfg, s, step);
      forall i | 0 <= i < |s'.windows| ensures Harmless(cfg, s', i) { assert Harmless(cfg, s, i); }
  }

  /** With at most K creations in flight, and counts that miss at most U sessions, the active sessions never
      exceed capacity - 1 + K + U, although the two pools are counted at different moments. */
  lemma OvershootBound(cfg: Config, s: Quota, steps: seq<Step>)
    requires Cap(cfg) > 0 && cfg.inFlight > 0 && Start(cfg, s)
    ensures Inv(cfg, After(cfg, s, steps)) && Total(After(cfg, s, steps)) <= Reach(cfg) - 1 + cfg.inFlight
  {
    forall t: Quota, step: Step | Inv(cfg, t) ensures Inv(cfg, Machine(cfg)(t, step)) { StepKeeps(cfg, t, step); }
    Runs.KeptByRuns(Machine(cfg), t => Inv(cfg, t), s, steps);
  }

  // ------------------------------------------------ one creation at a time

  /** A pool without room gets no session of which another count could miss any. */
  function OverflowReach(cfg: Config): nat {
    if !cfg.hasOverflow || cfg.overflowCap == 0 then 0 else cfg.overflowCap + cfg.unseen
  }

  predicate AloneInv(cfg: Config, s: Quota) {
    && Inv(cfg, s)
    && s.onPrem <= cfg.onPremCap && s.overflow <= OverflowReach(cfg)
    && (forall i :: 0 <= i < |s.windows| ==> s.onPrem <= s.windows[i].counted)
    && (forall c :: c in s.passed ==>
          match s.passed[c]
          case Unrouted => Total(s) < cfg.onPremCap + OverflowReach(cfg)
          case ToOnPrem => s.onPrem < cfg.onPremCap
          case ToOverflow => cfg.hasOverflow && s.overflow < OverflowReach(cfg))
  }

  lemma TwoKeys(m: map<nat, Route>, a: nat, b: nat)
    ensures a in m && b in m && a != b ==> |m| >= 2
  {
    if a in m && b in m && a != b {
      var pair := {a, b};
      assert pair <= m.Keys;
      assert |m.Keys - pair| + |pair| == |m.Keys|;
    }
  }

  lemma AloneCreateKeeps(cfg: Config, s: Quota, creator: nat)
    requires Cap(cfg) > 0 && cfg.inFlight == 1 && AloneInv(cfg, s)
    ensures AloneInv(cfg, DoCreate(s, creator))
  {
    StepKeeps(cfg, s, Create(creator));
    var s' := DoCreate(s, creator);
    if creator in s.passed && s.passed[creator] != Unrouted {
      forall c ensures c !in s'.passed { TwoKeys(s.passed, c, creator); }
      assert |s.windows| == 0;
    }
  }

  lemma AlonePassKeeps(cfg: Config, s: Quota, step: Step)
    requires Cap(cfg) > 0 && cfg.inFlight == 1 && AloneInv(cfg, s) && (step.Count? || step.Check? || step.Choose?)
    ensures AloneInv(cfg, Exec(cfg, s, step))
  {
    StepKeeps(cfg, s, step);
  }

  lemma AloneEndKeeps(cfg: Config, s: Quota, step: Step)
    requires Cap(cfg) > 0 && cfg.inFlight == 1 && AloneInv(cfg, s)
      && (step.Drop? || step.Fail? || step.EndOnPrem? || step.EndOverflow?)
    ensures AloneInv(cfg, Exec(cfg, s, step))
  {
    StepKeeps(cfg, s, step);
  }

  lemma AloneStepKeeps(cfg: Config, s: Quota, step: Step)
    requires Cap(cfg) > 0 && cfg.inFlight == 1 && AloneInv(cfg, s)
    ensures AloneInv(cfg, Exec(cfg, s, step))
  {
    if step.Create? {
      AloneCreateKeeps(cfg, s, step.creator);
    } else if step.Count? || step.Check? || step.Choose? {
      AlonePassKeeps(cfg, s, step);
    } else {
      AloneEndKeeps(cfg, s, step);
    }
  }

  /** With one creation at a time the on-prem pool never exceeds its cap, and the overflow pool exceeds its
      own by at most what a count may miss; a pool without room stays empty. */
  lemma PoolsWithinCaps(cfg: Config, s: Quota, steps: seq<Step>)
    requires Cap(cfg) > 0 && cfg.inFlight == 1 && Start(cfg, s)
    ensures AloneInv(cfg, After(cfg, s, steps))
    ensures After(cfg, s, steps).onPrem <= cfg.onPremCap
    ensures After(cfg, s, steps).overflow <= OverflowReach(cfg)
  {
    forall t: Quota, step: Step | AloneInv(cfg, t) ensures AloneInv(cfg, Machine(cfg)(t, step)) {
      AloneStepKeeps(cfg, t, step);
    }
    Runs.KeptByRuns(Machine(cfg), t => AloneInv(cfg, t), s, steps);
  }

  // ------------------------------------------------------- the bound is met

  function Opened(n: nat, counted: nat): (ws: seq<Window>)
    ensures |ws| == n && forall i :: 0 <= i < n ==> ws[i] == Window(i, counted)
  {
    seq(n, i requires 0 <= i < n => Window(i, counted))
  }

  function Waiting(lo: nat, hi: nat): (m: map<nat, Route>)
    ensures forall c :: c in m <==> lo <= c < hi
    ensures forall c :: c in m ==> m[c] == Unrouted
    decreases hi
  {
    if lo >= hi then map[] else Waiting(lo, hi - 1)[hi - 1 := Unrouted]
  }

  lemma OpenedNext(cfg: Config, s: Quota, n: nat)
    requires s.passed == map[] && n < cfg.inFlight
    ensures DoCount(cfg, s.(windows := Opened(n, s.onPrem)), n) == s.(windows := Opened(n + 1, s.onPrem))
  {
    assert Opened(n + 1, s.onPrem) == Opened(n, s.onPrem) + [Window(n, s.onPrem)];
  }

  /** n creations count the on-prem pool, one after another. */
  lemma {:induction false} CountMany(cfg: Config, s: Quota, n: nat)
    requires s.windows == [] && s.passed == map[] && n <= cfg.inFlight
    ensures Runs.Reaches(Machine(cfg), s, s.(windows := Opened(n, s.onPrem)))
  {
    if n == 0 {
      Runs.ReachesSelf(Machine(cfg), s);
      assert s.(windows := Opened(0, s.onPrem)) == s;
    } else {
      CountMany(cfg, s, n - 1);
      var t := s.(windows := Opened(n - 1, s.onPrem));
      Runs.ReachesNext(Machine(cfg), s, t, Count(n - 1));
      OpenedNext(cfg, s, n - 1);
    }
  }

  /** All of them then see room below the cap. */
  lemma {:induction false} CheckMany(cfg: Config, s: Quota, n: nat, j: nat, missed: nat)
    requires s.windows == [] && s.passed == map[] && j <= n <= cfg.inFlight
    requires missed <= Unseen(cfg) && missed <= s.overflow && Total(s) - missed < Cap(cfg)
    ensures Runs.Reaches(Machine(cfg), s, s.(windows := Opened(n, s.onPrem)[j..], passed := Waiting(0, j)))
  {
    if j == 0 {
      CountMany(cfg, s, n);
      assert Waiting(0, 0) == map[];
      assert s.(windows := Opened(n, s.onPrem)[0..], passed := Waiting(0, 0)) == s.(windows := Opened(n, s.onPrem));
    } else {
      CheckMany(cfg, s, n, j - 1, missed);
      var t := s.(windows := Opened(n, s.onPrem)[j - 1..], passed := Waiting(0, j - 1));
      Runs.ReachesNext(Machine(cfg), s, t, Check(0, missed));
      assert t.windows[0] == Window(j - 1, s.onPrem);
      assert Without(t.windows, 0) == Opened(n, s.onPrem)[j..];
      assert DoCheck(cfg, t, 0, missed) == s.(windows := Opened(n, s.onPrem)[j..], passed := Waiting(0, j));
    }
  }

  /** The pools after n more sessions are routed and created. */
  function Placed(cfg: Config, s: Quota, n: nat): (r: Quota)
    ensures Total(r) == Total(s) + n && r.windows == s.windows && r.passed == s.passed
  {
    if n == 0 then s
    else
      var t := Placed(cfg, s, n - 1);
      if !cfg.hasOverflow || t.onPrem < cfg.onPremCap then t.(onPrem := t.onPrem + 1)
      else t.(overflow := t.overflow + 1)
  }

  /** c of n creations have made their session, the others wait. */
  function Line(cfg: Config, s: Quota, c: nat, n: nat): Quota {
    Placed(cfg, s, c).(passed := Waiting(c, n))
  }

  lemma LineNext(cfg: Config, s: Quota, c: nat, n: nat)
    requires c < n
    ensures DoCreate(DoChoose(cfg, Line(cfg, s, c, n), c), c) == Line(cfg, s, c + 1, n)
  {
    assert Waiting(c, n)[c := ToOnPrem] - {c} == Waiting(c + 1, n);
    assert Waiting(c, n)[c := ToOverflow] - {c} == Waiting(c + 1, n);
  }

  /** The two steps that turn the next waiting creation into a session. */
  lemma PlaceOne(cfg: Config, s: Quota, c: nat, n: nat)
    requires Runs.Reaches(Machine(cfg), s, Line(cfg, s, c, n)) && c < n
    ensures Runs.Reaches(Machine(cfg), s, Line(cfg, s, c + 1, n))
  {
    var t := Line(cfg, s, c, n);
    Runs.ReachesNext(Machine(cfg), s, t, Choose(c));
    Runs.ReachesNext(Machine(cfg), s, DoChoose(cfg, t, c), Create(c));
    LineNext(cfg, s, c, n);
  }

  lemma LineStart(cfg: Config, s: Quota, n: nat)
    requires s.windows == []
    ensures s.(windows := Opened(n, s.onPrem)[n..], passed := Waiting(0, n)) == Line(cfg, s, 0, n)
  {
  }

  lemma {:induction false} PlaceMany(cfg: Config, s: Quota, c: nat, n: nat)
    requires Runs.Reaches(Machine(cfg), s, Line(cfg, s, c, n)) && c <= n
    ensures Runs.Reaches(Machine(cfg), s, Line(cfg, s, n, n))
    decreases n - c
  {
    if c < n {
      PlaceOne(cfg, s, c, n);
      PlaceMany(cfg, s, c + 1, n);
    }
  }

  /** And all of them create their session. */
  lemma CreateMany(cfg: Config, s: Quota, n: nat, missed: nat)
    requires s.windows == [] && s.passed == map[] && n <= cfg.inFlight
    requires missed <= Unseen(cfg) && missed <= s.overflow && Total(s) - missed < Cap(cfg)
    ensures Runs.Reaches(Machine(cfg), s, Placed(cfg, s, n))
  {
    CheckMany(cfg, s, n, n, missed);
    LineStart(cfg, s, n);
    PlaceMany(cfg, s, 0, n);
    LineEnd(cfg, s, n);
  }

  lemma LineEnd(cfg: Config, s: Quota, n: nat)
    requires s.passed == map[]
    ensures Line(cfg, s, n, n) == Placed(cfg, s, n)
  {
  }

  function Full(cfg: Config, overflow: nat): Quota {
    Quota(cfg.onPremCap, overflow, [], map[])
  }

  /** A creation that misses enough of the sessions before it. */
  lemma OneMore(cfg: Config, j: nat)
    requires cfg.hasOverflow && cfg.overflowCap > 0 && cfg.inFlight > 0 && j < cfg.unseen
    ensures Runs.Reaches(Machine(cfg), Full(cfg, cfg.overflowCap - 1 + j), Full(cfg, cfg.overflowCap + j))
  {
    var t := Full(cfg, cfg.overflowCap - 1 + j);
    CreateMany(cfg, t, 1, j);
    assert Placed(cfg, t, 0) == t;
    assert Placed(cfg, t, 1) == Full(cfg, cfg.overflowCap + j);
  }

  /** One creation after another, each of which misses those before it, fills the overflow pool. */
  lemma {:induction false} GrowOne(cfg: Config, j: nat)
    requires cfg.hasOverflow && cfg.overflowCap > 0 && cfg.inFlight > 0 && j <= cfg.unseen
    ensures Runs.Reaches(Machine(cfg), Full(cfg, cfg.overflowCap - 1), Full(cfg, cfg.overflowCap - 1 + j))
  {
    var s := Full(cfg, cfg.overflowCap - 1);
    if j == 0 {
      Runs.ReachesSelf(Machine(cfg), s);
    } else {
      GrowOne(cfg, j - 1);
      OneMore(cfg, j - 1);
      Runs.ReachesOn(Machine(cfg), s, Full(cfg, cfg.overflowCap - 2 + j), Full(cfg, cfg.overflowCap - 1 + j));
    }
  }

  function OneLeft(cfg: Config, overflow: nat): Quota
    requires cfg.onPremCap > 0
  {
    Quota(cfg.onPremCap - 1, overflow, [], map[])
  }

  lemma RacePlaced(cfg: Config, j: nat)
    requires cfg.hasOverflow && cfg.onPremCap > 0
    ensures Placed(cfg, OneLeft(cfg, j), 2) == Full(cfg, j + 1)
  {
    assert Placed(cfg, OneLeft(cfg, j), 1) == Full(cfg, j);
  }

  /** Where the overflow pool has no room, two creations that race for the last on-prem place send one of
      them there, and the on-prem session ends. */
  lemma Race(cfg: Config, j: nat)
    requires cfg.hasOverflow && cfg.overflowCap == 0 && cfg.onPremCap > 0 && cfg.inFlight > 1 && j < cfg.unseen
    ensures Runs.Reaches(Machine(cfg), OneLeft(cfg, j), OneLeft(cfg, j + 1))
  {
    CreateMany(cfg, OneLeft(cfg, j), 2, j);
    RacePlaced(cfg, j);
    Runs.ReachesNext(Machine(cfg), OneLeft(cfg, j), Full(cfg, j + 1), EndOnPrem);
  }

  lemma {:induction false} GrowTwo(cfg: Config, j: nat)
    requires cfg.hasOverflow && cfg.overflowCap == 0 && cfg.onPremCap > 0 && cfg.inFlight > 1 && j <= cfg.unseen
    ensures Runs.Reaches(Machine(cfg), OneLeft(cfg, 0), OneLeft(cfg, j))
  {
    if j == 0 {
      Runs.ReachesSelf(Machine(cfg), OneLeft(cfg, 0));
    } else {
      GrowTwo(cfg, j - 1);
      Race(cfg, j - 1);
      Runs.ReachesOn(Machine(cfg), OneLeft(cfg, 0), OneLeft(cfg, j - 1), OneLeft(cfg, j));
    }
  }

  /** What missed sessions add to the bound: nothing where no session can be missed. */
  function Slack(cfg: Config): nat {
    if cfg.hasOverflow && (cfg.overflowCap > 0 || cfg.inFlight > 1) then cfg.unseen else 0
  }

  /** A reachable state just below the bound, in which a count misses as many sessions as it can. */
  lemma JustBelow(cfg: Config) returns (s: Quota, t: Quota)
    requires Cap(cfg) > 0 && cfg.inFlight > 0
    ensures Start(cfg, s) && Runs.Reaches(Machine(cfg), s, t) && t.windows == [] && t.passed == map[]
    ensures Slack(cfg) <= t.overflow && Total(t) == Cap(cfg) - 1 + Slack(cfg)
  {
    if cfg.hasOverflow && cfg.overflowCap > 0 {
      s, t := Full(cfg, cfg.overflowCap - 1), Full(cfg, cfg.overflowCap - 1 + cfg.unseen);
      GrowOne(cfg, cfg.unseen);
    } else {
      s, t := OneLeft(cfg, 0), OneLeft(cfg, Slack(cfg));
      if Slack(cfg) > 0 { GrowTwo(cfg, cfg.unseen); } else { Runs.ReachesSelf(Machine(cfg), s); }
    }
  }

  ghost predicate NeverAbove(cfg: Config, bound: int) {
    forall s: Quota, steps: seq<Step> :: Start(cfg, s) ==> Total(After(cfg, s, steps)) <= bound
  }

  lemma BoundHolds(cfg: Config, s: Quota, steps: seq<Step>)
    requires Cap(cfg) > 0 && cfg.inFlight > 0 && Start(cfg, s)
    ensures Total(After(cfg, s, steps)) <= Cap(cfg) - 1 + cfg.inFlight + Slack(cfg)
  {
    if Slack(cfg) == Unseen(cfg) { OvershootBound(cfg, s, steps); } else { PoolsWithinCaps(cfg, s, steps); }
  }

  /** Capacity - 1 + K, and what counts may miss, is exactly the least bound: there is no hard cap unless K
      is 1 and counts miss nothing. */
  lemma OvershootExact(cfg: Config, bound: int)
    requires Cap(cfg) > 0 && cfg.inFlight > 0
    ensures NeverAbove(cfg, bound) <==> bound >= Cap(cfg) - 1 + cfg.inFlight + Slack(cfg)
  {
    if bound >= Cap(cfg) - 1 + cfg.inFlight + Slack(cfg) {
      forall s: Quota, steps: seq<Step> | Start(cfg, s) ensures Total(After(cfg, s, steps)) <= bound {
        BoundHolds(cfg, s, steps);
      }
    } else {
      var s, t := JustBelow(cfg);
      var u := Placed(cfg, t, cfg.inFlight);
      CreateMany(cfg, t, cfg.inFlight, Slack(cfg));
      Runs.ReachesOn(Machine(cfg), s, t, u);
      var steps: seq<Step> :| Runs.After(Machine(cfg), s, steps) == u;
      assert Start(cfg, s) && Total(After(cfg, s, steps)) > bound;
    }
  }

  // ------------------------------------------------------------------ no quota

  /** One creation from its first count to its session, where a cap of 0 refuses nobody. */
  lemma OneUnchecked(cfg: Config, s: Quota) returns (t: Quota)
    requires Cap(cfg) == 0 && cfg.inFlight > 0 && s.windows == [] && s.passed == map[]
    ensures Runs.Reaches(Machine(cfg), s, t) && t.windows == [] && t.passed == map[] && Total(t) == Total(s) + 1
  {
    Runs.ReachesSelf(Machine(cfg), s);
    Runs.ReachesNext(Machine(cfg), s, s, Count(0));
    var counted := DoCount(cfg, s, 0);
    assert counted == s.(windows := [Window(0, s.onPrem)]);
    Runs.ReachesNext(Machine(cfg), s, counted, Check(0, 0));
    var checked := DoCheck(cfg, counted, 0, 0);
    assert Without(counted.windows, 0) == [];
    assert checked == s.(passed := map[0 := Unrouted]);
    Runs.ReachesNext(Machine(cfg), s, checked, Choose(0));
    var chosen := DoChoose(cfg, checked, 0);
    Runs.ReachesNext(Machine(cfg), s, chosen, Create(0));
    t := DoCreate(chosen, 0);
    assert t.passed == map[];
  }

  /** A cap of 0 means no quota: every number of sessions can be reached. */
  lemma {:induction false} NoQuotaNoBound(cfg: Config, n: nat) returns (s: Quota, t: Quota)
    requires Cap(cfg) == 0 && cfg.inFlight > 0
    ensures Start(cfg, s) && Runs.Reaches(Machine(cfg), s, t) && t.windows == [] && t.passed == map[] && Total(t) == n
  {
    if n == 0 {
      s, t := Quota(0, 0, [], map[]), Quota(0, 0, [], map[]);
      Runs.ReachesSelf(Machine(cfg), s);
    } else {
      s, t := NoQuotaNoBound(cfg, n - 1);
      var more := OneUnchecked(cfg, t);
      Runs.ReachesOn(Machine(cfg), s, t, more);
      t := more;
    }
  }

  function InFlight(s: Quota): nat {
    |s.windows| + |s.passed|
  }

  /** A session that ends makes room in its pool. */
  lemma SessionEnds(cfg: Config, s: Quota)
    ensures s.onPrem > 0 ==>
      var s' := Exec(cfg, s, EndOnPrem);
      s'.onPrem == s.onPrem - 1 && s'.overflow == s.overflow && InFlight(s') == InFlight(s)
    ensures s.overflow > 0 ==>
      var s' := Exec(cfg, s, EndOverflow);
      s'.overflow == s.overflow - 1 && s'.onPrem == s.onPrem && InFlight(s') == InFlight(s)
  {
  }

  /** A creation that ends without a session makes room for another one in flight, and nothing else. */
  lemma EndsFree(cfg: Config, s: Quota, i: nat, creator: nat)
    ensures i < |s.windows| ==>
      var s' := Exec(cfg, s, Drop(i));
      InFlight(s') == InFlight(s) - 1 && s'.onPrem == s.onPrem && s'.overflow == s.overflow
    ensures creator in s.passed ==>
      var s' := Exec(cfg, s, Fail(creator));
      InFlight(s') == InFlight(s) - 1 && s'.onPrem == s.onPrem && s'.overflow == s.overflow
  {
    if creator in s.passed { ReplaceKeepsSize(s.passed, creator, Unrouted); }
  }
}
