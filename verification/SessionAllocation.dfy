/** Session creation for one signed-in user across replicas (CreateSession and prepareSessionCreation in
    apps/api/internal/api/handlers/session.go, routed by apps/api/internal/session/dispatcher.go): take the
    user's lock, look for an active session in both pools, clear a failed or completed one, create. */
module SessionAllocation {
  import opened Options
  import opened RedisLock
  import Runs

  datatype Pool = OnPrem | Overflow

  /** How far a creation has come; once sent, it may take effect although its call is over. */
  datatype Phase =
    | Looking
    | LookingOverflow
    | Existing(id: string)
    | Removing(id: string)
    | Clear
    | Sent(id: string, pool: Pool)
    | Over

  /** What the provider and the progress store said about the existing session. */
  datatype Answer = Gone | FailedOrCompleted | InUse | Unreadable

  datatype Active = Active(pool: Pool, since: int)

  /** `active`: this user's active sessions; `used`: every session id ever created. */
  datatype Alloc = Alloc(lock: Lock, active: map<string, Active>, used: set<string>, phases: map<nat, Phase>)

  /** `section`: the longest time from taking the lock to creating the session; `lag`: how long after its
      creation a session of the overflow pool, found by its instance tags, may still be missed; `detached`:
      whether the provider may still carry out a creation whose call was cancelled and gave the lock back. */
  datatype Config = Config(section: nat, lag: nat, detached: bool)

  datatype Step =
    | OnLock(step: LockStep)
    | Look(c: nat, found: Option<string>)
    | LookOverflow(c: nat, found: Option<string>)
    | Inspect(c: nat, answer: Answer)
    | Remove(c: nat, ok: bool)
    | Send(c: nat, id: string, pool: Pool)
    | Create(c: nat)
    | Abandon(c: nat)
    | Vanish(id: string)

  const EMPTY := Alloc(UNLOCKED, map[], {}, map[])

  predicate At(s: Alloc, c: nat, phase: Phase) {
    c in s.phases && s.phases[c] == phase
  }

  function Move(s: Alloc, c: nat, phase: Phase): Alloc {
    s.(phases := s.phases[c := phase])
  }

  predicate Missed(cfg: Config, s: Alloc, id: string)
    requires id in s.active
  {
    s.active[id].pool == Overflow && s.lock.now < s.active[id].since + cfg.lag
  }

  /** FindActiveByUser on one pool: some active session there, or none if there is none to be seen. */
  predicate Finds(cfg: Config, s: Alloc, pool: Pool, found: Option<string>) {
    match found
    case Some(id) => id in s.active && s.active[id].pool == pool
    case None => forall id :: id in s.active && s.active[id].pool == pool ==> Missed(cfg, s, id)
  }

  function DoOnLock(s: Alloc, step: LockStep): Alloc {
    var lock' := LockExec(s.lock, step);
    var s' := s.(lock := lock');
    if step.SetNx? && step.token !in s.lock.holders && step.token in lock'.holders then Move(s', step.token, Looking)
    else s'
  }

  function DoLook(cfg: Config, s: Alloc, c: nat, found: Option<string>): Alloc {
    if !At(s, c, Looking) || !Finds(cfg, s, OnPrem, found) then s
    else Move(s, c, if found.Some? then Existing(found.value) else LookingOverflow)
  }

  function DoLookOverflow(cfg: Config, s: Alloc, c: nat, found: Option<string>): Alloc {
    if !At(s, c, LookingOverflow) || !Finds(cfg, s, Overflow, found) then s
    else Move(s, c, if found.Some? then Existing(found.value) else Clear)
  }

  function DoInspect(cfg: Config, s: Alloc, c: nat, answer: Answer): Alloc {
    if c !in s.phases || !s.phases[c].Existing? then s
    else
      var id := s.phases[c].id;
      match answer
      case Gone => if id in s.active && !Missed(cfg, s, id) then s else Move(s, c, Clear)
      case FailedOrCompleted => Move(s, c, Removing(id))
      case InUse => Move(s, c, Over)
      case Unreadable => Move(s, c, Over)
  }

  function DoRemove(s: Alloc, c: nat, ok: bool): Alloc {
    if c !in s.phases || !s.phases[c].Removing? then s
    else if ok then Move(s, c, Clear).(active := s.active - {s.phases[c].id})
    else Move(s, c, Over)
  }

  /** The call is not over: the lock is given back when it returns. */
  predicate Running(cfg: Config, s: Alloc, c: nat) {
    && c in s.lock.holders && !s.lock.holders[c].released
    && s.lock.now <= s.lock.holders[c].acquired + cfg.section
  }

  function DoSend(cfg: Config, s: Alloc, c: nat, id: string, pool: Pool): Alloc {
    if !At(s, c, Clear) || !Running(cfg, s, c) || id in s.used then s
    else Move(s, c, Sent(id, pool)).(used := s.used + {id})
  }

  /** The provider creates the session, while the call waits for it or, detached, at any later time. */
  function DoCreate(cfg: Config, s: Alloc, c: nat): Alloc {
    if c !in s.phases || !s.phases[c].Sent? || !(cfg.detached || Running(cfg, s, c)) then s
    else
      var Sent(id, pool) := s.phases[c];
      Move(s, c, Over).(active := s.active[id := Active(pool, s.lock.now)])
  }

  function Exec(cfg: Config, s: Alloc, step: Step): Alloc {
    match step
    case OnLock(l) => DoOnLock(s, l)
    case Look(c, found) => DoLook(cfg, s, c, found)
    case LookOverflow(c, found) => DoLookOverflow(cfg, s, c, found)
    case Inspect(c, answer) => DoInspect(cfg, s, c, answer)
    case Remove(c, ok) => DoRemove(s, c, ok)
    case Send(c, id, pool) => DoSend(cfg, s, c, id, pool)
    case Create(c) => DoCreate(cfg, s, c)
    case Abandon(c) => if c in s.phases then Move(s, c, Over) else s
    case Vanish(id) => s.(active := s.active - {id})
  }

  function Machine(cfg: Config): (Alloc, Step) -> Alloc {
    (s, step) => Exec(cfg, s, step)
  }

  ghost function After(cfg: Config, steps: seq<Step>): Alloc {
    Runs.After(Machine(cfg), EMPTY, steps)
  }

  predicate Single(s: Alloc) {
    forall a, b :: a in s.active && b in s.active ==> a == b
  }

  // -------------------------------------------------------------- invariant

  /** What a creation whose lock is still its own has learnt about the active sessions. */
  predicate Learnt(s: Alloc, phase: Phase) {
    match phase
    case LookingOverflow => forall id :: id in s.active ==> s.active[id].pool == Overflow
    case Existing(e) => forall id :: id in s.active ==> id == e
    case Removing(e) => forall id :: id in s.active ==> id == e
    case Clear => s.active == map[]
    case Sent(_, _) => s.active == map[]
    case _ => true
  }

  ghost predicate Inv(s: Alloc) {
    && LockInv(s.lock) && Single(s)
    && (forall id :: id in s.active ==> s.active[id].since <= s.lock.now)
    && s.phases.Keys <= s.lock.holders.Keys
    && (forall c :: c in s.phases && Inside(s.lock, c) ==> Learnt(s, s.phases[c]))
  }

  lemma OnLockKeeps(s: Alloc, step: LockStep)
    requires Inv(s)
    ensures Inv(DoOnLock(s, step))
  {
    LockStepKeeps(s.lock, step);
    var s' := DoOnLock(s, step);
    forall c | c in s'.phases && Inside(s'.lock, c) ensures Learnt(s', s'.phases[c]) {
      if c in s.phases && Inside(s.lock, c) { assert Learnt(s, s.phases[c]); }
    }
  }

  lemma ProgressKeeps(s: Alloc, c: nat, phase: Phase)
    requires Inv(s) && c in s.phases && (Inside(s.lock, c) ==> Learnt(s, phase))
    ensures Inv(Move(s, c, phase))
  {
    var s' := Move(s, c, phase);
    forall d | d in s'.phases && Inside(s'.lock, d) ensures Learnt(s', s'.phases[d]) {
      if d != c { assert Learnt(s, s.phases[d]); }
    }
  }

  /** Fewer sessions never falsify what was learnt. */
  lemma FewerKeeps(s: Alloc, id: string)
    requires Inv(s)
    ensures Inv(s.(active := s.active - {id}))
  {
    var s' := s.(active := s.active - {id});
    forall c | c in s'.phases && Inside(s'.lock, c) ensures Learnt(s', s'.phases[c]) {
      assert Learnt(s, s.phases[c]);
    }
  }

  lemma NothingMissed(cfg: Config, s: Alloc)
    requires cfg.lag == 0 && Inv(s)
    ensures forall id :: id in s.active ==> !Missed(cfg, s, id)
  {
  }

  lemma LookKeeps(cfg: Config, s: Alloc, c: nat, found: Option<string>)
    requires cfg.lag == 0 && Inv(s)
    ensures Inv(DoLook(cfg, s, c, found))
  {
    NothingMissed(cfg, s);
    if At(s, c, Looking) && Finds(cfg, s, OnPrem, found) {
      forall id | id in s.active && found.None? ensures s.active[id].pool == Overflow {
        assert s.active[id].pool != OnPrem;
      }
      ProgressKeeps(s, c, if found.Some? then Existing(found.value) else LookingOverflow);
    }
  }

  lemma LookOverflowKeeps(cfg: Config, s: Alloc, c: nat, found: Option<string>)
    requires cfg.lag == 0 && Inv(s)
    ensures Inv(DoLookOverflow(cfg, s, c, found))
  {
    NothingMissed(cfg, s);
    if At(s, c, LookingOverflow) && Finds(cfg, s, Overflow, found) {
      if Inside(s.lock, c) && found.None? {
        assert Learnt(s, s.phases[c]);
        assert forall id :: id !in s.active;
        assert s.active == map[];
      }
      ProgressKeeps(s, c, if found.Some? then Existing(found.value) else Clear);
    }
  }

  lemma InspectKeeps(cfg: Config, s: Alloc, c: nat, answer: Answer)
    requires cfg.lag == 0 && Inv(s)
    ensures Inv(DoInspect(cfg, s, c, answer))
  {
    NothingMissed(cfg, s);
    if c in s.phases && s.phases[c].Existing? {
      var id := s.phases[c].id;
      if Inside(s.lock, c) {
        assert Learnt(s, s.phases[c]);
        if id !in s.active { assert s.active == map[]; }
      }
      match answer
      case Gone => if id !in s.active { ProgressKeeps(s, c, Clear); }
      case FailedOrCompleted => ProgressKeeps(s, c, Removing(id));
      case InUse => ProgressKeeps(s, c, Over);
      case Unreadable => ProgressKeeps(s, c, Over);
    }
  }

  lemma RemoveKeeps(s: Alloc, c: nat, ok: bool)
    requires Inv(s)
    ensures Inv(DoRemove(s, c, ok))
  {
    if c in s.phases && s.phases[c].Removing? {
      var id := s.phases[c].id;
      var s1 := s.(active := s.active - {id});
      FewerKeeps(s, id);
      if Inside(s.lock, c) {
        assert Learnt(s, s.phases[c]);
        assert s1.active == map[];
      }
      ProgressKeeps(s1, c, Clear);
      ProgressKeeps(s, c, Over);
    }
  }

  predicate Fits(cfg: Config) {
    cfg.section <= LOCK_TTL && cfg.lag == 0 && !cfg.detached
  }

  lemma SendKeeps(cfg: Config, s: Alloc, c: nat, id: string, pool: Pool)
    requires Inv(s)
    ensures Inv(DoSend(cfg, s, c, id, pool))
  {
    if At(s, c, Clear) && Running(cfg, s, c) && id !in s.used {
      assert Inside(s.lock, c) ==> Learnt(s, s.phases[c]);
      ProgressKeeps(s, c, Sent(id, pool));
      UsedKeeps(Move(s, c, Sent(id, pool)), id);
    }
  }

  lemma UsedKeeps(s: Alloc, id: string)
    requires Inv(s)
    ensures Inv(s.(used := s.used + {id}))
  {
    var s' := s.(used := s.used + {id});
    forall c | c in s'.phases && Inside(s'.lock, c) ensures Learnt(s', s'.phases[c]) {
      assert Learnt(s, s.phases[c]);
    }
  }

  lemma CreateKeeps(cfg: Config, s: Alloc, c: nat)
    requires Fits(cfg) && Inv(s)
    ensures Inv(DoCreate(cfg, s, c))
  {
    if c in s.phases && s.phases[c].Sent? && Running(cfg, s, c) {
      var s' := DoCreate(cfg, s, c);
      assert Inside(s.lock, c) && Learnt(s, s.phases[c]);
      forall d | d in s'.phases && Inside(s'.lock, d) ensures Learnt(s', s'.phases[d]) {
        assert s.lock.key.token == d && s.lock.key.token == c;
      }
    }
  }

  lemma {:induction false} StepKeeps(cfg: Config, s: Alloc, step: Step)
    requires Fits(cfg) && Inv(s)
    ensures Inv(Exec(cfg, s, step))
  {
    match step
    case OnLock(l) => OnLockKeeps(s, l);
    case Look(c, found) => LookKeeps(cfg, s, c, found);
    case LookOverflow(c, found) => LookOverflowKeeps(cfg, s, c, found);
    case Inspect(c, answer) => InspectKeeps(cfg, s, c, answer);
    case Remove(c, ok) => RemoveKeeps(s, c, ok);
    case Send(c, id, pool) => SendKeeps(cfg, s, c, id, pool);
    case Create(c) => CreateKeeps(cfg, s, c);
    case Abandon(c) => if c in s.phases { ProgressKeeps(s, c, Over); }
    case Vanish(id) => FewerKeeps(s, id);
  }

  /** Across replicas, with deletes, reapers, cleanups and replacements anywhere in between, the user
      never owns two active sessions while creations fit inside the lock's time to live, take effect
      before their call ends or not at all, and lookups miss nothing. */
  lemma OneActiveSession(cfg: Config, steps: seq<Step>)
    requires Fits(cfg)
    ensures Inv(After(cfg, steps)) && Single(After(cfg, steps))
  {
    forall t: Alloc, step: Step | Inv(t) ensures Inv(Machine(cfg)(t, step)) { StepKeeps(cfg, t, step); }
    Runs.KeptByRuns(Machine(cfg), t => Inv(t), EMPTY, steps);
  }

  // ------------------------------------------- outside the condition it is not so

  ghost predicate AlwaysSingle(cfg: Config) {
    forall steps: seq<Step> :: Single(After(cfg, steps))
  }

  ghost predicate Reached(cfg: Config, s: Alloc) {
    Runs.Reaches(Machine(cfg), EMPTY, s)
  }

  lemma Next(cfg: Config, s: Alloc, step: Step)
    requires Reached(cfg, s)
    ensures Reached(cfg, Exec(cfg, s, step))
  {
    Runs.ReachesNext(Machine(cfg), EMPTY, s, step);
  }

  /** A new creation draws its token and takes the free lock. */
  lemma Locks(cfg: Config, s: Alloc, c: nat) returns (s': Alloc)
    requires Reached(cfg, s) && c !in s.lock.drawn && c !in s.lock.waiting && c !in s.lock.holders && !Live(s.lock)
    ensures Reached(cfg, s') && s'.active == s.active && s'.used == s.used && s'.phases == s.phases[c := Looking]
    ensures s'.lock.drawn == s.lock.drawn + {c} && s'.lock.waiting == s.lock.waiting && s'.lock.now == s.lock.now
    ensures s'.lock.holders == s.lock.holders[c := Holder(s.lock.now, false)]
      && s'.lock.key == Held(c, s.lock.now + LOCK_TTL)
  {
    Next(cfg, s, OnLock(Draw(c)));
    var s1 := DoOnLock(s, Draw(c));
    Next(cfg, s1, OnLock(SetNx(c, true)));
    s' := DoOnLock(s1, SetNx(c, true));
  }

  /** It sees no session. */
  lemma SeesNone(cfg: Config, s: Alloc, c: nat) returns (s': Alloc)
    requires Reached(cfg, s) && At(s, c, Looking) && forall id :: id in s.active ==> Missed(cfg, s, id)
    ensures Reached(cfg, s') && s' == Move(s, c, Clear)
  {
    Next(cfg, s, Look(c, None));
    var s1 := DoLook(cfg, s, c, None);
    Next(cfg, s1, LookOverflow(c, None));
    s' := DoLookOverflow(cfg, s1, c, None);
    assert s'.phases == s.phases[c := Clear];
  }

  lemma Sends(cfg: Config, s: Alloc, c: nat, id: string) returns (s': Alloc)
    requires Reached(cfg, s) && At(s, c, Clear) && Running(cfg, s, c) && id !in s.used
    ensures Reached(cfg, s') && s' == Move(s, c, Sent(id, Overflow)).(used := s.used + {id})
  {
    Next(cfg, s, Send(c, id, Overflow));
    s' := DoSend(cfg, s, c, id, Overflow);
  }

  lemma Creates(cfg: Config, s: Alloc, c: nat, id: string) returns (s': Alloc)
    requires Reached(cfg, s) && At(s, c, Sent(id, Overflow)) && (cfg.detached || Running(cfg, s, c))
    ensures Reached(cfg, s') && s' == Move(s, c, Over).(active := s.active[id := Active(Overflow, s.lock.now)])
  {
    Next(cfg, s, Create(c));
    s' := DoCreate(cfg, s, c);
  }

  /** Two creations, the first of which outlives its lock. */
  lemma LateCreationDoubles(cfg: Config) returns (s: Alloc)
    requires cfg.section > LOCK_TTL
    ensures Reached(cfg, s) && !Single(s)
  {
    Runs.ReachesSelf(Machine(cfg), EMPTY);
    s := Locks(cfg, EMPTY, 1);
    s := SeesNone(cfg, s, 1);
    Next(cfg, s, OnLock(Tick(LOCK_TTL + 1)));
    s := DoOnLock(s, Tick(LOCK_TTL + 1));
    s := Locks(cfg, s, 2);
    s := SeesNone(cfg, s, 2);
    s := Sends(cfg, s, 1, "a");
    s := Creates(cfg, s, 1, "a");
    s := Sends(cfg, s, 2, "b");
    s := Creates(cfg, s, 2, "b");
    assert "a" in s.active && "b" in s.active;
  }

  /** Two creations, one after the other, the second of which misses the first one's instance. */
  lemma MissedSessionDoubles(cfg: Config) returns (s: Alloc)
    requires cfg.lag > 0
    ensures Reached(cfg, s) && !Single(s)
  {
    Runs.ReachesSelf(Machine(cfg), EMPTY);
    s := Locks(cfg, EMPTY, 1);
    s := SeesNone(cfg, s, 1);
    s := Sends(cfg, s, 1, "a");
    s := Creates(cfg, s, 1, "a");
    s := Releases(cfg, s, 1);
    s := Locks(cfg, s, 2);
    s := SeesNone(cfg, s, 2);
    s := Sends(cfg, s, 2, "b");
    s := Creates(cfg, s, 2, "b");
    assert "a" in s.active && "b" in s.active;
  }

  lemma Releases(cfg: Config, s: Alloc, c: nat) returns (s': Alloc)
    requires Reached(cfg, s) && s.lock.key.Held? && s.lock.key.token == c
      && c in s.lock.holders && !s.lock.holders[c].released
    ensures Reached(cfg, s') && s' == DoOnLock(s, Release(c, true)) && !Live(s'.lock)
  {
    Next(cfg, s, OnLock(Release(c, true)));
    s' := DoOnLock(s, Release(c, true));
  }

  /** Two creations, the first of which was cancelled after it was sent and takes effect all the same. */
  lemma DetachedCreationDoubles(cfg: Config) returns (s: Alloc)
    requires cfg.detached
    ensures Reached(cfg, s) && !Single(s)
  {
    Runs.ReachesSelf(Machine(cfg), EMPTY);
    s := Locks(cfg, EMPTY, 1);
    s := SeesNone(cfg, s, 1);
    s := Sends(cfg, s, 1, "a");
    s := Releases(cfg, s, 1);
    s := Locks(cfg, s, 2);
    s := SeesNone(cfg, s, 2);
    s := Creates(cfg, s, 1, "a");
    s := Sends(cfg, s, 2, "b");
    s := Creates(cfg, s, 2, "b");
    assert "a" in s.active && "b" in s.active;
  }

  /** The single-session rule holds in every run exactly when no creation outlives its lock or takes effect
      after its call, and no lookup misses a session. */
  lemma SingleIffFits(cfg: Config)
    ensures AlwaysSingle(cfg) <==> cfg.section <= LOCK_TTL && cfg.lag == 0 && !cfg.detached
  {
    if Fits(cfg) {
      forall steps: seq<Step> ensures Single(After(cfg, steps)) { OneActiveSession(cfg, steps); }
    } else {
      var s: Alloc;
      if cfg.section > LOCK_TTL {
        s := LateCreationDoubles(cfg);
      } else if cfg.lag > 0 {
        s := MissedSessionDoubles(cfg);
      } else {
        s := DetachedCreationDoubles(cfg);
      }
      var steps: seq<Step> :| Runs.After(Machine(cfg), EMPTY, steps) == s;
      assert !Single(After(cfg, steps));
    }
  }

  // -------------------------------------------------- a failed session is replaced

  /** The lookups find the one session there is, wherever it runs. */
  lemma FindsIt(cfg: Config, s: Alloc, c: nat, old_: string) returns (s': Alloc)
    requires Reached(cfg, s) && At(s, c, Looking) && s.active.Keys == {old_}
    ensures Reached(cfg, s') && s' == Move(s, c, Existing(old_))
  {
    if s.active[old_].pool == OnPrem {
      Next(cfg, s, Look(c, Some(old_)));
      s' := DoLook(cfg, s, c, Some(old_));
    } else {
      Next(cfg, s, Look(c, None));
      var s1 := DoLook(cfg, s, c, None);
      Next(cfg, s1, LookOverflow(c, Some(old_)));
      s' := DoLookOverflow(cfg, s1, c, Some(old_));
      assert s'.phases == s.phases[c := Existing(old_)];
    }
  }

  /** It has failed or is completed, and is removed. */
  lemma ClearsIt(cfg: Config, s: Alloc, c: nat, old_: string) returns (s': Alloc)
    requires Reached(cfg, s) && At(s, c, Existing(old_)) && s.active.Keys == {old_}
    ensures Reached(cfg, s') && s' == Move(s, c, Clear).(active := map[])
  {
    Next(cfg, s, Inspect(c, FailedOrCompleted));
    var s1 := DoInspect(cfg, s, c, FailedOrCompleted);
    Next(cfg, s1, Remove(c, true));
    s' := DoRemove(s1, c, true);
    assert s'.phases == s.phases[c := Clear];
    assert s'.active == map[];
  }

  /** Whatever happened before: while the lock is free, a user whose only session failed or is completed gets a
      new one in its place, whose id is new. */
  lemma ReplacesFailed(cfg: Config, s: Alloc, c: nat, old_: string, id: string) returns (s': Alloc)
    requires Reached(cfg, s) && !Live(s.lock) && c !in s.lock.drawn && c !in s.lock.waiting && c !in s.lock.holders
    requires s.active.Keys == {old_} && id !in s.used
    ensures Reached(cfg, s') && s'.active == map[id := Active(Overflow, s.lock.now)]
  {
    s' := Locks(cfg, s, c);
    s' := FindsIt(cfg, s', c, old_);
    s' := ClearsIt(cfg, s', c, old_);
    s' := Sends(cfg, s', c, id);
    s' := Creates(cfg, s', c, id);
  }

  /** A session that is gone by the time it is inspected is no obstacle either. */
  lemma ReplacesVanished(cfg: Config, s: Alloc, c: nat, old_: string, id: string) returns (s': Alloc)
    requires Reached(cfg, s) && !Live(s.lock) && c !in s.lock.drawn && c !in s.lock.waiting && c !in s.lock.holders
    requires s.active.Keys == {old_} && id !in s.used
    ensures Reached(cfg, s') && s'.active == map[id := Active(Overflow, s.lock.now)]
  {
    s' := Locks(cfg, s, c);
    s' := FindsIt(cfg, s', c, old_);
    Next(cfg, s', Vanish(old_));
    s' := Exec(cfg, s', Vanish(old_));
    assert s'.active == map[];
    Next(cfg, s', Inspect(c, Gone));
    s' := DoInspect(cfg, s', c, Gone);
    s' := Sends(cfg, s', c, id);
    s' := Creates(cfg, s', c, id);
  }

  predicate OfCall(step: Step, c: nat) {
    match step
    case Look(d, _) => d == c
    case LookOverflow(d, _) => d == c
    case Inspect(d, _) => d == c
    case Remove(d, _) => d == c
    case Send(d, _, _) => d == c
    case Create(d) => d == c
    case _ => false
  }

  /** The call ends without a session: it found one in use or could not read it, could not remove it, or was
      given up. */
  predicate Ends(s: Alloc, c: nat, step: Step) {
    && c in s.phases
    && match step
       case Inspect(d, answer) => d == c && s.phases[c].Existing? && (answer == InUse || answer == Unreadable)
       case Remove(d, ok) => d == c && s.phases[c].Removing? && !ok
       case Abandon(d) => d == c
       case _ => false
  }

  /** A call that has ended so has changed no session and will change none. */
  lemma EndedStaysEnded(cfg: Config, s: Alloc, c: nat, end: Step, step: Step)
    requires Ends(s, c, end) && OfCall(step, c)
    ensures var s' := Exec(cfg, s, end); s'.active == s.active && Exec(cfg, s', step) == s'
  {
  }
}
