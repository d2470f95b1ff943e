/** The per-key distributed lock of apps/api/internal/lock/redis.go: SET NX with a time to live,
    compare-and-delete on release, and the bounded retry loop. Times are in milliseconds. */
module RedisLock {
  import Runs

  const LOCK_TTL := 30_000
  const LOCK_RETRY := 50
  const LOCK_MAX_WAIT := 2_000

  /** The key in Redis: which token set it, and the last instant at which it still exists. */
  datatype Key = Absent | Held(token: nat, expires: int)

  datatype Holder = Holder(acquired: int, released: bool)

  /** `waiting`: tokens drawn by calls still retrying; `drawn`: every token ever drawn. */
  datatype Lock = Lock(now: int, key: Key, drawn: set<nat>, waiting: set<nat>, holders: map<nat, Holder>)

  datatype LockStep =
    | Tick(ms: nat)
    | Draw(token: nat)
    | SetNx(token: nat, answered: bool)
    | GiveUp(token: nat)
    | Release(token: nat, delivered: bool)

  const UNLOCKED := Lock(0, Absent, {}, {}, map[])

  predicate Live(l: Lock) {
    l.key.Held? && l.now <= l.key.expires
  }

  /** SET NX PX; an unanswered one may still have taken effect. */
  function DoSetNx(l: Lock, token: nat, answered: bool): Lock {
    if token !in l.waiting || Live(l) then l
    else
      var l' := l.(key := Held(token, l.now + LOCK_TTL), waiting := l.waiting - {token});
      if answered then l'.(holders := l.holders[token := Holder(l.now, false)]) else l'
  }

  /** The release script: delete the key only if it still carries this token. */
  function DoRelease(l: Lock, token: nat, delivered: bool): Lock {
    if token !in l.holders then l
    else
      var l' := l.(holders := l.holders[token := l.holders[token].(released := true)]);
      if delivered && Live(l) && l.key.token == token then l'.(key := Absent) else l'
  }

  /** Tokens are fresh: a token is drawn at most once. */
  function LockExec(l: Lock, step: LockStep): Lock {
    match step
    case Tick(ms) => l.(now := l.now + ms)
    case Draw(token) => if token in l.drawn then l else l.(drawn := l.drawn + {token}, waiting := l.waiting + {token})
    case SetNx(token, answered) => DoSetNx(l, token, answered)
    case GiveUp(token) => l.(waiting := l.waiting - {token})
    case Release(token, delivered) => DoRelease(l, token, delivered)
  }

  const LOCK_MACHINE: (Lock, LockStep) -> Lock := (l, step) => LockExec(l, step)

  ghost function LockAfter(steps: seq<LockStep>): Lock {
    Runs.After(LOCK_MACHINE, UNLOCKED, steps)
  }

  /** Acquired, not released, and still inside the time to live. */
  predicate Inside(l: Lock, token: nat) {
    token in l.holders && !l.holders[token].released && l.now <= l.holders[token].acquired + LOCK_TTL
  }

  ghost predicate LockInv(l: Lock) {
    && l.waiting <= l.drawn && l.holders.Keys <= l.drawn && l.waiting !! l.holders.Keys
    && (l.key.Held? ==> l.key.token in l.drawn && l.key.token !in l.waiting)
    && (forall t :: t in l.holders ==> l.holders[t].acquired <= l.now)
    && (forall t :: Inside(l, t) ==> l.key == Held(t, l.holders[t].acquired + LOCK_TTL))
  }

  lemma LockStepKeeps(l: Lock, step: LockStep)
    requires LockInv(l)
    ensures LockInv(LockExec(l, step))
    ensures forall t :: Inside(LockExec(l, step), t) ==> Inside(l, t) || (step.SetNx? && step.token == t)
  {
    var l' := LockExec(l, step);
    forall t | Inside(l', t)
      ensures Inside(l, t) || (step.SetNx? && step.token == t)
      ensures l'.key == Held(t, l'.holders[t].acquired + LOCK_TTL)
    {
      if Inside(l, t) { assert l.key == Held(t, l.holders[t].acquired + LOCK_TTL); }
    }
  }

  lemma LockRunKeeps(steps: seq<LockStep>)
    ensures LockInv(LockAfter(steps))
  {
    forall l: Lock, step: LockStep | LockInv(l) ensures LockInv(LOCK_MACHINE(l, step)) { LockStepKeeps(l, step); }
    Runs.KeptByRuns(LOCK_MACHINE, l => LockInv(l), UNLOCKED, steps);
  }

  /** In every timed run at most one acquirer is inside, and the key is then its own: whatever late
      releases, lost replies and retries happen, nobody else removed it. */
  lemma LockExcludes(steps: seq<LockStep>, t: nat, u: nat)
    requires Inside(LockAfter(steps), t) && Inside(LockAfter(steps), u)
    ensures t == u
    ensures Live(LockAfter(steps)) && LockAfter(steps).key.token == t
  {
    LockRunKeeps(steps);
  }

  /** A delivered release lets the next attempt of any other waiter succeed if it came from inside, and
      leaves the key of everybody else alone. */
  lemma ReleaseFreesOwnOnly(steps: seq<LockStep>, t: nat, u: nat)
    requires var l := LockAfter(steps); t in l.holders && u in l.waiting
    ensures var l := LockAfter(steps); var l' := LockExec(l, Release(t, true));
      && (Inside(l, t) ==> Inside(LockExec(l', SetNx(u, true)), u))
      && (l.key.Held? && l.key.token != t ==> l'.key == l.key)
      && !Inside(l', t)
  {
    LockRunKeeps(steps);
  }

  /** A call that gave up its token never gets in with it, whatever happens later. */
  lemma GivenUpStaysOut(steps: seq<LockStep>, t: nat, more: seq<LockStep>)
    requires t in LockAfter(steps).waiting
    ensures t !in LockAfter(steps + [GiveUp(t)] + more).holders
  {
    LockRunKeeps(steps);
    Runs.AfterOne(LOCK_MACHINE, UNLOCKED, steps, GiveUp(t));
    Runs.AfterMore(LOCK_MACHINE, UNLOCKED, steps + [GiveUp(t)], more);
    var l := LockAfter(steps + [GiveUp(t)]);
    Runs.KeptByRuns(LOCK_MACHINE, (x: Lock) => t in x.drawn && t !in x.waiting && t !in x.holders, l, more);
  }

  // ---------------------------------------------------------- the retry loop

  datatype Reply = Set | Busy | Failed

  /** `clock(k)` is the time read after attempt k; each pause lasts at least LOCK_RETRY. */
  predicate Paced(clock: nat -> int, start: int, n: nat) {
    start <= clock(0) && forall k: nat :: k < n ==> clock(k) + LOCK_RETRY <= clock(k + 1)
  }

  /** The loop goes round again after attempt k. */
  predicate Retries(reply: nat -> Reply, clock: nat -> int, cancelled: nat -> bool, start: int, k: nat) {
    reply(k) == Busy && clock(k) <= start + LOCK_MAX_WAIT && !cancelled(k)
  }

  lemma {:induction false} PacedAt(clock: nat -> int, start: int, n: nat, k: nat)
    requires Paced(clock, start, n) && k <= n
    ensures clock(k) >= start + LOCK_RETRY * k
  {
    if k > 0 { PacedAt(clock, start, n, k - 1); }
  }

  const MAX_ATTEMPTS := 42

  /** One call makes at most 42 attempts; it succeeds exactly when its last attempt set the key. */
  method Acquire(reply: nat -> Reply, clock: nat -> int, cancelled: nat -> bool, start: int)
    returns (ok: bool, attempts: nat)
    requires Paced(clock, start, MAX_ATTEMPTS)
    ensures 1 <= attempts <= MAX_ATTEMPTS
    ensures forall k: nat :: k < attempts - 1 ==> Retries(reply, clock, cancelled, start, k)
    ensures !Retries(reply, clock, cancelled, start, attempts - 1)
    ensures ok <==> reply(attempts - 1) == Set
  {
    var deadline := start + LOCK_MAX_WAIT;
    attempts := 0;
    while true
      invariant attempts < MAX_ATTEMPTS
      invariant forall k: nat :: k < attempts ==> Retries(reply, clock, cancelled, start, k)
      decreases MAX_ATTEMPTS - attempts
    {
      var k := attempts;
      attempts := attempts + 1;
      if reply(k) == Failed { return false, attempts; }
      if reply(k) == Set { return true, attempts; }
      if clock(k) > deadline { return false, attempts; }
      if cancelled(k) { return false, attempts; }
      PacedAt(clock, start, MAX_ATTEMPTS, k);
    }
  }

  /** Before attempt k every check of the deadline let the loop go on. */
  predicate Patient(clock: nat -> int, start: int, k: nat) {
    forall j: nat :: j < k ==> clock(j) <= start + LOCK_MAX_WAIT
  }

  ghost predicate MayReach(start: int, k: nat) {
    exists clock: nat -> int :: Paced(clock, start, k) && Patient(clock, start, k)
  }

  /** The bound is exact: attempts 0 to 41 can happen, attempt 42 cannot. */
  lemma AttemptsExact(start: int, k: nat)
    ensures MayReach(start, k) <==> k < MAX_ATTEMPTS
  {
    if MayReach(start, k) && k > 0 {
      var clock: nat -> int :| Paced(clock, start, k) && Patient(clock, start, k);
      PacedAt(clock, start, k, k - 1);
    }
    if k < MAX_ATTEMPTS {
      var clock := (j: nat) => start + LOCK_RETRY * j;
      assert Paced(clock, start, k) && Patient(clock, start, k);
    }
  }
}
