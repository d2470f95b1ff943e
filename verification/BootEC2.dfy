/** Counting the boot result of one EC2 instance once (recordBootOnce in
    apps/api/internal/ec2/provisioner.go), over any number of replicas: a tag read earlier, SETNX with a
    time to live, the tag write, and an unconditional key delete when the tag write failed.
    Times are in milliseconds. */
module BootEC2 {
  import Runs

  const BOOT_LOCK_TTL: nat := 300_000

  /** `attempt`: longest time from an attempt's tag read to the end of its tag write or key delete;
      `lag`: longest time for a written tag to become visible to every read. */
  datatype Config = Config(attempt: nat, lag: nat)

  /** The key carries no token; `setter` only records who set it. */
  datatype Key = Absent | Held(setter: nat, since: int)

  /** `at`: when the tag was first written. */
  datatype Tag = NoTag | Tag(at: int)

  datatype Phase =
    | Untagged
    | Locked(since: int)
    | TagFailed(since: int)
    | Tagged(since: int, at: int)
    | Recorded(since: int, at: int)
    | Over

  datatype Attempt = Attempt(read: int, phase: Phase)

  /** `late`: attempts whose tag write failed and may still take effect; `counts`: which attempt made each
      increment of the boot counter. */
  datatype Boot = Boot(
    now: int, key: Key, tag: Tag, attempts: map<nat, Attempt>, late: set<nat>, counts: seq<nat>)

  datatype Write = Applied | NotApplied | AppliedUnanswered

  datatype Step =
    | Tick(ms: nat)
    | Observe(a: nat, missed: bool)
    | SetNx(a: nat, answered: bool)
    | CreateTags(a: nat, write: Write)
    | LateTag(a: nat)
    | Del(a: nat, delivered: bool)
    | Record(a: nat)
    | Crash(a: nat)

  const LAUNCHED := Boot(0, Absent, NoTag, map[], {}, [])

  predicate Live(s: Boot) {
    s.key.Held? && s.now <= s.key.since + BOOT_LOCK_TTL
  }

  predicate InTime(cfg: Config, s: Boot, a: nat)
    requires a in s.attempts
  {
    s.now <= s.attempts[a].read + cfg.attempt
  }

  function Move(s: Boot, a: nat, phase: Phase): Boot
    requires a in s.attempts
  {
    s.(attempts := s.attempts[a := s.attempts[a].(phase := phase)])
  }

  function Marked(s: Boot): Boot {
    if s.tag.NoTag? then s.(tag := Tag(s.now)) else s
  }

  /** The instance is described; within the lag the answer may still lack the tag. */
  function DoObserve(cfg: Config, s: Boot, a: nat, missed: bool): Boot {
    if a in s.attempts || (s.tag.Tag? && !(missed && s.now <= s.tag.at + cfg.lag)) then s
    else s.(attempts := s.attempts[a := Attempt(s.now, Untagged)])
  }

  function DoSetNx(cfg: Config, s: Boot, a: nat, answered: bool): Boot {
    if a !in s.attempts || s.attempts[a].phase != Untagged || !InTime(cfg, s, a) then s
    else if Live(s) then Move(s, a, Over)
    else Move(s.(key := Held(a, s.now)), a, if answered then Locked(s.now) else Over)
  }

  function DoCreateTags(cfg: Config, s: Boot, a: nat, write: Write): Boot {
    if a !in s.attempts || !s.attempts[a].phase.Locked? || !InTime(cfg, s, a) then s
    else
      var since := s.attempts[a].phase.since;
      match write
      case Applied => Move(Marked(s), a, Tagged(since, s.now))
      case NotApplied => Move(s.(late := s.late + {a}), a, TagFailed(since))
      case AppliedUnanswered => Move(Marked(s), a, TagFailed(since))
  }

  /** A write that failed takes effect after all, at any later time, also after its attempt has ended. */
  function DoLateTag(s: Boot, a: nat): Boot {
    if a in s.late then Marked(s).(late := s.late - {a}) else s
  }

  /** The delete takes whatever key is there. */
  function DoDel(cfg: Config, s: Boot, a: nat, delivered: bool): Boot {
    if a !in s.attempts || !s.attempts[a].phase.TagFailed? || !InTime(cfg, s, a) then s
    else Move(if delivered then s.(key := Absent) else s, a, Over)
  }

  function DoRecord(s: Boot, a: nat): Boot {
    if a !in s.attempts || !s.attempts[a].phase.Tagged? then s
    else
      var p := s.attempts[a].phase;
      Move(s.(counts := s.counts + [a]), a, Recorded(p.since, p.at))
  }

  function DoCrash(s: Boot, a: nat): Boot {
    if a in s.attempts && !s.attempts[a].phase.Recorded? then Move(s, a, Over) else s
  }

  function Exec(cfg: Config, s: Boot, step: Step): Boot {
    match step
    case Tick(ms) => s.(now := s.now + ms)
    case Observe(a, missed) => DoObserve(cfg, s, a, missed)
    case SetNx(a, answered) => DoSetNx(cfg, s, a, answered)
    case CreateTags(a, write) => DoCreateTags(cfg, s, a, write)
    case LateTag(a) => DoLateTag(s, a)
    case Del(a, delivered) => DoDel(cfg, s, a, delivered)
    case Record(a) => DoRecord(s, a)
    case Crash(a) => DoCrash(s, a)
  }

  function Machine(cfg: Config): (Boot, Step) -> Boot {
    (s, step) => Exec(cfg, s, step)
  }

  ghost function After(cfg: Config, s: Boot, steps: seq<Step>): Boot {
    Runs.After(Machine(cfg), s, steps)
  }

  // -------------------------------------------------------------- invariant

  predicate Won(s: Boot, a: nat) {
    a in s.attempts && (s.attempts[a].phase.Tagged? || s.attempts[a].phase.Recorded?)
  }

  /** What is true of one attempt, whatever the others do. */
  predicate AttemptOk(cfg: Config, s: Boot, a: nat)
    requires a in s.attempts
  {
    var r, p := s.attempts[a].read, s.attempts[a].phase;
    && r <= s.now
    && (p.Untagged? || p.Locked? ==> s.tag.Tag? ==> r <= s.tag.at + cfg.lag)
    && (p.Locked? || p.TagFailed? ==> r <= p.since && (InTime(cfg, s, a) ==> s.key == Held(a, p.since)))
    && (p.Tagged? || p.Recorded? ==>
          && r <= p.since && p.at <= r + cfg.attempt
          && s.tag.Tag? && s.tag.at <= p.at
          && (s.now <= p.since + BOOT_LOCK_TTL ==> s.key == Held(a, p.since)))
  }

  ghost predicate Inv(cfg: Config, s: Boot) {
    && |s.counts| <= 1
    && (forall a :: a in s.counts ==> a in s.attempts && s.attempts[a].phase.Recorded?)
    && (s.tag.Tag? ==> s.tag.at <= s.now)
    && (forall a :: a in s.attempts ==> AttemptOk(cfg, s, a))
    && (forall a, b :: Won(s, a) && Won(s, b) ==> a == b)
    && (forall a :: a in s.attempts && s.attempts[a].phase.Tagged? ==> s.counts == [])
  }

  predicate Fits(cfg: Config) {
    2 * cfg.attempt + cfg.lag <= BOOT_LOCK_TTL
  }

  /** Whoever writes the tag in time is the first: a winner's key has expired by now, so this attempt's
      read came too late to miss that winner's tag. */
  lemma WriterIsFirst(cfg: Config, s: Boot, a: nat, b: nat)
    requires Fits(cfg) && Inv(cfg, s) && a in s.attempts && s.attempts[a].phase.Locked? && InTime(cfg, s, a)
    ensures !Won(s, b)
  {
  }

  lemma CountedWon(cfg: Config, s: Boot)
    requires Inv(cfg, s)
    ensures s.counts == [] || Won(s, s.counts[0])
  {
    if s.counts != [] { assert s.counts[0] in s.counts; }
  }

  lemma CreateTagsKeeps(cfg: Config, s: Boot, a: nat, write: Write)
    requires Fits(cfg) && Inv(cfg, s)
    ensures Inv(cfg, DoCreateTags(cfg, s, a, write))
  {
    var s' := DoCreateTags(cfg, s, a, write);
    if a in s.attempts && s.attempts[a].phase.Locked? && InTime(cfg, s, a) {
      forall b ensures !Won(s, b) { WriterIsFirst(cfg, s, a, b); }
      assert AttemptOk(cfg, s, a);
      forall b | b in s'.attempts ensures AttemptOk(cfg, s', b) {
        assert AttemptOk(cfg, s, b);
        assert !Won(s, b);
      }
      forall b | Won(s', b) ensures b == a { assert !Won(s, b); }
      CountedWon(cfg, s);
    }
  }

  lemma SetNxKeeps(cfg: Config, s: Boot, a: nat, answered: bool)
    requires Fits(cfg) && Inv(cfg, s)
    ensures Inv(cfg, DoSetNx(cfg, s, a, answered))
  {
    var s' := DoSetNx(cfg, s, a, answered);
    forall b | b in s'.attempts ensures AttemptOk(cfg, s', b) { assert AttemptOk(cfg, s, b); }
  }

  lemma DelKeeps(cfg: Config, s: Boot, a: nat, delivered: bool)
    requires Fits(cfg) && Inv(cfg, s)
    ensures Inv(cfg, DoDel(cfg, s, a, delivered))
  {
    var s' := DoDel(cfg, s, a, delivered);
    if a in s.attempts { assert AttemptOk(cfg, s, a); }
    forall b | b in s'.attempts ensures AttemptOk(cfg, s', b) { assert AttemptOk(cfg, s, b); }
    forall b | Won(s', b) ensures Won(s, b) {}
  }

  lemma RecordKeeps(cfg: Config, s: Boot, a: nat)
    requires Inv(cfg, s)
    ensures Inv(cfg, DoRecord(s, a))
  {
    var s' := DoRecord(s, a);
    forall b | b in s'.attempts ensures AttemptOk(cfg, s', b) { assert AttemptOk(cfg, s, b); }
    forall b | Won(s', b) ensures Won(s, b) {}
    if s' != s {
      assert Won(s, a);
      assert s'.counts == [a];
      forall b | b in s'.attempts ensures b == a || !Won(s, b) {}
      assert forall b :: b in s'.attempts && b != a ==> !Won(s', b);
    }
  }

  lemma OtherKeeps(cfg: Config, s: Boot, step: Step)
    requires Inv(cfg, s) && (step.Tick? || step.Observe? || step.LateTag? || step.Crash?)
    ensures Inv(cfg, Exec(cfg, s, step))
  {
    var s' := Exec(cfg, s, step);
    forall b | b in s'.attempts ensures AttemptOk(cfg, s', b) {
      if b in s.attempts { assert AttemptOk(cfg, s, b); }
    }
    forall b | Won(s', b) ensures Won(s, b) {}
  }

  lemma StepKeeps(cfg: Config, s: Boot, step: Step)
    requires Fits(cfg) && Inv(cfg, s)
    ensures Inv(cfg, Exec(cfg, s, step))
  {
    match step
    case SetNx(a, answered) => SetNxKeeps(cfg, s, a, answered);
    case CreateTags(a, write) => CreateTagsKeeps(cfg, s, a, write);
    case Del(a, delivered) => DelKeeps(cfg, s, a, delivered);
    case Record(a) => RecordKeeps(cfg, s, a);
    case _ => OtherKeeps(cfg, s, step);
  }

  lemma RunKeeps(cfg: Config, steps: seq<Step>)
    requires Fits(cfg)
    ensures Inv(cfg, After(cfg, LAUNCHED, steps))
  {
    forall t: Boot, step: Step | Inv(cfg, t) ensures Inv(cfg, Machine(cfg)(t, step)) { StepKeeps(cfg, t, step); }
    Runs.KeptByRuns(Machine(cfg), t => Inv(cfg, t), LAUNCHED, steps);
  }

  // ------------------------------------------------------- the exact condition

  ghost predicate AtMostOnce(cfg: Config) {
    forall steps: seq<Step> :: |After(cfg, LAUNCHED, steps).counts| <= 1
  }

  /** One attempt reads no tag, waits, and takes the key. */
  lemma TakesKey(cfg: Config, s: Boot, t: Boot, a: nat, before: nat) returns (t': Boot)
    requires Runs.Reaches(Machine(cfg), s, t) && a !in t.attempts && before <= cfg.attempt
    requires t.tag.Tag? ==> t.now <= t.tag.at + cfg.lag
    requires t.key.Held? ==> t.key.since + BOOT_LOCK_TTL < t.now + before
    ensures Runs.Reaches(Machine(cfg), s, t')
    ensures t' == t.(now := t.now + before, key := Held(a, t.now + before),
      attempts := t.attempts[a := Attempt(t.now, Locked(t.now + before))])
  {
    var t1 := DoObserve(cfg, t, a, true);
    Runs.ReachesNext(Machine(cfg), s, t, Observe(a, true));
    var t2 := t1.(now := t.now + before);
    Runs.ReachesNext(Machine(cfg), s, t1, Tick(before));
    t' := DoSetNx(cfg, t2, a, true);
    Runs.ReachesNext(Machine(cfg), s, t2, SetNx(a, true));
    assert t'.attempts == t.attempts[a := Attempt(t.now, Locked(t.now + before))];
  }

  /** One attempt from its read to its count, pausing before the key and before the tag. */
  lemma CountsAfter(cfg: Config, s: Boot, t: Boot, a: nat, before: nat, between: nat) returns (t': Boot)
    requires Runs.Reaches(Machine(cfg), s, t) && a !in t.attempts && before + between <= cfg.attempt
    requires t.tag.Tag? ==> t.now <= t.tag.at + cfg.lag
    requires t.key.Held? ==> t.key.since + BOOT_LOCK_TTL < t.now + before
    ensures Runs.Reaches(Machine(cfg), s, t') && |t'.counts| == |t.counts| + 1 && t'.now == t.now + before + between
    ensures t'.key == Held(a, t.now + before) && t'.attempts.Keys == t.attempts.Keys + {a}
    ensures t'.tag == if t.tag.NoTag? then Tag(t.now + before + between) else t.tag
  {
    var t1 := TakesKey(cfg, s, t, a, before);
    var t2 := t1.(now := t1.now + between);
    Runs.ReachesNext(Machine(cfg), s, t1, Tick(between));
    var t3 := DoCreateTags(cfg, t2, a, Applied);
    Runs.ReachesNext(Machine(cfg), s, t2, CreateTags(a, Applied));
    t' := DoRecord(t3, a);
    Runs.ReachesNext(Machine(cfg), s, t3, Record(a));
  }

  /** The boot result is counted at most once in every run exactly when two attempts and the visibility
      lag fit inside the time to live. */
  lemma OnceIffFits(cfg: Config)
    ensures AtMostOnce(cfg) <==> Fits(cfg)
  {
    if Fits(cfg) {
      forall steps: seq<Step> ensures |After(cfg, LAUNCHED, steps).counts| <= 1 { RunKeeps(cfg, steps); }
    } else {
      Runs.ReachesSelf(Machine(cfg), LAUNCHED);
      var t := CountsAfter(cfg, LAUNCHED, LAUNCHED, 0, 0, cfg.attempt);
      Runs.ReachesNext(Machine(cfg), LAUNCHED, t, Tick(cfg.lag));
      t := Exec(cfg, t, Tick(cfg.lag));
      t := CountsAfter(cfg, LAUNCHED, t, 1, cfg.attempt, 0);
      var steps: seq<Step> :| Runs.After(Machine(cfg), LAUNCHED, steps) == t;
      assert |After(cfg, LAUNCHED, steps).counts| == 2;
    }
  }

  // --------------------------------------------------- recordable after a failure

  /** While the instance carries no tag, the result can still be counted: at once if the key is free,
      in any case after the key's time to live. `a` is any attempt not yet made. */
  lemma StillRecordable(cfg: Config, s: Boot, a: nat)
    requires s.tag.NoTag? && a !in s.attempts && (s.key.Held? ==> s.key.since <= s.now)
    ensures exists t ::
      Runs.Reaches(Machine(cfg), s, t) && |t.counts| == |s.counts| + 1 && t.now <= s.now + BOOT_LOCK_TTL + 1
    ensures !Live(s) ==> exists t :: Runs.Reaches(Machine(cfg), s, t) && |t.counts| == |s.counts| + 1 && t.now == s.now
  {
    Runs.ReachesSelf(Machine(cfg), s);
    if Live(s) {
      var t := Exec(cfg, s, Tick(BOOT_LOCK_TTL + 1));
      Runs.ReachesNext(Machine(cfg), s, s, Tick(BOOT_LOCK_TTL + 1));
      t := CountsAfter(cfg, s, t, a, 0, 0);
    } else {
      var t := CountsAfter(cfg, s, s, a, 0, 0);
    }
  }

  /** A tag write that failed and whose key delete arrived leaves the result countable at that very
      moment by the next attempt. */
  lemma FailedWriteRecordable(cfg: Config, s: Boot, a: nat, b: nat)
    requires s.tag.NoTag? && a in s.attempts && s.attempts[a].phase.Locked? && InTime(cfg, s, a) && b !in s.attempts
    ensures var s' := Exec(cfg, Exec(cfg, s, CreateTags(a, NotApplied)), Del(a, true));
      exists t :: Runs.Reaches(Machine(cfg), s', t) && |t.counts| == |s.counts| + 1 && t.now == s.now
  {
    var s' := Exec(cfg, Exec(cfg, s, CreateTags(a, NotApplied)), Del(a, true));
    StillRecordable(cfg, s', b);
  }

  /** A tag write that takes effect late still ends the counting: a read that sees the tag starts nothing. */
  lemma LateTagEnds(cfg: Config, s: Boot, a: nat, b: nat)
    requires a in s.late && s.tag.NoTag?
    ensures var s' := Exec(cfg, s, LateTag(a));
      s'.tag == Tag(s.now) && s'.counts == s.counts && Exec(cfg, s', Observe(b, false)) == s'
  {
  }

  /** An attempt that crashed before it counted never counts, whatever happens later. */
  lemma CrashedNeverCounts(cfg: Config, s: Boot, a: nat, steps: seq<Step>)
    requires a in s.attempts && !s.attempts[a].phase.Recorded? && a !in s.counts
    ensures a !in After(cfg, Exec(cfg, s, Crash(a)), steps).counts
  {
    Runs.KeptByRuns(
      Machine(cfg), (t: Boot) => a in t.attempts && t.attempts[a].phase == Over && a !in t.counts,
      Exec(cfg, s, Crash(a)), steps);
  }

  // ------------------------------------------------------------- one whole call

  /** What the call's requests meet: Redis answers, applies without answering, or is out of reach. */
  datatype Redis = Answers | AppliesUnanswered | OutOfReach

  function Uninterrupted(s: Boot, a: nat, answered: bool, write: Write, delivered: bool): Boot {
    var cfg := Config(0, 0);
    DoRecord(DoDel(cfg, DoCreateTags(cfg, DoSetNx(cfg, s, a, answered), a, write), a, delivered), a)
  }

  /** What replicas share about one instance. */
  class SharedBoot {
    var key: Key
    var tag: Tag
    var counts: seq<nat>

    constructor ()
      ensures key == Absent && tag == NoTag && counts == []
    {
      key, tag, counts := Absent, NoTag, [];
    }

    predicate KeyLive(now: int)
      reads this
    {
      key.Held? && now <= key.since + BOOT_LOCK_TTL
    }

    /** A call nobody interrupts does what the machine's steps do, in the code's order, and counts
        exactly when the snapshot had no tag, the key was free and the tag write was confirmed. */
    method RecordBootOnce(a: nat, now: int, tagSeen: bool, redis: Redis, write: Write, delivered: bool)
      modifies this
      ensures tagSeen || redis == OutOfReach ==> unchanged(this)
      ensures !tagSeen && redis != OutOfReach ==>
        var start := Boot(now, old(key), old(tag), map[a := Attempt(now, Untagged)], {}, old(counts));
        var s := Uninterrupted(start, a, redis == Answers, write, delivered);
        key == s.key && tag == s.tag && counts == s.counts
      ensures old(KeyLive(now)) ==> unchanged(this)
      ensures !tagSeen && redis == AppliesUnanswered && !old(KeyLive(now)) ==> key == Held(a, now) && tag == old(tag)
      ensures !tagSeen && redis == Answers && !old(KeyLive(now)) ==>
        && key == (if write != Applied && delivered then Absent else Held(a, now))
        && tag == (if write != NotApplied && old(tag) == NoTag then Tag(now) else old(tag))
      ensures counts ==
        if !tagSeen && !old(KeyLive(now)) && redis == Answers && write == Applied then old(counts) + [a]
        else old(counts)
    {
      if tagSeen || redis == OutOfReach || KeyLive(now) { return; }
      key := Held(a, now);
      if redis == AppliesUnanswered { return; }
      if write != NotApplied && tag == NoTag { tag := Tag(now); }
      if write != Applied {
        if delivered { key := Absent; }
        return;
      }
      counts := counts + [a];
    }
  }
}
