/** The hint rate limiter, in memory (apps/ai-tutor/app/guardrails.py) and as a Redis script
    (apps/ai-tutor/app/ratelimit_redis.py), each against a naive count over the log of all calls.
    Times are in seconds. */
module RateLimit {

  const WINDOW := 60.0
  const SESSION_TTL := 21600.0

  /** A limit of 0 or less is no limit. */
  datatype Limits = Limits(perMinute: int, perSession: int)

  datatype Verdict = Ok | UserMinute | SessionTotal

  datatype Event =
    | Hit(user: string, session: string, at: real)
    | Refused(scope: Verdict)
    | Forgot(session: string)

  // ------------------------------------------------- the naive specification

  predicate IsHit(e: Event, user: string) {
    e.Hit? && e.user == user
  }

  /** Accepted calls of the user less than a minute before `now`. */
  function Recent(log: seq<Event>, user: string, now: real): nat {
    if log == [] then 0
    else
      var e := log[|log| - 1];
      Recent(log[..|log| - 1], user, now) + (if IsHit(e, user) && now - e.at < WINDOW then 1 else 0)
  }

  /** Accepted calls of the session since it was last forgotten. */
  function Uses(log: seq<Event>, session: string): nat {
    if log == [] then 0
    else
      var e, before := log[|log| - 1], Uses(log[..|log| - 1], session);
      if e.Hit? && e.session == session then before + 1
      else if e == Forgot(session) then 0
      else before
  }

  datatype Streak = NoStreak | Streak(uses: nat, last: real)

  /** Accepted calls of the session since it was last forgotten or idle for longer than SESSION_TTL. */
  function StreakOf(log: seq<Event>, session: string): Streak {
    if log == [] then NoStreak
    else
      var e, before := log[|log| - 1], StreakOf(log[..|log| - 1], session);
      if e.Hit? && e.session == session then Streak(LiveUses(before, e.at) + 1, e.at)
      else if e == Forgot(session) then NoStreak
      else before
  }

  function LiveUses(streak: Streak, now: real): nat {
    if streak.Streak? && now <= streak.last + SESSION_TTL then streak.uses else 0
  }

  function Judge(limits: Limits, recent: nat, uses: nat): Verdict {
    if limits.perMinute > 0 && recent >= limits.perMinute then UserMinute
    else if limits.perSession > 0 && uses >= limits.perSession then SessionTotal
    else Ok
  }

  /** Whether a call is let through, and if not, which limit stops it: the minute's before the session's. */
  predicate Decides(limits: Limits, recent: nat, uses: nat, v: Verdict) {
    && (v == Ok <==>
          (limits.perMinute <= 0 || recent < limits.perMinute) && (limits.perSession <= 0 || uses < limits.perSession))
    && (v == UserMinute <==> limits.perMinute > 0 && recent >= limits.perMinute)
  }

  function Entry(v: Verdict, user: string, session: string, now: real): Event {
    if v == Ok then Hit(user, session, now) else Refused(v)
  }

  // ------------------------------------------------------ the deque of times

  function TimesOf(log: seq<Event>, user: string): seq<real> {
    if log == [] then []
    else
      var e, before := log[|log| - 1], TimesOf(log[..|log| - 1], user);
      if IsHit(e, user) then before + [e.at] else before
  }

  predicate Ascending(times: seq<real>, clock: real) {
    && (forall i, j :: 0 <= i < j < |times| ==> times[i] <= times[j])
    && (forall i :: 0 <= i < |times| ==> times[i] <= clock)
  }

  /** `hits` are the last of `times`, and only times out of the window are missing. */
  predicate Tail(hits: seq<real>, times: seq<real>, clock: real) {
    && |hits| <= |times| && hits == times[|times| - |hits|..]
    && (forall i :: 0 <= i < |times| - |hits| ==> clock - times[i] >= WINDOW)
  }

  /** A cut that separates old times from recent ones counts the recent ones. */
  lemma {:induction false} RecentFromCut(log: seq<Event>, user: string, now: real, k: nat)
    requires k <= |TimesOf(log, user)|
    requires forall i :: 0 <= i < |TimesOf(log, user)| ==> (now - TimesOf(log, user)[i] >= WINDOW <==> i < k)
    ensures Recent(log, user, now) == |TimesOf(log, user)| - k
  {
    if log != [] {
      var before, times := log[..|log| - 1], TimesOf(log, user);
      var earlier := TimesOf(before, user);
      if IsHit(log[|log| - 1], user) {
        assert times[|earlier|] == log[|log| - 1].at;
        assert forall i :: 0 <= i < |earlier| ==> earlier[i] == times[i];
        RecentFromCut(before, user, now, if k <= |earlier| then k else |earlier|);
      } else {
        RecentFromCut(before, user, now, k);
      }
    }
  }

  lemma Appended(log: seq<Event>, e: Event)
    ensures (log + [e])[..|log|] == log
  {
  }

  function HitsOf(userHits: map<string, seq<real>>, user: string): seq<real> {
    if user in userHits then userHits[user] else []
  }

  function CountOf(counts: map<string, nat>, session: string): nat {
    if session in counts then counts[session] else 0
  }

  predicate Kept(hits: seq<real>, log: seq<Event>, user: string, clock: real) {
    Ascending(TimesOf(log, user), clock) && Tail(hits, TimesOf(log, user), clock)
  }

  ghost predicate UsersKept(userHits: map<string, seq<real>>, log: seq<Event>, clock: real) {
    forall user :: Kept(HitsOf(userHits, user), log, user, clock)
  }

  ghost predicate SessionsKept(counts: map<string, nat>, log: seq<Event>) {
    forall session :: CountOf(counts, session) == Uses(log, session)
  }

  lemma KeptAfter(hits: seq<real>, log: seq<Event>, user: string, clock: real, e: Event, now: real)
    requires Kept(hits, log, user, clock) && clock <= now && (e.Hit? ==> e.at == now)
    ensures Kept(if IsHit(e, user) then hits + [now] else hits, log + [e], user, now)
  {
    Appended(log, e);
  }

  function HitsAfter(hits: seq<real>, e: Event, now: real): seq<real> {
    if e.Hit? then hits + [now] else hits
  }

  lemma UserAfter(
      userHits: map<string, seq<real>>, log: seq<Event>, clock: real, user: string, hits: seq<real>, e: Event,
      now: real, u: string)
    requires Kept(HitsOf(userHits, u), log, u, clock) && clock <= now && Kept(hits, log, user, now)
    requires e.Hit? ==> e.at == now && e.user == user
    ensures Kept(HitsOf(userHits[user := HitsAfter(hits, e, now)], u), log + [e], u, now)
  {
    if u == user {
      KeptAfter(hits, log, u, now, e, now);
    } else {
      KeptAfter(HitsOf(userHits, u), log, u, clock, e, now);
    }
  }

  lemma UsersAfter(
      userHits: map<string, seq<real>>, log: seq<Event>, clock: real, user: string, hits: seq<real>, e: Event,
      now: real)
    requires UsersKept(userHits, log, clock) && clock <= now && Kept(hits, log, user, now)
    requires e.Hit? ==> e.at == now && e.user == user
    ensures UsersKept(userHits[user := HitsAfter(hits, e, now)], log + [e], now)
  {
    var after := userHits[user := HitsAfter(hits, e, now)];
    forall u ensures Kept(HitsOf(after, u), log + [e], u, now) {
      UserAfter(userHits, log, clock, user, hits, e, now, u);
    }
  }

  function CountsAfter(counts: map<string, nat>, e: Event): map<string, nat> {
    match e
    case Hit(_, session, _) => counts[session := CountOf(counts, session) + 1]
    case Forgot(session) => counts - {session}
    case Refused(_) => counts
  }

  lemma SessionsAfter(counts: map<string, nat>, log: seq<Event>, e: Event)
    requires SessionsKept(counts, log)
    ensures SessionsKept(CountsAfter(counts, e), log + [e])
  {
    forall s ensures CountOf(CountsAfter(counts, e), s) == Uses(log + [e], s) {
      Appended(log, e);
      assert CountOf(counts, s) == Uses(log, s);
    }
  }

  lemma TailPops(hits: seq<real>, times: seq<real>, now: real)
    requires Tail(hits, times, now) && hits != [] && now - hits[0] >= WINDOW
    ensures Tail(hits[1..], times, now)
  {
    assert hits[0] == times[|times| - |hits|];
  }

  /** A tail whose first time is in the window holds exactly the times in the window. */
  lemma TailIsRecent(hits: seq<real>, log: seq<Event>, user: string, now: real)
    requires Kept(hits, log, user, now) && (hits == [] || now - hits[0] < WINDOW)
    ensures |hits| == Recent(log, user, now)
  {
    var times := TimesOf(log, user);
    var k := |times| - |hits|;
    forall i | k <= i < |times| ensures now - times[i] < WINDOW { assert times[k] == hits[0] && times[k] <= times[i]; }
    RecentFromCut(log, user, now, k);
  }

  lemma KeptLater(hits: seq<real>, log: seq<Event>, user: string, clock: real, now: real)
    requires Kept(hits, log, user, clock) && clock <= now
    ensures Kept(hits, log, user, now)
  {
  }

  /** Popping from the front while the oldest time is out of the window leaves the recent ones. */
  method PopOld(hits: seq<real>, now: real, ghost log: seq<Event>, ghost user: string, ghost clock: real)
    returns (kept: seq<real>)
    requires Kept(hits, log, user, clock) && clock <= now
    ensures Kept(kept, log, user, now) && |kept| == Recent(log, user, now)
  {
    KeptLater(hits, log, user, clock, now);
    kept := hits;
    while kept != [] && now - kept[0] >= WINDOW
      invariant Kept(kept, log, user, now)
    {
      TailPops(kept, TimesOf(log, user), now);
      kept := kept[1..];
    }
    TailIsRecent(kept, log, user, now);
  }

  class RateLimiter {
    const limits: Limits
    var userHits: map<string, seq<real>>
    var sessionCounts: map<string, nat>
    ghost var log: seq<Event>
    ghost var clock: real

    ghost predicate Valid()
      reads this
    {
      UsersKept(userHits, log, clock) && SessionsKept(sessionCounts, log)
    }

    constructor (limits: Limits, start: real)
      ensures Valid() && log == [] && clock == start && this.limits == limits
    {
      this.limits := limits;
      userHits, sessionCounts, log, clock := map[], map[], [], start;
    }

    /** For non-decreasing times the verdict is that of the naive counts over the whole log. */
    method Check(user: string, session: string, now: real) returns (v: Verdict)
      requires Valid() && clock <= now
      modifies this
      ensures Valid() && clock == now
      ensures v == Judge(limits, Recent(old(log), user, now), Uses(old(log), session))
      ensures Decides(limits, Recent(old(log), user, now), Uses(old(log), session), v)
      ensures log == old(log) + [Entry(v, user, session, now)]
    {
      var hits := PopOld(HitsOf(userHits, user), now, log, user, clock);
      var count := CountOf(sessionCounts, session);
      v := if limits.perMinute > 0 && |hits| >= limits.perMinute then UserMinute
        else if limits.perSession > 0 && count >= limits.perSession then SessionTotal else Ok;
      UsersAfter(userHits, log, clock, user, hits, Entry(v, user, session, now), now);
      SessionsAfter(sessionCounts, log, Entry(v, user, session, now));
      if v == Ok {
        hits := hits + [now];
        sessionCounts := sessionCounts[session := count + 1];
      }
      userHits := userHits[user := hits];
      log, clock := log + [Entry(v, user, session, now)], now;
    }

    method ForgetSession(session: string)
      requires Valid()
      modifies this
      ensures Valid() && clock == old(clock) && log == old(log) + [Forgot(session)]
    {
      forall u ensures Kept(HitsOf(userHits, u), log + [Forgot(session)], u, clock) {
        KeptAfter(HitsOf(userHits, u), log, u, clock, Forgot(session), clock);
      }
      SessionsAfter(sessionCounts, log, Forgot(session));
      sessionCounts := sessionCounts - {session};
      log := log + [Forgot(session)];
    }
  }

  // -------------------------------------------------------- the Redis script

  /** A sorted set (member to score) and the last instant at which its key exists. */
  datatype Zset = Zset(members: map<string, real>, expires: real)

  datatype Counter = Counter(count: nat, expires: real)

  /** ZREMRANGEBYSCORE key 0 now-window. */
  function Trimmed(members: map<string, real>, now: real): map<string, real> {
    map m | m in members && !(0.0 <= members[m] <= now - WINDOW) :: members[m]
  }

  /** The set holds what the naive count will find at any later time, and its expiry loses nothing. */
  ghost predicate Mirrors(z: Zset, log: seq<Event>, user: string, clock: real) {
    && (forall m :: m in z.members ==> 0.0 <= z.members[m] <= z.expires - WINDOW && z.members[m] <= clock)
    && (forall now: real :: now >= clock ==> |Trimmed(z.members, now)| == Recent(log, user, now))
  }

  lemma TrimTwice(members: map<string, real>, now: real, later: real)
    requires now <= later
    ensures Trimmed(Trimmed(members, now), later) == Trimmed(members, later)
  {
  }

  lemma TrimAdded(members: map<string, real>, member: string, score: real, now: real)
    requires member !in members && score >= 0.0
    ensures |Trimmed(members[member := score], now)| ==
      |Trimmed(members, now)| + (if now - score < WINDOW then 1 else 0)
  {
    if now - score < WINDOW {
      assert Trimmed(members[member := score], now) == Trimmed(members, now)[member := score];
    } else {
      assert Trimmed(members[member := score], now) == Trimmed(members, now);
    }
  }

  lemma TrimMirrors(z: Zset, log: seq<Event>, user: string, clock: real, now: real)
    requires Mirrors(z, log, user, clock) && clock <= now
    ensures Mirrors(z.(members := Trimmed(z.members, now)), log, user, now)
  {
    forall later: real | later >= now ensures |Trimmed(Trimmed(z.members, now), later)| == Recent(log, user, later) {
      TrimTwice(z.members, now, later);
    }
  }

  lemma AddMirrors(z: Zset, log: seq<Event>, user: string, session: string, now: real, member: string)
    requires Mirrors(z, log, user, now) && member !in z.members && now >= 0.0
    ensures Mirrors(Zset(z.members[member := now], now + WINDOW), log + [Hit(user, session, now)], user, now)
  {
    Appended(log, Hit(user, session, now));
    forall later: real | later >= now
      ensures |Trimmed(z.members[member := now], later)| == Recent(log + [Hit(user, session, now)], user, later)
    {
      TrimAdded(z.members, member, now, later);
    }
  }

  lemma OtherMirrors(z: Zset, log: seq<Event>, user: string, clock: real, now: real, e: Event)
    requires Mirrors(z, log, user, clock) && clock <= now && !IsHit(e, user)
    ensures Mirrors(z, log + [e], user, now)
  {
    Appended(log, e);
    assert forall later: real :: Recent(log + [e], user, later) == Recent(log, user, later);
  }

  function ZsetOf(zsets: map<string, Zset>, user: string): Zset {
    if user in zsets then zsets[user] else Zset(map[], WINDOW)
  }

  /** What the keys hold: nothing once they have expired. */
  function LiveMembers(z: Zset, now: real): map<string, real> {
    if now <= z.expires then z.members else map[]
  }

  function LiveCount(counters: map<string, Counter>, session: string, now: real): nat {
    if session in counters && now <= counters[session].expires then counters[session].count else 0
  }

  ghost predicate UsersMirrored(zsets: map<string, Zset>, log: seq<Event>, clock: real) {
    forall user :: Mirrors(ZsetOf(zsets, user), log, user, clock)
  }

  function CounterStreak(counters: map<string, Counter>, session: string): Streak {
    if session in counters then Streak(counters[session].count, counters[session].expires - SESSION_TTL) else NoStreak
  }

  ghost predicate SessionsMatch(counters: map<string, Counter>, log: seq<Event>) {
    forall session :: StreakOf(log, session) == CounterStreak(counters, session)
  }

  lemma ExpiryLosesNothing(z: Zset, log: seq<Event>, user: string, clock: real, now: real)
    requires Mirrors(z, log, user, clock) && clock <= now
    ensures Trimmed(LiveMembers(z, now), now) == Trimmed(z.members, now)
  {
  }

  lemma MirroredAfter(
      zsets: map<string, Zset>, log: seq<Event>, clock: real, user: string, z: Zset, e: Event, now: real)
    requires UsersMirrored(zsets, log, clock) && clock <= now && Mirrors(z, log + [e], user, now)
    requires e.Hit? ==> e.user == user
    ensures UsersMirrored(zsets[user := z], log + [e], now)
  {
    var after := zsets[user := z];
    forall u ensures Mirrors(ZsetOf(after, u), log + [e], u, now) {
      if u != user {
        assert Mirrors(ZsetOf(zsets, u), log, u, clock);
        OtherMirrors(ZsetOf(zsets, u), log, u, clock, now, e);
      }
    }
  }

  /** The user's set once expiry and trimming have been applied. */
  function TrimmedZset(zsets: map<string, Zset>, user: string, now: real): Zset {
    var z := ZsetOf(zsets, user);
    z.(members := Trimmed(LiveMembers(z, now), now))
  }

  lemma TrimmedCounts(zsets: map<string, Zset>, log: seq<Event>, clock: real, user: string, now: real)
    requires UsersMirrored(zsets, log, clock) && clock <= now
    ensures Mirrors(TrimmedZset(zsets, user, now), log, user, now)
    ensures |TrimmedZset(zsets, user, now).members| == Recent(log, user, now)
  {
    var z := ZsetOf(zsets, user);
    assert Mirrors(z, log, user, clock);
    ExpiryLosesNothing(z, log, user, clock, now);
    TrimMirrors(z, log, user, clock, now);
  }

  function CountersAfter(counters: map<string, Counter>, e: Event): map<string, Counter> {
    match e
    case Hit(_, session, now) => counters[session := Counter(LiveCount(counters, session, now) + 1, now + SESSION_TTL)]
    case Forgot(session) => counters - {session}
    case Refused(_) => counters
  }

  lemma MatchedAfter(counters: map<string, Counter>, log: seq<Event>, e: Event)
    requires SessionsMatch(counters, log)
    ensures SessionsMatch(CountersAfter(counters, e), log + [e])
  {
    forall s ensures StreakOf(log + [e], s) == CounterStreak(CountersAfter(counters, e), s) {
      Appended(log, e);
      assert StreakOf(log, s) == CounterStreak(counters, s);
    }
  }

  ghost predicate Mirrored(zsets: map<string, Zset>, counters: map<string, Counter>, log: seq<Event>, clock: real) {
    UsersMirrored(zsets, log, clock) && SessionsMatch(counters, log)
  }

  lemma ScriptCounts(
      zsets: map<string, Zset>, counters: map<string, Counter>, log: seq<Event>, clock: real, user: string,
      session: string, now: real)
    requires Mirrored(zsets, counters, log, clock) && clock <= now
    ensures |TrimmedZset(zsets, user, now).members| == Recent(log, user, now)
    ensures LiveCount(counters, session, now) == LiveUses(StreakOf(log, session), now)
  {
    TrimmedCounts(zsets, log, clock, user, now);
    assert StreakOf(log, session) == CounterStreak(counters, session);
  }

  lemma ScriptAccepts(
      zsets: map<string, Zset>, counters: map<string, Counter>, log: seq<Event>, clock: real, user: string,
      session: string, now: real, member: string)
    requires Mirrored(zsets, counters, log, clock) && clock <= now && now >= 0.0
      && member !in ZsetOf(zsets, user).members
    ensures Mirrored(
        zsets[user := Zset(TrimmedZset(zsets, user, now).members[member := now], now + WINDOW)],
        counters[session := Counter(LiveCount(counters, session, now) + 1, now + SESSION_TTL)],
        log + [Hit(user, session, now)], now)
  {
    var z := TrimmedZset(zsets, user, now);
    TrimmedCounts(zsets, log, clock, user, now);
    AddMirrors(z, log, user, session, now, member);
    MirroredAfter(zsets, log, clock, user, Zset(z.members[member := now], now + WINDOW), Hit(user, session, now), now);
    MatchedAfter(counters, log, Hit(user, session, now));
  }

  lemma ScriptRefuses(
      zsets: map<string, Zset>, counters: map<string, Counter>, log: seq<Event>, clock: real, user: string,
      now: real, v: Verdict)
    requires Mirrored(zsets, counters, log, clock) && clock <= now
    ensures Mirrored(zsets[user := TrimmedZset(zsets, user, now)], counters, log + [Refused(v)], now)
  {
    var z := TrimmedZset(zsets, user, now);
    TrimmedCounts(zsets, log, clock, user, now);
    OtherMirrors(z, log, user, now, now, Refused(v));
    MirroredAfter(zsets, log, clock, user, z, Refused(v), now);
    MatchedAfter(counters, log, Refused(v));
  }

  /** Where the script leaves both keys. */
  predicate ScriptLeaves(
      zsets: map<string, Zset>, counters: map<string, Counter>, user: string, session: string, now: real,
      member: string, ok: bool, zsets': map<string, Zset>, counters': map<string, Counter>) {
    var z := TrimmedZset(zsets, user, now);
    if ok then
      && zsets' == zsets[user := Zset(z.members[member := now], now + WINDOW)]
      && counters' == counters[session := Counter(LiveCount(counters, session, now) + 1, now + SESSION_TTL)]
    else zsets' == zsets[user := z] && counters' == counters
  }

  lemma ScriptKeeps(
      zsets: map<string, Zset>, counters: map<string, Counter>, log: seq<Event>, clock: real, user: string,
      session: string, now: real, member: string, v: Verdict, zsets': map<string, Zset>,
      counters': map<string, Counter>)
    requires Mirrored(zsets, counters, log, clock) && clock <= now && now >= 0.0
      && member !in ZsetOf(zsets, user).members
    requires ScriptLeaves(zsets, counters, user, session, now, member, v == Ok, zsets', counters')
    ensures Mirrored(zsets', counters', log + [Entry(v, user, session, now)], now)
  {
    if v == Ok {
      ScriptAccepts(zsets, counters, log, clock, user, session, now, member);
    } else {
      ScriptRefuses(zsets, counters, log, clock, user, now, v);
    }
  }

  lemma ForgetKeeps(
      zsets: map<string, Zset>, counters: map<string, Counter>, log: seq<Event>, clock: real, session: string)
    requires Mirrored(zsets, counters, log, clock)
    ensures Mirrored(zsets, counters - {session}, log + [Forgot(session)], clock)
  {
    forall u ensures Mirrors(ZsetOf(zsets, u), log + [Forgot(session)], u, clock) {
      assert Mirrors(ZsetOf(zsets, u), log, u, clock);
      OtherMirrors(ZsetOf(zsets, u), log, u, clock, clock, Forgot(session));
    }
    MatchedAfter(counters, log, Forgot(session));
  }

  class RedisLimiter {
    const limits: Limits
    var zsets: map<string, Zset>
    var counters: map<string, Counter>
    ghost var log: seq<Event>
    ghost var clock: real

    ghost predicate Valid()
      reads this
    {
      Mirrored(zsets, counters, log, clock)
    }

    constructor (limits: Limits, start: real)
      ensures Valid() && log == [] && clock == start && this.limits == limits
    {
      this.limits := limits;
      zsets, counters, log, clock := map[], map[], [], start;
      new;
      assert forall now: real :: Trimmed(map[], now) == map[];
    }

    /** The script: the same verdict, except that a session idle for longer than SESSION_TTL starts over.
        `member` is new to the user's set. */
    method Check(user: string, session: string, now: real, member: string) returns (v: Verdict)
      requires Valid() && clock <= now && now >= 0.0 && member !in ZsetOf(zsets, user).members
      modifies this
      ensures Valid() && clock == now
      ensures v == Judge(limits, Recent(old(log), user, now), LiveUses(StreakOf(old(log), session), now))
      ensures Decides(limits, Recent(old(log), user, now), LiveUses(StreakOf(old(log), session), now), v)
      ensures log == old(log) + [Entry(v, user, session, now)]
    {
      ScriptCounts(zsets, counters, log, clock, user, session, now);
      var z := TrimmedZset(zsets, user, now);
      var count := LiveCount(counters, session, now);
      v := if limits.perMinute > 0 && |z.members| >= limits.perMinute then UserMinute
        else if limits.perSession > 0 && count >= limits.perSession then SessionTotal else Ok;
      if v == Ok {
        z := Zset(z.members[member := now], now + WINDOW);
        counters := counters[session := Counter(count + 1, now + SESSION_TTL)];
      }
      zsets := zsets[user := z];
      ScriptKeeps(old(zsets), old(counters), log, clock, user, session, now, member, v, zsets, counters);
      log, clock := log + [Entry(v, user, session, now)], now;
    }

    method ForgetSession(session: string)
      requires Valid()
      modifies this
      ensures Valid() && clock == old(clock) && log == old(log) + [Forgot(session)]
    {
      ForgetKeeps(zsets, counters, log, clock, session);
      counters := counters - {session};
      log := log + [Forgot(session)];
    }
  }

  // ----------------------------------------------------------------- whole runs

  datatype Call = Ask(user: string, session: string, at: real) | Forget(session: string)

  function UsesFor(log: seq<Event>, call: Call, redis: bool): nat
    requires call.Ask?
  {
    if redis then LiveUses(StreakOf(log, call.session), call.at) else Uses(log, call.session)
  }

  /** One more call, judged as the class of that backend judges it. */
  function Next(limits: Limits, log: seq<Event>, call: Call, redis: bool): Event {
    match call
    case Forget(session) => Forgot(session)
    case Ask(user, session, at) =>
      Entry(Judge(limits, Recent(log, user, at), UsesFor(log, call, redis)), user, session, at)
  }

  function Run(limits: Limits, calls: seq<Call>, redis: bool): (log: seq<Event>)
    ensures |log| == |calls|
  {
    if calls == [] then []
    else
      var log := Run(limits, calls[..|calls| - 1], redis);
      log + [Next(limits, log, calls[|calls| - 1], redis)]
  }

  /** Accepted calls of the user from `start` up to, not including, one minute later. */
  function InWindow(log: seq<Event>, user: string, start: real): nat {
    if log == [] then 0
    else
      var e := log[|log| - 1];
      InWindow(log[..|log| - 1], user, start) + (if IsHit(e, user) && start <= e.at < start + WINDOW then 1 else 0)
  }

  lemma {:induction false} WindowWithinRecent(log: seq<Event>, user: string, start: real, now: real)
    requires now < start + WINDOW
    ensures InWindow(log, user, start) <= Recent(log, user, now)
  {
    if log != [] { WindowWithinRecent(log[..|log| - 1], user, start, now); }
  }

  /** No half-open minute, wherever it starts, holds more than the limit of one user's accepted calls. */
  lemma {:induction false} MinuteBound(limits: Limits, calls: seq<Call>, redis: bool, user: string, start: real)
    requires limits.perMinute > 0
    ensures InWindow(Run(limits, calls, redis), user, start) <= limits.perMinute
    decreases |calls|
  {
    if calls != [] {
      var before := Run(limits, calls[..|calls| - 1], redis);
      var e := Next(limits, before, calls[|calls| - 1], redis);
      MinuteBound(limits, calls[..|calls| - 1], redis, user, start);
      Appended(before, e);
      if IsHit(e, user) && start <= e.at < start + WINDOW {
        WindowWithinRecent(before, user, start, e.at);
      }
    }
  }

  /** Without key expiry a session never exceeds its total between two forgettings. */
  lemma {:induction false} SessionBound(limits: Limits, calls: seq<Call>, session: string)
    requires limits.perSession > 0
    ensures Uses(Run(limits, calls, false), session) <= limits.perSession
    decreases |calls|
  {
    if calls != [] {
      var before := Run(limits, calls[..|calls| - 1], false);
      SessionBound(limits, calls[..|calls| - 1], session);
      Appended(before, Next(limits, before, calls[|calls| - 1], false));
    }
  }

  // ------------------------------------------- who is let through and who is not

  /** The accepted calls of the user less than a minute before `now`. */
  function RecentPlaces(log: seq<Event>, user: string, now: real): set<int> {
    set i | 0 <= i < |log| && IsHit(log[i], user) && now - log[i].at < 60.0
  }

  /** An accepted call of the session that no forgetting followed. */
  predicate CountsUse(log: seq<Event>, session: string, i: nat)
    requires i < |log|
  {
    log[i].Hit? && log[i].session == session && forall j :: i < j < |log| ==> log[j] != Forgot(session)
  }

  function UsePlaces(log: seq<Event>, session: string): set<int> {
    set i | 0 <= i < |log| && CountsUse(log, session, i)
  }

  lemma CountsBefore(log: seq<Event>, session: string, i: nat)
    requires i < |log| - 1
    ensures CountsUse(log, session, i) <==>
      CountsUse(log[..|log| - 1], session, i) && log[|log| - 1] != Forgot(session)
  {
    var init := log[..|log| - 1];
    assert forall j :: 0 <= j < |init| ==> init[j] == log[j];
  }

  lemma UsesNext(log: seq<Event>, session: string)
    requires log != []
    ensures var n, earlier := |log| - 1, UsePlaces(log[..|log| - 1], session);
      UsePlaces(log, session) ==
        if log[n] == Forgot(session) then {}
        else if log[n].Hit? && log[n].session == session then earlier + {n} else earlier
  {
    var n := |log| - 1;
    forall i: nat | i < n
      ensures CountsUse(log, session, i) <==> CountsUse(log[..n], session, i) && log[n] != Forgot(session)
    {
      CountsBefore(log, session, i);
    }
  }

  lemma {:induction false} RecentCounts(log: seq<Event>, user: string, now: real)
    ensures Recent(log, user, now) == |RecentPlaces(log, user, now)|
  {
    if log == [] {
      assert RecentPlaces(log, user, now) == {};
    } else {
      var n := |log| - 1;
      RecentCounts(log[..n], user, now);
      var earlier := RecentPlaces(log[..n], user, now);
      assert RecentPlaces(log, user, now) ==
        if IsHit(log[n], user) && now - log[n].at < WINDOW then earlier + {n} else earlier;
    }
  }

  lemma {:induction false} UsesCount(log: seq<Event>, session: string)
    ensures Uses(log, session) == |UsePlaces(log, session)|
  {
    if log == [] {
      assert UsePlaces(log, session) == {};
    } else {
      var n := |log| - 1;
      UsesCount(log[..n], session);
      UsesNext(log, session);
      assert n !in UsePlaces(log[..n], session);
    }
  }

  // -- the same for the Redis counter, which lapses

  predicate Used(log: seq<Event>, session: string, i: int) {
    0 <= i < |log| && log[i].Hit? && log[i].session == session
  }

  /** j is the last use of the session before place l. */
  predicate LastUse(log: seq<Event>, session: string, j: int, l: int) {
    j < l && Used(log, session, j) && forall m :: j < m < l ==> !Used(log, session, m)
  }

  /** From i on, no two uses of the session are more than six hours apart, nor is the last one from `now`. */
  ghost predicate Unbroken(log: seq<Event>, session: string, i: int, now: real) {
    && (forall j, l :: i <= j && LastUse(log, session, j, l) && Used(log, session, l) ==>
          log[l].at <= log[j].at + 21600.0)
    && (forall j :: i <= j && LastUse(log, session, j, |log|) ==> now <= log[j].at + 21600.0)
  }

  /** A use that still counts: neither forgotten nor lapsed since. */
  ghost predicate StillCounts(log: seq<Event>, session: string, now: real, i: int) {
    Used(log, session, i) && (forall j :: i < j < |log| ==> log[j] != Forgot(session)) && Unbroken(log, session, i, now)
  }

  ghost function LivePlaces(log: seq<Event>, session: string, now: real): set<int> {
    set i | 0 <= i < |log| && StillCounts(log, session, now, i)
  }

  lemma UsedBefore(log: seq<Event>, e: Event, session: string, j: int, l: int)
    requires l <= |log|
    ensures LastUse(log + [e], session, j, l) <==> LastUse(log, session, j, l)
    ensures forall m :: m < |log| ==> (Used(log + [e], session, m) <==> Used(log, session, m))
  {
    var log' := log + [e];
    assert forall m :: 0 <= m < |log| ==> log'[m] == log[m];
    assert forall m :: m < |log| ==> (Used(log', session, m) <==> Used(log, session, m));
  }

  /** An event of another kind, or of another session, ends nothing. */
  lemma UnbrokenOther(log: seq<Event>, e: Event, session: string, i: int, now: real)
    requires i < |log| && !Used(log + [e], session, |log|)
    ensures Unbroken(log + [e], session, i, now) <==> Unbroken(log, session, i, now)
  {
    var log' := log + [e];
    forall j, l | l <= |log| ensures LastUse(log', session, j, l) <==> LastUse(log, session, j, l) {
      UsedBefore(log, e, session, j, l);
    }
    UsedBefore(log, e, session, i, |log|);
    forall j ensures LastUse(log', session, j, |log'|) <==> LastUse(log', session, j, |log|) {}
    assert forall l :: Used(log', session, l) ==> l < |log|;
    assert forall l :: Used(log, session, l) ==> log'[l] == log[l] && l <= |log|;
  }

  /** A use at time e.at goes on exactly with what was unbroken then. */
  lemma UnbrokenUse(log: seq<Event>, e: Event, session: string, i: int, now: real)
    requires 0 <= i < |log| && Used(log + [e], session, |log|)
    ensures Unbroken(log + [e], session, i, now) <==> Unbroken(log, session, i, e.at) && now <= e.at + 21600.0
  {
    var log' := log + [e];
    var n := |log|;
    forall j, l | l <= n ensures LastUse(log', session, j, l) <==> LastUse(log, session, j, l) {
      UsedBefore(log, e, session, j, l);
    }
    UsedBefore(log, e, session, i, n);
    assert forall l :: Used(log', session, l) ==> l <= n;
    assert forall l :: Used(log, session, l) ==> log'[l] == log[l] && l <= n;
    forall j | LastUse(log', session, j, |log'|) ensures j == n {}
    if Unbroken(log', session, i, now) {
      forall j | i <= j && LastUse(log, session, j, n) ensures e.at <= log[j].at + 21600.0 {
        assert LastUse(log', session, j, n) && Used(log', session, n);
      }
      assert LastUse(log', session, n, |log'|);
    }
  }

  lemma LiveNext(log: seq<Event>, e: Event, session: string, now: real)
    ensures var log', n := log + [e], |log|;
      LivePlaces(log', session, now) ==
        if e == Forgot(session) then {}
        else if Used(log', session, n) then
          (if now <= e.at + 21600.0 then LivePlaces(log, session, e.at) + {n} else {})
        else LivePlaces(log, session, now)
  {
    var log', n := log + [e], |log|;
    forall i | 0 <= i <= n
      ensures StillCounts(log', session, now, i) <==>
        if e == Forgot(session) then false
        else if Used(log', session, n) then
          now <= e.at + 21600.0 && (i == n || StillCounts(log, session, e.at, i))
        else i < n && StillCounts(log, session, now, i)
    {
      LiveOne(log, e, session, now, i);
    }
  }

  lemma LiveOne(log: seq<Event>, e: Event, session: string, now: real, i: int)
    requires 0 <= i <= |log|
    ensures var log', n := log + [e], |log|;
      StillCounts(log', session, now, i) <==>
        if e == Forgot(session) then false
        else if Used(log', session, n) then
          now <= e.at + 21600.0 && (i == n || StillCounts(log, session, e.at, i))
        else i < n && StillCounts(log, session, now, i)
  {
    var log', n := log + [e], |log|;
    assert log'[n] == e && forall m :: 0 <= m < n ==> log'[m] == log[m];
    if i < n && e != Forgot(session) {
      UsedBefore(log, e, session, i, n);
      if Used(log', session, n) {
        UnbrokenUse(log, e, session, i, now);
      } else {
        UnbrokenOther(log, e, session, i, now);
      }
      assert (forall j :: i < j < n + 1 ==> log'[j] != Forgot(session)) <==>
             (forall j :: i < j < n ==> log[j] != Forgot(session));
    } else if i == n && Used(log', session, n) {
      forall j, l | n <= j && LastUse(log', session, j, l) ensures j == n && !Used(log', session, l) {}
      assert LastUse(log', session, n, n + 1);
    }
  }

  /** The counter's uses are those that still count. */
  lemma {:induction false} LiveUsesCount(log: seq<Event>, session: string, now: real)
    ensures LiveUses(StreakOf(log, session), now) == |LivePlaces(log, session, now)|
    decreases |log|
  {
    if log == [] {
      assert LivePlaces(log, session, now) == {};
    } else {
      var n := |log| - 1;
      var before, e := log[..n], log[n];
      assert log == before + [e];
      LiveNext(before, e, session, now);
      LiveUsesCount(before, session, if e.Hit? && e.session == session then e.at else now);
      assert n !in LivePlaces(before, session, if e.Hit? && e.session == session then e.at else now);
    }
  }

  /** The times of the calls do not decrease. */
  predicate InTime(calls: seq<Call>) {
    forall i, j :: 0 <= i < j < |calls| && calls[i].Ask? && calls[j].Ask? ==> calls[i].at <= calls[j].at
  }

  predicate NotAfter(calls: seq<Call>, now: real) {
    forall i :: 0 <= i < |calls| && calls[i].Ask? ==> calls[i].at <= now
  }

  lemma {:induction false} RecentFades(log: seq<Event>, user: string, now: real, later: real)
    requires now <= later
    ensures Recent(log, user, later) <= Recent(log, user, now)
  {
    if log != [] { RecentFades(log[..|log| - 1], user, now, later); }
  }

  /** No call ever finds more recent ones than the limit. */
  lemma {:induction false} RecentBound(limits: Limits, calls: seq<Call>, redis: bool, user: string, now: real)
    requires limits.perMinute > 0 && NotAfter(calls, now)
    ensures Recent(Run(limits, calls, redis), user, now) <= limits.perMinute
    decreases |calls|
  {
    if calls != [] {
      var before := Run(limits, calls[..|calls| - 1], redis);
      var e := Next(limits, before, calls[|calls| - 1], redis);
      RecentBound(limits, calls[..|calls| - 1], redis, user, now);
      Appended(before, e);
      if IsHit(e, user) { RecentFades(before, user, e.at, now); }
    }
  }

  lemma {:induction false} StreakBound(limits: Limits, calls: seq<Call>, session: string)
    requires limits.perSession > 0
    ensures var streak := StreakOf(Run(limits, calls, true), session);
      streak.Streak? ==> streak.uses <= limits.perSession
    decreases |calls|
  {
    if calls != [] {
      var before := Run(limits, calls[..|calls| - 1], true);
      StreakBound(limits, calls[..|calls| - 1], session);
      Appended(before, Next(limits, before, calls[|calls| - 1], true));
    }
  }

  lemma {:induction false} RunPrefix(limits: Limits, calls: seq<Call>, redis: bool, k: nat)
    requires k < |calls|
    ensures var log := Run(limits, calls, redis);
      log[..k] == Run(limits, calls[..k], redis) && log[k] == Next(limits, log[..k], calls[k], redis)
    decreases |calls|
  {
    var n := |calls| - 1;
    if k < n {
      RunPrefix(limits, calls[..n], redis, k);
      assert calls[..n][..k] == calls[..k];
      assert Run(limits, calls, redis)[..k] == Run(limits, calls[..n], redis)[..k];
    } else {
      assert Run(limits, calls, redis)[..n] == Run(limits, calls[..n], redis);
    }
  }

  /** In every run a call is let through if and only if both counts are below their limits; one that is
      refused for the minute finds exactly as many calls of that user within the minute as the limit allows,
      and one refused for the session exactly as many uses of it. */
  lemma RefusedAtLimit(limits: Limits, calls: seq<Call>, redis: bool, k: nat)
    requires InTime(calls) && k < |calls| && calls[k].Ask?
    ensures var Ask(user, session, at) := calls[k];
      var log := Run(limits, calls, redis);
      var recent, uses := |RecentPlaces(log[..k], user, at)|, UsesFor(log[..k], calls[k], redis);
      && (log[k] == Hit(user, session, at) <==>
            && (limits.perMinute <= 0 || recent < limits.perMinute)
            && (limits.perSession <= 0 || uses < limits.perSession))
      && (log[k] == Refused(UserMinute) <==> limits.perMinute > 0 && recent == limits.perMinute)
      && (log[k] == Refused(SessionTotal) ==> limits.perSession > 0 && uses == limits.perSession)
      && uses == (if redis then |LivePlaces(log[..k], session, at)| else |UsePlaces(log[..k], session)|)
      && (log[k].Hit? || log[k] == Refused(UserMinute) || log[k] == Refused(SessionTotal))
  {
    var Ask(user, session, at) := calls[k];
    RunPrefix(limits, calls, redis, k);
    var before := Run(limits, calls[..k], redis);
    RecentCounts(before, user, at);
    UsesCount(before, session);
    LiveUsesCount(before, session, at);
    if limits.perMinute > 0 { RecentBound(limits, calls[..k], redis, user, at); }
    if limits.perSession > 0 {
      if redis { StreakBound(limits, calls[..k], session); } else { SessionBound(limits, calls[..k], session); }
    }
  }

  lemma {:induction false} StreakWithinUses(log: seq<Event>, session: string, now: real)
    ensures StreakOf(log, session).NoStreak? ==> Uses(log, session) == 0
    ensures LiveUses(StreakOf(log, session), now) <= Uses(log, session)
    ensures StreakOf(log, session).Streak? ==> StreakOf(log, session).uses <= Uses(log, session)
  {
    if log != [] {
      var e := log[|log| - 1];
      StreakWithinUses(log[..|log| - 1], session, if e.Hit? then e.at else now);
    }
  }

  /** The session total has been reached, counting from before a lapse of the key, and nothing else
      stops the call. */
  predicate Lapses(limits: Limits, log: seq<Event>, call: Call) {
    && call.Ask?
    && !(limits.perMinute > 0 && Recent(log, call.user, call.at) >= limits.perMinute)
    && LiveUses(StreakOf(log, call.session), call.at) < limits.perSession <= Uses(log, call.session)
  }

  predicate LapsesAt(limits: Limits, calls: seq<Call>, k: nat)
    requires k < |calls|
  {
    Lapses(limits, Run(limits, calls[..k], false), calls[k])
  }

  predicate NeverLapses(limits: Limits, calls: seq<Call>) {
    forall k :: 0 <= k < |calls| ==> !LapsesAt(limits, calls, k)
  }

  lemma SameNext(limits: Limits, log: seq<Event>, call: Call)
    ensures Next(limits, log, call, true) == Next(limits, log, call, false) <==> !Lapses(limits, log, call)
  {
    if call.Ask? { StreakWithinUses(log, call.session, call.at); }
  }

  lemma PrefixLapses(limits: Limits, calls: seq<Call>)
    requires calls != []
    ensures NeverLapses(limits, calls) <==>
      NeverLapses(limits, calls[..|calls| - 1]) && !LapsesAt(limits, calls, |calls| - 1)
  {
    var n := |calls| - 1;
    var prefix := calls[..n];
    forall k: nat | k < n ensures LapsesAt(limits, prefix, k) <==> LapsesAt(limits, calls, k) {
      assert prefix[..k] == calls[..k] && prefix[k] == calls[k];
    }
    if NeverLapses(limits, calls) {
      forall k | 0 <= k < n ensures !LapsesAt(limits, prefix, k) { assert !LapsesAt(limits, calls, k); }
    }
  }

  /** The two backends give the same verdict on every call of a run exactly when no call of it finds a
      session total reached only by uses from before a lapse. */
  lemma {:induction false} BackendsAgreeIff(limits: Limits, calls: seq<Call>)
    ensures Run(limits, calls, true) == Run(limits, calls, false) <==> NeverLapses(limits, calls)
    decreases |calls|
  {
    if calls != [] {
      var n := |calls| - 1;
      BackendsAgreeIff(limits, calls[..n]);
      PrefixLapses(limits, calls);
      var r, m := Run(limits, calls[..n], true), Run(limits, calls[..n], false);
      SameNext(limits, m, calls[n]);
      var r', m' := Run(limits, calls, true), Run(limits, calls, false);
      assert r'[..n] == r && m'[..n] == m;
      assert r'[n] == Next(limits, r, calls[n], true) && m'[n] == Next(limits, m, calls[n], false);
    }
  }

  // ------------------------------------------------------ a run in which they differ

  function MinuteMark(i: int): real {
    60.0 * (i as real)
  }

  /** n calls of one session, one minute apart. */
  function Steady(n: nat): (calls: seq<Call>)
    ensures |calls| == n
  {
    if n == 0 then [] else Steady(n - 1) + [Ask("u", "s", MinuteMark(n - 1))]
  }

  ghost predicate NoneRecent(log: seq<Event>, from: real) {
    forall now: real :: now >= from ==> Recent(log, "u", now) == 0
  }

  predicate SteadyLog(log: seq<Event>, n: nat) {
    Uses(log, "s") == n && StreakOf(log, "s") == if n == 0 then NoStreak else Streak(n, MinuteMark(n - 1))
  }

  lemma SteadyStep(limits: Limits, log: seq<Event>, n: nat)
    requires n < limits.perSession && SteadyLog(log, n) && NoneRecent(log, MinuteMark(n))
    ensures Next(limits, log, Ask("u", "s", MinuteMark(n)), false) == Hit("u", "s", MinuteMark(n))
    ensures SteadyLog(log + [Hit("u", "s", MinuteMark(n))], n + 1)
    ensures NoneRecent(log + [Hit("u", "s", MinuteMark(n))], MinuteMark(n + 1))
  {
    var e := Hit("u", "s", MinuteMark(n));
    Appended(log, e);
    assert Recent(log, "u", MinuteMark(n)) == 0;
    assert MinuteMark(n + 1) == MinuteMark(n) + WINDOW;
    forall now: real | now >= MinuteMark(n + 1) ensures Recent(log + [e], "u", now) == 0 {
      assert Recent(log, "u", now) == 0;
    }
  }

  lemma {:induction false} SteadyRun(limits: Limits, n: nat)
    requires n <= limits.perSession
    ensures var log := Run(limits, Steady(n), false); SteadyLog(log, n) && NoneRecent(log, MinuteMark(n))
  {
    if n > 0 {
      SteadyRun(limits, n - 1);
      SteadyStep(limits, Run(limits, Steady(n - 1), false), n - 1);
      assert Steady(n)[..n - 1] == Steady(n - 1);
    }
  }

  /** For every session total: that many calls a minute apart, and one more after the key has lapsed, which
      the limiter in memory refuses and the Redis one lets through. */
  lemma LapsingRun(limits: Limits) returns (calls: seq<Call>)
    requires limits.perSession > 0
    ensures Run(limits, calls, true) != Run(limits, calls, false)
  {
    var n := limits.perSession;
    var last := Ask("u", "s", MinuteMark(n - 1) + SESSION_TTL + 1.0);
    calls := Steady(n) + [last];
    SteadyRun(limits, n);
    assert calls[..n] == Steady(n) && calls[n] == last;
    assert MinuteMark(n - 1) + SESSION_TTL + 1.0 >= MinuteMark(n);
    assert Recent(Run(limits, Steady(n), false), "u", last.at) == 0;
    assert LapsesAt(limits, calls, n);
    BackendsAgreeIff(limits, calls);
  }

  // ------------------------------------------------------- runs in which they agree

  /** Call k comes within SESSION_TTL of the last accepted one of its session. */
  predicate PromptAt(limits: Limits, calls: seq<Call>, k: nat)
    requires k < |calls|
  {
    calls[k].Ask? ==> Within(StreakOf(Run(limits, calls[..k], false), calls[k].session), calls[k].at)
  }

  predicate Within(streak: Streak, now: real) {
    streak.Streak? ==> now <= streak.last + SESSION_TTL
  }

  predicate Prompt(limits: Limits, calls: seq<Call>) {
    forall k :: 0 <= k < |calls| ==> PromptAt(limits, calls, k)
  }

  lemma PrefixPrompt(limits: Limits, calls: seq<Call>, n: nat)
    requires Prompt(limits, calls) && n <= |calls|
    ensures Prompt(limits, calls[..n])
  {
    var prefix := calls[..n];
    forall k | 0 <= k < n ensures PromptAt(limits, prefix, k) {
      assert prefix[..k] == calls[..k] && prefix[k] == calls[k];
      assert PromptAt(limits, calls, k);
    }
  }

  predicate Whole(log: seq<Event>, session: string) {
    Uses(log, session) == match StreakOf(log, session) case NoStreak => 0 case Streak(uses, _) => uses
  }

  lemma WholeAfter(limits: Limits, log: seq<Event>, call: Call, session: string)
    requires Whole(log, session) && (call.Ask? ==> Within(StreakOf(log, call.session), call.at))
    ensures Whole(log + [Next(limits, log, call, false)], session)
  {
    Appended(log, Next(limits, log, call, false));
  }

  lemma {:induction false} PromptStreaks(limits: Limits, calls: seq<Call>, session: string)
    requires Prompt(limits, calls)
    ensures Whole(Run(limits, calls, false), session)
    decreases |calls|
  {
    if calls != [] {
      var n := |calls| - 1;
      PrefixPrompt(limits, calls, n);
      PromptStreaks(limits, calls[..n], session);
      assert PromptAt(limits, calls, n);
      WholeAfter(limits, Run(limits, calls[..n], false), calls[n], session);
    }
  }

  /** While no session goes six hours without an accepted call, key expiry changes no verdict. */
  lemma PromptBackendsAgree(limits: Limits, calls: seq<Call>)
    requires Prompt(limits, calls)
    ensures Run(limits, calls, true) == Run(limits, calls, false)
  {
    forall k | 0 <= k < |calls| ensures !LapsesAt(limits, calls, k) {
      if calls[k].Ask? {
        assert PromptAt(limits, calls, k);
        PrefixPrompt(limits, calls, k);
        PromptStreaks(limits, calls[..k], calls[k].session);
      }
    }
    BackendsAgreeIff(limits, calls);
  }
}
