/** The last-wins registry of live consoles (apps/api/internal/api/handlers/console_registry.go), against the
    history of acquires and releases in the order in which they took the mutex. */
module ConsoleRegistries {

  /** Close code of a normal closure, section 7.4.1 of RFC 6455. */
  const NORMAL_CLOSURE := 1000

  datatype Event = Acquire(session: string, conn: nat) | Release(session: string, conn: nat)

  datatype Frame = Close(conn: nat, code: nat)

  // ------------------------------------------------ what the history says

  /** The connection acquired at i, is the latest to have done so, and has not released since. */
  predicate HoldsFrom(h: seq<Event>, session: string, conn: nat, i: nat) {
    && i < |h| && h[i] == Acquire(session, conn)
    && (forall j :: i < j < |h| && h[j].Acquire? ==> h[j].session != session)
    && (forall j :: i < j < |h| ==> h[j] != Release(session, conn))
  }

  predicate Holds(h: seq<Event>, session: string, conn: nat) {
    exists i :: 0 <= i < |h| && HoldsFrom(h, session, conn, i)
  }

  /** A later acquire at j found the connection still holding its session. */
  predicate DisplacedAt(h: seq<Event>, conn: nat, j: nat) {
    j < |h| && h[j].Acquire? && Holds(h[..j], h[j].session, conn)
  }

  predicate Displaced(h: seq<Event>, conn: nat) {
    exists j :: 0 <= j < |h| && DisplacedAt(h, conn, j)
  }

  predicate Acquired(h: seq<Event>, conn: nat) {
    exists i :: 0 <= i < |h| && h[i].Acquire? && h[i].conn == conn
  }

  predicate Distinct(h: seq<Event>) {
    forall i, j :: 0 <= i < j < |h| && h[i].Acquire? && h[j].Acquire? ==> h[i].conn != h[j].conn
  }

  // ----------------------------------------------------- one more event

  lemma HoldsAfter(h: seq<Event>, e: Event, session: string, conn: nat)
    ensures Holds(h + [e], session, conn) <==>
      || e == Acquire(session, conn)
      || (Holds(h, session, conn) && e != Release(session, conn) && !(e.Acquire? && e.session == session))
  {
    var h' := h + [e];
    if Holds(h', session, conn) && e != Acquire(session, conn) {
      var i :| 0 <= i < |h'| && HoldsFrom(h', session, conn, i);
      assert HoldsFrom(h, session, conn, i) by {
        assert forall j :: 0 <= j < |h| ==> h[j] == h'[j];
      }
      assert h'[|h|] == e;
    }
    if e == Acquire(session, conn) {
      assert HoldsFrom(h', session, conn, |h|);
    } else if Holds(h, session, conn) && e != Release(session, conn) && !(e.Acquire? && e.session == session) {
      var i :| 0 <= i < |h| && HoldsFrom(h, session, conn, i);
      assert HoldsFrom(h', session, conn, i);
    }
  }

  lemma DisplacedAfter(h: seq<Event>, e: Event, conn: nat)
    ensures Displaced(h + [e], conn) <==> Displaced(h, conn) || (e.Acquire? && Holds(h, e.session, conn))
  {
    var h' := h + [e];
    assert h'[..|h|] == h && h'[|h|] == e;
    forall j: nat | j < |h| ensures DisplacedAt(h', conn, j) <==> DisplacedAt(h, conn, j) {
      assert h'[..j] == h[..j] && h'[j] == h[j];
    }
    if Displaced(h, conn) {
      var j :| 0 <= j < |h| && DisplacedAt(h, conn, j);
      assert DisplacedAt(h', conn, j);
    }
    if e.Acquire? && Holds(h, e.session, conn) { assert DisplacedAt(h', conn, |h|); }
    if Displaced(h', conn) {
      var j :| 0 <= j < |h'| && DisplacedAt(h', conn, j);
      assert j < |h| ==> DisplacedAt(h, conn, j);
    }
  }

  /** Whoever still holds a session has not been displaced. */
  lemma HolderNotDisplaced(h: seq<Event>, session: string, conn: nat)
    requires Distinct(h) && Holds(h, session, conn)
    ensures !Displaced(h, conn)
  {
    var i :| 0 <= i < |h| && HoldsFrom(h, session, conn, i);
    forall j: nat | j < |h| ensures !DisplacedAt(h, conn, j) {
      HolderNotDisplacedAt(h, session, conn, i, j);
    }
  }

  lemma HolderNotDisplacedAt(h: seq<Event>, session: string, conn: nat, i: nat, j: nat)
    requires Distinct(h) && HoldsFrom(h, session, conn, i)
    ensures !DisplacedAt(h, conn, j)
  {
  }

  // -------------------------------------------------------------- the registry

  function CloseFrames(frames: seq<Frame>, conn: nat): nat {
    multiset(frames)[Close(conn, NORMAL_CLOSURE)]
  }

  ghost predicate Registered(active: map<string, nat>, h: seq<Event>) {
    forall session, conn :: session in active && active[session] == conn <==> Holds(h, session, conn)
  }

  ghost predicate Notified(frames: seq<Frame>, h: seq<Event>) {
    forall conn :: CloseFrames(frames, conn) == if Displaced(h, conn) then 1 else 0
  }

  class ConsoleRegistry {
    var active: map<string, nat>
    var frames: seq<Frame>
    ghost var history: seq<Event>

    /** The registered console of a session is its latest acquirer exactly while that one has not
        released; every displaced holder got exactly one normal-closure frame, everyone else none. */
    ghost predicate Valid()
      reads this
    {
      AllKept(active, frames, history)
    }

    constructor ()
      ensures Valid() && history == [] && active == map[] && frames == []
    {
      active, frames, history := map[], [], [];
    }

    method Acquire(session: string, conn: nat)
      requires Valid() && !Acquired(history, conn)
      modifies this
      ensures Valid() && history == old(history) + [Event.Acquire(session, conn)]
      ensures active == old(active)[session := conn]
      ensures frames == old(frames) +
        (if session in old(active) then [Close(old(active)[session], NORMAL_CLOSURE)] else [])
    {
      AcquireKeeps(active, frames, history, session, conn);
      if session in active && active[session] != conn {
        frames := frames + [Close(active[session], NORMAL_CLOSURE)];
      }
      active := active[session := conn];
      history := history + [Event.Acquire(session, conn)];
    }

    /** The closure an acquire returned; calling it again, or late, changes nothing. */
    method Release(session: string, conn: nat)
      requires Valid()
      modifies this
      ensures Valid() && history == old(history) + [Event.Release(session, conn)]
      ensures frames == old(frames)
      ensures active == if Holds(old(history), session, conn) then old(active) - {session} else old(active)
    {
      ReleaseKeeps(active, frames, history, session, conn);
      if session in active && active[session] == conn {
        active := active - {session};
      }
      history := history + [Event.Release(session, conn)];
    }
  }

  ghost predicate AllKept(active: map<string, nat>, frames: seq<Frame>, h: seq<Event>) {
    Distinct(h) && Registered(active, h) && Notified(frames, h)
  }

  lemma AcquireKeeps(active: map<string, nat>, frames: seq<Frame>, h: seq<Event>, session: string, conn: nat)
    requires AllKept(active, frames, h) && !Acquired(h, conn)
    ensures session in active ==> active[session] != conn
    ensures AllKept(active[session := conn],
      if session in active then frames + [Close(active[session], NORMAL_CLOSURE)] else frames,
      h + [Acquire(session, conn)])
  {
    var e := Acquire(session, conn);
    var active', h' := active[session := conn], h + [e];
    var frames' := if session in active then frames + [Close(active[session], NORMAL_CLOSURE)] else frames;
    if session in active {
      assert Holds(h, session, active[session]);
      HolderNotDisplaced(h, session, active[session]);
    }
    forall s, c ensures s in active' && active'[s] == c <==> Holds(h', s, c) { HoldsAfter(h, e, s, c); }
    forall c ensures CloseFrames(frames', c) == if Displaced(h', c) then 1 else 0 {
      DisplacedAfter(h, e, c);
      assert CloseFrames(frames, c) == if Displaced(h, c) then 1 else 0;
      assert session in active && active[session] == c <==> Holds(h, session, c);
    }
  }

  lemma ReleaseKeeps(active: map<string, nat>, frames: seq<Frame>, h: seq<Event>, session: string, conn: nat)
    requires AllKept(active, frames, h)
    ensures session in active && active[session] == conn <==> Holds(h, session, conn)
    ensures AllKept(
      if Holds(h, session, conn) then active - {session} else active, frames, h + [Release(session, conn)])
  {
    var e := Release(session, conn);
    var active', h' := if Holds(h, session, conn) then active - {session} else active, h + [e];
    assert session in active && active[session] == conn <==> Holds(h, session, conn);
    forall s, c ensures s in active' && active'[s] == c <==> Holds(h', s, c) {
      HoldsAfter(h, e, s, c);
      assert s in active && active[s] == c <==> Holds(h, s, c);
    }
    forall c ensures CloseFrames(frames, c) == if Displaced(h', c) then 1 else 0 {
      DisplacedAfter(h, e, c);
      assert CloseFrames(frames, c) == if Displaced(h, c) then 1 else 0;
    }
  }
}
