/** Routing between the on-prem pool and the overflow pool (apps/api/internal/session/dispatcher.go), against
    one provider that would hold the sessions of both. Providers fail only with "not found". */
module Dispatchers {

  /** `address` is empty until the machine has one. */
  datatype Session = Session(user: string, failed: bool, address: string)

  datatype Op =
    | Create(id: string, session: Session)
    | Get(id: string)
    | Delete(id: string)
    | FindActiveByUser(user: string)
    | CountActiveSessions
    | VmiAddress(id: string)
    | Reap(due: seq<string>)

  datatype Answer =
    | Done
    | NotFound
    | Got(session: Session)
    | Id(id: string)
    | Number(n: nat)
    | Address(address: string)
    | Reaped(ids: seq<string>)

  predicate NoDuplicates(ids: seq<string>) {
    forall i, j :: 0 <= i < j < |ids| ==> ids[i] != ids[j]
  }

  predicate Owns(m: map<string, Session>, user: string, id: string) {
    id in m && m[id].user == user
  }

  ghost predicate OwnsOne(m: map<string, Session>, user: string) {
    forall a, b :: Owns(m, user, a) && Owns(m, user, b) ==> a == b
  }

  /** What one provider promises: the answers it may give, and the sessions it then holds. */
  ghost predicate Serves(m: map<string, Session>, op: Op, answer: Answer, m': map<string, Session>) {
    match op
    case Create(id, session) => answer == Done && m' == m[id := session]
    case Get(id) => m' == m && answer == if id in m then Got(m[id]) else NotFound
    case Delete(id) => m' == m - {id} && answer == if id in m then Done else NotFound
    case FindActiveByUser(user) =>
      && m' == m && answer.Id?
      && (if answer.id == "" then user == "" || forall id :: !Owns(m, user, id) else Owns(m, user, answer.id))
    case CountActiveSessions => m' == m && answer == Number(|m|)
    case VmiAddress(id) =>
      m' == m && answer == if id in m && m[id].address != "" then Address(m[id].address) else NotFound
    case Reap(due) =>
      && answer.Reaped? && NoDuplicates(answer.ids)
      && (forall id :: id in answer.ids <==> id in due && id in m)
      && (forall id :: id in m' <==> id in m && id !in due)
      && (forall id :: id in m' ==> m'[id] == m[id])
  }

  /** Session ids are never empty. */
  predicate Named(m: map<string, Session>) {
    "" !in m
  }

  class Provider {
    var sessions: map<string, Session>
    const capacity: nat

    constructor (capacity: nat)
      ensures sessions == map[] && this.capacity == capacity
    {
      sessions, this.capacity := map[], capacity;
    }

    method Create(id: string, session: Session) returns (answer: Answer)
      modifies this
      ensures Serves(old(sessions), Op.Create(id, session), answer, sessions)
    {
      sessions := sessions[id := session];
      answer := Done;
    }

    method Get(id: string) returns (answer: Answer)
      ensures Serves(sessions, Op.Get(id), answer, sessions)
    {
      answer := if id in sessions then Got(sessions[id]) else NotFound;
    }

    method Delete(id: string) returns (answer: Answer)
      modifies this
      ensures Serves(old(sessions), Op.Delete(id), answer, sessions)
    {
      answer := if id in sessions then Done else NotFound;
      sessions := sessions - {id};
    }

    method FindActiveByUser(user: string) returns (answer: Answer)
      requires Named(sessions)
      ensures Serves(sessions, Op.FindActiveByUser(user), answer, sessions)
    {
      if user == "" { return Id(""); }
      if exists id :: id in sessions && sessions[id].user == user {
        var id :| id in sessions && sessions[id].user == user;
        return Id(id);
      }
      return Id("");
    }

    method CountActiveSessions() returns (answer: Answer)
      ensures Serves(sessions, Op.CountActiveSessions, answer, sessions)
    {
      answer := Number(|sessions|);
    }

    method VmiAddress(id: string) returns (answer: Answer)
      ensures Serves(sessions, Op.VmiAddress(id), answer, sessions)
    {
      answer := if id in sessions && sessions[id].address != "" then Address(sessions[id].address) else NotFound;
    }

    method Reap(due: seq<string>) returns (answer: Answer)
      modifies this
      ensures Serves(old(sessions), Op.Reap(due), answer, sessions)
    {
      var ids: seq<string> := [];
      for i := 0 to |due|
        invariant NoDuplicates(ids)
        invariant forall id :: id in ids <==> id in due[..i] && id in old(sessions)
        invariant forall id :: id in sessions <==> id in old(sessions) && id !in due[..i]
        invariant forall id :: id in sessions ==> sessions[id] == old(sessions)[id]
      {
        if due[i] in sessions {
          ids := ids + [due[i]];
          sessions := sessions - {due[i]};
        }
        assert due[..i + 1] == due[..i] + [due[i]];
      }
      assert due[..|due|] == due;
      answer := Reaped(ids);
    }
  }

  // ------------------------------------------------------------ two maps as one

  predicate Apart(a: map<string, Session>, b: map<string, Session>) {
    a.Keys !! b.Keys
  }

  lemma UnionSize(a: map<string, Session>, b: map<string, Session>)
    requires Apart(a, b)
    ensures |a + b| == |a| + |b|
  {
    assert (a + b).Keys == a.Keys + b.Keys;
    assert |a.Keys + b.Keys| == |a.Keys| + |b.Keys|;
  }

  lemma UnionUpdates(a: map<string, Session>, b: map<string, Session>, id: string, session: Session)
    requires Apart(a, b)
    ensures id !in b ==> a[id := session] + b == (a + b)[id := session]
    ensures a + b[id := session] == (a + b)[id := session]
    ensures id !in b ==> (a - {id}) + b == (a + b) - {id}
    ensures id !in a ==> a + (b - {id}) == (a + b) - {id}
    ensures id !in a ==> a - {id} == a
  {
  }

  lemma UnionOwns(a: map<string, Session>, b: map<string, Session>, user: string)
    requires Apart(a, b)
    ensures forall id :: Owns(a + b, user, id) <==> Owns(a, user, id) || Owns(b, user, id)
  {
  }

  lemma UnionReaps(
      a: map<string, Session>, b: map<string, Session>, a': map<string, Session>, b': map<string, Session>,
      due: seq<string>, x: Answer, y: Answer)
    requires Apart(a, b) && Serves(a, Reap(due), x, a') && Serves(b, Reap(due), y, b')
    ensures Apart(a', b') && Serves(a + b, Reap(due), Reaped(x.ids + y.ids), a' + b')
  {
    var ids := x.ids + y.ids;
    forall i, j | 0 <= i < j < |ids| ensures ids[i] != ids[j] {
      if i < |x.ids| <= j {
        assert ids[i] in x.ids && ids[j] in y.ids;
      }
    }
  }

  // -------------------------------------------------------------- the dispatcher

  class Dispatcher {
    const onprem: Provider
    const overflow: Provider?
    const onpremCap: nat

    constructor (onprem: Provider, overflow: Provider?, onpremCap: nat)
      ensures this.onprem == onprem && this.overflow == overflow && this.onpremCap == onpremCap
    {
      this.onprem, this.overflow, this.onpremCap := onprem, overflow, onpremCap;
    }

    function Beyond(): map<string, Session>
      reads overflow
    {
      if overflow == null then map[] else overflow.sessions
    }

    predicate Valid()
      reads onprem, overflow
    {
      overflow != onprem && Apart(onprem.sessions, Beyond()) && Named(onprem.sessions) && Named(Beyond())
    }

    /** The sessions of both pools. */
    function Sessions(): map<string, Session>
      reads onprem, overflow
    {
      onprem.sessions + Beyond()
    }

    /** A fresh id goes on-prem while that pool is below its cap or there is no other. */
    method Create(id: string, session: Session) returns (answer: Answer)
      requires Valid() && id != "" && id !in Sessions()
      modifies onprem, overflow
      ensures Valid() && Serves(old(Sessions()), Op.Create(id, session), answer, Sessions())
      ensures Sessions() == old(Sessions())[id := session] && answer == Done
      ensures id in onprem.sessions <==> overflow == null || |old(onprem.sessions)| < onpremCap
    {
      UnionUpdates(onprem.sessions, Beyond(), id, session);
      if overflow == null {
        answer := onprem.Create(id, session);
        return;
      }
      var n := onprem.CountActiveSessions();
      if n.n < onpremCap {
        answer := onprem.Create(id, session);
      } else {
        answer := overflow.Create(id, session);
      }
    }

    method Get(id: string) returns (answer: Answer)
      requires Valid()
      ensures Serves(Sessions(), Op.Get(id), answer, Sessions())
      ensures answer == if id in Sessions() then Got(Sessions()[id]) else NotFound
    {
      answer := onprem.Get(id);
      if overflow != null && answer == NotFound { answer := overflow.Get(id); }
    }

    method Delete(id: string) returns (answer: Answer)
      requires Valid()
      modifies onprem, overflow
      ensures Valid() && Serves(old(Sessions()), Op.Delete(id), answer, Sessions())
      ensures Sessions() == old(Sessions()) - {id} && answer == if id in old(Sessions()) then Done else NotFound
    {
      UnionUpdates(onprem.sessions, Beyond(), id, Session("", false, ""));
      answer := onprem.Delete(id);
      if overflow != null && answer == NotFound { answer := overflow.Delete(id); }
    }

    method FindActiveByUser(user: string) returns (answer: Answer)
      requires Valid()
      ensures Serves(Sessions(), Op.FindActiveByUser(user), answer, Sessions())
      ensures answer.Id? && (answer.id != "" ==> answer.id in Sessions() && Sessions()[answer.id].user == user)
      ensures user != "" && answer == Id("") ==> forall id :: id in Sessions() ==> Sessions()[id].user != user
    {
      UnionOwns(onprem.sessions, Beyond(), user);
      answer := onprem.FindActiveByUser(user);
      if answer.id == "" && overflow != null { answer := overflow.FindActiveByUser(user); }
      assert forall id :: id in Sessions() ==> (Owns(Sessions(), user, id) <==> Sessions()[id].user == user);
    }

    method CountActiveSessions() returns (answer: Answer)
      requires Valid()
      ensures Serves(Sessions(), Op.CountActiveSessions, answer, Sessions())
      ensures answer == Number(|Sessions()|)
    {
      UnionSize(onprem.sessions, Beyond());
      answer := onprem.CountActiveSessions();
      if overflow != null {
        var more := overflow.CountActiveSessions();
        answer := Number(answer.n + more.n);
      }
    }

    method VmiAddress(id: string) returns (answer: Answer)
      requires Valid()
      ensures Serves(Sessions(), Op.VmiAddress(id), answer, Sessions())
      ensures answer ==
        if id in Sessions() && Sessions()[id].address != "" then Address(Sessions()[id].address) else NotFound
    {
      answer := onprem.VmiAddress(id);
      if overflow != null && answer == NotFound { answer := overflow.VmiAddress(id); }
    }

    method Reap(due: seq<string>) returns (answer: Answer)
      requires Valid()
      modifies onprem, overflow
      ensures Valid() && Serves(old(Sessions()), Op.Reap(due), answer, Sessions())
      ensures Sessions() == old(Sessions()) - (set id | id in due)
      ensures answer.Reaped? && NoDuplicates(answer.ids)
      ensures forall id :: id in answer.ids <==> id in due && id in old(Sessions())
    {
      answer := onprem.Reap(due);
      if overflow == null {
        assert onprem.sessions + map[] == onprem.sessions && old(onprem.sessions) + map[] == old(onprem.sessions);
        return;
      }
      var more := overflow.Reap(due);
      UnionReaps(old(onprem.sessions), old(overflow.sessions), onprem.sessions, overflow.sessions, due, answer, more);
      answer := Reaped(answer.ids + more.ids);
    }

    method Perform(op: Op) returns (answer: Answer)
      requires Valid() && (op.Create? ==> op.id != "" && op.id !in Sessions())
      modifies onprem, overflow
      ensures Valid() && Serves(old(Sessions()), op, answer, Sessions())
    {
      match op
      case Create(id, session) => answer := Create(id, session);
      case Get(id) => answer := Get(id);
      case Delete(id) => answer := Delete(id);
      case FindActiveByUser(user) => answer := FindActiveByUser(user);
      case CountActiveSessions => answer := CountActiveSessions();
      case VmiAddress(id) => answer := VmiAddress(id);
      case Reap(due) => answer := Reap(due);
    }

    /** Every sequence of calls gives answers that a single provider with the sessions of both could
        give, and ends where that one would. */
    method Drive(ops: seq<Op>) returns (answers: seq<Answer>)
      requires Valid() && FreshIds(ops, Sessions().Keys)
      modifies onprem, overflow
      ensures Valid() && Behaves(old(Sessions()), ops, answers, Sessions())
    {
      answers := [];
      ghost var start := Sessions();
      for i := 0 to |ops|
        invariant Valid() && |answers| == i
        invariant Behaves(start, ops[..i], answers, Sessions())
        invariant OnlyFrom(Sessions(), start.Keys, ops[..i])
      {
        ghost var mid := Sessions();
        FreshHere(mid, start.Keys, ops, i);
        var answer := Perform(ops[i]);
        BehavesNext(start, ops[..i], answers, mid, ops[i], answer, Sessions());
        OnlyFromNext(mid, start.Keys, ops[..i], ops[i], answer, Sessions());
        answers := answers + [answer];
        assert ops[..i + 1] == ops[..i] + [ops[i]];
      }
      assert ops[..|ops|] == ops;
    }
  }

  predicate Created(ops: seq<Op>, id: string) {
    exists i :: 0 <= i < |ops| && ops[i].Create? && ops[i].id == id
  }

  /** Every creation uses an id that was not there at first and that no other creation uses. */
  predicate FreshIds(ops: seq<Op>, used: set<string>) {
    && (forall i :: 0 <= i < |ops| && ops[i].Create? ==> ops[i].id != "" && ops[i].id !in used)
    && (forall i, j :: 0 <= i < j < |ops| && ops[i].Create? && ops[j].Create? ==> ops[i].id != ops[j].id)
  }

  /** Every session was there at first or was created since. */
  ghost predicate OnlyFrom(m: map<string, Session>, used: set<string>, ops: seq<Op>) {
    forall id :: id in m ==> id in used || Created(ops, id)
  }

  lemma FreshHere(m: map<string, Session>, used: set<string>, ops: seq<Op>, i: nat)
    requires i < |ops| && FreshIds(ops, used) && OnlyFrom(m, used, ops[..i])
    ensures ops[i].Create? ==> ops[i].id != "" && ops[i].id !in m
  {
    assert forall j :: 0 <= j < i ==> ops[..i][j] == ops[j];
  }

  lemma OnlyFromNext(
      m: map<string, Session>, used: set<string>, ops: seq<Op>, op: Op, answer: Answer, m': map<string, Session>)
    requires OnlyFrom(m, used, ops) && Serves(m, op, answer, m')
    ensures OnlyFrom(m', used, ops + [op])
  {
    var ops' := ops + [op];
    forall id | id in m' ensures id in used || Created(ops', id) {
      if id in m {
        if id !in used {
          var j :| 0 <= j < |ops| && ops[j].Create? && ops[j].id == id;
          assert ops'[j] == ops[j];
        }
      } else {
        assert ops'[|ops|] == op;
      }
    }
  }

  /** A whole run of one provider. */
  ghost predicate Behaves(m: map<string, Session>, ops: seq<Op>, answers: seq<Answer>, m': map<string, Session>) {
    if ops == [] then answers == [] && m' == m
    else
      var n := |ops| - 1;
      |answers| == n + 1 && exists mid :: Behaves(m, ops[..n], answers[..n], mid) && Serves(mid, ops[n], answers[n], m')
  }

  lemma BehavesNext(
      m: map<string, Session>, ops: seq<Op>, answers: seq<Answer>, mid: map<string, Session>, op: Op,
      answer: Answer, m': map<string, Session>)
    requires |answers| == |ops| && Behaves(m, ops, answers, mid) && Serves(mid, op, answer, m')
    ensures Behaves(m, ops + [op], answers + [answer], m')
  {
    assert (ops + [op])[..|ops|] == ops && (answers + [answer])[..|ops|] == answers;
  }

  // ------------------------------------------------- before a session is created

  /** prepareSessionCreation with nothing in between: an existing session stays and is reported, unless it
      failed; a failed one is removed and reported as cleaned; afterwards the user owns a session exactly
      when one is reported as existing, if they owned at most one. */
  method PrepareSessionCreation(d: Dispatcher, user: string) returns (existing: string, cleaned: string)
    requires d.Valid()
    modifies d.onprem, d.overflow
    ensures d.Valid() && (existing == "" || cleaned == "")
    ensures existing != "" ==> Owns(old(d.Sessions()), user, existing) && !old(d.Sessions())[existing].failed
    ensures cleaned != "" ==> Owns(old(d.Sessions()), user, cleaned) && old(d.Sessions())[cleaned].failed
    ensures d.Sessions() == old(d.Sessions()) - (if cleaned == "" then {} else {cleaned})
    ensures user != "" && OwnsOne(old(d.Sessions()), user) ==>
      (existing == "" <==> forall id :: !Owns(d.Sessions(), user, id))
  {
    var found := d.FindActiveByUser(user);
    existing, cleaned := found.id, "";
    ghost var before := d.Sessions();
    assert before - {} == before;
    if existing == "" { return; }
    var got := d.Get(existing);
    if got.session.failed {
      var gone := d.Delete(existing);
      existing, cleaned := "", existing;
      assert forall id :: Owns(d.Sessions(), user, id) <==> Owns(before, user, id) && id != cleaned;
    } else {
      assert Owns(d.Sessions(), user, existing);
    }
  }
}
