/** Completing a checkout and activating its plan in one transaction that holds the checkout's row lock
    (CreateCheckoutSession and CompleteCheckoutSession in apps/api/internal/store/store.go). */
module Billing {
  import opened Transactions
  import Runs

  datatype Status = Pending | Completed | Expired

  datatype Checkout = Checkout(user: string, plan: string, status: Status, expires: int)

  datatype Subscription = Subscription(plan: string, periodEnd: int)

  /** The two tables. */
  datatype Tables = Tables(checkouts: map<string, Checkout>, subscriptions: map<string, Subscription>)

  datatype Answer = Created | Active(subscription: Subscription) | NotFound | TooLate | InvalidStatus | Failed

  datatype Call =
    | Create(id: string, user: string, plan: string, expires: int)
    | Complete(id: string, user: string, now: int, periodEnd: int, outcome: Outcome)

  /** What one completion decides, before the transaction's outcome. */
  function Decide(t: Tables, id: string, user: string, now: int, periodEnd: int): (Tables, Answer) {
    if id !in t.checkouts || t.checkouts[id].user != user then (t, NotFound)
    else
      var c := t.checkouts[id];
      match c.status
      case Expired => (t, InvalidStatus)
      case Completed => (t, if user in t.subscriptions then Active(t.subscriptions[user]) else InvalidStatus)
      case Pending =>
        if c.expires < now then (t.(checkouts := t.checkouts[id := c.(status := Expired)]), TooLate)
        else
          var row := Subscription(c.plan, periodEnd);
          (Tables(t.checkouts[id := c.(status := Completed)], t.subscriptions[user := row]), Active(row))
  }

  /** Only an answer that needs the commit is lost with it; the early errors need none. */
  function Settle(t: Tables, decided: (Tables, Answer), outcome: Outcome): (Tables, Answer) {
    if decided.1 == NotFound || decided.1 == InvalidStatus then (t, decided.1)
    else
      match outcome
      case Commits => decided
      case RollsBack => (t, Failed)
      case CommitsUnanswered => (decided.0, Failed)
  }

  function Exec(t: Tables, call: Call): (Tables, Answer) {
    match call
    case Create(id, user, plan, expires) =>
      if id in t.checkouts then (t, Failed)
      else (t.(checkouts := t.checkouts[id := Checkout(user, plan, Pending, expires)]), Created)
    case Complete(id, user, now, periodEnd, outcome) => Settle(t, Decide(t, id, user, now, periodEnd), outcome)
  }

  predicate Owned(t: Tables, id: string, user: string) {
    id in t.checkouts && t.checkouts[id].user == user
  }

  class BillingStore {
    var checkouts: map<string, Checkout>
    var subscriptions: map<string, Subscription>

    constructor ()
      ensures Rows() == EMPTY
    {
      checkouts, subscriptions := map[], map[];
    }

    function Rows(): Tables
      reads this
    {
      Tables(checkouts, subscriptions)
    }

    method CreateCheckoutSession(id: string, user: string, plan: string, expires: int) returns (answer: Answer)
      modifies this
      ensures (Rows(), answer) == Exec(old(Rows()), Create(id, user, plan, expires))
      ensures id in old(checkouts) ==> answer == Failed && unchanged(this)
      ensures id !in old(checkouts) ==>
        && answer == Created && subscriptions == old(subscriptions)
        && checkouts == old(checkouts)[id := Checkout(user, plan, Pending, expires)]
    {
      if id in checkouts { return Failed; }
      checkouts := checkouts[id := Checkout(user, plan, Pending, expires)];
      return Created;
    }

    method CompleteCheckoutSession(
        id: string, user: string, now: int, periodEnd: int, outcome: Outcome) returns (answer: Answer)
      modifies this
      ensures (Rows(), answer) == Exec(old(Rows()), Complete(id, user, now, periodEnd, outcome))
      ensures !Owned(old(Rows()), id, user) ==> answer == NotFound && unchanged(this)
      ensures Owned(old(Rows()), id, user) && old(checkouts)[id].status == Expired ==>
        answer == InvalidStatus && unchanged(this)
      ensures Owned(old(Rows()), id, user) && old(checkouts)[id].status == Completed ==>
        unchanged(this) && answer ==
          if user !in old(subscriptions) then InvalidStatus
          else if outcome == Commits then Active(old(subscriptions)[user]) else Failed
      ensures Owned(old(Rows()), id, user) && old(checkouts)[id].status == Pending ==>
        var c := old(checkouts)[id];
        && (outcome == RollsBack ==> unchanged(this))
        && (outcome != RollsBack && now <= c.expires ==>
              && checkouts == old(checkouts)[id := c.(status := Completed)]
              && subscriptions == old(subscriptions)[user := Subscription(c.plan, periodEnd)])
        && (outcome != RollsBack && c.expires < now ==>
              checkouts == old(checkouts)[id := c.(status := Expired)] && subscriptions == old(subscriptions))
        && (outcome != Commits ==> answer == Failed)
        && (outcome == Commits ==>
              && (answer == Active(Subscription(c.plan, periodEnd)) <==> now <= c.expires)
              && (answer == TooLate <==> c.expires < now))
    {
      if id !in checkouts || checkouts[id].user != user { return NotFound; }
      var c := checkouts[id];
      if c.status != Pending && c.status != Completed { return InvalidStatus; }
      if c.status == Completed {
        if user !in subscriptions { return InvalidStatus; }
        return if outcome == Commits then Active(subscriptions[user]) else Failed;
      }
      if c.expires < now {
        if outcome != RollsBack { checkouts := checkouts[id := c.(status := Expired)]; }
        return if outcome == Commits then TooLate else Failed;
      }
      if outcome != RollsBack {
        checkouts := checkouts[id := c.(status := Completed)];
        subscriptions := subscriptions[user := Subscription(c.plan, periodEnd)];
      }
      return if outcome == Commits then Active(Subscription(c.plan, periodEnd)) else Failed;
    }
  }

  // ------------------------------------------------------------------ whole runs

  const EMPTY := Tables(map[], map[])

  const MACHINE: (Tables, Call) -> Tables := (t, call) => Exec(t, call).0

  ghost function After(calls: seq<Call>): Tables {
    Runs.After(MACHINE, EMPTY, calls)
  }

  /** A plan taking effect: which checkout, whose, which row it wrote, when it was asked for. */
  datatype Activation = Activation(id: string, user: string, row: Subscription, at: int)

  predicate IsCompleted(t: Tables, id: string) {
    id in t.checkouts && t.checkouts[id].status == Completed
  }

  /** The activations of a run: the calls that made a checkout completed. */
  ghost function Activations(calls: seq<Call>): seq<Activation> {
    if calls == [] then []
    else
      var n := |calls| - 1;
      var before, call, earlier := After(calls[..n]), calls[n], Activations(calls[..n]);
      if Activates(before, call) then
        earlier + [Activation(
          call.id, call.user, Subscription(before.checkouts[call.id].plan, call.periodEnd), call.now)]
      else earlier
  }

  /** The subscription rows that a list of activations leaves. */
  function Written(log: seq<Activation>): map<string, Subscription> {
    if log == [] then map[] else Written(log[..|log| - 1])[log[|log| - 1].user := log[|log| - 1].row]
  }

  predicate Once(log: seq<Activation>) {
    forall i, j :: 0 <= i < j < |log| ==> log[i].id != log[j].id
  }

  ghost predicate Accounted(t: Tables, log: seq<Activation>) {
    && Once(log)
    && t.subscriptions == Written(log)
    && (forall i :: 0 <= i < |log| ==>
          && IsCompleted(t, log[i].id) && t.checkouts[log[i].id].user == log[i].user
          && t.checkouts[log[i].id].plan == log[i].row.plan && log[i].at <= t.checkouts[log[i].id].expires
          && log[i].user in t.subscriptions)
    && (forall id :: IsCompleted(t, id) ==> exists i :: 0 <= i < |log| && log[i].id == id)
  }

  /** A checkout keeps its user, plan and expiry, and its status only moves from pending to a final one. */
  predicate Forward(t: Tables, t': Tables) {
    forall id :: id in t.checkouts ==>
      && id in t'.checkouts
      && t'.checkouts[id].user == t.checkouts[id].user && t'.checkouts[id].plan == t.checkouts[id].plan
      && t'.checkouts[id].expires == t.checkouts[id].expires
      && (t.checkouts[id].status != Pending ==> t'.checkouts[id].status == t.checkouts[id].status)
  }

  /** The call makes its checkout completed. */
  predicate Activates(t: Tables, call: Call) {
    call.Complete? && !IsCompleted(t, call.id) && IsCompleted(Exec(t, call).0, call.id)
  }

  lemma StepEffect(t: Tables, call: Call)
    ensures var t' := Exec(t, call).0;
      if Activates(t, call) then
        && call.id in t.checkouts && t.checkouts[call.id].status == Pending && t.checkouts[call.id].user == call.user
        && call.now <= t.checkouts[call.id].expires
        && t' == Tables(
          t.checkouts[call.id := t.checkouts[call.id].(status := Completed)],
          t.subscriptions[call.user := Subscription(t.checkouts[call.id].plan, call.periodEnd)])
      else t'.subscriptions == t.subscriptions && forall id :: IsCompleted(t', id) ==> IsCompleted(t, id)
  {
  }

  lemma StatusForward(t: Tables, id: string, status: Status)
    requires id in t.checkouts && t.checkouts[id].status == Pending
    ensures Forward(t, t.(checkouts := t.checkouts[id := t.checkouts[id].(status := status)]))
  {
  }

  lemma DecideForward(t: Tables, id: string, user: string, now: int, periodEnd: int)
    ensures Forward(t, Decide(t, id, user, now, periodEnd).0)
  {
    if id in t.checkouts && t.checkouts[id].status == Pending {
      StatusForward(t, id, Expired);
      StatusForward(t, id, Completed);
    }
  }

  lemma StepForward(t: Tables, call: Call)
    ensures Forward(t, Exec(t, call).0)
  {
    if call.Complete? { DecideForward(t, call.id, call.user, call.now, call.periodEnd); }
  }

  lemma {:induction false} StatusOnlyForward(calls: seq<Call>, n: nat)
    requires n <= |calls|
    ensures Forward(After(calls[..n]), After(calls))
    decreases |calls|
  {
    if n < |calls| {
      var init := calls[..|calls| - 1];
      assert init[..n] == calls[..n];
      StatusOnlyForward(init, n);
      StepForward(After(init), calls[|calls| - 1]);
    } else {
      assert calls[..n] == calls;
    }
  }

  lemma AccountedNext(t: Tables, log: seq<Activation>, id: string, periodEnd: int, at: int)
    requires Accounted(t, log) && id in t.checkouts
    requires t.checkouts[id].status == Pending && at <= t.checkouts[id].expires
    ensures var c := t.checkouts[id];
      var row := Subscription(c.plan, periodEnd);
      Accounted(Tables(t.checkouts[id := c.(status := Completed)], t.subscriptions[c.user := row]),
          log + [Activation(id, c.user, row, at)])
  {
    var c := t.checkouts[id];
    var row := Subscription(c.plan, periodEnd);
    var t' := Tables(t.checkouts[id := c.(status := Completed)], t.subscriptions[c.user := row]);
    var log' := log + [Activation(id, c.user, row, at)];
    assert log'[..|log|] == log;
    forall x | IsCompleted(t', x) ensures exists i :: 0 <= i < |log'| && log'[i].id == x {
      if x == id {
        assert log'[|log|].id == id;
      } else {
        assert IsCompleted(t, x);
        var i :| 0 <= i < |log| && log[i].id == x;
        assert log'[i].id == x;
      }
    }
  }

  lemma AccountedSame(t: Tables, log: seq<Activation>, t': Tables)
    requires Accounted(t, log) && t'.subscriptions == t.subscriptions && Forward(t, t')
    requires forall id :: IsCompleted(t', id) ==> IsCompleted(t, id)
    ensures Accounted(t', log)
  {
  }

  /** Over every run: each checkout activates at most once, exactly the completed ones have, each for its own
      plan and no later than it expired, and each user's subscription row is the one the user's last
      activation wrote. */
  lemma {:induction false} ActivatesOnce(calls: seq<Call>)
    ensures Accounted(After(calls), Activations(calls))
    decreases |calls|
  {
    if calls != [] {
      var n := |calls| - 1;
      var t, call, log := After(calls[..n]), calls[n], Activations(calls[..n]);
      var t' := Exec(t, call).0;
      ActivatesOnce(calls[..n]);
      StepForward(t, call);
      StepEffect(t, call);
      if Activates(t, call) {
        AccountedNext(t, log, call.id, call.periodEnd, call.now);
      } else {
        AccountedSame(t, log, t');
      }
    }
  }

  /** Completing an owned checkout is refused as invalid exactly when it expired earlier: a completed one
      always finds its subscription row. */
  lemma InvalidOnlyIfExpired(calls: seq<Call>, id: string, user: string, now: int, periodEnd: int, outcome: Outcome)
    ensures var t := After(calls);
      Exec(t, Complete(id, user, now, periodEnd, outcome)).1 == InvalidStatus <==>
      id in t.checkouts && t.checkouts[id].user == user && t.checkouts[id].status == Expired
  {
    var t, log := After(calls), Activations(calls);
    ActivatesOnce(calls);
    if IsCompleted(t, id) {
      var i :| 0 <= i < |log| && log[i].id == id;
      assert IsCompleted(t, log[i].id);
    }
  }

  // ------------------------------------------------- what decides a checkout

  /** A completion by the owner whose transaction took effect. */
  predicate Asks(call: Call, id: string, user: string) {
    call.Complete? && call.id == id && call.user == user && call.outcome != RollsBack
  }

  /** The first such call after call c. */
  predicate FirstAsk(calls: seq<Call>, c: int, id: string, user: string, j: int) {
    && 0 <= c < j < |calls| && Asks(calls[j], id, user)
    && (forall l :: c < l < j ==> !Asks(calls[l], id, user))
  }

  /** Call c created the checkout, and the first ask after it, if there was one, decided its status: completed
      if it came in time, expired if it came late. */
  ghost predicate DecidedSince(calls: seq<Call>, c: int, id: string, row: Checkout) {
    && 0 <= c < |calls| && calls[c] == Create(id, row.user, row.plan, row.expires)
    && match row.status
       case Pending => forall j :: c < j < |calls| ==> !Asks(calls[j], id, row.user)
       case Completed => exists j :: FirstAsk(calls, c, id, row.user, j) && calls[j].now <= row.expires
       case Expired => exists j :: FirstAsk(calls, c, id, row.user, j) && row.expires < calls[j].now
  }

  lemma DecidedLater(calls: seq<Call>, c: int, id: string, row: Checkout, call: Call)
    requires DecidedSince(calls, c, id, row)
    requires row.status != Pending || !Asks(call, id, row.user)
    ensures DecidedSince(calls + [call], c, id, row)
  {
    var calls' := calls + [call];
    assert forall j :: 0 <= j < |calls| ==> calls'[j] == calls[j];
    if row.status != Pending {
      var j :| FirstAsk(calls, c, id, row.user, j) && (calls[j].now <= row.expires <==> row.status == Completed);
      assert FirstAsk(calls', c, id, row.user, j) && calls'[j] == calls[j];
    }
  }

  lemma DecidedNow(calls: seq<Call>, c: int, id: string, row: Checkout, call: Call)
    requires DecidedSince(calls, c, id, row) && row.status == Pending && Asks(call, id, row.user)
    ensures DecidedSince(calls + [call], c, id, row.(status := if call.now <= row.expires then Completed else Expired))
  {
    var calls' := calls + [call];
    assert forall j :: 0 <= j < |calls| ==> calls'[j] == calls[j];
    assert FirstAsk(calls', c, id, row.user, |calls|) && calls'[|calls|] == call;
  }

  /** What a call does to one checkout. */
  lemma RowAfter(t: Tables, call: Call, id: string)
    ensures var t' := Exec(t, call).0;
      if id in t.checkouts then
        var row := t.checkouts[id];
        && id in t'.checkouts
        && t'.checkouts[id] ==
           if row.status == Pending && Asks(call, id, row.user)
           then row.(status := if call.now <= row.expires then Completed else Expired) else row
      else id in t'.checkouts ==>
        && call.Create? && call.id == id && t'.checkouts[id] == Checkout(call.user, call.plan, Pending, call.expires)
  {
  }

  /** Over every run: the first ask of its owner that took effect decides a checkout, for good. */
  lemma {:induction false} FirstAskDecides(calls: seq<Call>, id: string)
    requires id in After(calls).checkouts
    ensures exists c :: DecidedSince(calls, c, id, After(calls).checkouts[id])
    decreases |calls|
  {
    var n := |calls| - 1;
    var t, call := After(calls[..n]), calls[n];
    assert calls == calls[..n] + [call];
    RowAfter(t, call, id);
    if id in t.checkouts {
      FirstAskDecides(calls[..n], id);
      var c :| DecidedSince(calls[..n], c, id, t.checkouts[id]);
      if t.checkouts[id].status == Pending && Asks(call, id, t.checkouts[id].user) {
        DecidedNow(calls[..n], c, id, t.checkouts[id], call);
      } else {
        DecidedLater(calls[..n], c, id, t.checkouts[id], call);
      }
    } else {
      assert DecidedSince(calls, n, id, After(calls).checkouts[id]);
    }
  }
}
