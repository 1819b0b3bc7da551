/**
 The job queue over whole runs: jobs are started in the order they were queued, no job is queued
 twice, and the jobs of one promise are exactly the matching reactions of its registrations, in
 registration order.
 */
module PromiseQueue {
  import opened Wrappers
  import opened PromiseMachine

  /** The jobs queued so far in order, those already started first. */
  function Order(c: Core<nat>): seq<nat>
  {
    c.ran + JobIds(c.queue)
  }

  /** The jobs of 'order' that awaited the settling of promise 'p'. */
  function JobsOf(order: seq<nat>, owner: seq<Option<nat>>, p: nat): seq<nat>
  {
    if order == [] then []
    else
      var id := order[|order| - 1];
      JobsOf(order[..|order| - 1], owner, p) + if id < |owner| && owner[id] == Some(p) then [id] else []
  }

  /** For each registration on 'p', the job that a fulfilled (or else a rejected) 'p' must queue. */
  function Expected(rs: seq<Registration>, p: nat, fulfilled: bool): seq<nat>
  {
    if rs == [] then []
    else
      var r := rs[|rs| - 1];
      Expected(rs[..|rs| - 1], p, fulfilled) + if r.p == p then [if fulfilled then r.onFulfilled else r.onRejected] else []
  }

  predicate NoDuplicates(s: seq<nat>)
  {
    forall i, j :: 0 <= i < j < |s| ==> s[i] != s[j]
  }

  /** Job identities are handed out in order, and each remembers the promise it awaits. */
  predicate RegistrationsValid(c: Core<nat>)
  {
    && (forall k :: 0 <= k < |c.registrations| ==>
          var r := c.registrations[k];
          && r.p < |c.promises| && r.onFulfilled < |c.owner| && r.onRejected < |c.owner|
          && c.owner[r.onFulfilled] == Some(r.p) && c.owner[r.onRejected] == Some(r.p))
    && (forall k, l :: 0 <= k < l < |c.registrations| ==>
          && c.registrations[k].onFulfilled < c.registrations[l].onFulfilled
          && c.registrations[k].onRejected < c.registrations[l].onRejected)
    && (forall id :: 0 <= id < |c.owner| && c.owner[id].Some? ==> c.owner[id].value < |c.promises|)
    && (forall k :: 0 <= k < |Order(c)| ==> Order(c)[k] < |c.owner|)
  }

  /** What is queued for promise 'p' is what its registrations call for. */
  predicate PromiseInOrder(c: Core<nat>, p: nat)
    requires p < |c.promises|
  {
    var pr, jobs := c.promises[p], JobsOf(Order(c), c.owner, p);
    if pr.status.Pending? then
      && jobs == []
      && Ids(pr.fulfillReactions) == Expected(c.registrations, p, true)
      && Ids(pr.rejectReactions) == Expected(c.registrations, p, false)
    else
      jobs == Expected(c.registrations, p, pr.status.Fulfilled?)
  }

  predicate InOrder(c: Core<nat>)
  {
    && RegistrationsValid(c)
    && NoDuplicates(Order(c))
    && forall p :: 0 <= p < |c.promises| ==> PromiseInOrder(c, p)
  }

  // ---------- Lemmas on sequences of jobs ----------

  lemma {:induction false} JobsOfConcat(a: seq<nat>, b: seq<nat>, owner: seq<Option<nat>>, p: nat)
    ensures JobsOf(a + b, owner, p) == JobsOf(a, owner, p) + JobsOf(b, owner, p)
  {
    if b == [] {
      assert a + b == a;
    } else {
      assert (a + b)[..|a + b| - 1] == a + b[..|b| - 1];
      JobsOfConcat(a, b[..|b| - 1], owner, p);
    }
  }

  lemma {:induction false} JobsOfOwned(ids: seq<nat>, owner: seq<Option<nat>>, q: nat, p: nat)
    requires forall k :: 0 <= k < |ids| ==> ids[k] < |owner| && owner[ids[k]] == Some(q)
    ensures JobsOf(ids, owner, p) == if p == q then ids else []
  {
    if ids != [] {
      var front, last := ids[..|ids| - 1], ids[|ids| - 1];
      assert ids == front + [last];
      JobsOfOwned(front, owner, q, p);
    }
  }

  lemma {:induction false} JobsOfGrow(order: seq<nat>, owner: seq<Option<nat>>, more: seq<Option<nat>>, p: nat)
    requires forall k :: 0 <= k < |order| ==> order[k] < |owner|
    ensures JobsOf(order, owner + more, p) == JobsOf(order, owner, p)
  {
    if order != [] { JobsOfGrow(order[..|order| - 1], owner, more, p); }
  }

  lemma {:induction false} JobsOfContains(order: seq<nat>, owner: seq<Option<nat>>, p: nat, k: nat)
    requires k < |order| && order[k] < |owner| && owner[order[k]] == Some(p)
    ensures JobsOf(order, owner, p) != []
  {
    if k < |order| - 1 { JobsOfContains(order[..|order| - 1], owner, p, k); }
  }

  lemma {:induction false} JobsOfNobody(order: seq<nat>, owner: seq<Option<nat>>, p: nat)
    requires forall id :: 0 <= id < |owner| ==> owner[id] != Some(p)
    ensures JobsOf(order, owner, p) == []
  {
    if order != [] { JobsOfNobody(order[..|order| - 1], owner, p); }
  }

  lemma {:induction false} ExpectedOwned(c: Core<nat>, rs: seq<Registration>, p: nat, fulfilled: bool)
    requires RegistrationsValid(c) && rs <= c.registrations
    ensures var e := Expected(rs, p, fulfilled);
            && (forall k :: 0 <= k < |e| ==> e[k] < |c.owner| && c.owner[e[k]] == Some(p))
            && NoDuplicates(e)
            && (forall k :: 0 <= k < |e| ==> exists j :: 0 <= j < |rs| && e[k] == (if fulfilled then rs[j].onFulfilled else rs[j].onRejected))
  {
    if rs != [] {
      var n := |rs| - 1;
      assert rs[n] == c.registrations[n];
      ExpectedOwned(c, rs[..n], p, fulfilled);
    }
  }

  lemma {:induction false} ExpectedNobody(rs: seq<Registration>, p: nat, fulfilled: bool)
    requires forall k :: 0 <= k < |rs| ==> rs[k].p != p
    ensures Expected(rs, p, fulfilled) == []
  {
    if rs != [] { ExpectedNobody(rs[..|rs| - 1], p, fulfilled); }
  }

  lemma ExpectedPush(rs: seq<Registration>, r: Registration, p: nat, fulfilled: bool)
    ensures Expected(rs + [r], p, fulfilled)
         == Expected(rs, p, fulfilled) + if r.p == p then [if fulfilled then r.onFulfilled else r.onRejected] else []
  {
    assert (rs + [r])[..|rs|] == rs;
  }

  // ---------- Settling ----------

  lemma SettledJobsAreNew(c: Core<nat>, p: nat, ids: seq<nat>, fulfilled: bool)
    requires InOrder(c) && p < |c.promises| && c.promises[p].status.Pending?
    requires ids == Expected(c.registrations, p, fulfilled)
    ensures NoDuplicates(Order(c) + ids)
    ensures forall k :: 0 <= k < |ids| ==> ids[k] < |c.owner| && c.owner[ids[k]] == Some(p)
  {
    ExpectedOwned(c, c.registrations, p, fulfilled);
    assert PromiseInOrder(c, p);
    var order := Order(c);
    forall i, j | 0 <= i < |order| && 0 <= j < |ids| ensures order[i] != ids[j] {
      if c.owner[order[i]] == Some(p) { JobsOfContains(order, c.owner, p, i); }
    }
  }

  /** Settling 'p' queues exactly the reactions of its registrations, after everything queued before. */
  lemma SettleInOrder(c: Core<nat>, p: nat, status: Status, rs: seq<Reaction<nat>>, v: Value, rejected: bool)
    requires InOrder(c) && p < |c.promises| && c.promises[p].status.Pending? && !status.Pending?
    requires Ids(rs) == Expected(c.registrations, p, status.Fulfilled?)
    ensures var c' := c.(promises := c.promises[p := Settled(c.promises[p], status)], queue := c.queue + Activated(rs, v, rejected));
            InOrder(c') && Order(c') == Order(c) + Ids(rs)
  {
    var c' := c.(promises := c.promises[p := Settled(c.promises[p], status)], queue := c.queue + Activated(rs, v, rejected));
    hide Order, JobsOf, Expected, Ids, JobIds, Activated, NoDuplicates;
    var ids := Ids(rs);
    ActivatedOrder(c, c', rs, v, rejected);
    SettledJobsAreNew(c, p, ids, status.Fulfilled?);
    forall x | 0 <= x < |c.promises| ensures PromiseInOrder(c', x) {
      SettledPromiseInOrder(c, c', p, ids, x);
    }
    hide PromiseInOrder;
  }

  lemma ActivatedOrder(c: Core<nat>, c': Core<nat>, rs: seq<Reaction<nat>>, v: Value, rejected: bool)
    requires c'.queue == c.queue + Activated(rs, v, rejected) && c'.ran == c.ran
    ensures Order(c') == Order(c) + Ids(rs)
  {
    assert JobIds(c.queue + Activated(rs, v, rejected)) == JobIds(c.queue) + Ids(rs);
  }

  lemma SettledPromiseInOrder(c: Core<nat>, c': Core<nat>, p: nat, ids: seq<nat>, x: nat)
    requires InOrder(c) && p < |c.promises| && c.promises[p].status.Pending? && x < |c.promises| == |c'.promises|
    requires c'.registrations == c.registrations && c'.owner == c.owner && Order(c') == Order(c) + ids
    requires !c'.promises[p].status.Pending? && (x != p ==> c'.promises[x] == c.promises[x])
    requires ids == Expected(c.registrations, p, c'.promises[p].status.Fulfilled?)
    requires forall k :: 0 <= k < |ids| ==> ids[k] < |c.owner| && c.owner[ids[k]] == Some(p)
    ensures PromiseInOrder(c', x)
  {
    JobsOfConcat(Order(c), ids, c.owner, x);
    JobsOfOwned(ids, c.owner, p, x);
    assert PromiseInOrder(c, x);
    hide Order, JobsOf, Expected, Ids, NoDuplicates, RegistrationsValid;
  }

  /** Flags, the log and the rejection list do not matter here. */
  predicate SameOrder(c: Core<nat>, c': Core<nat>)
  {
    && Order(c') == Order(c) && c'.registrations == c.registrations && c'.owner == c.owner
    && |c'.promises| == |c.promises|
    && forall p :: 0 <= p < |c.promises| ==>
         && c'.promises[p].status == c.promises[p].status
         && c'.promises[p].fulfillReactions == c.promises[p].fulfillReactions
         && c'.promises[p].rejectReactions == c.promises[p].rejectReactions
  }

  lemma SameInOrder(c: Core<nat>, c': Core<nat>)
    requires InOrder(c) && SameOrder(c, c')
    ensures InOrder(c')
  {
    assert forall p :: 0 <= p < |c.promises| ==> PromiseInOrder(c, p) ==> PromiseInOrder(c', p);
  }

  lemma FulfillInOrder(c: Core<nat>, p: nat, v: Value)
    requires InOrder(c) && p < |c.promises|
    ensures InOrder(DoFulfill(c, p, v)) && Order(c) <= Order(DoFulfill(c, p, v))
  {
    assert PromiseInOrder(c, p);
    if c.promises[p].status.Pending? {
      SettleInOrder(c, p, Fulfilled(v), c.promises[p].fulfillReactions, v, false);
    }
  }

  lemma RejectInOrder(c: Core<nat>, p: nat, v: Value)
    requires InOrder(c) && p < |c.promises|
    ensures InOrder(DoReject(c, p, v)) && Order(c) <= Order(DoReject(c, p, v))
  {
    assert PromiseInOrder(c, p);
    if c.promises[p].status.Pending? {
      SettleInOrder(c, p, Rejected(v), c.promises[p].rejectReactions, v, true);
      var c1 := c.(promises := c.promises[p := Settled(c.promises[p], Rejected(v))],
                   queue := c.queue + Activated(c.promises[p].rejectReactions, v, true));
      SameInOrder(c1, DoReject(c, p, v));
    }
  }

  lemma ResolveInOrder(c: Core<nat>, p: nat, v: Value)
    requires InOrder(c) && p < |c.promises|
    ensures InOrder(StartResolve(c, p, v).0) && Order(c) <= Order(StartResolve(c, p, v).0)
  {
    RejectInOrder(c, p, SelfResolutionError);
    FulfillInOrder(c, p, v);
  }

  // ---------- Registering ----------

  lemma AddedPromiseInOrder(c: Core<nat>)
    requires RegistrationsValid(c)
    ensures PromiseInOrder(AddPromise(c), |c.promises|)
  {
    var n := |c.promises|;
    JobsOfNobody(Order(c), c.owner, n);
    ExpectedNobody(c.registrations, n, true);
    ExpectedNobody(c.registrations, n, false);
    assert Ids<nat>([]) == [];
    hide RegistrationsValid, JobsOf, Expected, Ids;
  }

  lemma AddPromiseInOrder(c: Core<nat>)
    requires InOrder(c)
    ensures InOrder(AddPromise(c)) && Order(AddPromise(c)) == Order(c)
  {
    hide JobsOf, Expected, Ids, NoDuplicates;
    var c', n := AddPromise(c), |c.promises|;
    AddedPromiseInOrder(c);
    forall p | 0 <= p < |c'.promises| ensures PromiseInOrder(c', p) {
      if p < n { assert PromiseInOrder(c, p); }
    }
  }

  lemma PendingSubscribeInOrder(c: Core<nat>, p: nat, onF: Handler, onR: Handler, q: nat)
    requires InOrder(c) && p < |c.promises| && c.promises[p].status.Pending?
    ensures InOrder(Subscribe(c, p, onF, onR, q)) && Order(Subscribe(c, p, onF, onR, q)) == Order(c)
  {
    var c', n := Subscribe(c, p, onF, onR, q), |c.owner|;
    var r := Registration(p, n, n + 1);
    assert c'.registrations == c.registrations + [r] && Order(c') == Order(c);
    forall x | 0 <= x < |c'.promises| ensures PromiseInOrder(c', x) {
      PendingPromiseInOrder(c, p, onF, onR, q, x);
    }
  }

  lemma PushedIds(c: Core<nat>, p: nat, onF: Handler, onR: Handler, q: nat)
    requires p < |c.promises| && c.promises[p].status.Pending?
    ensures var pr, pr', n := c.promises[p], Subscribe(c, p, onF, onR, q).promises[p], |c.owner|;
            && Ids(pr'.fulfillReactions) == Ids(pr.fulfillReactions) + [n]
            && Ids(pr'.rejectReactions) == Ids(pr.rejectReactions) + [n + 1]
  {
  }

  /** Registering a handler pair leaves each promise's jobs and reactions in order. */
  lemma PendingPromiseInOrder(c: Core<nat>, p: nat, onF: Handler, onR: Handler, q: nat, x: nat)
    requires InOrder(c) && p < |c.promises| && c.promises[p].status.Pending? && x < |c.promises|
    ensures PromiseInOrder(Subscribe(c, p, onF, onR, q), x)
  {
    hide JobsOf, Expected, NoDuplicates, Ids;
    var c', n := Subscribe(c, p, onF, onR, q), |c.owner|;
    var r := Registration(p, n, n + 1);
    assert c'.registrations == c.registrations + [r] && c'.owner == c.owner + [Some(p), Some(p)] && Order(c') == Order(c);
    assert PromiseInOrder(c, x);
    JobsOfGrow(Order(c), c.owner, [Some(p), Some(p)], x);
    if x == p { PushedIds(c, p, onF, onR, q); }
    assert x != p ==> c'.promises[x] == c.promises[x];
    assert c'.promises[p].status.Pending?;
    hide Ids, Order, JobsOf, Expected, RegistrationsValid, NoDuplicates, Subscribe;
    ExpectedPush(c.registrations, r, x, true);
    ExpectedPush(c.registrations, r, x, false);
  }

  lemma JobsOfPush(order: seq<nat>, owner: seq<Option<nat>>, p: nat, x: nat)
    requires forall k :: 0 <= k < |order| ==> order[k] < |owner|
    ensures JobsOf(order + [|owner|], owner + [Some(p)], x) == JobsOf(order, owner, x) + if x == p then [|owner|] else []
  {
    JobsOfGrow(order, owner, [Some(p)], x);
    assert (order + [|owner|])[..|order|] == order;
    assert JobsOf(order, owner, x) + [] == JobsOf(order, owner, x);
  }

  lemma EnqueuedPromiseInOrder(c: Core<nat>, p: nat, job: Job<nat>, x: nat)
    requires RegistrationsValid(c) && p < |c.promises| && !c.promises[p].status.Pending? && job.id == |c.owner| && x < |c.promises|
    requires PromiseInOrder(c, x) && Order(EnqueueNow(c, p, job)) == Order(c) + [job.id]
    ensures PromiseInOrder(EnqueueNow(c, p, job), x)
  {
    hide Ids, JobsOf, Expected, Order;
    JobsOfPush(Order(c), c.owner, p, x);
    var r := Registration(p, |c.owner|, |c.owner|);
    ExpectedPush(c.registrations, r, x, true);
    ExpectedPush(c.registrations, r, x, false);
    hide RegistrationsValid;
  }

  lemma EnqueueNowInOrder(c: Core<nat>, p: nat, job: Job<nat>)
    requires InOrder(c) && p < |c.promises| && !c.promises[p].status.Pending? && job.id == |c.owner|
    ensures InOrder(EnqueueNow(c, p, job)) && Order(EnqueueNow(c, p, job)) == Order(c) + [job.id]
  {
    var c' := EnqueueNow(c, p, job);
    assert JobIds(c.queue + [job]) == JobIds(c.queue) + [job.id];
    assert Order(c') == Order(c) + [job.id];
    forall x | 0 <= x < |c'.promises| ensures PromiseInOrder(c', x) {
      EnqueuedPromiseInOrder(c, p, job, x);
    }
    hide PromiseInOrder, JobIds;
  }

  lemma SubscribeInOrder(c: Core<nat>, p: nat, onF: Handler, onR: Handler, q: nat)
    requires InOrder(c) && p < |c.promises|
    ensures InOrder(Subscribe(c, p, onF, onR, q)) && Order(c) <= Order(Subscribe(c, p, onF, onR, q))
  {
    match c.promises[p].status
    case Pending => PendingSubscribeInOrder(c, p, onF, onR, q);
    case Fulfilled(v) =>
      var c1 := EnqueueNow(c, p, ReactionJob(|c.owner|, onF, q, v, false));
      EnqueueNowInOrder(c, p, ReactionJob(|c.owner|, onF, q, v, false));
      SameInOrder(c1, MarkHandled(c1, p));
    case Rejected(v) =>
      var c0 := if c.promises[p].isHandled then c else TrackHandle(c, p);
      SameInOrder(c, c0);
      var c1 := EnqueueNow(c0, p, ReactionJob(|c.owner|, onR, q, v, onR.Missing?));
      EnqueueNowInOrder(c0, p, ReactionJob(|c.owner|, onR, q, v, onR.Missing?));
      SameInOrder(c1, MarkHandled(c1, p));
  }

  lemma ThenableInOrder(c: Core<nat>, v: Value, f: int, q: nat)
    requires InOrder(c)
    ensures InOrder(EnqueueThenable(c, v, f, q)) && Order(c) <= Order(EnqueueThenable(c, v, f, q))
  {
    var c', n := EnqueueThenable(c, v, f, q), |c.owner|;
    assert JobIds(c'.queue) == JobIds(c.queue) + [n];
    assert Order(c') == Order(c) + [n];
    forall x | 0 <= x < |c'.promises| ensures PromiseInOrder(c', x) {
      assert PromiseInOrder(c, x);
      JobsOfGrow(Order(c), c.owner, [None], x);
      JobsOfConcat(Order(c), [n], c'.owner, x);
      assert [n][..0] == [];
    }
  }

  // ---------- All runs ----------

  lemma CheckInOrder(c: Core<nat>, i: nat)
    requires CoreWellFormed(c) && i <= |c.potentiallyUnhandled|
    ensures SameOrder(c, CheckFrom(c, i))
    decreases |c.potentiallyUnhandled| - i
  {
    if i < |c.potentiallyUnhandled| { CheckInOrder(CheckOne(c, c.potentiallyUnhandled[i]), i + 1); }
  }

  lemma DequeueOrder(c: Core<nat>)
    requires c.queue != []
    ensures Order(Dequeue(c)) == Order(c)
  {
    var id, rest := c.queue[0].id, JobIds(c.queue[1..]);
    assert JobIds(c.queue) == [id] + rest;
    assert c.ran + ([id] + rest) == (c.ran + [id]) + rest;
  }

  lemma DequeueInOrder(c: Core<nat>)
    requires InOrder(c) && c.queue != []
    ensures InOrder(Dequeue(c)) && Order(Dequeue(c)) == Order(c)
  {
    DequeueOrder(c);
    hide InOrder, Order;
    SameInOrder(c, Dequeue(c));
  }

  lemma LogInOrder(c: Core<nat>, log: seq<Event>)
    requires InOrder(c)
    ensures InOrder(c.(log := log)) && Order(c.(log := log)) == Order(c)
  {
    SameInOrder(c, c.(log := log));
  }

  lemma StepInOrder(s: State, a: Action)
    requires WellFormed(s) && Enabled(s, a) && InOrder(s.core)
    ensures InOrder(Step(s, a).core) && Order(s.core) <= Order(Step(s, a).core)
  {
    var c := s.core;
    var grown := |AddPromise(c).promises|;
    assert grown == |c.promises| + 1;
    hide InOrder, Order, DoFulfill, DoReject, StartResolve, Subscribe, EnqueueThenable, AddPromise, CheckFrom, Dequeue;
    match a
    case NewPromise => AddPromiseInOrder(c);
    case Resolve(h, v) => ResolveInOrder(c, s.handles[h].target, v);
    case Reject(h, v) => RejectInOrder(c, s.handles[h].target, v);
    case Then(p, onF, onR) =>
      AddPromiseInOrder(c);
      SubscribeInOrder(AddPromise(c), p, OnFulfilled(onF), OnRejected(onR), |c.promises|);
    case Forward(source, target) => SubscribeInOrder(c, source, Missing, Missing, target);
    case GetterReturns(look) =>
      var p, v := Top(s).p, Top(s).v;
      FulfillInOrder(c, p, v);
      if look.GetterThrew? { RejectInOrder(c, p, look.e); }
      if look.Callable? { ThenableInOrder(c, v, look.f, p); }
    case RunEntry => RunJobInOrder(s);
    case UserReturns(outcome) =>
      var p := match Top(s) case HandlerCall(target) => target case ThenCall(h) => s.handles[h].target;
      if outcome.Throw? { RejectInOrder(c, p, outcome.e); } else { ResolveInOrder(c, p, outcome.v); }
    case Check => CheckAllInOrder(c);
  }

  lemma RunJobInOrder(s: State)
    requires WellFormed(s) && s.core.queue != [] && InOrder(s.core)
    ensures InOrder(RunJob(s).core) && Order(s.core) <= Order(RunJob(s).core)
  {
    hide InOrder, Order, DoReject, StartResolve;
    var c := Dequeue(s.core);
    DequeueInOrder(s.core);
    assert |c.promises| == |s.core.promises|;
    hide Dequeue, FrameWellFormed;
    match s.core.queue[0]
    case ThenableJob(_, thenable, f, p) => LogInOrder(c, s.core.log + [CallThen(f, thenable, |s.handles|)]);
    case ReactionJob(_, handler, p, v, rejected) =>
      ResolveInOrder(c, p, v);
      RejectInOrder(c, p, v);
      if handler.Fn? { LogInOrder(c, s.core.log + [Call(handler.f, v)]); }
  }

  lemma CheckAllInOrder(c: Core<nat>)
    requires CoreWellFormed(c) && InOrder(c)
    ensures InOrder(CheckRejections(c)) && Order(CheckRejections(c)) == Order(c)
  {
    CheckInOrder(c, 0);
    SameInOrder(c, CheckRejections(c));
  }

  /** In every run: jobs start in the order they were queued (what was queued stays a prefix), none is
      queued twice, and each promise queues one reaction of each registration, in registration order. */
  lemma {:induction false} RunsInOrder(s: State, actions: seq<Action>)
    requires WellFormed(s) && InOrder(s.core) && CanRun(s, actions)
    ensures InOrder(Run(s, actions).core) && Order(s.core) <= Order(Run(s, actions).core)
    decreases |actions|
  {
    if actions != [] {
      StepInOrder(s, actions[0]);
      StepWellFormed(s, actions[0]);
      RunsInOrder(Step(s, actions[0]), actions[1..]);
    }
  }

  lemma InitialInOrder()
    ensures InOrder(Initial.core) && Order(Initial.core) == []
  {
  }

  // ---------- Handlers run only from the queue ----------

  /** The calls of handlers and 'then' methods in a log. */
  function Calls(log: seq<Event>): seq<Event>
  {
    if log == [] then []
    else
      var e := log[|log| - 1];
      Calls(log[..|log| - 1]) + if e.Call? || e.CallThen? then [e] else []
  }

  lemma CallsPush(log: seq<Event>, e: Event)
    ensures Calls(log + [e]) == Calls(log) + if e.Call? || e.CallThen? then [e] else []
  {
    assert (log + [e])[..|log|] == log;
  }

  lemma CheckOneCalls(c: Core<nat>, p: nat)
    requires p < |c.promises|
    ensures Calls(CheckOne(c, p).log) == Calls(c.log)
  {
    CallsPush(c.log, NotifyReject(p));
    CallsPush(c.log, NotifyHandle(p));
  }

  lemma {:induction false} CheckCalls(c: Core<nat>, i: nat)
    requires CoreWellFormed(c) && i <= |c.potentiallyUnhandled|
    ensures Calls(CheckFrom(c, i).log) == Calls(c.log)
    decreases |c.potentiallyUnhandled| - i
  {
    if i < |c.potentiallyUnhandled| {
      hide Calls;
      CheckOneCalls(c, c.potentiallyUnhandled[i]);
      CheckCalls(CheckOne(c, c.potentiallyUnhandled[i]), i + 1);
    }
  }

  lemma SettleCalls(c: Core<nat>, p: nat, v: Value)
    requires p < |c.promises|
    ensures Calls(DoFulfill(c, p, v).log) == Calls(DoReject(c, p, v).log) == Calls(StartResolve(c, p, v).0.log) == Calls(c.log)
  {
    CallsPush(c.log, RawReject(p));
  }

  lemma SubscribeCalls(c: Core<nat>, p: nat, onF: Handler, onR: Handler, q: nat)
    requires p < |c.promises|
    ensures Calls(Subscribe(c, p, onF, onR, q).log) == Calls(c.log)
  {
    CallsPush(c.log, RawHandle(p));
  }

  /** Promise code calls a handler or a 'then' method only while the queue runner starts a job. */
  lemma CallsOnlyFromQueue(s: State, a: Action)
    requires WellFormed(s) && Enabled(s, a) && !a.RunEntry?
    ensures Calls(Step(s, a).core.log) == Calls(s.core.log)
  {
    var c := s.core;
    hide Calls, DoFulfill, DoReject, StartResolve, Subscribe, CheckFrom;
    match a
    case NewPromise =>
    case Resolve(h, v) => SettleCalls(c, s.handles[h].target, v);
    case Reject(h, v) => SettleCalls(c, s.handles[h].target, v);
    case Then(p, onF, onR) => SubscribeCalls(AddPromise(c), p, OnFulfilled(onF), OnRejected(onR), |c.promises|);
    case Forward(source, target) => SubscribeCalls(c, source, Missing, Missing, target);
    case GetterReturns(look) => SettleCalls(c, Top(s).p, if look.GetterThrew? then look.e else Top(s).v);
    case UserReturns(outcome) =>
      var p := match Top(s) case HandlerCall(target) => target case ThenCall(h) => s.handles[h].target;
      SettleCalls(c, p, if outcome.Throw? then outcome.e else outcome.v);
    case Check => CheckCalls(c, 0);
  }
}
