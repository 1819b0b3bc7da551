/**
 What then() promises: in every run the function that runs for a call of then() is the one given for
 the way its promise settled, it is passed the value of that promise, and what it returns or throws
 settles the promise that this call of then() returned.
 */
module PromiseThen {
  import opened Wrappers
  import opened PromiseMachine
  import PromiseQueue
  import PromiseSettling

  /** What a job is for: a call of then() on 'p' with up to two functions, which returned 'derived'; to forward the
      outcome of 'p' to 'derived'; or to have a thenable found with method 'thenFn' decide over 'derived'. */
  datatype Request =
    | ThenRequest(p: nat, onFulfilled: Option<int>, onRejected: Option<int>, derived: nat)
    | ForwardRequest(p: nat, derived: nat)
    | ThenableRequest(thenable: Value, thenFn: int, derived: nat)

  function RequestOf(s: State, a: Action): Option<Request>
    requires Enabled(s, a)
  {
    match a
    case Then(p, onFulfilled, onRejected) => Some(ThenRequest(p, onFulfilled, onRejected, |s.core.promises|))
    case Forward(source, target) => Some(ForwardRequest(source, target))
    case GetterReturns(Callable(f)) => Some(ThenableRequest(Top(s).v, f, Top(s).p))
    case _ => None
  }

  function Padded(o: seq<Request>, n: nat, req: Request): seq<Request>
    decreases n - |o|
  {
    if n <= |o| then o else Padded(o + [req], n, req)
  }

  function Extended(o: seq<Request>, s: State, a: Action): seq<Request>
    requires WellFormed(s) && Enabled(s, a)
  {
    match RequestOf(s, a)
    case None => o
    case Some(req) => Padded(o, |Step(s, a).core.owner|, req)
  }

  /** For every job identity handed out in a run, the request that it was handed out for. */
  function Origins(o: seq<Request>, s: State, actions: seq<Action>): seq<Request>
    requires WellFormed(s) && CanRun(s, actions)
    decreases |actions|
  {
    if actions == [] then o
    else
      StepWellFormed(s, actions[0]);
      Origins(Extended(o, s, actions[0]), Step(s, actions[0]), actions[1..])
  }

  // ---------- The invariant ----------

  /** The function that 'req' gives for the outcome, if it gives one. */
  function Given(req: Request, fulfilled: bool): Option<int>
    requires req.ThenRequest?
  {
    if fulfilled then req.onFulfilled else req.onRejected
  }

  predicate Asked(h: Handler, req: Request, fulfilled: bool)
    requires !req.ThenableRequest?
  {
    if req.ForwardRequest? then h == Missing
    else match Given(req, fulfilled)
      case Some(f) => h == Fn(f)
      case None => h == if fulfilled then Identity else Thrower
  }

  predicate ReactionWired(o: seq<Request>, r: Reaction<nat>, p: nat, fulfilled: bool)
  {
    r.id < |o| && !o[r.id].ThenableRequest? && o[r.id].p == p && o[r.id].derived == r.link && Asked(r.handler, o[r.id], fulfilled)
  }

  /** A queued reaction carries the handler and the value of the way its promise settled. */
  predicate ReactionJobWired(req: Request, ps: seq<Promise<nat>>, j: Job<nat>)
    requires j.ReactionJob?
  {
    && !req.ThenableRequest? && req.p < |ps| && !ps[req.p].status.Pending?
    && j.value == ps[req.p].status.v && Asked(j.handler, req, ps[req.p].status.Fulfilled?)
    && j.rejected == (ps[req.p].status.Rejected? && req.ForwardRequest?)
  }

  predicate JobWired(o: seq<Request>, ps: seq<Promise<nat>>, j: Job<nat>)
  {
    && j.id < |o| && j.link == o[j.id].derived
    && if j.ReactionJob? then ReactionJobWired(o[j.id], ps, j) else o[j.id] == ThenableRequest(j.thenable, j.thenFn, j.link)
  }

  predicate RegistrationWired(o: seq<Request>, r: Registration)
  {
    && r.onFulfilled < |o| && r.onRejected < |o| && o[r.onFulfilled] == o[r.onRejected]
    && !o[r.onFulfilled].ThenableRequest? && o[r.onFulfilled].p == r.p
  }

  predicate PromiseWired(o: seq<Request>, pr: Promise<nat>, p: nat)
  {
    && (forall k :: 0 <= k < |pr.fulfillReactions| ==> ReactionWired(o, pr.fulfillReactions[k], p, true))
    && (forall k :: 0 <= k < |pr.rejectReactions| ==> ReactionWired(o, pr.rejectReactions[k], p, false))
  }

  predicate QueueWired(o: seq<Request>, ps: seq<Promise<nat>>, q: seq<Job<nat>>)
  {
    forall k :: 0 <= k < |q| ==> JobWired(o, ps, q[k])
  }

  predicate PromisesWired(o: seq<Request>, ps: seq<Promise<nat>>)
  {
    forall p :: 0 <= p < |ps| ==> PromiseWired(o, ps[p], p)
  }

  predicate RegistrationsWired(o: seq<Request>, rs: seq<Registration>)
  {
    forall k :: 0 <= k < |rs| ==> RegistrationWired(o, rs[k])
  }

  predicate Wired(o: seq<Request>, c: Core<nat>)
  {
    |o| == |c.owner| && PromisesWired(o, c.promises) && QueueWired(o, c.promises, c.queue) && RegistrationsWired(o, c.registrations)
  }

  // ---------- Parts that grow ----------

  lemma RegistrationsGrow(o: seq<Request>, more: seq<Request>, rs: seq<Registration>)
    requires RegistrationsWired(o, rs)
    ensures RegistrationsWired(o + more, rs)
  {
  }

  lemma PromisesGrow(o: seq<Request>, more: seq<Request>, ps: seq<Promise<nat>>)
    requires PromisesWired(o, ps)
    ensures PromisesWired(o + more, ps)
  {
    hide Asked;
    forall p | 0 <= p < |ps| ensures PromiseWired(o + more, ps[p], p) {
      assert PromiseWired(o, ps[p], p);
    }
  }

  /** Settled promises keep their outcome. */
  predicate OutcomesKept(ps: seq<Promise<nat>>, ps': seq<Promise<nat>>)
  {
    |ps| <= |ps'| && forall p :: 0 <= p < |ps| && !ps[p].status.Pending? ==> ps'[p].status == ps[p].status
  }

  lemma QueueGrow(o: seq<Request>, more: seq<Request>, ps: seq<Promise<nat>>, ps': seq<Promise<nat>>, q: seq<Job<nat>>)
    requires QueueWired(o, ps, q) && OutcomesKept(ps, ps')
    ensures QueueWired(o + more, ps', q)
  {
    hide Asked;
    forall k | 0 <= k < |q| ensures JobWired(o + more, ps', q[k]) {
      assert JobWired(o, ps, q[k]);
    }
  }

  lemma QueuePush(o: seq<Request>, ps: seq<Promise<nat>>, q: seq<Job<nat>>, j: Job<nat>)
    requires QueueWired(o, ps, q) && JobWired(o, ps, j)
    ensures QueueWired(o, ps, q + [j])
  {
    hide JobWired;
  }

  lemma RegistrationsPush(o: seq<Request>, rs: seq<Registration>, r: Registration)
    requires RegistrationsWired(o, rs) && RegistrationWired(o, r)
    ensures RegistrationsWired(o, rs + [r])
  {
    hide RegistrationWired;
  }

  lemma PromisesUpdate(o: seq<Request>, ps: seq<Promise<nat>>, p: nat, pr: Promise<nat>)
    requires PromisesWired(o, ps) && p < |ps| && PromiseWired(o, pr, p)
    ensures PromisesWired(o, ps[p := pr])
  {
    hide PromiseWired;
  }

  // ---------- Operations that hand out no identity ----------

  /** Flags, the log and the rejection list do not matter here, nor that the head of the queue is taken. */
  predicate Quiet(c: Core<nat>, c': Core<nat>)
  {
    && c'.owner == c.owner && c'.registrations == c.registrations
    && (c'.queue == c.queue || (c.queue != [] && c'.queue == c.queue[1..]))
    && SamePromises(c.promises, c'.promises)
  }

  predicate SamePromises(ps: seq<Promise<nat>>, ps': seq<Promise<nat>>)
  {
    && |ps'| == |ps|
    && forall p :: 0 <= p < |ps| ==>
         && ps'[p].status == ps[p].status
         && ps'[p].fulfillReactions == ps[p].fulfillReactions
         && ps'[p].rejectReactions == ps[p].rejectReactions
  }

  lemma SamePromisesWired(o: seq<Request>, ps: seq<Promise<nat>>, ps': seq<Promise<nat>>)
    requires PromisesWired(o, ps) && SamePromises(ps, ps')
    ensures PromisesWired(o, ps') && OutcomesKept(ps, ps')
  {
    hide ReactionWired;
    forall p | 0 <= p < |ps'| ensures PromiseWired(o, ps'[p], p) {
      assert PromiseWired(o, ps[p], p);
    }
  }

  lemma QuietWired(o: seq<Request>, c: Core<nat>, c': Core<nat>)
    requires Wired(o, c) && Quiet(c, c')
    ensures Wired(o, c')
  {
    SamePromisesWired(o, c.promises, c'.promises);
    QueueGrow(o, [], c.promises, c'.promises, c.queue);
    assert o + [] == o;
    hide JobWired, PromisesWired, SamePromises, OutcomesKept, RegistrationsWired;
  }

  lemma ActivatedWired(o: seq<Request>, ps: seq<Promise<nat>>, p: nat, rs: seq<Reaction<nat>>)
    requires p < |ps| && !ps[p].status.Pending?
    requires forall k :: 0 <= k < |rs| ==> ReactionWired(o, rs[k], p, ps[p].status.Fulfilled?)
    ensures QueueWired(o, ps, Activated(rs, ps[p].status.v, ps[p].status.Rejected?))
  {
    forall k | 0 <= k < |rs| ensures JobWired(o, ps, Activate(rs[k], ps[p].status.v, ps[p].status.Rejected?)) {
      assert ReactionWired(o, rs[k], p, ps[p].status.Fulfilled?);
    }
    hide JobWired, Activate;
  }

  lemma QueueConcat(o: seq<Request>, ps: seq<Promise<nat>>, q: seq<Job<nat>>, q': seq<Job<nat>>)
    requires QueueWired(o, ps, q) && QueueWired(o, ps, q')
    ensures QueueWired(o, ps, q + q')
  {
    hide JobWired;
  }

  lemma SettleWired(o: seq<Request>, c: Core<nat>, p: nat, status: Status, rs: seq<Reaction<nat>>)
    requires Wired(o, c) && p < |c.promises| && c.promises[p].status.Pending? && !status.Pending?
    requires rs == if status.Fulfilled? then c.promises[p].fulfillReactions else c.promises[p].rejectReactions
    ensures Wired(o, c.(promises := c.promises[p := Settled(c.promises[p], status)],
                        queue := c.queue + Activated(rs, status.v, status.Rejected?)))
  {
    var ps, ps' := c.promises, c.promises[p := Settled(c.promises[p], status)];
    assert PromiseWired(o, ps[p], p);
    PromisesUpdate(o, ps, p, Settled(ps[p], status));
    ActivatedWired(o, ps', p, rs);
    QueueGrow(o, [], ps, ps', c.queue);
    assert o + [] == o;
    QueueConcat(o, ps', c.queue, Activated(rs, status.v, status.Rejected?));
    hide QueueWired, PromisesWired, RegistrationsWired, PromiseWired;
  }

  lemma FulfillWired(o: seq<Request>, c: Core<nat>, p: nat, v: Value)
    requires Wired(o, c) && p < |c.promises|
    ensures Wired(o, DoFulfill(c, p, v)) && DoFulfill(c, p, v).owner == c.owner
  {
    if c.promises[p].status.Pending? {
      SettleWired(o, c, p, Fulfilled(v), c.promises[p].fulfillReactions);
    }
    hide Wired, Activated, Settled;
  }

  lemma RejectWired(o: seq<Request>, c: Core<nat>, p: nat, v: Value)
    requires Wired(o, c) && p < |c.promises|
    ensures Wired(o, DoReject(c, p, v)) && DoReject(c, p, v).owner == c.owner
  {
    if c.promises[p].status.Pending? {
      var c1 := c.(promises := c.promises[p := Settled(c.promises[p], Rejected(v))],
                   queue := c.queue + Activated(c.promises[p].rejectReactions, v, true));
      SettleWired(o, c, p, Rejected(v), c.promises[p].rejectReactions);
      assert SamePromises(c1.promises, DoReject(c, p, v).promises);
      hide Wired, Activated, Settled, SamePromises;
      QuietWired(o, c1, DoReject(c, p, v));
    }
  }

  lemma ResolveWired(o: seq<Request>, c: Core<nat>, p: nat, v: Value)
    requires Wired(o, c) && p < |c.promises|
    ensures Wired(o, StartResolve(c, p, v).0) && StartResolve(c, p, v).0.owner == c.owner
  {
    RejectWired(o, c, p, SelfResolutionError);
    FulfillWired(o, c, p, v);
    hide Wired, DoFulfill, DoReject;
  }

  lemma AddPromiseWired(o: seq<Request>, c: Core<nat>)
    requires Wired(o, c)
    ensures Wired(o, AddPromise(c))
  {
    var ps, ps' := c.promises, AddPromise(c).promises;
    QueueGrow(o, [], ps, ps', c.queue);
    assert o + [] == o;
    hide QueueWired, RegistrationsWired, ReactionWired;
  }

  lemma {:induction false} CheckQuiet(c: Core<nat>, i: nat)
    requires CoreWellFormed(c) && i <= |c.potentiallyUnhandled|
    ensures Quiet(c, CheckFrom(c, i)) && CheckFrom(c, i).queue == c.queue
    decreases |c.potentiallyUnhandled| - i
  {
    if i < |c.potentiallyUnhandled| {
      var c1 := CheckOne(c, c.potentiallyUnhandled[i]);
      assert Quiet(c, c1) && CoreWellFormed(c1);
      CheckQuiet(c1, i + 1);
      hide CoreWellFormed, CheckOne;
    }
  }

  lemma CheckWired(o: seq<Request>, c: Core<nat>)
    requires Wired(o, c) && CoreWellFormed(c)
    ensures Wired(o, CheckRejections(c)) && CheckRejections(c).owner == c.owner
  {
    CheckQuiet(c, 0);
    hide Wired, CoreWellFormed, SamePromises, CheckFrom;
    QuietWired(o, c, CheckRejections(c));
  }

  // ---------- Operations that hand out identities ----------

  lemma ThenableWired(o: seq<Request>, c: Core<nat>, thenable: Value, thenFn: int, link: nat)
    requires Wired(o, c)
    ensures Wired(o + [ThenableRequest(thenable, thenFn, link)], EnqueueThenable(c, thenable, thenFn, link))
  {
    var req, j := ThenableRequest(thenable, thenFn, link), ThenableJob(|c.owner|, thenable, thenFn, link);
    PromisesGrow(o, [req], c.promises);
    RegistrationsGrow(o, [req], c.registrations);
    QueueGrow(o, [req], c.promises, c.promises, c.queue);
    QueuePush(o + [req], c.promises, c.queue, j);
    hide QueueWired, PromisesWired, RegistrationsWired;
  }

  /** A registration on a pending promise waits with the handlers that were asked for. */
  lemma PendingWired(o: seq<Request>, c: Core<nat>, req: Request, onF: Handler, onR: Handler)
    requires Wired(o, c) && !req.ThenableRequest? && req.p < |c.promises| && c.promises[req.p].status.Pending?
    requires Asked(onF, req, true) && Asked(onR, req, false)
    ensures Wired(o + [req, req], Subscribe(c, req.p, onF, onR, req.derived))
  {
    var o', n, p, ps := o + [req, req], |c.owner|, req.p, c.promises;
    var c' := Subscribe(c, p, onF, onR, req.derived);
    PromisesGrow(o, [req, req], ps);
    RegistrationsGrow(o, [req, req], c.registrations);
    QueueGrow(o, [req, req], ps, c'.promises, c.queue);
    RegistrationsPush(o', c.registrations, Registration(p, n, n + 1));
    assert PromiseWired(o', ps[p], p);
    assert o'[n] == o'[n + 1] == req;
    assert ReactionWired(o', Reaction(n, onF, req.derived), p, true);
    assert ReactionWired(o', Reaction(n + 1, onR, req.derived), p, false);
    hide QueueWired, RegistrationsWired, ReactionWired;
    PromisesUpdate(o', ps, p, c'.promises[p]);
    hide PromisesWired;
    assert c'.promises == ps[p := c'.promises[p]];
  }

  /** A registration on a settled promise is queued with the one handler that was asked for. */
  lemma EnqueueNowWired(o: seq<Request>, c: Core<nat>, req: Request, j: Job<nat>)
    requires Wired(o, c) && !req.ThenableRequest? && req.p < |c.promises| && j.id == |c.owner| && JobWired(o + [req], c.promises, j)
    ensures Wired(o + [req], EnqueueNow(c, req.p, j))
  {
    var o', n := o + [req], |c.owner|;
    PromisesGrow(o, [req], c.promises);
    RegistrationsGrow(o, [req], c.registrations);
    QueueGrow(o, [req], c.promises, c.promises, c.queue);
    RegistrationsPush(o', c.registrations, Registration(req.p, n, n));
    QueuePush(o', c.promises, c.queue, j);
    hide QueueWired, PromisesWired, RegistrationsWired, JobWired;
  }

  lemma MarkHandledWired(o: seq<Request>, c: Core<nat>, p: nat)
    requires Wired(o, c) && p < |c.promises|
    ensures Wired(o, MarkHandled(c, p))
  {
    assert Quiet(c, MarkHandled(c, p));
    hide Wired, Quiet, MarkHandled;
    QuietWired(o, c, MarkHandled(c, p));
  }

  lemma SettledWired(o: seq<Request>, c: Core<nat>, req: Request, onF: Handler, onR: Handler)
    requires Wired(o, c) && !req.ThenableRequest? && req.p < |c.promises| && !c.promises[req.p].status.Pending?
    requires Asked(onF, req, true) && Asked(onR, req, false)
    ensures Wired(o + [req], Subscribe(c, req.p, onF, onR, req.derived))
  {
    var n, p, ps, o' := |c.owner|, req.p, c.promises, o + [req];
    if ps[p].status.Fulfilled? {
      var j := ReactionJob(n, onF, req.derived, ps[p].status.v, false);
      assert JobWired(o', ps, j);
      EnqueueNowWired(o, c, req, j);
      hide Wired, JobWired, Asked;
      MarkHandledWired(o', EnqueueNow(c, p, j), p);
    } else {
      var j := ReactionJob(n, onR, req.derived, ps[p].status.v, onR.Missing?);
      var c1 := if ps[p].isHandled then c else TrackHandle(c, p);
      assert Quiet(c, c1);
      QuietWired(o, c, c1);
      assert JobWired(o', c1.promises, j);
      hide Wired, JobWired, Asked, Quiet, TrackHandle;
      EnqueueNowWired(o, c1, req, j);
      MarkHandledWired(o', EnqueueNow(c1, p, j), p);
    }
  }

  lemma PaddedTwice(o: seq<Request>, req: Request)
    ensures Padded(o, |o| + 1, req) == o + [req] && Padded(o, |o| + 2, req) == o + [req, req]
  {
    assert o + [req] + [req] == o + [req, req];
    assert Padded(o + [req], |o| + 2, req) == Padded(o + [req] + [req], |o| + 2, req);
  }

  lemma SubscribeWired(o: seq<Request>, c: Core<nat>, req: Request, onF: Handler, onR: Handler)
    requires Wired(o, c) && !req.ThenableRequest? && req.p < |c.promises|
    requires Asked(onF, req, true) && Asked(onR, req, false)
    ensures var c' := Subscribe(c, req.p, onF, onR, req.derived); Wired(Padded(o, |c'.owner|, req), c') && |c'.owner| > |c.owner|
  {
    if c.promises[req.p].status.Pending? {
      PendingWired(o, c, req, onF, onR);
    } else {
      SettledWired(o, c, req, onF, onR);
    }
    PaddedTwice(o, req);
    hide PromisesWired, QueueWired, RegistrationsWired, Asked, Padded;
  }

  // ---------- All runs ----------

  lemma RunJobWired(o: seq<Request>, s: State)
    requires WellFormed(s) && s.core.queue != [] && Wired(o, s.core)
    ensures Wired(o, RunJob(s).core) && RunJob(s).core.owner == s.core.owner
  {
    var c := Dequeue(s.core);
    assert Quiet(s.core, c) && c.promises == s.core.promises && c.owner == s.core.owner;
    hide Wired, Quiet, DoFulfill, DoReject, StartResolve, Dequeue, CoreWellFormed, FrameWellFormed;
    QuietWired(o, s.core, c);
    match s.core.queue[0]
    case ThenableJob(_, thenable, f, p) => LogWired(o, c, s.core.log + [CallThen(f, thenable, |s.handles|)]);
    case ReactionJob(_, handler, p, v, rejected) =>
      ResolveWired(o, c, p, v);
      RejectWired(o, c, p, v);
      if handler.Fn? { LogWired(o, c, s.core.log + [Call(handler.f, v)]); }
  }

  lemma LogWired(o: seq<Request>, c: Core<nat>, log: seq<Event>)
    requires Wired(o, c)
    ensures Wired(o, c.(log := log))
  {
  }

  lemma FinishWired(o: seq<Request>, s: State, outcome: Outcome)
    requires WellFormed(s) && Enabled(s, UserReturns(outcome)) && Wired(o, s.core)
    ensures Wired(o, FinishJob(s, outcome).core)
  {
    hide Wired, DoReject, StartResolve, CoreWellFormed;
    var p := match Top(s) case HandlerCall(target) => target case ThenCall(h) => s.handles[h].target;
    if outcome.Throw? { RejectWired(o, s.core, p, outcome.e); } else { ResolveWired(o, s.core, p, outcome.v); }
  }

  lemma GetterWired(o: seq<Request>, s: State, look: Look)
    requires WellFormed(s) && Enabled(s, GetterReturns(look)) && Wired(o, s.core)
    ensures Wired(Extended(o, s, GetterReturns(look)), Step(s, GetterReturns(look)).core)
  {
    var p, v, c := Top(s).p, Top(s).v, s.core;
    assert |o| == |c.owner|;
    if look.Callable? { PaddedTwice(o, ThenableRequest(v, look.f, p)); }
    hide Wired, DoReject, DoFulfill, CoreWellFormed, Padded;
    match look
    case NotCallable => FulfillWired(o, c, p, v);
    case GetterThrew(e) => RejectWired(o, c, p, e);
    case Callable(f) => ThenableWired(o, c, v, f, p);
  }

  lemma RequestWired(o: seq<Request>, s: State, a: Action)
    requires WellFormed(s) && Enabled(s, a) && Wired(o, s.core) && (a.Then? || a.Forward?)
    ensures Wired(Extended(o, s, a), Step(s, a).core)
  {
    var req := RequestOf(s, a).value;
    if a.Then? {
      AddPromiseWired(o, s.core);
      SubscribeWired(o, AddPromise(s.core), req, OnFulfilled(a.onFulfilled), OnRejected(a.onRejected));
    } else {
      SubscribeWired(o, s.core, req, Missing, Missing);
    }
    hide Wired, Subscribe, Padded, CoreWellFormed;
  }

  lemma StepWired(o: seq<Request>, s: State, a: Action)
    requires WellFormed(s) && Enabled(s, a) && Wired(o, s.core)
    ensures Wired(Extended(o, s, a), Step(s, a).core)
  {
    var c := s.core;
    hide Wired, DoReject, StartResolve, Subscribe, CoreWellFormed, FinishJob, RunJob, CheckRejections, Padded, FinishGetter, AddPromise;
    match a
    case NewPromise => AddPromiseWired(o, c);
    case Resolve(h, v) => ResolveWired(o, c, s.handles[h].target, v);
    case Reject(h, v) => RejectWired(o, c, s.handles[h].target, v);
    case Then(_, _, _) => RequestWired(o, s, a);
    case Forward(_, _) => RequestWired(o, s, a);
    case GetterReturns(look) => GetterWired(o, s, look);
    case RunEntry => RunJobWired(o, s);
    case UserReturns(outcome) => FinishWired(o, s, outcome);
    case Check => CheckWired(o, c);
  }

  lemma {:induction false} PaddedKeeps(o: seq<Request>, n: nat, req: Request)
    ensures o <= Padded(o, n, req)
    ensures forall k :: |o| <= k < |Padded(o, n, req)| ==> Padded(o, n, req)[k] == req
    decreases n - |o|
  {
    if n > |o| {
      PaddedKeeps(o + [req], n, req);
      assert Padded(o, n, req)[|o|] == (o + [req])[|o|];
    }
  }

  /** A step that registers adds one registration; every other step adds none. */
  predicate Registers(s: State, s': State, a: Action)
  {
    var rs, rs' := s.core.registrations, s'.core.registrations;
    if a.Then? || a.Forward? then
      |rs'| == |rs| + 1 && rs'[..|rs|] == rs && rs'[|rs|].onFulfilled >= |s.core.owner| && rs'[|rs|].onRejected >= |s.core.owner|
    else rs' == rs
  }

  lemma SettleRegisters(c: Core<nat>, p: nat, v: Value)
    requires p < |c.promises|
    ensures DoFulfill(c, p, v).registrations == DoReject(c, p, v).registrations == StartResolve(c, p, v).0.registrations == c.registrations
  {
  }

  lemma SubscribeRegisters(c: Core<nat>, p: nat, onF: Handler, onR: Handler, q: nat)
    requires p < |c.promises|
    ensures var rs, rs' := c.registrations, Subscribe(c, p, onF, onR, q).registrations;
            |rs'| == |rs| + 1 && rs'[..|rs|] == rs && rs'[|rs|].onFulfilled >= |c.owner| && rs'[|rs|].onRejected >= |c.owner|
  {
  }

  lemma StepRegisters(s: State, a: Action)
    requires WellFormed(s) && Enabled(s, a)
    ensures Registers(s, Step(s, a), a)
  {
    var c := s.core;
    hide DoReject, DoFulfill, StartResolve, Subscribe, CheckFrom;
    match a
    case NewPromise =>
    case Resolve(h, v) => SettleRegisters(c, s.handles[h].target, v);
    case Reject(h, v) => SettleRegisters(c, s.handles[h].target, v);
    case Then(p, onF, onR) => SubscribeRegisters(AddPromise(c), p, OnFulfilled(onF), OnRejected(onR), |c.promises|);
    case Forward(source, target) => SubscribeRegisters(c, source, Missing, Missing, target);
    case GetterReturns(look) => SettleRegisters(c, Top(s).p, if look.GetterThrew? then look.e else Top(s).v);
    case RunEntry => if c.queue[0].ReactionJob? { SettleRegisters(Dequeue(c), c.queue[0].link, c.queue[0].value); }
    case UserReturns(outcome) =>
      var p := match Top(s) case HandlerCall(target) => target case ThenCall(h) => s.handles[h].target;
      SettleRegisters(c, p, if outcome.Throw? then outcome.e else outcome.v);
    case Check => CheckQuiet(c, 0);
  }

  lemma InitialWired()
    ensures WellFormed(Initial) && Wired([], Initial.core)
  {
  }

  lemma ExtendedKeeps(o: seq<Request>, s: State, a: Action)
    requires WellFormed(s) && Enabled(s, a)
    ensures o <= Extended(o, s, a)
    ensures forall k :: |o| <= k < |Extended(o, s, a)| ==> RequestOf(s, a) == Some(Extended(o, s, a)[k])
  {
    if RequestOf(s, a).Some? { PaddedKeeps(o, |Step(s, a).core.owner|, RequestOf(s, a).value); }
    hide Step, Padded;
  }

  /** In every run all jobs, waiting reactions and registrations are what their requests call for, and what was
      handed out for a request stays so. */
  lemma {:induction false} RunsWired(o: seq<Request>, s: State, actions: seq<Action>)
    requires WellFormed(s) && CanRun(s, actions) && Wired(o, s.core)
    ensures Wired(Origins(o, s, actions), Run(s, actions).core)
    ensures o <= Origins(o, s, actions) && s.core.registrations <= Run(s, actions).core.registrations
    decreases |actions|
  {
    if actions != [] {
      var a := actions[0];
      StepWired(o, s, a);
      StepWellFormed(s, a);
      StepRegisters(s, a);
      ExtendedKeeps(o, s, a);
      hide Wired, WellFormed, Step, Extended, Enabled;
      RunsWired(Extended(o, s, a), Step(s, a), actions[1..]);
    }
  }

  // ---------- What a job does ----------

  predicate OthersKept(s: State, s': State, d: nat)
  {
    && |s'.core.promises| == |s.core.promises|
    && forall p :: 0 <= p < |s.core.promises| && p != d ==> s'.core.promises[p] == s.core.promises[p]
  }

  /** Promise 'd' is resolved with 'v', unless it is settled: a plain value fulfills it, the promise itself rejects
      it, and of any other object the 'then' property is read first. */
  predicate ResolvedBy(s: State, s': State, d: nat, v: Value)
    requires d < |s.core.promises|
  {
    && OthersKept(s, s', d)
    && var was, now := s.core.promises[d].status, s'.core.promises[d].status;
       if !was.Pending? then now == was && s'.frames == s.frames
       else if v.Plain? then now == Fulfilled(v) && s'.frames == s.frames
       else if v == PromiseObject(d) then now == Rejected(SelfResolutionError) && s'.frames == s.frames
       else now == Pending && s'.frames == s.frames + [GetterCall(d, v)]
  }

  /** Promise 'd' is rejected with 'v', unless it is settled. */
  predicate RejectedBy(s: State, s': State, d: nat, v: Value)
    requires d < |s.core.promises|
  {
    && OthersKept(s, s', d) && s'.frames == s.frames
    && s'.core.promises[d].status == if s.core.promises[d].status.Pending? then Rejected(v) else s.core.promises[d].status
  }

  /** The outcome of 'p' is passed on to promise 'd'. */
  predicate PassesOn(s: State, s': State, p: nat, d: nat)
    requires p < |s.core.promises| && d < |s.core.promises|
  {
    match s.core.promises[p].status
    case Pending => false
    case Fulfilled(v) => ResolvedBy(s, s', d, v)
    case Rejected(v) => RejectedBy(s, s', d, v)
  }

  /** A settled 'p' has the function given for its outcome called with its value, so that the call decides over
      promise 'd'; without such a function its outcome is passed on. */
  predicate Serves(s: State, s': State, p: nat, onFulfilled: Option<int>, onRejected: Option<int>, d: nat)
    requires p < |s.core.promises| && d < |s.core.promises|
  {
    var status := s.core.promises[p].status;
    && !status.Pending?
    && match if status.Fulfilled? then onFulfilled else onRejected
       case Some(f) => && s'.core.log == s.core.log + [Call(f, status.v)] && s'.frames == s.frames + [HandlerCall(d)]
                       && s'.core.promises == s.core.promises
       case None => PassesOn(s, s', p, d)
  }

  /** Method 'f' of a thenable is called with a new resolve/reject pair for promise 'd'. */
  predicate CallsThenable(s: State, s': State, thenable: Value, f: int, d: nat)
  {
    var h := |s.handles|;
    && s'.core.log == s.core.log + [CallThen(f, thenable, h)] && s'.frames == s.frames + [ThenCall(h)]
    && s'.handles == s.handles + [Handle(d, false)] && s'.core.promises == s.core.promises
  }

  lemma ResolveTargetMeans(s: State, d: nat, v: Value)
    requires d < |s.core.promises|
    ensures ResolvedBy(s, ResolveTarget(s, d, v), d, v)
  {
  }

  lemma RejectTargetMeans(s: State, d: nat, v: Value)
    requires d < |s.core.promises|
    ensures RejectedBy(s, RejectTarget(s, d, v), d, v)
  {
  }

  /** What the job at the head of the queue does, by the request it was handed out for. */
  predicate Performs(s: State, s': State, req: Request)
    requires req.derived < |s.core.promises| && (!req.ThenableRequest? ==> req.p < |s.core.promises|)
  {
    match req
    case ThenRequest(p, onFulfilled, onRejected, d) => Serves(s, s', p, onFulfilled, onRejected, d)
    case ForwardRequest(p, d) => PassesOn(s, s', p, d)
    case ThenableRequest(thenable, f, d) => CallsThenable(s, s', thenable, f, d)
  }

  lemma HeadWired(o: seq<Request>, s: State)
    requires WellFormed(s) && s.core.queue != [] && Wired(o, s.core)
    ensures JobWired(o, s.core.promises, s.core.queue[0]) && s.core.queue[0].link < |s.core.promises|
  {
    hide JobWired, PromisesWired, RegistrationsWired, FrameWellFormed;
  }

  lemma ReactionPerforms(s: State, req: Request)
    requires s.core.queue != [] && s.core.queue[0].ReactionJob? && s.core.queue[0].link < |s.core.promises|
    requires ReactionJobWired(req, s.core.promises, s.core.queue[0]) && s.core.queue[0].link == req.derived
    ensures Performs(s, RunJob(s), req)
  {
    var s1 := s.(core := Dequeue(s.core));
    ResolveTargetMeans(s1, req.derived, s.core.queue[0].value);
    RejectTargetMeans(s1, req.derived, s.core.queue[0].value);
    assert s1.core.promises == s.core.promises && s1.core.log == s.core.log;
    hide ResolveTarget, RejectTarget, Dequeue;
  }

  lemma HeadPerforms(o: seq<Request>, s: State)
    requires WellFormed(s) && s.core.queue != [] && Wired(o, s.core)
    ensures var id := s.core.queue[0].id;
            && id < |o| && o[id].derived < |s.core.promises| && (!o[id].ThenableRequest? ==> o[id].p < |s.core.promises|)
            && Performs(s, RunJob(s), o[id])
  {
    HeadWired(o, s);
    hide Wired, WellFormed;
    if s.core.queue[0].ReactionJob? {
      ReactionPerforms(s, o[s.core.queue[0].id]);
      hide RunJob;
    }
  }

  // ---------- The laws ----------

  /** The return of the innermost call decides over promise 'd': what was returned resolves it, and what was
      thrown rejects it. */
  predicate DecidesOver(s: State, outcome: Outcome, d: nat)
    requires WellFormed(s) && Enabled(s, UserReturns(outcome))
  {
    var s1, s' := s.(frames := s.frames[..|s.frames| - 1]), Step(s, UserReturns(outcome));
    d < |s.core.promises| && if outcome.Return? then ResolvedBy(s1, s', d, outcome.v) else RejectedBy(s1, s', d, outcome.e)
  }

  /** A function called for then() decides over the promise that this then() returned. */
  lemma HandlerDecides(s: State, outcome: Outcome)
    requires WellFormed(s) && Enabled(s, UserReturns(outcome)) && Top(s).HandlerCall?
    ensures DecidesOver(s, outcome, Top(s).target)
  {
    var d := Top(s).target;
    if outcome.Return? { ResolveTargetMeans(Pop(s), d, outcome.v); } else { RejectTargetMeans(Pop(s), d, outcome.e); }
    hide ResolveTarget, RejectTarget, ResolvedBy, RejectedBy, CoreWellFormed;
  }

  /** While a promise is resolved with an object: without a callable 'then' it fulfills the promise, and an error
      of the property access rejects it. */
  lemma LookupDecides(s: State, look: Look)
    requires WellFormed(s) && Enabled(s, GetterReturns(look)) && s.core.promises[Top(s).p].status.Pending?
    ensures var d, s' := Top(s).p, Step(s, GetterReturns(look));
            && OthersKept(s, s', d) && s'.frames == s.frames[..|s.frames| - 1]
            && s'.core.promises[d].status == (match look case NotCallable => Fulfilled(Top(s).v)
                                                         case GetterThrew(e) => Rejected(e)
                                                         case Callable(_) => Pending)
  {
    hide CoreWellFormed;
  }

  /** What the method of a thenable returns is ignored; what it throws rejects the promise if it had not used its
      resolve/reject pair. */
  lemma ThenableDecides(s: State, outcome: Outcome)
    requires WellFormed(s) && Enabled(s, UserReturns(outcome)) && Top(s).ThenCall?
    ensures var h, s1, s' := s.handles[Top(s).h], s.(frames := s.frames[..|s.frames| - 1]), Step(s, UserReturns(outcome));
            && h.target < |s.core.promises|
            && if outcome.Return? || h.alreadyResolved then s' == s1
               else RejectedBy(s1, s', h.target, outcome.e) && s'.handles == s.handles[Top(s).h := Handle(h.target, true)]
  {
    if outcome.Throw? { RejectTargetMeans(Neutralize(Pop(s), Top(s).h), s.handles[Top(s).h].target, outcome.e); }
    hide RejectedBy, CoreWellFormed, DoReject;
  }

  /** No call among the first 'n' open ones returns in the run. */
  predicate StaysOpen(s: State, actions: seq<Action>, n: nat)
    requires WellFormed(s) && CanRun(s, actions)
    decreases |actions|
  {
    && n <= |s.frames|
    && (actions == []
        || ((actions[0].UserReturns? || actions[0].GetterReturns? ==> n < |s.frames|)
            && (StepWellFormed(s, actions[0]); StaysOpen(Step(s, actions[0]), actions[1..], n))))
  }

  lemma StepFrames(s: State, a: Action)
    requires WellFormed(s) && Enabled(s, a)
    ensures if a.UserReturns? || a.GetterReturns? then s.frames[..|s.frames| - 1] <= Step(s, a).frames else s.frames <= Step(s, a).frames
  {
  }

  lemma {:induction false} OpenCallsStay(s: State, actions: seq<Action>, n: nat)
    requires WellFormed(s) && CanRun(s, actions) && StaysOpen(s, actions, n)
    ensures n <= |Run(s, actions).frames| && Run(s, actions).frames[..n] == s.frames[..n]
    decreases |actions|
  {
    if actions != [] {
      StepFrames(s, actions[0]);
      StepWellFormed(s, actions[0]);
      hide WellFormed, Step;
      OpenCallsStay(Step(s, actions[0]), actions[1..], n);
    }
  }

  /** Whatever runs between the call of a function and its return, the return decides over the promise that the
      call was made for. */
  lemma ReturnDecides(s: State, inner: seq<Action>, outcome: Outcome)
    requires WellFormed(s) && s.frames != [] && Top(s).HandlerCall? && CanRun(s, inner) && StaysOpen(s, inner, |s.frames|)
    requires |Run(s, inner).frames| == |s.frames|
    ensures Enabled(Run(s, inner), UserReturns(outcome)) && DecidesOver(Run(s, inner), outcome, Top(s).target)
  {
    hide *;
    OpenCallsStay(s, inner, |s.frames|);
    assert Run(s, inner).frames == s.frames;
    SameReturns(s, Run(s, inner), outcome);
    HandlerDecides(Run(s, inner), outcome);
  }

  lemma SameReturns(s: State, t: State, outcome: Outcome)
    requires s.frames != [] && Top(s).HandlerCall? && t.frames == s.frames
    ensures Enabled(t, UserReturns(outcome)) && Top(t) == Top(s)
  {
  }

  /** What was handed out for a request in a run keeps naming that request. */
  lemma RequestKept(before: seq<Action>, a: Action, later: seq<Action>) returns (o: seq<Request>)
    requires CanRun(Initial, before) && Enabled(Run(Initial, before), a) && (a.Then? || a.Forward?)
    requires WellFormed(Step(Run(Initial, before), a)) && CanRun(Step(Run(Initial, before), a), later)
    ensures var s, s' := Run(Initial, before), Run(Step(Run(Initial, before), a), later);
            var n := |s.core.registrations|;
            && Wired(o, s'.core) && n < |s'.core.registrations|
            && var r := s'.core.registrations[n];
               r.onFulfilled < |o| && r.onRejected < |o| && o[r.onFulfilled] == o[r.onRejected] == RequestOf(s, a).value
  {
    var s := Run(Initial, before);
    InitialWired();
    RunsWired([], Initial, before);
    var o0 := Origins([], Initial, before);
    o := RegisteredFor(o0, s, a, later);
    hide *;
  }

  lemma RegisteredFor(o0: seq<Request>, s: State, a: Action, later: seq<Action>) returns (o: seq<Request>)
    requires WellFormed(s) && Enabled(s, a) && (a.Then? || a.Forward?) && Wired(o0, s.core)
    requires WellFormed(Step(s, a)) && CanRun(Step(s, a), later)
    ensures var s', n := Run(Step(s, a), later), |s.core.registrations|;
            && Wired(o, s'.core) && n < |s'.core.registrations|
            && var r := s'.core.registrations[n];
               r.onFulfilled < |o| && r.onRejected < |o| && o[r.onFulfilled] == o[r.onRejected] == RequestOf(s, a).value
  {
    var o1, s1 := Extended(o0, s, a), Step(s, a);
    StepWired(o0, s, a);
    StepRegisters(s, a);
    ExtendedKeeps(o0, s, a);
    RunsWired(o1, s1, later);
    o := Origins(o1, s1, later);
    hide WellFormed, Step, Run, Extended, CanRun, Origins, PromisesWired, QueueWired, Enabled;
    var r := s1.core.registrations[|s.core.registrations|];
    assert RegistrationWired(o1, r);
    assert o1[r.onFulfilled] == RequestOf(s, a).value;
  }

  lemma {:induction false} ExpectedHas(rs: seq<Registration>, n: nat, p: nat, fulfilled: bool)
    requires n < |rs| && rs[n].p == p
    ensures (if fulfilled then rs[n].onFulfilled else rs[n].onRejected) in PromiseQueue.Expected(rs, p, fulfilled)
  {
    if n < |rs| - 1 { ExpectedHas(rs[..|rs| - 1], n, p, fulfilled); }
  }

  lemma {:induction false} JobsOfInOrder(order: seq<nat>, owner: seq<Option<nat>>, p: nat, id: nat)
    requires id in PromiseQueue.JobsOf(order, owner, p)
    ensures id in order
  {
    if order != [] && id != order[|order| - 1] { JobsOfInOrder(order[..|order| - 1], owner, p, id); }
  }

  /** The identity of the job that registration 'r' has queued once its promise is settled. */
  function JobOf(c: Core<nat>, r: Registration): nat
    requires r.p < |c.promises|
  {
    if c.promises[r.p].status.Fulfilled? then r.onFulfilled else r.onRejected
  }

  lemma SettledIsQueued(c: Core<nat>, n: nat)
    requires PromiseQueue.InOrder(c) && n < |c.registrations|
    ensures c.registrations[n].p < |c.promises|
    ensures !c.promises[c.registrations[n].p].status.Pending? ==> JobOf(c, c.registrations[n]) in PromiseQueue.Order(c)
  {
    var r := c.registrations[n];
    assert PromiseQueue.PromiseInOrder(c, r.p);
    if !c.promises[r.p].status.Pending? {
      ExpectedHas(c.registrations, n, r.p, c.promises[r.p].status.Fulfilled?);
      JobsOfInOrder(PromiseQueue.Order(c), c.owner, r.p, JobOf(c, r));
    }
  }

  /** Registration 'n' is the one of request 'req': once the promise is settled its job is queued (or has run),
      and when that job reaches the head of the queue it does what was asked for. */
  predicate Fulfils(s: State, n: nat, req: Request)
    requires WellFormed(s) && !req.ThenableRequest?
  {
    && n < |s.core.registrations| && req.p < |s.core.promises| && req.derived < |s.core.promises|
    && var r := s.core.registrations[n];
    && r.p == req.p
    && (!s.core.promises[req.p].status.Pending? ==> JobOf(s.core, r) in PromiseQueue.Order(s.core))
    && (Enabled(s, RunEntry) && (s.core.queue[0].id == r.onFulfilled || s.core.queue[0].id == r.onRejected) ==>
          Performs(s, Step(s, RunEntry), req))
  }

  lemma FulfilsRequest(s: State, o: seq<Request>, n: nat, req: Request)
    requires WellFormed(s) && Wired(o, s.core) && PromiseQueue.InOrder(s.core) && n < |s.core.registrations|
    requires var r := s.core.registrations[n]; r.onFulfilled < |o| && r.onRejected < |o| && o[r.onFulfilled] == o[r.onRejected] == req
    requires !req.ThenableRequest? && req.derived < |s.core.promises|
    ensures Fulfils(s, n, req)
  {
    var r := s.core.registrations[n];
    assert RegistrationWired(o, r);
    SettledIsQueued(s.core, n);
    hide Wired, Performs, PromiseQueue.InOrder, PromiseQueue.Order, WellFormed, RunJob;
    if Enabled(s, RunEntry) { HeadPerforms(o, s); }
  }

  /** The promises a request names exist from its registration on. */
  lemma RequestNames(s: State, a: Action, later: seq<Action>)
    requires WellFormed(s) && Enabled(s, a) && (a.Then? || a.Forward?)
    requires WellFormed(Step(s, a)) && CanRun(Step(s, a), later)
    ensures RequestOf(s, a).value.derived < |Run(Step(s, a), later).core.promises|
  {
    PromiseSettling.SettlesAtMostOnce(Step(s, a), later);
    if a.Then? {
      SubscribeWellFormed(AddPromise(s.core), a.p, OnFulfilled(a.onFulfilled), OnRejected(a.onRejected), |s.core.promises|);
    } else {
      SubscribeWellFormed(s.core, a.source, Missing, Missing, a.target);
    }
    hide Run, CanRun, Subscribe;
  }

  lemma RunsInOrderFrom(before: seq<Action>, a: Action, later: seq<Action>)
    requires CanRun(Initial, before) && Enabled(Run(Initial, before), a)
    requires WellFormed(Step(Run(Initial, before), a)) && CanRun(Step(Run(Initial, before), a), later)
    ensures PromiseQueue.InOrder(Run(Step(Run(Initial, before), a), later).core)
  {
    hide *;
    InitialWired();
    PromiseQueue.InitialInOrder();
    PromiseQueue.RunsInOrder(Initial, before);
    PromiseQueue.StepInOrder(Run(Initial, before), a);
    PromiseQueue.RunsInOrder(Step(Run(Initial, before), a), later);
  }

  /** The theorem, for every call of then() and every forward of a run and at every later point of it: if 'p' is
      settled the job is queued, and when it runs, the function given for the outcome of 'p' is called with its
      value for the promise that then() returned; without one that promise gets the outcome. */
  lemma EveryRequestIsServed(before: seq<Action>, a: Action, later: seq<Action>)
    requires CanRun(Initial, before) && Enabled(Run(Initial, before), a) && (a.Then? || a.Forward?)
    requires WellFormed(Step(Run(Initial, before), a)) && CanRun(Step(Run(Initial, before), a), later)
    ensures var s := Run(Initial, before);
            Fulfils(Run(Step(s, a), later), |s.core.registrations|,
                    if a.Then? then ThenRequest(a.p, a.onFulfilled, a.onRejected, |s.core.promises|)
                    else ForwardRequest(a.source, a.target))
  {
    hide Wired, Run, CanRun, Step, Fulfils, WellFormed;
    InitialWired();
    var s := Run(Initial, before);
    var o := RequestKept(before, a, later);
    RunsInOrderFrom(before, a, later);
    RequestNames(s, a, later);
    FulfilsRequest(Run(Step(s, a), later), o, |s.core.registrations|, RequestOf(s, a).value);
  }

  lemma BalancedFrom(before: seq<Action>, a: Action, later: seq<Action>, raced: set<nat>)
    requires CanRun(Initial, before) && Enabled(Run(Initial, before), a)
    requires WellFormed(Step(Run(Initial, before), a)) && CanRun(Step(Run(Initial, before), a), later)
    requires forall k :: 0 <= k < |before| && before[k].Forward? ==> before[k].target in raced
    requires a.Forward? ==> a.target in raced
    requires forall k :: 0 <= k < |later| && later[k].Forward? ==> later[k].target in raced
    ensures PromiseSettling.Balanced(Run(Step(Run(Initial, before), a), later), None, raced)
  {
    hide *;
    InitialWired();
    PromiseSettling.InitialBalanced(raced);
    PromiseSettling.OneAuthority(Initial, before, raced);
    PromiseSettling.StepBalanced(Run(Initial, before), a, raced);
    PromiseSettling.OneAuthority(Step(Run(Initial, before), a), later, raced);
  }

  /** Promise 'd' is pending when a job of registration 'n' is about to run. */
  predicate PendingWhenServed(s: State, n: nat, d: nat)
  {
    && n < |s.core.registrations| && d < |s.core.promises|
    && var r := s.core.registrations[n];
       Enabled(s, RunEntry) && (s.core.queue[0].id == r.onFulfilled || s.core.queue[0].id == r.onRejected) ==>
         s.core.promises[d].status.Pending?
  }

  lemma HeadIsPending(s: State, o: seq<Request>, n: nat, req: Request, raced: set<nat>)
    requires WellFormed(s) && Wired(o, s.core) && PromiseSettling.Balanced(s, None, raced)
    requires n < |s.core.registrations| && req.derived < |s.core.promises| && req.derived !in raced
    requires var r := s.core.registrations[n]; r.onFulfilled < |o| && r.onRejected < |o| && o[r.onFulfilled] == o[r.onRejected] == req
    ensures PendingWhenServed(s, n, req.derived)
  {
    PromiseSettling.ChecksNeverFire(s, raced);
    hide WellFormed, Wired, PromiseSettling.Balanced;
    if Enabled(s, RunEntry) { HeadWired(o, s); }
  }

  /** A promise returned by then() to which race does not forward is still pending when the job that decides over it
      runs, so that the job does settle it. */
  lemma ServedIsPending(before: seq<Action>, a: Action, later: seq<Action>, raced: set<nat>)
    requires CanRun(Initial, before) && Enabled(Run(Initial, before), a) && a.Then?
    requires WellFormed(Step(Run(Initial, before), a)) && CanRun(Step(Run(Initial, before), a), later)
    requires forall k :: 0 <= k < |before| && before[k].Forward? ==> before[k].target in raced
    requires forall k :: 0 <= k < |later| && later[k].Forward? ==> later[k].target in raced
    requires |Run(Initial, before).core.promises| !in raced
    ensures var s := Run(Initial, before); PendingWhenServed(Run(Step(s, a), later), |s.core.registrations|, |s.core.promises|)
  {
    hide Run, CanRun, Step, WellFormed, Wired, PromiseSettling.Balanced, PendingWhenServed;
    InitialWired();
    var s := Run(Initial, before);
    var o := RequestKept(before, a, later);
    RequestNames(s, a, later);
    BalancedFrom(before, a, later, raced);
    HeadIsPending(Run(Step(s, a), later), o, |s.core.registrations|, RequestOf(s, a).value, raced);
  }
}
