/**
 Settlement: a promise settles at most once in any run.  In every run, each promise that race does
 not forward to keeps exactly one authority that can still settle it while it is pending and none
 once it is settled; hence the first call on its resolve/reject pair decides its outcome for ever.
 */
module PromiseSettling {
  import opened Wrappers
  import opened PromiseMachine

  // ---------- At most once ----------

  /** Settled promises keep their state and value. */
  predicate Keeps(c: Core<nat>, c': Core<nat>)
  {
    && |c.promises| <= |c'.promises|
    && forall p :: 0 <= p < |c.promises| && !c.promises[p].status.Pending? ==> c'.promises[p].status == c.promises[p].status
  }

  lemma CheckKeeps(c: Core<nat>, i: nat)
    requires CoreWellFormed(c) && i <= |c.potentiallyUnhandled|
    ensures Keeps(c, CheckFrom(c, i))
    decreases |c.potentiallyUnhandled| - i
  {
    if i < |c.potentiallyUnhandled| { CheckKeeps(CheckOne(c, c.potentiallyUnhandled[i]), i + 1); }
  }

  lemma ResolveKeeps(c: Core<nat>, p: nat, v: Value)
    requires p < |c.promises|
    ensures Keeps(c, DoFulfill(c, p, v)) && Keeps(c, DoReject(c, p, v)) && Keeps(c, StartResolve(c, p, v).0)
  {
  }

  lemma StepKeeps(s: State, a: Action)
    requires WellFormed(s) && Enabled(s, a)
    ensures Keeps(s.core, Step(s, a).core)
  {
    hide DoFulfill, DoReject, StartResolve, CheckFrom;
    match a
    case Resolve(h, v) => ResolveKeeps(s.core, s.handles[h].target, v);
    case Reject(h, v) => ResolveKeeps(s.core, s.handles[h].target, v);
    case GetterReturns(look) => ResolveKeeps(s.core, Top(s).p, if look.GetterThrew? then look.e else Top(s).v);
    case RunEntry =>
      var job := s.core.queue[0];
      if job.ReactionJob? { ResolveKeeps(Dequeue(s.core), job.link, job.value); }
    case UserReturns(outcome) =>
      var p := match Top(s) case HandlerCall(target) => target case ThenCall(h) => s.handles[h].target;
      ResolveKeeps(s.core, p, if outcome.Throw? then outcome.e else outcome.v);
    case Check => CheckKeeps(s.core, 0);
    case _ =>
  }

  /** In every run a settled promise keeps its state and value for ever. */
  lemma {:induction false} SettlesAtMostOnce(s: State, actions: seq<Action>)
    requires WellFormed(s) && CanRun(s, actions)
    ensures Keeps(s.core, Run(s, actions).core)
    decreases |actions|
  {
    if actions != [] {
      StepKeeps(s, actions[0]);
      StepWellFormed(s, actions[0]);
      SettlesAtMostOnce(Step(s, actions[0]), actions[1..]);
    }
  }

  // ---------- Authorities ----------

  function Links(rs: seq<Reaction<nat>>): (r: seq<nat>)
    ensures |r| == |rs| && forall k :: 0 <= k < |rs| ==> r[k] == rs[k].link
  {
    seq(|rs|, k requires 0 <= k < |rs| => rs[k].link)
  }

  function JobLinks(q: seq<Job<nat>>): (r: seq<nat>)
    ensures |r| == |q| && forall k :: 0 <= k < |q| ==> r[k] == q[k].link
  {
    seq(|q|, k requires 0 <= k < |q| => q[k].link)
  }

  function Count(links: seq<nat>, x: nat): nat
  {
    multiset(links)[x]
  }

  /** How many pairs not called yet let user code settle promise 'x'. */
  function HandleCount(hs: seq<Handle>, x: nat): nat
  {
    if hs == [] then 0
    else
      var h := hs[|hs| - 1];
      HandleCount(hs[..|hs| - 1], x) + if !h.alreadyResolved && h.target == x then 1 else 0
  }

  /** Whether promise 'x' is settled when the call of frame 'f' returns. */
  function FrameTarget(f: Frame): Option<nat>
  {
    match f
    case GetterCall(p, _) => Some(p)
    case HandlerCall(p) => Some(p)
    case ThenCall(_) => None
  }

  function FrameCount(fs: seq<Frame>, x: nat): nat
  {
    if fs == [] then 0
    else FrameCount(fs[..|fs| - 1], x) + if FrameTarget(fs[|fs| - 1]) == Some(x) then 1 else 0
  }

  /** How many waiting registrations have 'x' as derived promise. */
  function ReactionCount(ps: seq<Promise<nat>>, x: nat): nat
  {
    if ps == [] then 0
    else ReactionCount(ps[..|ps| - 1], x) + Count(Links(ps[|ps| - 1].fulfillReactions), x)
  }

  function CoreCount(c: Core<nat>, x: nat): nat
  {
    Count(JobLinks(c.queue), x) + ReactionCount(c.promises, x)
  }

  /** How many things can still settle promise 'x': uncalled pairs, open calls, queued jobs, waiting registrations. */
  function Authorities(s: State, x: nat): nat
  {
    HandleCount(s.handles, x) + FrameCount(s.frames, x) + CoreCount(s.core, x)
  }

  function PendingCount(ps: seq<Promise<nat>>, x: nat): nat
  {
    if x < |ps| && ps[x].status.Pending? then 1 else 0
  }

  /** Both reactions of a registration reach the same derived promise; settled promises hold none. */
  predicate Paired(ps: seq<Promise<nat>>)
  {
    forall p :: 0 <= p < |ps| ==>
      && Links(ps[p].fulfillReactions) == Links(ps[p].rejectReactions)
      && (!ps[p].status.Pending? ==> ps[p].fulfillReactions == [])
  }

  /** One authority for every pending promise and none for a settled one, apart from the 'raced' ones that
      Promise.race forwards to; 'held' is an authority the step itself has taken and is about to use. */
  ghost predicate Balanced(s: State, held: Option<nat>, raced: set<nat>)
  {
    && Paired(s.core.promises)
    && forall x: nat :: x !in raced ==>
         Authorities(s, x) + (if held == Some(x) then 1 else 0) == PendingCount(s.core.promises, x)
  }

  // ---------- Lemmas on the parts ----------

  lemma {:induction false} ReactionCountUpdate(ps: seq<Promise<nat>>, p: nat, v: Promise<nat>, x: nat)
    requires p < |ps|
    ensures ReactionCount(ps[p := v], x) + Count(Links(ps[p].fulfillReactions), x)
         == ReactionCount(ps, x) + Count(Links(v.fulfillReactions), x)
  {
    hide Count, Links;
    var n := |ps| - 1;
    if p == n {
      assert ps[p := v][..n] == ps[..n];
    } else {
      assert ps[p := v][..n] == ps[..n][p := v];
      ReactionCountUpdate(ps[..n], p, v, x);
    }
  }

  lemma {:induction false} HandleCountUpdate(hs: seq<Handle>, h: nat, x: nat)
    requires h < |hs| && !hs[h].alreadyResolved
    ensures HandleCount(hs[h := hs[h].(alreadyResolved := true)], x) + (if hs[h].target == x then 1 else 0) == HandleCount(hs, x)
  {
    var n := |hs| - 1;
    var v := hs[h].(alreadyResolved := true);
    if h == n {
      assert hs[h := v][..n] == hs[..n];
    } else {
      assert hs[h := v][..n] == hs[..n][h := v];
      HandleCountUpdate(hs[..n], h, x);
    }
  }

  lemma CountConcat(a: seq<nat>, b: seq<nat>, x: nat)
    ensures Count(a + b, x) == Count(a, x) + Count(b, x)
  {
    assert multiset(a + b) == multiset(a) + multiset(b);
  }

  /** Settling moves the authorities of the waiting registrations to the queue. */
  lemma SettleCount(c: Core<nat>, p: nat, status: Status, rs: seq<Reaction<nat>>, v: Value, rejected: bool, x: nat)
    requires p < |c.promises| && Links(rs) == Links(c.promises[p].fulfillReactions)
    ensures CoreCount(c.(promises := c.promises[p := Settled(c.promises[p], status)],
                         queue := c.queue + Activated(rs, v, rejected)), x)
         == CoreCount(c, x)
  {
    ReactionCountUpdate(c.promises, p, Settled(c.promises[p], status), x);
    assert Links([]) == [] && Count([], x) == 0;
    assert JobLinks(c.queue + Activated(rs, v, rejected)) == JobLinks(c.queue) + Links(rs);
    CountConcat(JobLinks(c.queue), Links(rs), x);
  }

  /** Changing only the flags of a promise changes no authority. */
  lemma FlagsCount(c: Core<nat>, c': Core<nat>, p: nat, x: nat)
    requires p < |c.promises| == |c'.promises| && c'.queue == c.queue
    requires c'.promises == c.promises[p := c.promises[p].(isHandled := c'.promises[p].isHandled, unhandled := c'.promises[p].unhandled)]
    ensures CoreCount(c', x) == CoreCount(c, x)
    ensures Paired(c.promises) ==> Paired(c'.promises)
  {
    ReactionCountUpdate(c.promises, p, c'.promises[p], x);
  }

  lemma FulfillCount(c: Core<nat>, p: nat, v: Value, x: nat)
    requires p < |c.promises| && Paired(c.promises) && c.promises[p].status.Pending?
    ensures var c' := DoFulfill(c, p, v);
            && CoreCount(c', x) == CoreCount(c, x) && Paired(c'.promises)
            && PendingCount(c'.promises, x) == if x == p then 0 else PendingCount(c.promises, x)
  {
    SettleCount(c, p, Fulfilled(v), c.promises[p].fulfillReactions, v, false, x);
  }

  lemma RejectCount(c: Core<nat>, p: nat, v: Value, x: nat)
    requires p < |c.promises| && Paired(c.promises) && c.promises[p].status.Pending?
    ensures var c' := DoReject(c, p, v);
            && CoreCount(c', x) == CoreCount(c, x) && Paired(c'.promises)
            && PendingCount(c'.promises, x) == if x == p then 0 else PendingCount(c.promises, x)
  {
    hide CoreCount;
    SettleCount(c, p, Rejected(v), c.promises[p].rejectReactions, v, true, x);
    var c1 := c.(promises := c.promises[p := Settled(c.promises[p], Rejected(v))],
                 queue := c.queue + Activated(c.promises[p].rejectReactions, v, true));
    if !c.promises[p].isHandled { FlagsCount(c1, TrackReject(c1, p), p, x); }
  }

  // ---------- Lemmas on the operations ----------

  /** The check for an already settled promise never fires for an authority that is used. */
  lemma HeldIsPending(s: State, p: nat, raced: set<nat>)
    requires Balanced(s, Some(p), raced) && p !in raced
    ensures p < |s.core.promises| && s.core.promises[p].status.Pending?
  {
    assert PendingCount(s.core.promises, p) >= 1;
  }

  lemma RejectBalanced(s: State, p: nat, v: Value, raced: set<nat>)
    requires Balanced(s, Some(p), raced) && p < |s.core.promises|
    ensures Balanced(RejectTarget(s, p, v), None, raced)
  {
    if p !in raced { HeldIsPending(s, p, raced); }
    if !s.core.promises[p].status.Pending? { return; }
    forall x: nat { RejectCount(s.core, p, v, x); }
    RejectCount(s.core, p, v, p);
    hide DoReject, CoreCount, PendingCount, Paired;
    assert forall x: nat :: Authorities(RejectTarget(s, p, v), x) == Authorities(s, x);
  }

  lemma FulfillBalanced(s: State, p: nat, v: Value, raced: set<nat>)
    requires Balanced(s, Some(p), raced) && p < |s.core.promises|
    ensures Balanced(s.(core := DoFulfill(s.core, p, v)), None, raced)
  {
    if p !in raced { HeldIsPending(s, p, raced); }
    if !s.core.promises[p].status.Pending? { return; }
    forall x: nat { FulfillCount(s.core, p, v, x); }
    FulfillCount(s.core, p, v, p);
    hide DoFulfill, CoreCount, PendingCount, Paired;
    assert forall x: nat :: Authorities(s.(core := DoFulfill(s.core, p, v)), x) == Authorities(s, x);
  }

  lemma PushCount(fs: seq<Frame>, f: Frame, x: nat)
    ensures FrameCount(fs + [f], x) == FrameCount(fs, x) + if FrameTarget(f) == Some(x) then 1 else 0
  {
    assert (fs + [f])[..|fs|] == fs;
  }

  lemma PushBalanced(s: State, f: Frame, raced: set<nat>)
    requires Balanced(s, FrameTarget(f), raced)
    ensures Balanced(s.(frames := s.frames + [f]), None, raced)
  {
    forall x: nat ensures Authorities(s.(frames := s.frames + [f]), x) == Authorities(s, x) + if FrameTarget(f) == Some(x) then 1 else 0 {
      PushCount(s.frames, f, x);
    }
  }

  lemma PopBalanced(s: State, raced: set<nat>)
    requires Balanced(s, None, raced) && s.frames != []
    ensures Balanced(Pop(s), FrameTarget(Top(s)), raced)
  {
    forall x: nat ensures Authorities(s, x) == Authorities(Pop(s), x) + if FrameTarget(Top(s)) == Some(x) then 1 else 0 {
    }
  }

  lemma ResolveBalanced(s: State, p: nat, v: Value, raced: set<nat>)
    requires Balanced(s, Some(p), raced) && p < |s.core.promises|
    ensures Balanced(ResolveTarget(s, p, v), None, raced)
  {
    if p !in raced { HeldIsPending(s, p, raced); }
    if !s.core.promises[p].status.Pending? { return; }
    RejectBalanced(s, p, SelfResolutionError, raced);
    FulfillBalanced(s, p, v, raced);
    PushBalanced(s, GetterCall(p, v), raced);
    hide DoReject, DoFulfill, Balanced;
  }

  lemma NeutralizeBalanced(s: State, h: nat, raced: set<nat>)
    requires Balanced(s, None, raced) && h < |s.handles| && !s.handles[h].alreadyResolved
    ensures Balanced(Neutralize(s, h), Some(s.handles[h].target), raced)
  {
    forall x: nat ensures Authorities(s, x) == Authorities(Neutralize(s, h), x) + if s.handles[h].target == x then 1 else 0 {
      HandleCountUpdate(s.handles, h, x);
    }
  }

  lemma CallRejectBalanced(s: State, h: nat, v: Value, raced: set<nat>)
    requires Balanced(s, None, raced) && h < |s.handles| && s.handles[h].target < |s.core.promises|
    ensures Balanced(CallReject(s, h, v), None, raced)
  {
    if !s.handles[h].alreadyResolved {
      NeutralizeBalanced(s, h, raced);
      RejectBalanced(Neutralize(s, h), s.handles[h].target, v, raced);
    }
  }

  lemma CallResolveBalanced(s: State, h: nat, v: Value, raced: set<nat>)
    requires Balanced(s, None, raced) && h < |s.handles| && s.handles[h].target < |s.core.promises|
    ensures Balanced(CallResolve(s, h, v), None, raced)
  {
    if !s.handles[h].alreadyResolved {
      NeutralizeBalanced(s, h, raced);
      ResolveBalanced(Neutralize(s, h), s.handles[h].target, v, raced);
    }
  }

  lemma DequeueBalanced(s: State, raced: set<nat>)
    requires Balanced(s, None, raced) && s.core.queue != []
    ensures Balanced(s.(core := Dequeue(s.core)), Some(s.core.queue[0].link), raced)
  {
    var q := s.core.queue;
    forall x: nat
      ensures Authorities(s, x) == Authorities(s.(core := Dequeue(s.core)), x) + if q[0].link == x then 1 else 0
    {
      assert JobLinks(q) == [q[0].link] + JobLinks(q[1..]);
      CountConcat([q[0].link], JobLinks(q[1..]), x);
    }
  }

  /** A held authority becomes the job that calls the 'then' method of a thenable. */
  lemma ThenableBalanced(s: State, p: nat, v: Value, f: int, raced: set<nat>)
    requires Balanced(s, Some(p), raced)
    ensures Balanced(s.(core := EnqueueThenable(s.core, v, f, p)), None, raced)
  {
    forall x: nat
      ensures Authorities(s.(core := EnqueueThenable(s.core, v, f, p)), x) == Authorities(s, x) + if p == x then 1 else 0
    {
      var job := ThenableJob(|s.core.owner|, v, f, p);
      assert JobLinks(s.core.queue + [job]) == JobLinks(s.core.queue) + [p];
      CountConcat(JobLinks(s.core.queue), [p], x);
    }
  }

  /** A held authority becomes a pair handed to user code. */
  lemma HandOutBalanced(s: State, p: nat, raced: set<nat>)
    requires Balanced(s, Some(p), raced)
    ensures Balanced(s.(handles := s.handles + [Handle(p, false)]), None, raced)
  {
    var hs := s.handles + [Handle(p, false)];
    assert hs[..|s.handles|] == s.handles;
    forall x: nat ensures Authorities(s.(handles := hs), x) == Authorities(s, x) + if p == x then 1 else 0 {
    }
  }

  /** The log carries no authority. */
  lemma LogBalanced(s: State, log: seq<Event>, held: Option<nat>, raced: set<nat>)
    requires Balanced(s, held, raced)
    ensures Balanced(s.(core := s.core.(log := log)), held, raced)
  {
    assert forall x: nat :: Authorities(s.(core := s.core.(log := log)), x) == Authorities(s, x);
  }

  /** A new pending promise whose authority is not yet placed. */
  lemma AddPromiseBalanced(s: State, raced: set<nat>)
    requires Balanced(s, None, raced)
    ensures Balanced(s.(core := AddPromise(s.core)), Some(|s.core.promises|), raced)
  {
    var c := AddPromise(s.core);
    assert c.promises[..|s.core.promises|] == s.core.promises;
    assert Links([]) == [];
    forall x: nat ensures Authorities(s.(core := c), x) == Authorities(s, x) {
      assert Count([], x) == 0;
    }
  }

  // ---------- Registering a derived promise ----------

  lemma LinksPush(rs: seq<Reaction<nat>>, r: Reaction<nat>)
    ensures Links(rs + [r]) == Links(rs) + [r.link]
  {
  }

  lemma SubscribePendingCount(c: Core<nat>, p: nat, onF: Handler, onR: Handler, q: nat, x: nat)
    requires p < |c.promises| && Paired(c.promises) && c.promises[p].status.Pending?
    ensures var c' := Subscribe(c, p, onF, onR, q);
            && CoreCount(c', x) == CoreCount(c, x) + (if q == x then 1 else 0)
            && Paired(c'.promises) && PendingCount(c'.promises, x) == PendingCount(c.promises, x)
  {
    var c' := Subscribe(c, p, onF, onR, q);
    var n := |c.owner|;
    var pr := c.promises[p];
    LinksPush(pr.fulfillReactions, Reaction(n, onF, q));
    LinksPush(pr.rejectReactions, Reaction(n + 1, onR, q));
    CountConcat(Links(pr.fulfillReactions), [q], x);
    ReactionCountUpdate(c.promises, p, c'.promises[p], x);
    assert c'.promises == c.promises[p := c'.promises[p]];
  }

  lemma EnqueueNowCount(c: Core<nat>, p: nat, job: Job<nat>, x: nat)
    ensures CoreCount(EnqueueNow(c, p, job), x) == CoreCount(c, x) + if job.link == x then 1 else 0
  {
    assert JobLinks(c.queue + [job]) == JobLinks(c.queue) + [job.link];
    CountConcat(JobLinks(c.queue), [job.link], x);
  }

  lemma MarkHandledCount(c: Core<nat>, p: nat, x: nat)
    requires p < |c.promises| && Paired(c.promises)
    ensures var c' := MarkHandled(c, p);
            CoreCount(c', x) == CoreCount(c, x) && Paired(c'.promises) && PendingCount(c'.promises, x) == PendingCount(c.promises, x)
  {
    FlagsCount(c, MarkHandled(c, p), p, x);
  }

  lemma TrackHandleCount(c: Core<nat>, p: nat, x: nat)
    requires p < |c.promises| && Paired(c.promises)
    ensures var c' := TrackHandle(c, p);
            CoreCount(c', x) == CoreCount(c, x) && Paired(c'.promises) && PendingCount(c'.promises, x) == PendingCount(c.promises, x)
  {
    FlagsCount(c, TrackHandle(c, p), p, x);
  }

  lemma SubscribeCount(c: Core<nat>, p: nat, onF: Handler, onR: Handler, q: nat, x: nat)
    requires p < |c.promises| && Paired(c.promises)
    ensures var c' := Subscribe(c, p, onF, onR, q);
            && CoreCount(c', x) == CoreCount(c, x) + (if q == x then 1 else 0)
            && Paired(c'.promises) && PendingCount(c'.promises, x) == PendingCount(c.promises, x)
  {
    assert forall d: Core<nat>, j: Job<nat> {:trigger EnqueueNow(d, p, j)} :: EnqueueNow(d, p, j).promises == d.promises;
    hide CoreCount, PendingCount, Paired, MarkHandled, EnqueueNow;
    match c.promises[p].status
    case Pending => SubscribePendingCount(c, p, onF, onR, q, x);
    case Fulfilled(v) =>
      var job := ReactionJob(|c.owner|, onF, q, v, false);
      EnqueueNowCount(c, p, job, x);
      MarkHandledCount(EnqueueNow(c, p, job), p, x);
    case Rejected(v) =>
      var job := ReactionJob(|c.owner|, onR, q, v, onR.Missing?);
      TrackHandleCount(c, p, x);
      var c1 := if c.promises[p].isHandled then c else TrackHandle(c, p);
      EnqueueNowCount(c1, p, job, x);
      MarkHandledCount(EnqueueNow(c1, p, job), p, x);
  }

  lemma SubscribeBalanced(s: State, p: nat, onF: Handler, onR: Handler, q: nat, raced: set<nat>)
    requires Balanced(s, Some(q), raced) && p < |s.core.promises|
    ensures Balanced(s.(core := Subscribe(s.core, p, onF, onR, q)), None, raced)
  {
    forall x: nat { SubscribeCount(s.core, p, onF, onR, q, x); }
    SubscribeCount(s.core, p, onF, onR, q, 0);
    hide Subscribe, CoreCount, PendingCount, Paired;
    assert forall x: nat :: Authorities(s.(core := Subscribe(s.core, p, onF, onR, q)), x)
                         == Authorities(s, x) + if q == x then 1 else 0;
  }

  // ---------- All runs ----------

  lemma CheckOneCount(c: Core<nat>, p: nat, x: nat)
    requires p < |c.promises| && Paired(c.promises)
    ensures var c' := CheckOne(c, p);
            CoreCount(c', x) == CoreCount(c, x) && Paired(c'.promises) && PendingCount(c'.promises, x) == PendingCount(c.promises, x)
  {
    FlagsCount(c, CheckOne(c, p), p, x);
    hide CoreCount, Paired;
  }

  lemma {:induction false} CheckCount(c: Core<nat>, i: nat, x: nat)
    requires CoreWellFormed(c) && i <= |c.potentiallyUnhandled| && Paired(c.promises)
    ensures var c' := CheckFrom(c, i);
            CoreCount(c', x) == CoreCount(c, x) && Paired(c'.promises) && PendingCount(c'.promises, x) == PendingCount(c.promises, x)
    decreases |c.potentiallyUnhandled| - i
  {
    hide CoreCount, Paired, PendingCount;
    if i < |c.potentiallyUnhandled| {
      var p := c.potentiallyUnhandled[i];
      CheckOneCount(c, p, x);
      CheckCount(CheckOne(c, p), i + 1, x);
    }
  }

  lemma CheckBalanced(s: State, raced: set<nat>)
    requires WellFormed(s) && Balanced(s, None, raced)
    ensures Balanced(s.(core := CheckRejections(s.core)), None, raced)
  {
    forall x: nat { CheckCount(s.core, 0, x); }
    CheckCount(s.core, 0, 0);
    hide CheckFrom, PendingCount, Paired;
    assert forall x: nat :: Authorities(s.(core := CheckRejections(s.core)), x) == Authorities(s, x);
  }

  /** The job of a thenable hands its authority to user code as a pair of its own. */
  lemma ThenableJobBalanced(s: State, p: nat, e: Event, raced: set<nat>)
    requires Balanced(s, Some(p), raced)
    ensures var h := |s.handles|;
            Balanced(s.(handles := s.handles + [Handle(p, false)], frames := s.frames + [ThenCall(h)],
                        core := s.core.(log := s.core.log + [e])), None, raced)
  {
    var s1 := s.(handles := s.handles + [Handle(p, false)]);
    HandOutBalanced(s, p, raced);
    PushBalanced(s1, ThenCall(|s.handles|), raced);
    LogBalanced(s1.(frames := s.frames + [ThenCall(|s.handles|)]), s.core.log + [e], None, raced);
    hide Balanced;
  }

  lemma HandlerCallBalanced(s: State, p: nat, e: Event, raced: set<nat>)
    requires Balanced(s, Some(p), raced)
    ensures Balanced(s.(frames := s.frames + [HandlerCall(p)], core := s.core.(log := s.core.log + [e])), None, raced)
  {
    PushBalanced(s, HandlerCall(p), raced);
    LogBalanced(s.(frames := s.frames + [HandlerCall(p)]), s.core.log + [e], None, raced);
    hide Balanced;
  }

  lemma RunJobBalanced(s: State, raced: set<nat>)
    requires WellFormed(s) && Balanced(s, None, raced) && s.core.queue != []
    ensures Balanced(RunJob(s), None, raced)
  {
    hide Balanced, ResolveTarget, RejectTarget;
    var s1 := s.(core := Dequeue(s.core));
    assert s1.core.promises == s.core.promises && s1.core.log == s.core.log;
    hide Dequeue;
    DequeueBalanced(s, raced);
    match s.core.queue[0]
    case ThenableJob(_, thenable, f, p) => ThenableJobBalanced(s1, p, CallThen(f, thenable, |s.handles|), raced);
    case ReactionJob(_, handler, p, v, rejected) =>
      ResolveBalanced(s1, p, v, raced);
      RejectBalanced(s1, p, v, raced);
      if handler.Fn? { HandlerCallBalanced(s1, p, Call(handler.f, v), raced); }
  }

  lemma FinishBalanced(s: State, outcome: Outcome, raced: set<nat>)
    requires WellFormed(s) && Balanced(s, None, raced) && Enabled(s, UserReturns(outcome))
    ensures Balanced(FinishJob(s, outcome), None, raced)
  {
    PopBalanced(s, raced);
    hide Balanced;
    match Top(s)
    case HandlerCall(p) =>
      if outcome.Return? { ResolveBalanced(Pop(s), p, outcome.v, raced); } else { RejectBalanced(Pop(s), p, outcome.e, raced); }
    case ThenCall(h) =>
      if outcome.Throw? { CallRejectBalanced(Pop(s), h, outcome.e, raced); }
  }

  lemma GetterBalanced(s: State, look: Look, raced: set<nat>)
    requires WellFormed(s) && Balanced(s, None, raced) && Enabled(s, GetterReturns(look))
    ensures Balanced(FinishGetter(Pop(s), Top(s).p, Top(s).v, look), None, raced)
  {
    PopBalanced(s, raced);
    hide Balanced;
    match look
    case NotCallable => FulfillBalanced(Pop(s), Top(s).p, Top(s).v, raced);
    case Callable(f) => ThenableBalanced(Pop(s), Top(s).p, Top(s).v, f, raced);
    case GetterThrew(e) => RejectBalanced(Pop(s), Top(s).p, e, raced);
  }

  /** The balance says nothing about a raced promise, so an authority for it may come from nowhere. */
  lemma RacedMayBeHeld(s: State, p: nat, raced: set<nat>)
    requires Balanced(s, None, raced) && p in raced
    ensures Balanced(s, Some(p), raced)
  {
  }

  lemma StepBalanced(s: State, a: Action, raced: set<nat>)
    requires WellFormed(s) && Balanced(s, None, raced) && Enabled(s, a)
    requires a.Forward? ==> a.target in raced
    ensures Balanced(Step(s, a), None, raced)
  {
    var grown := |AddPromise(s.core).promises|;
    assert grown == |s.core.promises| + 1;
    hide Balanced, FinishJob, FinishGetter, RunJob, Subscribe, AddPromise;
    match a
    case NewPromise =>
      AddPromiseBalanced(s, raced);
      HandOutBalanced(s.(core := AddPromise(s.core)), |s.core.promises|, raced);
    case Resolve(h, v) => CallResolveBalanced(s, h, v, raced);
    case Reject(h, v) => CallRejectBalanced(s, h, v, raced);
    case Then(p, onF, onR) =>
      AddPromiseBalanced(s, raced);
      SubscribeBalanced(s.(core := AddPromise(s.core)), p, OnFulfilled(onF), OnRejected(onR), |s.core.promises|, raced);
    case Forward(source, target) =>
      RacedMayBeHeld(s, target, raced);
      SubscribeBalanced(s, source, Missing, Missing, target, raced);
    case GetterReturns(look) => GetterBalanced(s, look, raced);
    case RunEntry => RunJobBalanced(s, raced);
    case UserReturns(outcome) => FinishBalanced(s, outcome, raced);
    case Check => CheckBalanced(s, raced);
  }

  /** The theorem: in every run, a pending promise that race does not forward to keeps exactly one
      authority, and a settled one has none. */
  lemma {:induction false} OneAuthority(s: State, actions: seq<Action>, raced: set<nat>)
    requires WellFormed(s) && Balanced(s, None, raced) && CanRun(s, actions)
    requires forall k :: 0 <= k < |actions| && actions[k].Forward? ==> actions[k].target in raced
    ensures Balanced(Run(s, actions), None, raced)
    decreases |actions|
  {
    if actions != [] {
      StepBalanced(s, actions[0], raced);
      StepWellFormed(s, actions[0]);
      OneAuthority(Step(s, actions[0]), actions[1..], raced);
    }
  }

  lemma InitialBalanced(raced: set<nat>)
    ensures WellFormed(Initial) && Balanced(Initial, None, raced)
  {
    assert forall x: nat :: Count([], x) == 0;
    assert JobLinks([]) == [];
  }

  lemma UncalledPairCounts(hs: seq<Handle>, h: nat)
    requires h < |hs| && !hs[h].alreadyResolved
    ensures HandleCount(hs, hs[h].target) >= 1
  {
    if h < |hs| - 1 { UncalledPairCounts(hs[..|hs| - 1], h); }
  }

  lemma OpenCallCounts(fs: seq<Frame>, k: nat, x: nat)
    requires k < |fs| && FrameTarget(fs[k]) == Some(x)
    ensures FrameCount(fs, x) >= 1
  {
    if k < |fs| - 1 { OpenCallCounts(fs[..|fs| - 1], k, x); }
  }

  /** What a balanced state means for the "additional checks": whatever is about to settle a promise
      that race does not forward to finds it pending. */
  lemma ChecksNeverFire(s: State, raced: set<nat>)
    requires WellFormed(s) && Balanced(s, None, raced)
    ensures forall h :: 0 <= h < |s.handles| && !s.handles[h].alreadyResolved && s.handles[h].target !in raced ==>
              s.core.promises[s.handles[h].target].status.Pending?
    ensures forall k :: 0 <= k < |s.core.queue| && s.core.queue[k].link !in raced ==>
              s.core.promises[s.core.queue[k].link].status.Pending?
    ensures forall k :: 0 <= k < |s.frames| && FrameTarget(s.frames[k]).Some? && FrameTarget(s.frames[k]).value !in raced ==>
              s.core.promises[FrameTarget(s.frames[k]).value].status.Pending?
  {
    forall h | 0 <= h < |s.handles| && !s.handles[h].alreadyResolved && s.handles[h].target !in raced
      ensures s.core.promises[s.handles[h].target].status.Pending?
    {
      UncalledPairCounts(s.handles, h);
      assert Authorities(s, s.handles[h].target) >= 1;
    }
    forall k | 0 <= k < |s.core.queue| && s.core.queue[k].link !in raced
      ensures s.core.promises[s.core.queue[k].link].status.Pending?
    {
      assert JobLinks(s.core.queue)[k] in multiset(JobLinks(s.core.queue));
      assert Authorities(s, s.core.queue[k].link) >= 1;
    }
    forall k | 0 <= k < |s.frames| && FrameTarget(s.frames[k]).Some? && FrameTarget(s.frames[k]).value !in raced
      ensures s.core.promises[FrameTarget(s.frames[k]).value].status.Pending?
    {
      OpenCallCounts(s.frames, k, FrameTarget(s.frames[k]).value);
      assert Authorities(s, FrameTarget(s.frames[k]).value) >= 1;
    }
  }

  /** Of two pairs made for one promise (the second for a thenable) at most one is still uncalled. */
  lemma OneUncalledPairOnly(s: State, h: nat, h': nat, raced: set<nat>)
    requires WellFormed(s) && Balanced(s, None, raced) && h < h' < |s.handles|
    requires s.handles[h].target == s.handles[h'].target && s.handles[h].target !in raced
    ensures s.handles[h].alreadyResolved || s.handles[h'].alreadyResolved
  {
    var t := s.handles[h].target;
    TwoPairsCount(s.handles, h, h');
    assert Authorities(s, t) == PendingCount(s.core.promises, t);
  }

  lemma TwoPairsCount(hs: seq<Handle>, h: nat, h': nat)
    requires h < h' < |hs| && hs[h].target == hs[h'].target
    ensures hs[h].alreadyResolved || hs[h'].alreadyResolved || HandleCount(hs, hs[h].target) >= 2
  {
    var n := |hs| - 1;
    if h' < n {
      TwoPairsCount(hs[..n], h, h');
    } else if !hs[h].alreadyResolved {
      UncalledPairCounts(hs[..n], h);
    }
  }

  /** Promise.race breaks the balance of its target: every promise it forwards gives the target one
      authority more than a pending promise has, which is why the machine checks for a settled target. */
  lemma RaceAddsAuthority(s: State, source: nat, target: nat, raced: set<nat>)
    requires WellFormed(s) && Balanced(s, None, raced) && Enabled(s, Forward(source, target)) && target !in raced
    ensures Authorities(Step(s, Forward(source, target)), target) == PendingCount(s.core.promises, target) + 1
    ensures !Balanced(Step(s, Forward(source, target)), None, raced)
    ensures Balanced(Step(s, Forward(source, target)), None, raced + {target})
  {
    SubscribeCount(s.core, source, Missing, Missing, target, target);
    assert Authorities(s, target) + 0 == PendingCount(s.core.promises, target);
    StepBalanced(s, Forward(source, target), raced + {target});
  }

  // ---------- The first call decides ----------

  /** Pairs keep their target, and a called pair stays called. */
  predicate PairsKept(s: State, s': State)
  {
    && |s.handles| <= |s'.handles|
    && forall h :: 0 <= h < |s.handles| ==>
         && s'.handles[h].target == s.handles[h].target
         && (s.handles[h].alreadyResolved ==> s'.handles[h].alreadyResolved)
  }

  lemma StepPairsKept(s: State, a: Action)
    requires WellFormed(s) && Enabled(s, a)
    ensures PairsKept(s, Step(s, a))
  {
    hide DoFulfill, DoReject, StartResolve, Subscribe, CheckRejections;
  }

  lemma {:induction false} RunPairsKept(s: State, actions: seq<Action>)
    requires WellFormed(s) && CanRun(s, actions)
    ensures PairsKept(s, Run(s, actions))
    decreases |actions|
  {
    if actions != [] {
      StepPairsKept(s, actions[0]);
      StepWellFormed(s, actions[0]);
      RunPairsKept(Step(s, actions[0]), actions[1..]);
    }
  }

  /** Once a pair is called, in whatever run follows any further call of it changes nothing at all. */
  lemma CalledPairIsInert(s: State, actions: seq<Action>, h: nat, v: Value)
    requires WellFormed(s) && CanRun(s, actions) && h < |s.handles| && s.handles[h].alreadyResolved
    ensures h < |Run(s, actions).handles|
    ensures Step(Run(s, actions), Resolve(h, v)) == Step(Run(s, actions), Reject(h, v)) == Run(s, actions)
  {
    RunPairsKept(s, actions);
    hide Run;
  }

  /** What the first call of a pair makes of its promise: nothing is decided yet only if the value is
      an object whose 'then' must be looked up first. */
  function FirstOutcome(p: nat, call: Action): Status
    requires call.Resolve? || call.Reject?
  {
    if call.Reject? then Rejected(call.v)
    else if call.v == PromiseObject(p) then Rejected(SelfResolutionError)
    else if call.v.Plain? then Fulfilled(call.v)
    else Pending
  }

  /** In any run, race included, the first call of the pair of a promise that race does not forward to
      decides: the call has the outcome of its value, no later call of the pair has any effect, and
      unless the value's 'then' decides the outcome stands for ever. */
  lemma FirstCallDecides(s: State, call: Action, later: seq<Action>, raced: set<nat>)
    requires WellFormed(s) && Balanced(s, None, raced) && (call.Resolve? || call.Reject?) && Enabled(s, call)
    requires !s.handles[call.h].alreadyResolved && s.handles[call.h].target !in raced
    requires WellFormed(Step(s, call)) && CanRun(Step(s, call), later)
    ensures s.handles[call.h].target < |Step(s, call).core.promises| <= |Run(Step(s, call), later).core.promises|
    ensures call.h < |Run(Step(s, call), later).handles|
    ensures var p, s' := s.handles[call.h].target, Run(Step(s, call), later);
            && Step(s, call).core.promises[p].status == FirstOutcome(p, call)
            && (!FirstOutcome(p, call).Pending? ==> s'.core.promises[p].status == FirstOutcome(p, call))
            && (forall w :: CallResolve(s', call.h, w) == s' && CallReject(s', call.h, w) == s')
  {
    ChecksNeverFire(s, raced);
    StepWellFormed(s, call);
    SettlesAtMostOnce(Step(s, call), later);
    RunPairsKept(Step(s, call), later);
    hide Balanced, Run;
  }

  /** The same for whole runs of the machine: 'before' and 'later' are arbitrary, except that race does
      not forward to the promise before the call. */
  lemma OutcomeOfFirstCall(before: seq<Action>, call: Action, later: seq<Action>, raced: set<nat>)
    requires CanRun(Initial, before) && (call.Resolve? || call.Reject?) && Enabled(Run(Initial, before), call)
    requires forall k :: 0 <= k < |before| && before[k].Forward? ==> before[k].target in raced
    requires !Run(Initial, before).handles[call.h].alreadyResolved && Run(Initial, before).handles[call.h].target !in raced
    requires WellFormed(Step(Run(Initial, before), call)) && CanRun(Step(Run(Initial, before), call), later)
    ensures var s := Run(Initial, before);
            var p, s' := s.handles[call.h].target, Run(Step(s, call), later);
            && p < |s'.core.promises|
            && (FirstOutcome(p, call).Pending? || s'.core.promises[p].status == FirstOutcome(p, call))
  {
    InitialBalanced(raced);
    OneAuthority(Initial, before, raced);
    FirstCallDecides(Run(Initial, before), call, later, raced);
    hide Balanced, Run;
  }
}
