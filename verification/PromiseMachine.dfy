/**
 The promise machine with the "as if" optimization: jobs and reactions name the promise they
 settle, and a resolve/reject pair is only made when a job runs.  User code is the environment:
 between two steps of the machine it may call whatever it holds, and a call out to user code (a
 handler, a 'then' method, a 'then' getter) is left open on a stack of frames until it returns.
 */
module PromiseMachine {
  import opened Wrappers

  /** What promise code can tell about a value: whether it is an object, and which promise it is. */
  datatype Value = Plain(n: int) | Object(n: int) | PromiseObject(p: nat) | SelfResolutionError

  datatype Status = Pending | Fulfilled(v: Value) | Rejected(v: Value)

  /** A reaction handler: user function, built-in Identity or Thrower, or absent in an entry that only forwards. */
  datatype Handler = Missing | Identity | Thrower | Fn(f: int)

  /** A registered reaction; 'link' says how the derived promise is reached. */
  datatype Reaction<L> = Reaction(id: nat, handler: Handler, link: L)

  /** 'unhandled' is 0 when absent, 1 pending notification, 2 notified, 3 handled after notification. */
  datatype Promise<L> = Promise(status: Status, fulfillReactions: seq<Reaction<L>>, rejectReactions: seq<Reaction<L>>,
                                isHandled: bool, unhandled: nat)

  datatype Job<L> =
    | ThenableJob(id: nat, thenable: Value, thenFn: int, link: L)
    | ReactionJob(id: nat, handler: Handler, link: L, value: Value, rejected: bool)

  datatype Event =
    | Call(f: int, v: Value)
    | CallThen(f: int, thenable: Value, h: nat)
    | RawReject(p: nat) | RawHandle(p: nat)
    | NotifyReject(p: nat) | NotifyHandle(p: nat)

  /** A registration on promise 'p': the job that runs if it is fulfilled, and the one if it is rejected. */
  datatype Registration = Registration(p: nat, onFulfilled: nat, onRejected: nat)

  /** Promises, job queue and rejection list.  The last three fields are history: the jobs already
      taken from the queue, all registrations, and the promise (if any) whose settling each job awaited. */
  datatype Core<L> = Core(promises: seq<Promise<L>>, queue: seq<Job<L>>, potentiallyUnhandled: seq<nat>, log: seq<Event>,
                          ran: seq<nat>, registrations: seq<Registration>, owner: seq<Option<nat>>)

  // ---------- Settling ----------

  function Ids<L>(rs: seq<Reaction<L>>): (r: seq<nat>)
    ensures |r| == |rs| && forall k :: 0 <= k < |rs| ==> r[k] == rs[k].id
  {
    seq(|rs|, k requires 0 <= k < |rs| => rs[k].id)
  }

  function JobIds<L>(q: seq<Job<L>>): (r: seq<nat>)
    ensures |r| == |q| && forall k :: 0 <= k < |q| ==> r[k] == q[k].id
  {
    seq(|q|, k requires 0 <= k < |q| => q[k].id)
  }

  function Activate<L>(r: Reaction<L>, v: Value, rejected: bool): Job<L>
  {
    ReactionJob(r.id, r.handler, r.link, v, rejected && r.handler.Missing?)
  }

  /** The jobs of reactions, in registration order. */
  function Activated<L>(rs: seq<Reaction<L>>, v: Value, rejected: bool): (q: seq<Job<L>>)
    ensures |q| == |rs| && forall k :: 0 <= k < |rs| ==> q[k] == Activate(rs[k], v, rejected)
  {
    seq(|rs|, k requires 0 <= k < |rs| => Activate(rs[k], v, rejected))
  }

  function Settled<L>(p: Promise<L>, status: Status): Promise<L>
  {
    p.(status := status, fulfillReactions := [], rejectReactions := [])
  }

  function DoFulfill<L>(c: Core<L>, p: nat, v: Value): Core<L>
    requires p < |c.promises|
  {
    if !c.promises[p].status.Pending? then c
    else c.(promises := c.promises[p := Settled(c.promises[p], Fulfilled(v))],
            queue := c.queue + Activated(c.promises[p].fulfillReactions, v, false))
  }

  function DoReject<L>(c: Core<L>, p: nat, v: Value): Core<L>
    requires p < |c.promises|
  {
    if !c.promises[p].status.Pending? then c
    else
      var c1 := c.(promises := c.promises[p := Settled(c.promises[p], Rejected(v))],
                   queue := c.queue + Activated(c.promises[p].rejectReactions, v, true));
      if c.promises[p].isHandled then c1 else TrackReject(c1, p)
  }

  /** The rejection tracker for a promise rejected while unhandled. */
  function TrackReject<L>(c: Core<L>, p: nat): Core<L>
    requires p < |c.promises|
  {
    c.(log := c.log + [RawReject(p)], promises := c.promises[p := c.promises[p].(unhandled := 1)],
       potentiallyUnhandled := c.potentiallyUnhandled + [p])
  }

  /** The rejection tracker for a rejected promise that gets its first handler. */
  function TrackHandle<L>(c: Core<L>, p: nat): Core<L>
    requires p < |c.promises|
  {
    var c1 := c.(log := c.log + [RawHandle(p)]);
    if c.promises[p].unhandled == 2 then
      c1.(promises := c.promises[p := c.promises[p].(unhandled := 3)],
          potentiallyUnhandled := c.potentiallyUnhandled + [p])
    else
      c1.(promises := c.promises[p := c.promises[p].(unhandled := 0)])
  }

  // ---------- Registering ----------

  /** A new pending promise. */
  function AddPromise<L>(c: Core<L>): Core<L>
  {
    c.(promises := c.promises + [Promise(Pending, [], [], false, 0)])
  }

  function MarkHandled<L>(c: Core<L>, p: nat): Core<L>
    requires p < |c.promises|
  {
    c.(promises := c.promises[p := c.promises[p].(isHandled := true)])
  }

  /** Register a pair of handlers on 'p', or queue the matching one at once when 'p' is settled. */
  function Subscribe<L>(c: Core<L>, p: nat, onF: Handler, onR: Handler, link: L): Core<L>
    requires p < |c.promises|
  {
    var n := |c.owner|;
    var pr := c.promises[p];
    match pr.status
    case Pending =>
      MarkHandled(c.(promises := c.promises[p := pr.(
                       fulfillReactions := pr.fulfillReactions + [Reaction(n, onF, link)],
                       rejectReactions := pr.rejectReactions + [Reaction(n + 1, onR, link)])],
                     registrations := c.registrations + [Registration(p, n, n + 1)],
                     owner := c.owner + [Some(p), Some(p)]), p)
    case Fulfilled(v) =>
      MarkHandled(EnqueueNow(c, p, ReactionJob(n, onF, link, v, false)), p)
    case Rejected(v) =>
      var c1 := if pr.isHandled then c else TrackHandle(c, p);
      MarkHandled(EnqueueNow(c1, p, ReactionJob(n, onR, link, v, onR.Missing?)), p)
  }

  /** Queue a job for a promise that is already settled. */
  function EnqueueNow<L>(c: Core<L>, p: nat, job: Job<L>): Core<L>
  {
    c.(queue := c.queue + [job], registrations := c.registrations + [Registration(p, |c.owner|, |c.owner|)],
       owner := c.owner + [Some(p)])
  }

  /** Queue the job that calls the 'then' method of a thenable. */
  function EnqueueThenable<L>(c: Core<L>, thenable: Value, thenFn: int, link: L): Core<L>
  {
    c.(queue := c.queue + [ThenableJob(|c.owner|, thenable, thenFn, link)], owner := c.owner + [None])
  }

  function Dequeue<L>(c: Core<L>): Core<L>
    requires c.queue != []
  {
    c.(queue := c.queue[1..], ran := c.ran + [c.queue[0].id])
  }

  /** A resolve function past its guards: self resolution, plain value, or a 'then' getter call (true). */
  function StartResolve<L>(c: Core<L>, p: nat, v: Value): (Core<L>, bool)
    requires p < |c.promises|
  {
    if !c.promises[p].status.Pending? then (c, false)
    else if v == PromiseObject(p) then (DoReject(c, p, SelfResolutionError), false)
    else if !v.Plain? then (c, true)
    else (DoFulfill(c, p, v), false)
  }

  // ---------- Rejection notifications ----------

  function CheckOne<L>(c: Core<L>, p: nat): Core<L>
    requires p < |c.promises|
  {
    if c.promises[p].unhandled == 1 then
      c.(log := c.log + [NotifyReject(p)], promises := c.promises[p := c.promises[p].(unhandled := 2)])
    else if c.promises[p].unhandled == 3 then
      c.(log := c.log + [NotifyHandle(p)], promises := c.promises[p := c.promises[p].(unhandled := 0)])
    else c
  }

  /** Notify for the entries from index 'i' of the rejection list on. */
  function CheckFrom<L>(c: Core<L>, i: nat): (r: Core<L>)
    requires i <= |c.potentiallyUnhandled|
    requires forall k :: 0 <= k < |c.potentiallyUnhandled| ==> c.potentiallyUnhandled[k] < |c.promises|
    ensures |r.promises| == |c.promises| && r.potentiallyUnhandled == c.potentiallyUnhandled
    decreases |c.potentiallyUnhandled| - i
  {
    if i == |c.potentiallyUnhandled| then c
    else CheckFrom(CheckOne(c, c.potentiallyUnhandled[i]), i + 1)
  }

  function CheckRejections<L>(c: Core<L>): (r: Core<L>)
    requires forall k :: 0 <= k < |c.potentiallyUnhandled| ==> c.potentiallyUnhandled[k] < |c.promises|
    ensures |r.promises| == |c.promises| && r.potentiallyUnhandled == []
  {
    CheckFrom(c, 0).(potentiallyUnhandled := [])
  }

  // ---------- The optimized machine ----------

  /** A resolve/reject pair held by user code. */
  datatype Handle = Handle(target: nat, alreadyResolved: bool)

  /** An open call out to user code. */
  datatype Frame =
    | GetterCall(p: nat, v: Value)  // reading v.then while resolving p
    | HandlerCall(target: nat)      // a reaction handler
    | ThenCall(h: nat)              // the then method of a thenable, given handle h

  datatype State = State(core: Core<nat>, handles: seq<Handle>, frames: seq<Frame>)

  datatype Look = NotCallable | Callable(f: int) | GetterThrew(e: Value)
  datatype Outcome = Return(v: Value) | Throw(e: Value)

  datatype Action =
    | NewPromise
    | Resolve(h: nat, v: Value)
    | Reject(h: nat, v: Value)
    | Then(p: nat, onFulfilled: Option<int>, onRejected: Option<int>)
    | Forward(source: nat, target: nat)  // optimized then of Promise.race
    | GetterReturns(look: Look)
    | RunEntry
    | UserReturns(outcome: Outcome)
    | Check

  const InitialCore: Core<nat> := Core([], [], [], [], [], [], [])
  const Initial := State(InitialCore, [], [])

  function OnFulfilled(f: Option<int>): Handler
  {
    if f.Some? then Fn(f.value) else Identity
  }

  function OnRejected(f: Option<int>): Handler
  {
    if f.Some? then Fn(f.value) else Thrower
  }

  /** Every link, target and list entry is a promise of the machine. */
  predicate CoreWellFormed(c: Core<nat>)
  {
    && (forall k :: 0 <= k < |c.queue| ==> c.queue[k].link < |c.promises|)
    && (forall k :: 0 <= k < |c.potentiallyUnhandled| ==> c.potentiallyUnhandled[k] < |c.promises|)
    && (forall p, k :: 0 <= p < |c.promises| && 0 <= k < |c.promises[p].fulfillReactions| ==>
          c.promises[p].fulfillReactions[k].link < |c.promises|)
    && (forall p, k :: 0 <= p < |c.promises| && 0 <= k < |c.promises[p].rejectReactions| ==>
          c.promises[p].rejectReactions[k].link < |c.promises|)
  }

  predicate FrameWellFormed(s: State, f: Frame)
  {
    match f
    case GetterCall(p, _) => p < |s.core.promises|
    case HandlerCall(target) => target < |s.core.promises|
    case ThenCall(h) => h < |s.handles|
  }

  predicate WellFormed(s: State)
  {
    && CoreWellFormed(s.core)
    && (forall h :: 0 <= h < |s.handles| ==> s.handles[h].target < |s.core.promises|)
    && (forall k :: 0 <= k < |s.frames| ==> FrameWellFormed(s, s.frames[k]))
  }

  /** User code only uses promises and handles it has, calls return innermost first, the queue runner
      is not re-entered, and notifications wait for an empty queue. */
  predicate Enabled(s: State, a: Action)
  {
    match a
    case NewPromise => true
    case Resolve(h, _) => h < |s.handles|
    case Reject(h, _) => h < |s.handles|
    case Then(p, _, _) => p < |s.core.promises|
    case Forward(source, target) => source < |s.core.promises| && target < |s.core.promises|
    case GetterReturns(_) => s.frames != [] && Top(s).GetterCall?
    case RunEntry => s.frames == [] && s.core.queue != []
    case UserReturns(_) => s.frames != [] && !Top(s).GetterCall?
    case Check => s.frames == [] && s.core.queue == []
  }

  function Top(s: State): Frame
    requires s.frames != []
  {
    s.frames[|s.frames| - 1]
  }

  function Pop(s: State): State
    requires s.frames != []
  {
    s.(frames := s.frames[..|s.frames| - 1])
  }

  /** Call the resolve function of a fresh pair. */
  function ResolveTarget(s: State, p: nat, v: Value): State
    requires p < |s.core.promises|
  {
    var (c, getter) := StartResolve(s.core, p, v);
    s.(core := c, frames := if getter then s.frames + [GetterCall(p, v)] else s.frames)
  }

  /** Call the reject function of a fresh pair. */
  function RejectTarget(s: State, p: nat, v: Value): State
    requires p < |s.core.promises|
  {
    s.(core := DoReject(s.core, p, v))
  }

  function Neutralize(s: State, h: nat): State
    requires h < |s.handles|
  {
    s.(handles := s.handles[h := s.handles[h].(alreadyResolved := true)])
  }

  function CallReject(s: State, h: nat, v: Value): State
    requires h < |s.handles| && s.handles[h].target < |s.core.promises|
  {
    if s.handles[h].alreadyResolved then s
    else RejectTarget(Neutralize(s, h), s.handles[h].target, v)
  }

  function CallResolve(s: State, h: nat, v: Value): State
    requires h < |s.handles| && s.handles[h].target < |s.core.promises|
  {
    if s.handles[h].alreadyResolved then s
    else ResolveTarget(Neutralize(s, h), s.handles[h].target, v)
  }

  /** The rest of a resolve function once the 'then' getter returned. */
  function FinishGetter(s: State, p: nat, v: Value, look: Look): State
    requires p < |s.core.promises|
  {
    match look
    case NotCallable => s.(core := DoFulfill(s.core, p, v))
    case Callable(f) => s.(core := EnqueueThenable(s.core, v, f, p))
    case GetterThrew(e) => s.(core := DoReject(s.core, p, e))
  }

  /** Run the job at the head of the queue up to the call of user code, if any. */
  function RunJob(s: State): State
    requires s.core.queue != [] && s.core.queue[0].link < |s.core.promises|
  {
    var s1 := s.(core := Dequeue(s.core));
    match s.core.queue[0]
    case ThenableJob(_, thenable, f, p) =>
      var h := |s.handles|;
      s1.(handles := s.handles + [Handle(p, false)], frames := s.frames + [ThenCall(h)],
          core := s1.core.(log := s.core.log + [CallThen(f, thenable, h)]))
    case ReactionJob(_, handler, p, v, rejected) =>
      match handler
      case Missing => if rejected then RejectTarget(s1, p, v) else ResolveTarget(s1, p, v)
      case Identity => ResolveTarget(s1, p, v)
      case Thrower => RejectTarget(s1, p, v)
      case Fn(f) => s1.(frames := s.frames + [HandlerCall(p)], core := s1.core.(log := s.core.log + [Call(f, v)]))
  }

  /** User code called by a job returned or threw. */
  function FinishJob(s: State, outcome: Outcome): State
    requires WellFormed(s) && Enabled(s, UserReturns(outcome))
  {
    match Top(s)
    case HandlerCall(p) =>
      (match outcome
       case Return(v) => ResolveTarget(Pop(s), p, v)
       case Throw(e) => RejectTarget(Pop(s), p, e))
    case ThenCall(h) => if outcome.Throw? then CallReject(Pop(s), h, outcome.e) else Pop(s)
  }

  function Step(s: State, a: Action): State
    requires WellFormed(s) && Enabled(s, a)
  {
    match a
    case NewPromise => s.(core := AddPromise(s.core), handles := s.handles + [Handle(|s.core.promises|, false)])
    case Resolve(h, v) => CallResolve(s, h, v)
    case Reject(h, v) => CallReject(s, h, v)
    case Then(p, onF, onR) =>
      s.(core := Subscribe(AddPromise(s.core), p, OnFulfilled(onF), OnRejected(onR), |s.core.promises|))
    case Forward(source, target) => s.(core := Subscribe(s.core, source, Missing, Missing, target))
    case GetterReturns(look) => FinishGetter(Pop(s), Top(s).p, Top(s).v, look)
    case RunEntry => RunJob(s)
    case UserReturns(outcome) => FinishJob(s, outcome)
    case Check => s.(core := CheckRejections(s.core))
  }

  // ---------- Runs ----------

  lemma SettleWellFormed(c: Core<nat>, p: nat, v: Value)
    requires CoreWellFormed(c) && p < |c.promises|
    ensures CoreWellFormed(DoFulfill(c, p, v)) && |DoFulfill(c, p, v).promises| == |c.promises|
    ensures CoreWellFormed(DoReject(c, p, v)) && |DoReject(c, p, v).promises| == |c.promises|
  {
  }

  lemma ResolveWellFormed(c: Core<nat>, p: nat, v: Value)
    requires CoreWellFormed(c) && p < |c.promises|
    ensures CoreWellFormed(StartResolve(c, p, v).0) && |StartResolve(c, p, v).0.promises| == |c.promises|
  {
    SettleWellFormed(c, p, v);
    SettleWellFormed(c, p, SelfResolutionError);
  }

  lemma SubscribeWellFormed(c: Core<nat>, p: nat, onF: Handler, onR: Handler, link: nat)
    requires CoreWellFormed(c) && p < |c.promises| && link < |c.promises|
    ensures CoreWellFormed(Subscribe(c, p, onF, onR, link)) && |Subscribe(c, p, onF, onR, link).promises| == |c.promises|
  {
  }

  lemma CheckWellFormed(c: Core<nat>, i: nat)
    requires CoreWellFormed(c) && i <= |c.potentiallyUnhandled|
    ensures CoreWellFormed(CheckFrom(c, i))
    decreases |c.potentiallyUnhandled| - i
  {
    if i < |c.potentiallyUnhandled| { CheckWellFormed(CheckOne(c, c.potentiallyUnhandled[i]), i + 1); }
  }

  lemma CheckAllWellFormed(c: Core<nat>)
    requires CoreWellFormed(c)
    ensures CoreWellFormed(CheckRejections(c))
  {
    CheckWellFormed(c, 0);
  }

  lemma RunJobWellFormed(s: State)
    requires WellFormed(s) && s.core.queue != []
    ensures WellFormed(RunJob(s)) && |RunJob(s).core.promises| == |s.core.promises|
  {
    hide DoFulfill, DoReject, StartResolve;
    var c, job := Dequeue(s.core), s.core.queue[0];
    assert CoreWellFormed(c);
    if job.ReactionJob? {
      SettleWellFormed(c, job.link, job.value);
      ResolveWellFormed(c, job.link, job.value);
    }
  }

  lemma GetterWellFormed(c: Core<nat>, p: nat, v: Value, look: Look)
    requires CoreWellFormed(c) && p < |c.promises|
    ensures var c' := FinishGetter(State(c, [], []), p, v, look).core; CoreWellFormed(c') && |c'.promises| == |c.promises|
  {
    hide DoFulfill, DoReject;
    SettleWellFormed(c, p, v);
    if look.GetterThrew? { SettleWellFormed(c, p, look.e); }
  }

  lemma GrowWellFormed(c: Core<nat>)
    requires CoreWellFormed(c)
    ensures CoreWellFormed(AddPromise(c))
  {
  }

  /** Every step stays within the promises and handles of the machine. */
  lemma StepWellFormed(s: State, a: Action)
    requires WellFormed(s) && Enabled(s, a)
    ensures WellFormed(Step(s, a)) && |Step(s, a).core.promises| >= |s.core.promises|
  {
    hide DoFulfill, DoReject, StartResolve, Subscribe, CheckRejections, RunJob, FinishJob, CoreWellFormed;
    match a
    case NewPromise => GrowWellFormed(s.core);
    case Resolve(h, v) => ResolveWellFormed(s.core, s.handles[h].target, v);
    case Reject(h, v) => SettleWellFormed(s.core, s.handles[h].target, v);
    case Then(p, onF, onR) =>
      GrowWellFormed(s.core);
      SubscribeWellFormed(AddPromise(s.core), p, OnFulfilled(onF), OnRejected(onR), |s.core.promises|);
    case Forward(source, target) => SubscribeWellFormed(s.core, source, Missing, Missing, target);
    case GetterReturns(look) =>
      GetterWellFormed(s.core, Top(s).p, Top(s).v, look);
    case RunEntry =>
      RunJobWellFormed(s);
    case UserReturns(outcome) => FinishWellFormed(s, outcome);
    case Check => CheckAllWellFormed(s.core);
  }

  lemma FinishWellFormed(s: State, outcome: Outcome)
    requires WellFormed(s) && Enabled(s, UserReturns(outcome))
    ensures WellFormed(FinishJob(s, outcome)) && |FinishJob(s, outcome).core.promises| == |s.core.promises|
  {
    hide DoFulfill, DoReject, StartResolve;
    var p := match Top(s) case HandlerCall(target) => target case ThenCall(h) => s.handles[h].target;
    if outcome.Throw? { SettleWellFormed(s.core, p, outcome.e); } else { ResolveWellFormed(s.core, p, outcome.v); }
  }

  /** A run of actions, each enabled when it is taken. */
  predicate CanRun(s: State, actions: seq<Action>)
    requires WellFormed(s)
    decreases |actions|
  {
    actions == []
    || (Enabled(s, actions[0]) && (StepWellFormed(s, actions[0]); CanRun(Step(s, actions[0]), actions[1..])))
  }

  function Run(s: State, actions: seq<Action>): (r: State)
    requires WellFormed(s) && CanRun(s, actions)
    ensures WellFormed(r)
    decreases |actions|
  {
    if actions == [] then s
    else
      StepWellFormed(s, actions[0]);
      Run(Step(s, actions[0]), actions[1..])
  }
}
