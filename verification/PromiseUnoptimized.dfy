/**
 The promise machine without the optimization: every job and registration captures the
 resolve/reject pair it will call, and pairs carry the flag that neutralizes them.
 */
module PromiseUnoptimized {
  import opened Wrappers
  import opened PromiseMachine

  /** A resolve/reject pair; user code holds some of them, jobs and registrations hold others. */
  type Pair = Handle

  datatype PairFrame =
    | PairGetterCall(p: nat, v: Value)
    | PairHandlerCall(pair: nat)
    | PairThenCall(pair: nat)

  /** Links are indices of 'pairs', and so are the entries of 'handles', the pairs user code was given. */
  datatype PairState = PairState(core: Core<nat>, pairs: seq<Pair>, handles: seq<nat>, frames: seq<PairFrame>)

  const PairInitial := PairState(InitialCore, [], [], [])

  predicate PairValid(s: PairState, k: nat)
  {
    k < |s.pairs| && s.pairs[k].target < |s.core.promises|
  }

  function PairTop(s: PairState): PairFrame
    requires s.frames != []
  {
    s.frames[|s.frames| - 1]
  }

  function PairPop(s: PairState): PairState
    requires s.frames != []
  {
    s.(frames := s.frames[..|s.frames| - 1])
  }

  /** The same guards as in the optimized machine, with every index in range. */
  predicate PairEnabled(s: PairState, a: Action)
  {
    match a
    case NewPromise => true
    case Resolve(h, _) => h < |s.handles| && PairValid(s, s.handles[h])
    case Reject(h, _) => h < |s.handles| && PairValid(s, s.handles[h])
    case Then(p, _, _) => p < |s.core.promises|
    case Forward(_, _) => false  // Promise.race takes another path here
    case GetterReturns(_) => s.frames != [] && PairTop(s).PairGetterCall? && PairTop(s).p < |s.core.promises|
    case RunEntry =>
      s.frames == [] && s.core.queue != [] && PairValid(s, s.core.queue[0].link)
      && !(s.core.queue[0].ReactionJob? && s.core.queue[0].handler.Missing?)
    case UserReturns(_) =>
      s.frames != [] && !PairTop(s).PairGetterCall? && PairValid(s, PairTop(s).pair)
    case Check =>
      s.frames == [] && s.core.queue == []
      && forall k :: 0 <= k < |s.core.potentiallyUnhandled| ==> s.core.potentiallyUnhandled[k] < |s.core.promises|
  }

  function AddPair(s: PairState, target: nat): PairState
  {
    s.(pairs := s.pairs + [Handle(target, false)])
  }

  function MarkPair(s: PairState, k: nat): PairState
    requires k < |s.pairs|
  {
    s.(pairs := s.pairs[k := s.pairs[k].(alreadyResolved := true)])
  }

  /** Call the reject function of pair 'k'. */
  function RejectPair(s: PairState, k: nat, v: Value): PairState
    requires PairValid(s, k)
  {
    if s.pairs[k].alreadyResolved then s
    else MarkPair(s, k).(core := DoReject(s.core, s.pairs[k].target, v))
  }

  /** Call the resolve function of pair 'k'. */
  function ResolvePair(s: PairState, k: nat, v: Value): PairState
    requires PairValid(s, k)
  {
    if s.pairs[k].alreadyResolved then s
    else
      var p := s.pairs[k].target;
      var (c, getter) := StartResolve(s.core, p, v);
      MarkPair(s, k).(core := c, frames := if getter then s.frames + [PairGetterCall(p, v)] else s.frames)
  }

  function PairFinishGetter(s: PairState, p: nat, v: Value, look: Look): PairState
    requires p < |s.core.promises|
  {
    match look
    case NotCallable => s.(core := DoFulfill(s.core, p, v))
    case Callable(f) => AddPair(s, p).(core := EnqueueThenable(s.core, v, f, |s.pairs|))
    case GetterThrew(e) => s.(core := DoReject(s.core, p, e))
  }

  function PairRunJob(s: PairState): PairState
    requires s.core.queue != [] && PairValid(s, s.core.queue[0].link)
  {
    var s1 := s.(core := Dequeue(s.core));
    match s.core.queue[0]
    case ThenableJob(_, thenable, f, k) =>
      s1.(handles := s.handles + [k], frames := s.frames + [PairThenCall(k)],
          core := s1.core.(log := s.core.log + [CallThen(f, thenable, |s.handles|)]))
    case ReactionJob(_, handler, k, v, _) =>
      match handler
      case Missing => s1
      case Identity => ResolvePair(s1, k, v)
      case Thrower => RejectPair(s1, k, v)
      case Fn(f) => s1.(frames := s.frames + [PairHandlerCall(k)], core := s1.core.(log := s.core.log + [Call(f, v)]))
  }

  function PairFinishJob(s: PairState, outcome: Outcome): PairState
    requires PairEnabled(s, UserReturns(outcome))
  {
    match PairTop(s)
    case PairHandlerCall(k) =>
      (match outcome
       case Return(v) => ResolvePair(PairPop(s), k, v)
       case Throw(e) => RejectPair(PairPop(s), k, e))
    case PairThenCall(k) => if outcome.Throw? then RejectPair(PairPop(s), k, outcome.e) else PairPop(s)
  }

  function PairStep(s: PairState, a: Action): PairState
    requires PairEnabled(s, a)
  {
    match a
    case NewPromise =>
      AddPair(s, |s.core.promises|).(core := AddPromise(s.core), handles := s.handles + [|s.pairs|])
    case Resolve(h, v) => ResolvePair(s, s.handles[h], v)
    case Reject(h, v) => RejectPair(s, s.handles[h], v)
    case Then(p, onF, onR) =>
      AddPair(s, |s.core.promises|).(
        core := Subscribe(AddPromise(s.core), p, OnFulfilled(onF), OnRejected(onR), |s.pairs|))
    case GetterReturns(look) => PairFinishGetter(PairPop(s), PairTop(s).p, PairTop(s).v, look)
    case RunEntry => PairRunJob(s)
    case UserReturns(outcome) => PairFinishJob(s, outcome)
    case Check => s.(core := CheckRejections(s.core))
  }

  predicate PairCanRun(s: PairState, actions: seq<Action>)
    decreases |actions|
  {
    actions == [] || (PairEnabled(s, actions[0]) && PairCanRun(PairStep(s, actions[0]), actions[1..]))
  }

  function PairRun(s: PairState, actions: seq<Action>): PairState
    requires PairCanRun(s, actions)
    decreases |actions|
  {
    if actions == [] then s else PairRun(PairStep(s, actions[0]), actions[1..])
  }
}
