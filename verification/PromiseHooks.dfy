/**
 Rejection hooks that call promise code.  'unhandledRejection' may create, settle and register on
 promises while the rejection tracker or the check waits for it, and each of these actions may call
 the hook again.  This is the machine of PromiseMachine with the hook's actions run at the point
 where the code calls it: before the promise's mark is looked at or written.
 */
module PromiseHooks {
  import opened Wrappers
  import opened PromiseMachine

  // ---------- Hooks ----------

  /** What a call of the hook does: user actions, each with the hook calls that it causes in turn.
      A 'then' getter that is entered may also return later, which only adds runs. */
  datatype Script = Done | Do(act: Action, hooks: Hooks, rest: Script)

  /** The scripts of the hook calls during one step, in their order; no script means an idle hook. */
  datatype Hooks = Silent | Hook(script: Script, rest: Hooks)

  /** A state of the machine; 'caught' is history: the promises whose hook call registered on them
      although the tracker or the check was about to write their mark. */
  datatype World = World(s: State, caught: set<nat>)

  /** Whether handlers were registered on promise 'p' between the two states. */
  predicate Registered(c: Core<nat>, c': Core<nat>, p: nat)
  {
    exists k :: |c.registrations| <= k < |c'.registrations| && c'.registrations[k].p == p
  }

  /** The actions that code called by the machine can take. */
  predicate Scriptable(a: Action)
  {
    !a.RunEntry? && !a.UserReturns? && !a.Check?
  }

  function With(w: World, c: Core<nat>): World
  {
    w.(s := w.s.(core := c))
  }

  function Log(w: World, e: Event): World
  {
    With(w, w.s.core.(log := w.s.core.log + [e]))
  }

  function Catch(w: World, p: nat, caught: bool): World
  {
    if caught then w.(caught := w.caught + {p}) else w
  }

  /** Nothing is taken back: promises stay, and settled ones keep their state and value. */
  predicate Extends(c: Core<nat>, c': Core<nat>)
  {
    && |c.promises| <= |c'.promises| && c.registrations <= c'.registrations
    && forall p :: 0 <= p < |c.promises| && !c.promises[p].status.Pending? ==> c'.promises[p].status == c.promises[p].status
  }

  /** What every action keeps, with its hook calls. */
  predicate Grown(w: World, w': World)
  {
    && WellFormed(w'.s) && Extends(w.s.core, w'.s.core) && w.caught <= w'.caught
    && w.s.core.potentiallyUnhandled <= w'.s.core.potentiallyUnhandled
  }

  // ---------- The parts of settling and registering around a hook call ----------

  function SetMark(c: Core<nat>, p: nat, mark: nat): Core<nat>
    requires p < |c.promises|
  {
    c.(promises := c.promises[p := c.promises[p].(unhandled := mark)])
  }

  function SettleRejected(c: Core<nat>, p: nat, v: Value): Core<nat>
    requires p < |c.promises|
  {
    c.(promises := c.promises[p := Settled(c.promises[p], Rejected(v))],
       queue := c.queue + Activated(c.promises[p].rejectReactions, v, true))
  }

  function AfterRawReject(c: Core<nat>, p: nat): Core<nat>
    requires p < |c.promises|
  {
    SetMark(c, p, 1).(potentiallyUnhandled := c.potentiallyUnhandled + [p])
  }

  function AfterRawHandle(c: Core<nat>, p: nat): Core<nat>
    requires p < |c.promises|
  {
    if c.promises[p].unhandled == 2 then SetMark(c, p, 3).(potentiallyUnhandled := c.potentiallyUnhandled + [p])
    else SetMark(c, p, 0)
  }

  function RegisterRejected(c: Core<nat>, p: nat, onR: Handler, link: nat, v: Value): Core<nat>
    requires p < |c.promises|
  {
    MarkHandled(EnqueueNow(c, p, ReactionJob(|c.owner|, onR, link, v, onR.Missing?)), p)
  }

  lemma CoreChange(w: World, c: Core<nat>)
    requires WellFormed(w.s) && CoreWellFormed(c) && Extends(w.s.core, c)
    requires w.s.core.potentiallyUnhandled <= c.potentiallyUnhandled
    ensures Grown(w, With(w, c))
  {
    hide CoreWellFormed;
  }

  lemma MarkGrown(w: World, p: nat, mark: nat)
    requires WellFormed(w.s) && p < |w.s.core.promises|
    ensures Grown(w, With(w, SetMark(w.s.core, p, mark))) && Grown(w, With(w, AfterRawReject(w.s.core, p)))
  {
    CoreChange(w, SetMark(w.s.core, p, mark));
    CoreChange(w, AfterRawReject(w.s.core, p));
    hide CoreWellFormed;
  }

  lemma SettleGrown(w: World, p: nat, v: Value)
    requires WellFormed(w.s) && p < |w.s.core.promises| && w.s.core.promises[p].status.Pending?
    ensures Grown(w, With(w, SettleRejected(w.s.core, p, v)))
  {
    SettleWellFormed(w.s.core, p, v);
    CoreChange(w, SettleRejected(w.s.core, p, v));
    hide CoreWellFormed;
  }

  lemma FulfillGrown(w: World, p: nat, v: Value)
    requires WellFormed(w.s) && p < |w.s.core.promises|
    ensures Grown(w, With(w, DoFulfill(w.s.core, p, v)))
  {
    SettleWellFormed(w.s.core, p, v);
    CoreChange(w, DoFulfill(w.s.core, p, v));
    hide CoreWellFormed;
  }

  lemma HandleGrown(w: World, p: nat, onR: Handler, link: nat, v: Value)
    requires WellFormed(w.s) && p < |w.s.core.promises| && link < |w.s.core.promises|
    ensures |AfterRawHandle(w.s.core, p).promises| == |w.s.core.promises|
    ensures Grown(w, With(w, RegisterRejected(AfterRawHandle(w.s.core, p), p, onR, link, v)))
  {
    CoreChange(w, RegisterRejected(AfterRawHandle(w.s.core, p), p, onR, link, v));
    hide CoreWellFormed;
  }

  lemma SubscribeGrown(w: World, p: nat, onF: Handler, onR: Handler, link: nat)
    requires WellFormed(w.s) && p < |w.s.core.promises| && link < |w.s.core.promises|
    ensures Grown(w, With(w, Subscribe(w.s.core, p, onF, onR, link)))
  {
    SubscribeWellFormed(w.s.core, p, onF, onR, link);
    CoreChange(w, Subscribe(w.s.core, p, onF, onR, link));
    hide CoreWellFormed;
  }

  lemma AddGrown(w: World)
    requires WellFormed(w.s)
    ensures Grown(w, With(w, AddPromise(w.s.core))) && |AddPromise(w.s.core).promises| == |w.s.core.promises| + 1
  {
    GrowWellFormed(w.s.core);
    CoreChange(w, AddPromise(w.s.core));
    hide CoreWellFormed;
  }

  lemma DequeueGrown(w: World)
    requires WellFormed(w.s) && w.s.core.queue != []
    ensures Grown(w, With(w, Dequeue(w.s.core))) && |Dequeue(w.s.core).promises| == |w.s.core.promises|
  {
    CoreChange(w, Dequeue(w.s.core));
  }

  // ---------- The machine with hooks ----------

  function CallHook(w: World, hooks: Hooks): (r: World)
    requires WellFormed(w.s)
    ensures Grown(w, r)
    decreases hooks, 0
  {
    if hooks.Silent? then w else Perform(w, hooks.script)
  }

  /** Actions that are not possible are skipped. */
  function Perform(w: World, script: Script): (r: World)
    requires WellFormed(w.s)
    ensures Grown(w, r)
    decreases script
  {
    match script
    case Done => w
    case Do(a, hooks, rest) =>
      Perform(if Scriptable(a) && Enabled(w.s, a) then UserWith(w, a, hooks) else w, rest)
  }

  /** An action of user code. */
  function UserWith(w: World, a: Action, hooks: Hooks): (r: World)
    requires WellFormed(w.s) && Scriptable(a) && Enabled(w.s, a)
    ensures Grown(w, r)
    decreases hooks, 3
  {
    match a
    case NewPromise => StepWellFormed(w.s, a); w.(s := Step(w.s, a))
    case Resolve(h, v) =>
      if w.s.handles[h].alreadyResolved then w
      else ResolveWith(w.(s := Neutralize(w.s, h)), w.s.handles[h].target, v, hooks)
    case Reject(h, v) =>
      if w.s.handles[h].alreadyResolved then w
      else RejectWith(w.(s := Neutralize(w.s, h)), w.s.handles[h].target, v, hooks)
    case Then(p, onF, onR) =>
      AddGrown(w);
      SubscribeWith(With(w, AddPromise(w.s.core)), p, OnFulfilled(onF), OnRejected(onR), |w.s.core.promises|, hooks)
    case Forward(source, target) => SubscribeWith(w, source, Missing, Missing, target, hooks)
    case GetterReturns(look) => FinishGetterWith(w.(s := Pop(w.s)), Top(w.s).p, Top(w.s).v, look, hooks)
  }

  function FinishGetterWith(w: World, p: nat, v: Value, look: Look, hooks: Hooks): (r: World)
    requires WellFormed(w.s) && p < |w.s.core.promises|
    ensures Grown(w, r)
    decreases hooks, 2
  {
    match look
    case NotCallable =>
      FulfillGrown(w, p, v);
      With(w, DoFulfill(w.s.core, p, v))
    case Callable(f) => With(w, EnqueueThenable(w.s.core, v, f, p))
    case GetterThrew(e) => RejectWith(w, p, e, hooks)
  }

  function ResolveWith(w: World, p: nat, v: Value, hooks: Hooks): (r: World)
    requires WellFormed(w.s) && p < |w.s.core.promises|
    ensures Grown(w, r)
    decreases hooks, 2
  {
    if !w.s.core.promises[p].status.Pending? then w
    else if v == PromiseObject(p) then RejectWith(w, p, SelfResolutionError, hooks)
    else if !v.Plain? then w.(s := w.s.(frames := w.s.frames + [GetterCall(p, v)]))
    else
      FulfillGrown(w, p, v);
      With(w, DoFulfill(w.s.core, p, v))
  }

  /** The promise is settled and its reactions queued before the hook is told; the mark is written,
      and the promise listed, after the hook returned. */
  function RejectWith(w: World, p: nat, v: Value, hooks: Hooks): (r: World)
    requires WellFormed(w.s) && p < |w.s.core.promises|
    ensures Grown(w, r)
    decreases hooks, 1
  {
    if !w.s.core.promises[p].status.Pending? then w
    else
      SettleGrown(w, p, v);
      var w1 := With(w, SettleRejected(w.s.core, p, v));
      if w.s.core.promises[p].isHandled then w1
      else
        var w2 := CallHook(Log(w1, RawReject(p)), hooks);
        MarkGrown(w2, p, 1);
        Catch(With(w2, AfterRawReject(w2.s.core, p)), p, Registered(w.s.core, w2.s.core, p))
  }

  /** A handler for an unhandled rejection: the hook is told, and only then the mark is looked at and
      the handler registered. */
  function SubscribeWith(w: World, p: nat, onF: Handler, onR: Handler, link: nat, hooks: Hooks): (r: World)
    requires WellFormed(w.s) && p < |w.s.core.promises| && link < |w.s.core.promises|
    ensures Grown(w, r)
    decreases hooks, 1
  {
    var pr := w.s.core.promises[p];
    if pr.status.Rejected? && !pr.isHandled then
      var w2 := CallHook(Log(w, RawHandle(p)), hooks);
      HandleGrown(w2, p, onR, link, pr.status.v);
      var c := RegisterRejected(AfterRawHandle(w2.s.core, p), p, onR, link, pr.status.v);
      Catch(With(w2, c), p, pr.unhandled == 2 && Registered(w.s.core, w2.s.core, p))
    else
      SubscribeGrown(w, p, onF, onR, link);
      With(w, Subscribe(w.s.core, p, onF, onR, link))
  }

  /** One entry of the rejection list: the mark is written after the hook returned. */
  function CheckEntryWith(w: World, p: nat, hooks: Hooks): (r: World)
    requires WellFormed(w.s) && p < |w.s.core.promises|
    ensures Grown(w, r)
  {
    if w.s.core.promises[p].unhandled == 1 then
      var w2 := CallHook(Log(w, NotifyReject(p)), hooks);
      MarkGrown(w2, p, 2);
      Catch(With(w2, SetMark(w2.s.core, p, 2)), p, Registered(w.s.core, w2.s.core, p))
    else if w.s.core.promises[p].unhandled == 3 then
      var w2 := CallHook(Log(w, NotifyHandle(p)), hooks);
      MarkGrown(w2, p, 0);
      With(w2, SetMark(w2.s.core, p, 0))
    else w
  }

  /** The check from entry 'i' on; a hook may lengthen the list while it is checked. */
  function CheckWith(w: World, i: nat, hooks: Hooks): (r: World)
    requires WellFormed(w.s) && i <= |w.s.core.potentiallyUnhandled|
    ensures Grown(w, r)
    decreases hooks, |w.s.core.potentiallyUnhandled| - i
  {
    if i == |w.s.core.potentiallyUnhandled| then w
    else
      var p := w.s.core.potentiallyUnhandled[i];
      var told := w.s.core.promises[p].unhandled in {1, 3};
      CheckWith(CheckEntryWith(w, p, hooks), i + 1, if told && hooks.Hook? then hooks.rest else hooks)
  }

  function RunJobWith(w: World, hooks: Hooks): (r: World)
    requires WellFormed(w.s) && w.s.core.queue != []
    ensures Grown(w, r)
  {
    var w1 := With(w, Dequeue(w.s.core));
    DequeueGrown(w);
    match w.s.core.queue[0]
    case ThenableJob(_, _, _, _) => RunJobWellFormed(w.s); w.(s := RunJob(w.s))
    case ReactionJob(_, handler, p, v, rejected) =>
      match handler
      case Missing => if rejected then RejectWith(w1, p, v, hooks) else ResolveWith(w1, p, v, hooks)
      case Identity => ResolveWith(w1, p, v, hooks)
      case Thrower => RejectWith(w1, p, v, hooks)
      case Fn(_) => RunJobWellFormed(w.s); w.(s := RunJob(w.s))
  }

  function FinishJobWith(w: World, outcome: Outcome, hooks: Hooks): (r: World)
    requires WellFormed(w.s) && Enabled(w.s, UserReturns(outcome))
    ensures Grown(w, r)
  {
    var w1 := w.(s := Pop(w.s));
    match Top(w.s)
    case HandlerCall(p) =>
      (match outcome
       case Return(v) => ResolveWith(w1, p, v, hooks)
       case Throw(e) => RejectWith(w1, p, e, hooks))
    case ThenCall(h) => if outcome.Throw? then UserWith(w1, Reject(h, outcome.e), hooks) else w1
  }

  function StepWith(w: World, a: Action, hooks: Hooks): (r: World)
    requires WellFormed(w.s) && Enabled(w.s, a)
    ensures WellFormed(r.s) && Extends(w.s.core, r.s.core) && w.caught <= r.caught
  {
    match a
    case RunEntry => RunJobWith(w, hooks)
    case UserReturns(outcome) => FinishJobWith(w, outcome, hooks)
    case Check =>
      var w1 := CheckWith(w, 0, hooks);
      With(w1, w1.s.core.(potentiallyUnhandled := []))
    case _ => UserWith(w, a, hooks)
  }

  // ---------- Idle hooks ----------

  lemma SilentReject(w: World, p: nat, v: Value)
    requires WellFormed(w.s) && p < |w.s.core.promises|
    ensures RejectWith(w, p, v, Silent) == With(w, DoReject(w.s.core, p, v))
  {
    hide CoreWellFormed;
  }

  lemma SilentResolve(w: World, p: nat, v: Value)
    requires WellFormed(w.s) && p < |w.s.core.promises|
    ensures ResolveWith(w, p, v, Silent) == World(ResolveTarget(w.s, p, v), w.caught)
  {
    hide CoreWellFormed, RejectWith, DoReject, DoFulfill;
    SilentReject(w, p, SelfResolutionError);
  }

  lemma SilentSubscribe(w: World, p: nat, onF: Handler, onR: Handler, link: nat)
    requires WellFormed(w.s) && p < |w.s.core.promises| && link < |w.s.core.promises|
    ensures SubscribeWith(w, p, onF, onR, link, Silent) == With(w, Subscribe(w.s.core, p, onF, onR, link))
  {
    hide CoreWellFormed;
  }

  lemma SilentGetter(w: World, p: nat, v: Value, look: Look)
    requires WellFormed(w.s) && p < |w.s.core.promises|
    ensures FinishGetterWith(w, p, v, look, Silent) == World(FinishGetter(w.s, p, v, look), w.caught)
  {
    hide CoreWellFormed, RejectWith, DoReject, DoFulfill, EnqueueThenable;
    if look.GetterThrew? { SilentReject(w, p, look.e); }
  }

  lemma SilentUser(w: World, a: Action)
    requires WellFormed(w.s) && Scriptable(a) && Enabled(w.s, a)
    ensures UserWith(w, a, Silent) == World(Step(w.s, a), w.caught)
  {
    hide CoreWellFormed, RejectWith, ResolveWith, SubscribeWith, FinishGetterWith, DoReject, StartResolve, Subscribe, AddPromise, FinishGetter;
    match a
    case Resolve(h, v) =>
      if !w.s.handles[h].alreadyResolved { SilentResolve(w.(s := Neutralize(w.s, h)), w.s.handles[h].target, v); }
    case Reject(h, v) =>
      if !w.s.handles[h].alreadyResolved { SilentReject(w.(s := Neutralize(w.s, h)), w.s.handles[h].target, v); }
    case Then(p, onF, onR) =>
      AddGrown(w);
      SilentSubscribe(With(w, AddPromise(w.s.core)), p, OnFulfilled(onF), OnRejected(onR), |w.s.core.promises|);
    case Forward(source, target) => SilentSubscribe(w, source, Missing, Missing, target);
    case GetterReturns(look) => SilentGetter(w.(s := Pop(w.s)), Top(w.s).p, Top(w.s).v, look);
    case _ =>
  }

  lemma SilentEntry(w: World, p: nat)
    requires WellFormed(w.s) && p < |w.s.core.promises|
    ensures CheckEntryWith(w, p, Silent) == With(w, CheckOne(w.s.core, p))
  {
    hide CoreWellFormed;
  }

  lemma {:induction false} SilentCheck(w: World, i: nat)
    requires WellFormed(w.s) && i <= |w.s.core.potentiallyUnhandled|
    ensures CheckWith(w, i, Silent) == With(w, CheckFrom(w.s.core, i))
    decreases |w.s.core.potentiallyUnhandled| - i
  {
    hide CheckEntryWith;
    if i < |w.s.core.potentiallyUnhandled| {
      var p := w.s.core.potentiallyUnhandled[i];
      SilentEntry(w, p);
      SilentCheck(CheckEntryWith(w, p, Silent), i + 1);
    }
  }

  lemma SilentJob(w: World)
    requires WellFormed(w.s) && Enabled(w.s, RunEntry)
    ensures RunJobWith(w, Silent) == World(RunJob(w.s), w.caught)
  {
    var job, w1 := w.s.core.queue[0], With(w, Dequeue(w.s.core));
    assert job.link < |w1.s.core.promises|;
    hide CoreWellFormed, RejectWith, ResolveWith, DoReject, StartResolve, Dequeue;
    DequeueGrown(w);
    if job.ReactionJob? && !job.handler.Fn? {
      SilentReject(w1, job.link, job.value);
      SilentResolve(w1, job.link, job.value);
    }
  }

  lemma SilentFinish(w: World, outcome: Outcome)
    requires WellFormed(w.s) && Enabled(w.s, UserReturns(outcome))
    ensures FinishJobWith(w, outcome, Silent) == World(FinishJob(w.s, outcome), w.caught)
  {
    hide CoreWellFormed, RejectWith, ResolveWith, UserWith, DoReject, StartResolve;
    var w1 := w.(s := Pop(w.s));
    match Top(w.s)
    case HandlerCall(p) =>
      if outcome.Return? { SilentResolve(w1, p, outcome.v); } else { SilentReject(w1, p, outcome.e); }
    case ThenCall(h) =>
      if outcome.Throw? { SilentUser(w1, Reject(h, outcome.e)); }
  }

  /** With idle hooks the machine is that of PromiseMachine. */
  lemma IdleHooksAddNothing(w: World, a: Action)
    requires WellFormed(w.s) && Enabled(w.s, a)
    ensures StepWith(w, a, Silent) == World(Step(w.s, a), w.caught)
  {
    hide CoreWellFormed, UserWith, RunJobWith, FinishJobWith, CheckWith, RunJob, FinishJob, CheckFrom;
    match a
    case RunEntry => SilentJob(w);
    case UserReturns(outcome) => SilentFinish(w, outcome);
    case Check => SilentCheck(w, 0);
    case _ => SilentUser(w, a);
  }
}
