/**
 Unhandled rejection notifications over whole runs, with hooks that do not call promise code: each
 promise reports nothing, 'reject', or 'reject' then 'handle', and every check brings the reports up
 to date.  Hooks that do call promise code follow in PromiseHooks and PromiseReports.
 */
module PromiseTracker {
  import opened Wrappers
  import opened PromiseMachine

  /** The notifications about promise 'p'. */
  function Reports(log: seq<Event>, p: nat): seq<Event>
  {
    if log == [] then []
    else
      var e := log[|log| - 1];
      Reports(log[..|log| - 1], p) + if e == NotifyReject(p) || e == NotifyHandle(p) then [e] else []
  }

  lemma ReportsPush(log: seq<Event>, e: Event, p: nat)
    ensures Reports(log + [e], p) == Reports(log, p) + if e == NotifyReject(p) || e == NotifyHandle(p) then [e] else []
  {
    assert (log + [e])[..|log|] == log;
  }

  /** The state of promise 'p' fits its reports; 'todo' is the part of the rejection list still to be checked. */
  predicate Tracked(pr: Promise<nat>, reports: seq<Event>, p: nat, todo: seq<nat>)
  {
    if !pr.status.Rejected? then
      pr.unhandled == 0 && reports == []
    else if !pr.isHandled then
      || (pr.unhandled == 1 && reports == [] && p in todo)
      || (pr.unhandled == 2 && reports == [NotifyReject(p)])
    else
      || (pr.unhandled == 0 && (reports == [] || reports == [NotifyReject(p), NotifyHandle(p)]))
      || (pr.unhandled == 3 && reports == [NotifyReject(p)] && p in todo)
  }

  ghost predicate AllTracked(c: Core<nat>, todo: seq<nat>)
  {
    && (forall p :: 0 <= p < |c.promises| ==> Tracked(c.promises[p], Reports(c.log, p), p, todo))
    && (forall p: nat :: p >= |c.promises| ==> Reports(c.log, p) == [])
  }

  /** After a check: an unhandled rejection was reported, a handled one was never reported or reported as handled. */
  predicate UpToDate(pr: Promise<nat>, reports: seq<Event>, p: nat)
  {
    if !pr.status.Rejected? then reports == []
    else if !pr.isHandled then reports == [NotifyReject(p)]
    else reports == [] || reports == [NotifyReject(p), NotifyHandle(p)]
  }

  // ---------- Settling and registering ----------

  lemma SettleTracked(c: Core<nat>, p: nat, v: Value)
    requires AllTracked(c, c.potentiallyUnhandled) && p < |c.promises|
    ensures AllTracked(DoFulfill(c, p, v), DoFulfill(c, p, v).potentiallyUnhandled)
    ensures AllTracked(DoReject(c, p, v), DoReject(c, p, v).potentiallyUnhandled)
  {
    forall x: nat { ReportsPush(c.log, RawReject(p), x); }
    hide Reports;
  }

  lemma ResolveTracked(c: Core<nat>, p: nat, v: Value)
    requires AllTracked(c, c.potentiallyUnhandled) && p < |c.promises|
    ensures AllTracked(StartResolve(c, p, v).0, StartResolve(c, p, v).0.potentiallyUnhandled)
  {
    SettleTracked(c, p, v);
    SettleTracked(c, p, SelfResolutionError);
    hide DoFulfill, DoReject, AllTracked;
  }

  lemma SubscribeTracked(c: Core<nat>, p: nat, onF: Handler, onR: Handler, q: nat)
    requires AllTracked(c, c.potentiallyUnhandled) && p < |c.promises|
    ensures AllTracked(Subscribe(c, p, onF, onR, q), Subscribe(c, p, onF, onR, q).potentiallyUnhandled)
  {
    forall x: nat { ReportsPush(c.log, RawHandle(p), x); }
    hide Reports;
  }

  // ---------- The check ----------

  lemma CheckOneTrackedAt(c: Core<nat>, i: nat, x: nat)
    requires CoreWellFormed(c) && i < |c.potentiallyUnhandled| && x < |c.promises|
    requires Tracked(c.promises[x], Reports(c.log, x), x, c.potentiallyUnhandled[i..])
    ensures var c' := CheckOne(c, c.potentiallyUnhandled[i]);
            Tracked(c'.promises[x], Reports(c'.log, x), x, c.potentiallyUnhandled[i + 1..])
  {
    hide Reports;
    ReportsPush(c.log, NotifyReject(c.potentiallyUnhandled[i]), x);
    ReportsPush(c.log, NotifyHandle(c.potentiallyUnhandled[i]), x);
    assert c.potentiallyUnhandled[i..] == [c.potentiallyUnhandled[i]] + c.potentiallyUnhandled[i + 1..];
  }

  lemma CheckOneTracked(c: Core<nat>, i: nat)
    requires CoreWellFormed(c) && i < |c.potentiallyUnhandled| && AllTracked(c, c.potentiallyUnhandled[i..])
    ensures AllTracked(CheckOne(c, c.potentiallyUnhandled[i]), c.potentiallyUnhandled[i + 1..])
  {
    hide Reports, Tracked;
    var p := c.potentiallyUnhandled[i];
    forall x: nat ensures x >= |c.promises| ==> Reports(CheckOne(c, p).log, x) == [] {
      ReportsPush(c.log, NotifyReject(p), x);
      ReportsPush(c.log, NotifyHandle(p), x);
    }
    forall x: nat | x < |c.promises|
      ensures Tracked(CheckOne(c, p).promises[x], Reports(CheckOne(c, p).log, x), x, c.potentiallyUnhandled[i + 1..])
    {
      CheckOneTrackedAt(c, i, x);
    }
  }

  /** What a check reports about promise 'p', given what was reported before. */
  function NewReports(pr: Promise<nat>, reports: seq<Event>, p: nat): seq<Event>
  {
    if pr.status.Rejected? && !pr.isHandled && reports == [] then [NotifyReject(p)]
    else if pr.status.Rejected? && pr.isHandled && reports == [NotifyReject(p)] then [NotifyHandle(p)]
    else []
  }

  lemma CheckOneReports(c: Core<nat>, i: nat, x: nat)
    requires CoreWellFormed(c) && i < |c.potentiallyUnhandled| && AllTracked(c, c.potentiallyUnhandled[i..])
    requires x < |c.promises|
    ensures var c' := CheckOne(c, c.potentiallyUnhandled[i]);
            && c'.promises[x].status == c.promises[x].status && c'.promises[x].isHandled == c.promises[x].isHandled
            && Reports(c'.log, x) + NewReports(c'.promises[x], Reports(c'.log, x), x)
            == Reports(c.log, x) + NewReports(c.promises[x], Reports(c.log, x), x)
  {
    var p := c.potentiallyUnhandled[i];
    assert p < |c.promises| && Tracked(c.promises[x], Reports(c.log, x), x, c.potentiallyUnhandled[i..]);
    hide *;
    if x == p { OwnReports(c, p, c.potentiallyUnhandled[i..]); } else { OtherReports(c, p, x); }
  }

  lemma OwnReports(c: Core<nat>, p: nat, todo: seq<nat>)
    requires p < |c.promises| && Tracked(c.promises[p], Reports(c.log, p), p, todo)
    ensures var c' := CheckOne(c, p);
            && |c'.promises| == |c.promises|
            && c'.promises[p].status == c.promises[p].status && c'.promises[p].isHandled == c.promises[p].isHandled
            && Reports(c'.log, p) + NewReports(c'.promises[p], Reports(c'.log, p), p)
            == Reports(c.log, p) + NewReports(c.promises[p], Reports(c.log, p), p)
  {
    hide Reports;
    ReportsPush(c.log, NotifyReject(p), p);
    ReportsPush(c.log, NotifyHandle(p), p);
  }

  lemma OtherReports(c: Core<nat>, p: nat, x: nat)
    requires p < |c.promises| && x < |c.promises| && x != p
    ensures var c' := CheckOne(c, p);
            |c'.promises| == |c.promises| && c'.promises[x] == c.promises[x] && Reports(c'.log, x) == Reports(c.log, x)
  {
    hide Reports;
    ReportsPush(c.log, NotifyReject(p), x);
    ReportsPush(c.log, NotifyHandle(p), x);
  }

  lemma {:induction false} CheckFromTracked(c: Core<nat>, i: nat)
    requires CoreWellFormed(c) && i <= |c.potentiallyUnhandled| && AllTracked(c, c.potentiallyUnhandled[i..])
    ensures AllTracked(CheckFrom(c, i), [])
    decreases |c.potentiallyUnhandled| - i
  {
    if i == |c.potentiallyUnhandled| {
      assert c.potentiallyUnhandled[i..] == [];
    } else {
      CheckOneTracked(c, i);
      CheckFromTracked(CheckOne(c, c.potentiallyUnhandled[i]), i + 1);
    }
  }

  lemma {:induction false} CheckFromReports(c: Core<nat>, i: nat, x: nat)
    requires CoreWellFormed(c) && i <= |c.potentiallyUnhandled| && AllTracked(c, c.potentiallyUnhandled[i..])
    requires x < |c.promises|
    ensures var c' := CheckFrom(c, i);
            && c'.promises[x].status == c.promises[x].status && c'.promises[x].isHandled == c.promises[x].isHandled
            && Reports(c'.log, x) == Reports(c.log, x) + NewReports(c.promises[x], Reports(c.log, x), x)
    decreases |c.potentiallyUnhandled| - i
  {
    hide Reports;
    if i == |c.potentiallyUnhandled| {
      assert c.potentiallyUnhandled[i..] == [];
      assert Tracked(c.promises[x], Reports(c.log, x), x, []);
    } else {
      hide AllTracked, NewReports;
      CheckOneTracked(c, i);
      CheckOneReports(c, i, x);
      CheckFromReports(CheckOne(c, c.potentiallyUnhandled[i]), i + 1, x);
    }
  }

  /** A check reports 'reject' for exactly the rejections that are unhandled and unreported, 'handle' for
      exactly the reported ones that were handled since, and leaves every promise up to date. */
  lemma CheckReportsExactly(s: State)
    requires WellFormed(s) && Enabled(s, Check) && AllTracked(s.core, s.core.potentiallyUnhandled)
    ensures var c' := Step(s, Check).core;
            && c'.queue == [] && c'.potentiallyUnhandled == [] && AllTracked(c', [])
            && forall p :: 0 <= p < |s.core.promises| ==>
                 && Reports(c'.log, p) == Reports(s.core.log, p) + NewReports(s.core.promises[p], Reports(s.core.log, p), p)
                 && UpToDate(c'.promises[p], Reports(c'.log, p), p)
  {
    var c, c' := s.core, CheckFrom(s.core, 0);
    assert c.potentiallyUnhandled[0..] == c.potentiallyUnhandled;
    CheckFromTracked(c, 0);
    CheckKeepsQueue(c, 0);
    forall p | 0 <= p < |c.promises|
      ensures Reports(c'.log, p) == Reports(c.log, p) + NewReports(c.promises[p], Reports(c.log, p), p)
      ensures UpToDate(c'.promises[p], Reports(c'.log, p), p)
    {
      CheckFromReports(c, 0, p);
      assert Tracked(c'.promises[p], Reports(c'.log, p), p, []);
    }
  }

  lemma CheckKeepsQueue(c: Core<nat>, i: nat)
    requires CoreWellFormed(c) && i <= |c.potentiallyUnhandled|
    ensures CheckFrom(c, i).queue == c.queue
    decreases |c.potentiallyUnhandled| - i
  {
    if i < |c.potentiallyUnhandled| { CheckKeepsQueue(CheckOne(c, c.potentiallyUnhandled[i]), i + 1); }
  }

  // ---------- All runs ----------

  lemma QuietTracked(c: Core<nat>, c': Core<nat>)
    requires AllTracked(c, c.potentiallyUnhandled)
    requires c'.promises == c.promises && c'.potentiallyUnhandled == c.potentiallyUnhandled
    requires forall p: nat :: Reports(c'.log, p) == Reports(c.log, p)
    ensures AllTracked(c', c'.potentiallyUnhandled)
  {
  }

  lemma StepTracked(s: State, a: Action)
    requires WellFormed(s) && Enabled(s, a) && AllTracked(s.core, s.core.potentiallyUnhandled)
    ensures AllTracked(Step(s, a).core, Step(s, a).core.potentiallyUnhandled)
  {
    var c := s.core;
    var grown := AddPromise(c);
    assert |grown.promises| == |c.promises| + 1 && AllTracked(grown, grown.potentiallyUnhandled);
    if a.Check? { CheckReportsExactly(s); }
    hide AllTracked, DoFulfill, DoReject, StartResolve, Subscribe, AddPromise, CheckRejections;
    match a
    case NewPromise =>
    case Resolve(h, v) => ResolveTracked(c, s.handles[h].target, v);
    case Reject(h, v) => SettleTracked(c, s.handles[h].target, v);
    case Then(p, onF, onR) => SubscribeTracked(grown, p, OnFulfilled(onF), OnRejected(onR), |c.promises|);
    case Forward(source, target) => SubscribeTracked(c, source, Missing, Missing, target);
    case GetterReturns(look) =>
      SettleTracked(c, Top(s).p, if look.GetterThrew? then look.e else Top(s).v);
      QuietTracked(c, EnqueueThenable(c, Top(s).v, if look.Callable? then look.f else 0, Top(s).p));
    case RunEntry => RunJobTracked(s);
    case UserReturns(outcome) =>
      var p := match Top(s) case HandlerCall(target) => target case ThenCall(h) => s.handles[h].target;
      if outcome.Throw? { SettleTracked(c, p, outcome.e); } else { ResolveTracked(c, p, outcome.v); }
    case Check =>
  }

  lemma CallTracked(c: Core<nat>, e: Event)
    requires AllTracked(c, c.potentiallyUnhandled) && (e.Call? || e.CallThen?)
    ensures AllTracked(c.(log := c.log + [e]), c.potentiallyUnhandled)
  {
    forall x: nat { ReportsPush(c.log, e, x); }
    QuietTracked(c, c.(log := c.log + [e]));
  }

  lemma RunJobTracked(s: State)
    requires WellFormed(s) && s.core.queue != [] && AllTracked(s.core, s.core.potentiallyUnhandled)
    ensures AllTracked(RunJob(s).core, RunJob(s).core.potentiallyUnhandled)
  {
    var c := Dequeue(s.core);
    QuietTracked(s.core, c);
    hide AllTracked, DoReject, StartResolve;
    match s.core.queue[0]
    case ThenableJob(_, thenable, f, p) => CallTracked(c, CallThen(f, thenable, |s.handles|));
    case ReactionJob(_, handler, p, v, rejected) =>
      if handler.Fn? { CallTracked(c, Call(handler.f, v)); }
      SettleTracked(c, p, v);
      ResolveTracked(c, p, v);
  }

  /** In every run each promise reported nothing, 'reject', or 'reject' then 'handle'. */
  lemma {:induction false} RunsTracked(s: State, actions: seq<Action>)
    requires WellFormed(s) && AllTracked(s.core, s.core.potentiallyUnhandled) && CanRun(s, actions)
    ensures AllTracked(Run(s, actions).core, Run(s, actions).core.potentiallyUnhandled)
    ensures forall p: nat :: Reports(Run(s, actions).core.log, p) in
              [[], [NotifyReject(p)], [NotifyReject(p), NotifyHandle(p)]]
    decreases |actions|
  {
    if actions != [] {
      StepTracked(s, actions[0]);
      StepWellFormed(s, actions[0]);
      RunsTracked(Step(s, actions[0]), actions[1..]);
    } else {
      forall p: nat ensures Reports(s.core.log, p) in [[], [NotifyReject(p)], [NotifyReject(p), NotifyHandle(p)]] {
        if p < |s.core.promises| {
          assert Tracked(s.core.promises[p], Reports(s.core.log, p), p, s.core.potentiallyUnhandled);
        }
      }
    }
  }

  lemma InitialTracked()
    ensures AllTracked(Initial.core, Initial.core.potentiallyUnhandled)
  {
  }

  // ---------- Handled means registered ----------

  predicate HasRegistration(rs: seq<Registration>, p: nat)
  {
    exists k :: 0 <= k < |rs| && rs[k].p == p
  }

  /** Exactly the promises on which then() was called or race forwards are marked as handled. */
  predicate HandledIsRegistered(c: Core<nat>)
  {
    && (forall k :: 0 <= k < |c.registrations| ==> c.registrations[k].p < |c.promises|)
    && forall p :: 0 <= p < |c.promises| ==> (c.promises[p].isHandled <==> HasRegistration(c.registrations, p))
  }

  predicate SameMarks(c: Core<nat>, c': Core<nat>)
  {
    && c'.registrations == c.registrations && |c'.promises| == |c.promises|
    && forall p :: 0 <= p < |c.promises| ==> c'.promises[p].isHandled == c.promises[p].isHandled
  }

  lemma MarksKept(c: Core<nat>, c': Core<nat>)
    requires HandledIsRegistered(c) && SameMarks(c, c')
    ensures HandledIsRegistered(c')
  {
    hide HasRegistration;
  }

  lemma SettleMarks(c: Core<nat>, p: nat, v: Value)
    requires p < |c.promises|
    ensures SameMarks(c, DoFulfill(c, p, v)) && SameMarks(c, DoReject(c, p, v)) && SameMarks(c, StartResolve(c, p, v).0)
  {
  }

  lemma {:induction false} CheckMarks(c: Core<nat>, i: nat)
    requires CoreWellFormed(c) && i <= |c.potentiallyUnhandled|
    ensures SameMarks(c, CheckFrom(c, i))
    decreases |c.potentiallyUnhandled| - i
  {
    if i < |c.potentiallyUnhandled| {
      var c1 := CheckOne(c, c.potentiallyUnhandled[i]);
      assert SameMarks(c, c1) && CoreWellFormed(c1);
      hide CoreWellFormed, CheckOne;
      CheckMarks(c1, i + 1);
    }
  }

  lemma RegisteredPush(rs: seq<Registration>, r: Registration, p: nat)
    ensures HasRegistration(rs + [r], p) <==> HasRegistration(rs, p) || r.p == p
  {
    if HasRegistration(rs, p) {
      var k :| 0 <= k < |rs| && rs[k].p == p;
      assert (rs + [r])[k].p == p;
    }
    assert (rs + [r])[|rs|] == r;
  }

  lemma SubscribeMarks(c: Core<nat>, p: nat, onF: Handler, onR: Handler, q: nat)
    requires p < |c.promises|
    ensures var c' := Subscribe(c, p, onF, onR, q);
            && |c'.promises| == |c.promises| && c'.promises[p].isHandled
            && (forall x :: 0 <= x < |c.promises| && x != p ==> c'.promises[x].isHandled == c.promises[x].isHandled)
            && exists r :: c'.registrations == c.registrations + [r] && r.p == p
  {
    var n := |c.owner|;
    var r := if c.promises[p].status.Pending? then Registration(p, n, n + 1) else Registration(p, n, n);
    assert Subscribe(c, p, onF, onR, q).registrations == c.registrations + [r];
  }

  lemma SubscribeHandled(c: Core<nat>, p: nat, onF: Handler, onR: Handler, q: nat)
    requires HandledIsRegistered(c) && p < |c.promises|
    ensures HandledIsRegistered(Subscribe(c, p, onF, onR, q))
  {
    SubscribeMarks(c, p, onF, onR, q);
    hide Subscribe, HasRegistration;
    var c' := Subscribe(c, p, onF, onR, q);
    var r :| c'.registrations == c.registrations + [r] && r.p == p;
    forall x | 0 <= x < |c'.promises| ensures c'.promises[x].isHandled <==> HasRegistration(c'.registrations, x) {
      RegisteredPush(c.registrations, r, x);
    }
  }

  lemma AddedHandled(c: Core<nat>)
    requires HandledIsRegistered(c)
    ensures HandledIsRegistered(AddPromise(c))
  {
  }

  lemma StepHandled(s: State, a: Action)
    requires WellFormed(s) && Enabled(s, a) && HandledIsRegistered(s.core)
    ensures HandledIsRegistered(Step(s, a).core)
  {
    var c := s.core;
    var grown := AddPromise(c);
    assert |grown.promises| == |c.promises| + 1;
    AddedHandled(c);
    hide HandledIsRegistered, DoFulfill, DoReject, StartResolve, Subscribe, AddPromise, CheckRejections, RunJob, FinishJob, CoreWellFormed;
    match a
    case NewPromise =>
    case Resolve(h, v) => SettleHandled(c, s.handles[h].target, v);
    case Reject(h, v) => SettleHandled(c, s.handles[h].target, v);
    case Then(p, onF, onR) => SubscribeHandled(grown, p, OnFulfilled(onF), OnRejected(onR), |c.promises|);
    case Forward(source, target) => SubscribeHandled(c, source, Missing, Missing, target);
    case GetterReturns(look) => GetterHandled(s, look);
    case RunEntry => RunJobHandled(s);
    case UserReturns(outcome) => FinishHandled(s, outcome);
    case Check => CheckHandled(c);
  }

  lemma SettleHandled(c: Core<nat>, p: nat, v: Value)
    requires HandledIsRegistered(c) && p < |c.promises|
    ensures HandledIsRegistered(DoFulfill(c, p, v)) && HandledIsRegistered(DoReject(c, p, v))
    ensures HandledIsRegistered(StartResolve(c, p, v).0)
  {
    SettleMarks(c, p, v);
    hide HandledIsRegistered, SameMarks, DoFulfill, DoReject, StartResolve;
    MarksKept(c, DoFulfill(c, p, v));
    MarksKept(c, DoReject(c, p, v));
    MarksKept(c, StartResolve(c, p, v).0);
  }

  lemma GetterHandled(s: State, look: Look)
    requires WellFormed(s) && Enabled(s, GetterReturns(look)) && HandledIsRegistered(s.core)
    ensures HandledIsRegistered(Step(s, GetterReturns(look)).core)
  {
    var c := s.core;
    MarksKept(c, EnqueueThenable(c, Top(s).v, if look.Callable? then look.f else 0, Top(s).p));
    hide HandledIsRegistered, DoFulfill, DoReject, CoreWellFormed;
    SettleHandled(c, Top(s).p, if look.GetterThrew? then look.e else Top(s).v);
  }

  lemma RunJobHandled(s: State)
    requires WellFormed(s) && s.core.queue != [] && HandledIsRegistered(s.core)
    ensures HandledIsRegistered(RunJob(s).core)
  {
    var c, job := Dequeue(s.core), s.core.queue[0];
    MarksKept(s.core, c);
    MarksKept(c, c.(log := RunJob(s).core.log));
    assert |c.promises| == |s.core.promises|;
    hide HandledIsRegistered, DoReject, StartResolve, Dequeue;
    if job.ReactionJob? { SettleHandled(c, job.link, job.value); }
  }

  lemma FinishHandled(s: State, outcome: Outcome)
    requires WellFormed(s) && Enabled(s, UserReturns(outcome)) && HandledIsRegistered(s.core)
    ensures HandledIsRegistered(FinishJob(s, outcome).core)
  {
    hide HandledIsRegistered, DoReject, StartResolve, CoreWellFormed;
    var p := match Top(s) case HandlerCall(target) => target case ThenCall(h) => s.handles[h].target;
    SettleHandled(s.core, p, if outcome.Throw? then outcome.e else outcome.v);
  }

  lemma CheckHandled(c: Core<nat>)
    requires HandledIsRegistered(c) && CoreWellFormed(c)
    ensures HandledIsRegistered(CheckRejections(c))
  {
    CheckMarks(c, 0);
    MarksKept(c, CheckRejections(c));
  }

  lemma {:induction false} RunsHandled(s: State, actions: seq<Action>)
    requires WellFormed(s) && HandledIsRegistered(s.core) && CanRun(s, actions)
    ensures HandledIsRegistered(Run(s, actions).core)
    decreases |actions|
  {
    if actions != [] {
      StepHandled(s, actions[0]);
      StepWellFormed(s, actions[0]);
      hide HandledIsRegistered, WellFormed, Step;
      RunsHandled(Step(s, actions[0]), actions[1..]);
    }
  }

  lemma InitialHandled()
    ensures WellFormed(Initial) && HandledIsRegistered(Initial.core)
  {
  }

  /** The reports about promise 'p' are right: 'reject' for a rejection nobody registered for, nothing or both for
      one that somebody did, and nothing for any other promise. */
  predicate RightlyReported(c: Core<nat>, p: nat)
    requires p < |c.promises|
  {
    if !c.promises[p].status.Rejected? then Reports(c.log, p) == []
    else if !HasRegistration(c.registrations, p) then Reports(c.log, p) == [NotifyReject(p)]
    else Reports(c.log, p) == [] || Reports(c.log, p) == [NotifyReject(p), NotifyHandle(p)]
  }

  /** After every check of every run, what was reported is right for every promise. */
  lemma EveryCheckIsRight(actions: seq<Action>)
    requires CanRun(Initial, actions) && Enabled(Run(Initial, actions), Check)
    ensures var c := Step(Run(Initial, actions), Check).core; forall p :: 0 <= p < |c.promises| ==> RightlyReported(c, p)
  {
    var s := Run(Initial, actions);
    InitialTracked();
    InitialHandled();
    RunsTracked(Initial, actions);
    RunsHandled(Initial, actions);
    StepHandled(s, Check);
    hide Run, CanRun, WellFormed, AllTracked, Tracked, Reports, HasRegistration, CheckFrom;
    CheckReportsExactly(s);
  }
}
