/**
 What a hook does that is known before it is called, and runs from the start of the machine in which
 each of the three kinds of hook call loses a 'handle' report.
 */
module PromiseHookRuns {
  import opened Wrappers
  import opened PromiseMachine
  import opened PromiseTracker
  import opened PromiseHooks
  import opened PromiseReports

  // ---------- What a script registers on ----------

  /** Whether the hook calls caused by the script's actions do nothing. */
  predicate Flat(script: Script)
  {
    script.Do? ==> script.hooks.Silent? && Flat(script.rest)
  }

  /** Whether action 'a' registers on promise 'p' when there are 'n' promises. */
  predicate RegistersOn(a: Action, p: nat, n: nat)
  {
    (a.Then? && a.p == p) || (a.Forward? && a.source == p && a.target < n)
  }

  /** Whether some action of the script calls 'then' on promise 'p' or lets race forward it. */
  predicate CallsThenOn(script: Script, p: nat, n: nat)
  {
    && script.Do?
    && (RegistersOn(script.act, p, n)
        || CallsThenOn(script.rest, p, if script.act.NewPromise? || (script.act.Then? && script.act.p < n) then n + 1 else n))
  }

  lemma OneRegistration(c: Core<nat>, p: nat, onF: Handler, onR: Handler, link: nat)
    requires p < |c.promises|
    ensures |Subscribe(c, p, onF, onR, link).promises| == |c.promises|
    ensures var rs := Subscribe(c, p, onF, onR, link).registrations;
            |rs| == |c.registrations| + 1 && rs[|c.registrations|].p == p
  {
  }

  lemma NoRegistration(s: State, a: Action)
    requires WellFormed(s) && Scriptable(a) && Enabled(s, a) && !a.Then? && !a.Forward?
    ensures Step(s, a).core.registrations == s.core.registrations
    ensures |Step(s, a).core.promises| == |s.core.promises| + if a.NewPromise? then 1 else 0
  {
    hide CoreWellFormed;
  }

  lemma StepRegisters(s: State, a: Action, p: nat)
    requires WellFormed(s) && Scriptable(a) && Enabled(s, a)
    ensures Registered(s.core, Step(s, a).core, p) <==> RegistersOn(a, p, |s.core.promises|)
    ensures |Step(s, a).core.promises| == |s.core.promises| + if a.NewPromise? || a.Then? then 1 else 0
  {
    hide CoreWellFormed, Subscribe, DoReject, DoFulfill, StartResolve;
    match a
    case Then(q, onF, onR) => OneRegistration(AddPromise(s.core), q, OnFulfilled(onF), OnRejected(onR), |s.core.promises|);
    case Forward(source, target) => OneRegistration(s.core, source, Missing, Missing, target);
    case _ => NoRegistration(s, a);
  }

  /** A script whose actions cause no further hook calls registers on a promise exactly when one of its
      actions calls 'then' on it or lets race forward it. */
  lemma {:induction false} ScriptRegisters(w: World, script: Script, p: nat)
    requires WellFormed(w.s) && p < |w.s.core.promises| && Flat(script)
    ensures Registered(w.s.core, Perform(w, script).s.core, p) <==> CallsThenOn(script, p, |w.s.core.promises|)
    decreases script
  {
    hide CoreWellFormed, UserWith, Step, Registered;
    if script.Done? {
      assert !Registered(w.s.core, w.s.core, p) by { NoneYet(w.s.core, p); }
    } else if Scriptable(script.act) && Enabled(w.s, script.act) {
      var w1 := UserWith(w, script.act, Silent);
      SilentUser(w, script.act);
      StepRegisters(w.s, script.act, p);
      ScriptRegisters(w1, script.rest, p);
      RegisteredSplit(w.s.core, w1.s.core, Perform(w1, script.rest).s.core, p);
    } else {
      ScriptRegisters(w, script.rest, p);
    }
  }

  lemma NoneYet(c: Core<nat>, p: nat)
    ensures !Registered(c, c, p)
  {
  }

  // ---------- The condition before the call ----------

  /** A 'reject' hook with such a script loses the 'handle' report if and only if the script calls 'then'
      on the promise, or lets race forward it. */
  lemma RejectScriptLoses(w: World, i: nat, script: Script, rest: Hooks)
    requires Good(w, i, {}) && i < |w.s.core.potentiallyUnhandled| && w.s.core.potentiallyUnhandled[i] < |w.s.core.promises|
    requires w.s.core.promises[w.s.core.potentiallyUnhandled[i]].unhandled == 1 && w.s.core.potentiallyUnhandled[i] !in w.caught
    requires Flat(script)
    ensures var p := w.s.core.potentiallyUnhandled[i];
            p in CheckEntryWith(w, p, Hook(script, rest)).caught <==> CallsThenOn(script, p, |w.s.core.promises|)
  {
    var p := w.s.core.potentiallyUnhandled[i];
    var w1 := Log(w, NotifyReject(p));
    LogWellFormed(w, NotifyReject(p));
    RejectHookLoses(w, i, Hook(script, rest));
    ScriptRegisters(w1, script, p);
    var r, w2 := CheckEntryWith(w, p, Hook(script, rest)), CallHook(w1, Hook(script, rest));
    SameRegistrations(w.s.core, r.s.core, w1.s.core, w2.s.core, p);
    hide Good, WellFormed, Registered, Perform;
  }

  /** The same for a 'rawReject' hook. */
  lemma RawRejectScriptLoses(w: World, p: nat, v: Value, script: Script, rest: Hooks, i: nat, open: set<nat>)
    requires Good(w, i, open) && p < |w.s.core.promises| && Flat(script)
    requires w.s.core.promises[p].status.Pending? && !w.s.core.promises[p].isHandled
    ensures p in RejectWith(w, p, v, Hook(script, rest)).caught <==> CallsThenOn(script, p, |w.s.core.promises|)
  {
    SettleGrown(w, p, v);
    var w1 := Log(With(w, SettleRejected(w.s.core, p, v)), RawReject(p));
    LogWellFormed(With(w, SettleRejected(w.s.core, p, v)), RawReject(p));
    RawRejectHookLoses(w, p, v, Hook(script, rest), i, open);
    ScriptRegisters(w1, script, p);
    var r, w2 := RejectWith(w, p, v, Hook(script, rest)), CallHook(w1, Hook(script, rest));
    SameRegistrations(w.s.core, r.s.core, w1.s.core, w2.s.core, p);
    hide Good, WellFormed, Registered, Perform;
  }

  /** A 'rawHandle' hook loses the report if, besides, 'reject' was reported before. */
  lemma RawHandleScriptLoses(w: World, p: nat, onF: Handler, onR: Handler, link: nat, script: Script, rest: Hooks, i: nat, open: set<nat>)
    requires Good(w, i, open) && p < |w.s.core.promises| && p !in open && link < |w.s.core.promises| && Flat(script)
    requires w.s.core.promises[p].status.Rejected? && !w.s.core.promises[p].isHandled
    ensures p in SubscribeWith(w, p, onF, onR, link, Hook(script, rest)).caught
       <==> Reports(w.s.core.log, p) == [NotifyReject(p)] && CallsThenOn(script, p, |w.s.core.promises|)
  {
    var w1 := Log(w, RawHandle(p));
    LogWellFormed(w, RawHandle(p));
    RawHandleHookLoses(w, p, onF, onR, link, Hook(script, rest), i, open);
    ScriptRegisters(w1, script, p);
    var w2 := CallHook(w1, Hook(script, rest));
    SameRegistrations(w.s.core, w2.s.core, w1.s.core, w2.s.core, p);
    hide Good, WellFormed, Registered, Perform;
  }

  // ---------- Runs in which the report is lost ----------

  /** A hook that calls 'then' on promise 0 when it is called first. */
  const Nosy := Hook(Do(Then(0, None, None), Silent, Done), Silent)

  /** Promise 0 made and rejected with an idle hook. */
  function Rejected0(v: Value): World
  {
    var pr := Promise(Rejected(v), [], [], false, 1);
    World(State(InitialCore.(promises := [pr], log := [RawReject(0)], potentiallyUnhandled := [0]), [Handle(0, true)], []), {})
  }

  lemma NosyRegisters(w: World)
    requires WellFormed(w.s) && |w.s.core.promises| > 0
    ensures Registered(w.s.core, CallHook(w, Nosy).s.core, 0)
  {
    ScriptRegisters(w, Nosy.script, 0);
    hide WellFormed, Registered;
  }

  lemma MakePromise0()
    ensures WellFormed(Start.s) && Enabled(Start.s, NewPromise)
    ensures var pr := Promise(Pending, [], [], false, 0);
            StepWith(Start, NewPromise, Silent) == World(State(InitialCore.(promises := [pr]), [Handle(0, false)], []), {})
  {
    IdleHooksAddNothing(Start, NewPromise);
    hide StepWith;
  }

  lemma Reject0(v: Value)
    ensures WellFormed(StepWith(Start, NewPromise, Silent).s)
    ensures Enabled(StepWith(Start, NewPromise, Silent).s, Reject(0, v))
    ensures StepWith(StepWith(Start, NewPromise, Silent), Reject(0, v), Silent) == Rejected0(v) && WellFormed(Rejected0(v).s)
  {
    hide StepWith, WellFormed;
    MakePromise0();
    IdleHooksAddNothing(StepWith(Start, NewPromise, Silent), Reject(0, v));
  }

  lemma TwoTurns(w: World, t: Turn, t': Turn, rest: seq<Turn>)
    requires WellFormed(w.s) && Enabled(w.s, t.a) && Enabled(StepWith(w, t.a, t.hooks).s, t'.a)
    requires CanTake(StepWith(StepWith(w, t.a, t.hooks), t'.a, t'.hooks), rest)
    ensures CanTake(w, [t, t'] + rest)
    ensures Take(w, [t, t'] + rest) == Take(StepWith(StepWith(w, t.a, t.hooks), t'.a, t'.hooks), rest)
  {
    hide *;
    TakeFirst(StepWith(w, t.a, t.hooks), t', rest);
    TakeFirst(w, t, [t'] + rest);
    assert [t] + ([t'] + rest) == [t, t'] + rest;
  }

  /** Making and rejecting promise 0 with an idle hook, and then any turns. */
  lemma AfterReject0(v: Value, rest: seq<Turn>)
    requires WellFormed(Rejected0(v).s) && CanTake(Rejected0(v), rest)
    ensures var turns := [Turn(NewPromise, Silent), Turn(Reject(0, v), Silent)] + rest;
            WellFormed(Start.s) && CanTake(Start, turns) && Take(Start, turns) == Take(Rejected0(v), rest)
  {
    hide *;
    MakePromise0();
    Reject0(v);
    TwoTurns(Start, Turn(NewPromise, Silent), Turn(Reject(0, v), Silent), rest);
  }

  lemma CheckStartsAtFirst(w: World, hooks: Hooks)
    requires WellFormed(w.s) && Enabled(w.s, Check) && w.s.core.potentiallyUnhandled != []
    ensures w.s.core.potentiallyUnhandled[0] < |w.s.core.promises|
    ensures CheckEntryWith(w, w.s.core.potentiallyUnhandled[0], hooks).caught <= StepWith(w, Check, hooks).caught
  {
    hide CheckEntryWith;
  }

  lemma NosyCaught(w: World)
    requires WellFormed(w.s) && |w.s.core.promises| > 0 && w.s.core.promises[0].unhandled == 1
    ensures 0 in CheckEntryWith(w, 0, Nosy).caught
  {
    LogWellFormed(w, NotifyReject(0));
    NosyRegisters(Log(w, NotifyReject(0)));
    var w1 := Log(w, NotifyReject(0));
    var w2 := CallHook(w1, Nosy);
    SameRegistrations(w.s.core, w2.s.core, w1.s.core, w2.s.core, 0);
    hide WellFormed, CallHook, Registered;
  }

  /** From the start of the machine: a 'reject' hook that registers on the promise it is told about. */
  lemma RejectHookRun(v: Value)
    ensures var turns := [Turn(NewPromise, Silent), Turn(Reject(0, v), Silent)] + [Turn(Check, Nosy)];
            WellFormed(Start.s) && CanTake(Start, turns) && 0 in Take(Start, turns).caught
  {
    hide StepWith, WellFormed, Registered, CheckEntryWith, CallHook, CanTake, Take;
    var w := Rejected0(v);
    Reject0(v);
    NosyCaught(w);
    CheckStartsAtFirst(w, Nosy);
    OneTurn(w, Turn(Check, Nosy));
    AfterReject0(v, [Turn(Check, Nosy)]);
  }

  lemma NosyCaughtRejecting(w: World, v: Value)
    requires WellFormed(w.s) && |w.s.core.promises| > 0
    requires w.s.core.promises[0].status.Pending? && !w.s.core.promises[0].isHandled
    ensures 0 in RejectWith(w, 0, v, Nosy).caught
  {
    SettleGrown(w, 0, v);
    var w1 := Log(With(w, SettleRejected(w.s.core, 0, v)), RawReject(0));
    LogWellFormed(With(w, SettleRejected(w.s.core, 0, v)), RawReject(0));
    NosyRegisters(w1);
    SameRegistrations(w.s.core, CallHook(w1, Nosy).s.core, w1.s.core, CallHook(w1, Nosy).s.core, 0);
    hide WellFormed, CallHook, Registered;
  }

  /** A 'rawReject' hook that registers on the promise just rejected. */
  lemma RawRejectHookRun(v: Value)
    ensures WellFormed(Start.s) && CanTake(Start, [Turn(NewPromise, Silent)] + [Turn(Reject(0, v), Nosy)])
    ensures 0 in Take(Start, [Turn(NewPromise, Silent)] + [Turn(Reject(0, v), Nosy)]).caught
  {
    hide StepWith, WellFormed, RejectWith, CanTake, Take;
    MakePromise0();
    Reject0(v);
    var w, t := StepWith(Start, NewPromise, Silent), Turn(Reject(0, v), Nosy);
    RejectStep(w, v);
    OneTurn(w, t);
    TakeFirst(Start, Turn(NewPromise, Silent), [t]);
  }

  lemma RejectStep(w: World, v: Value)
    requires WellFormed(w.s) && Enabled(w.s, Reject(0, v)) && |w.s.core.promises| > 0
    requires w.s.core.promises[0].status.Pending? && !w.s.core.promises[0].isHandled && w.s.handles[0] == Handle(0, false)
    ensures 0 in StepWith(w, Reject(0, v), Nosy).caught
  {
    NosyCaughtRejecting(w.(s := Neutralize(w.s, 0)), v);
    hide CoreWellFormed, RejectWith;
  }

  lemma NosyCaughtHandling(w: World)
    requires WellFormed(w.s) && |w.s.core.promises| > 0
    requires w.s.core.promises[0].status.Rejected? && !w.s.core.promises[0].isHandled && w.s.core.promises[0].unhandled == 2
    ensures 0 in StepWith(w, Then(0, None, None), Nosy).caught
  {
    AddGrown(w);
    var w0, w1 := With(w, AddPromise(w.s.core)), Log(With(w, AddPromise(w.s.core)), RawHandle(0));
    LogWellFormed(w0, RawHandle(0));
    NosyRegisters(w1);
    SameRegistrations(w0.s.core, CallHook(w1, Nosy).s.core, w1.s.core, CallHook(w1, Nosy).s.core, 0);
    hide CoreWellFormed, CallHook, Registered;
  }

  lemma CheckRejected0(v: Value)
    ensures WellFormed(Rejected0(v).s) && Enabled(Rejected0(v).s, Check)
    ensures var w := StepWith(Rejected0(v), Check, Silent);
            && w.s.core.promises == [Promise(Rejected(v), [], [], false, 2)] && w.s.core.log == [RawReject(0), NotifyReject(0)]
  {
    Reject0(v);
    hide WellFormed, StepWith;
    IdleHooksAddNothing(Rejected0(v), Check);
    var c := Rejected0(v).s.core;
    assert CheckFrom(CheckOne(c, 0), 1) == CheckOne(c, 0);
    assert CheckFrom(c, 0) == CheckOne(c, 0);
  }

  /** A 'rawHandle' hook that registers on the promise whose rejection was reported before. */
  lemma RawHandleHookRun(v: Value)
    ensures var turns := [Turn(NewPromise, Silent), Turn(Reject(0, v), Silent)]
                       + ([Turn(Check, Silent)] + [Turn(Then(0, None, None), Nosy)]);
            WellFormed(Start.s) && CanTake(Start, turns) && 0 in Take(Start, turns).caught
  {
    hide StepWith, WellFormed, CanTake, Take, Rejected0;
    var t2, t3 := Turn(Check, Silent), Turn(Then(0, None, None), Nosy);
    CheckRejected0(v);
    var w := StepWith(Rejected0(v), Check, Silent);
    NosyCaughtHandling(w);
    OneTurn(w, t3);
    TakeFirst(Rejected0(v), t2, [t3]);
    AfterReject0(v, [t2] + [t3]);
  }
}
