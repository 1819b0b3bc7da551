/**
 The notifications in all runs, with rejection hooks that call promise code.  A promise is caught when
 the hook, while it is told of the promise, registers on that promise and the mark written afterwards
 misses it.  In every run exactly the caught promises are handled without their mark saying so: they
 never report 'handle'.  All others keep their reports up to date.
 */
module PromiseReports {
  import opened Wrappers
  import opened PromiseMachine
  import opened PromiseTracker
  import opened PromiseHooks

  // ---------- The invariant ----------

  /** A promise that can never report 'handle': it is handled, but its mark does not say so. */
  predicate Spoiled(pr: Promise<nat>, reports: seq<Event>, p: nat, todo: seq<nat>)
  {
    && pr.status.Rejected? && pr.isHandled
    && if reports == [] then pr.unhandled == 1 && p in todo
       else reports == [NotifyReject(p)] && (pr.unhandled == 0 || pr.unhandled == 2)
  }

  predicate Fits(pr: Promise<nat>, reports: seq<Event>, p: nat, todo: seq<nat>, caught: bool)
  {
    if caught then Spoiled(pr, reports, p, todo) else Tracked(pr, reports, p, todo)
  }

  predicate FitsAt(w: World, p: nat, i: nat)
    requires p < |w.s.core.promises| && i <= |w.s.core.potentiallyUnhandled|
  {
    Fits(w.s.core.promises[p], Reports(w.s.core.log, p), p, w.s.core.potentiallyUnhandled[i..], p in w.caught)
  }

  /** Exactly the caught promises are spoiled and the others are tracked, where the check is at entry
      'i' and the 'open' promises are those whose hook call has not returned. */
  ghost predicate Good(w: World, i: nat, open: set<nat>)
  {
    && WellFormed(w.s) && i <= |w.s.core.potentiallyUnhandled|
    && (forall p: nat :: p in open ==> p < |w.s.core.promises| && w.s.core.promises[p].status.Rejected?)
    && (forall p: nat :: p < |w.s.core.promises| && p !in open ==> FitsAt(w, p, i))
    && (forall p: nat :: p >= |w.s.core.promises| ==> Reports(w.s.core.log, p) == [] && p !in w.caught)
  }

  /** What user code, with the hook calls it causes, can do to a rejected promise: only registering on
      it while it is unhandled changes it, and then it is handled and not marked as notified. */
  ghost predicate MovedAt(w: World, w': World, p: nat)
    requires p < |w.s.core.promises| && p < |w'.s.core.promises|
  {
    var pr, pr' := w.s.core.promises[p], w'.s.core.promises[p];
    && pr'.status == pr.status
    && (if pr.isHandled || !Registered(w.s.core, w'.s.core, p)
        then pr'.isHandled == pr.isHandled && pr'.unhandled == pr.unhandled && (p in w'.caught <==> p in w.caught)
        else pr'.isHandled && pr'.unhandled != 2)
    && (pr.unhandled != 2 ==> (p in w'.caught <==> p in w.caught))
  }

  ghost predicate Moved(w: World, w': World)
  {
    && Grown(w, w')
    && (forall p: nat :: Reports(w'.s.core.log, p) == Reports(w.s.core.log, p))
    && (forall p: nat :: p < |w.s.core.promises| && w.s.core.promises[p].status.Rejected? ==> MovedAt(w, w', p))
  }

  // ---------- Moves ----------

  lemma MovedNot(w: World, i: nat, open: set<nat>)
    requires Good(w, i, open)
    ensures Moved(w, w)
  {
  }

  lemma RegisteredSplit(a: Core<nat>, b: Core<nat>, c: Core<nat>, p: nat)
    requires a.registrations <= b.registrations <= c.registrations
    ensures Registered(a, c, p) <==> Registered(a, b, p) || Registered(b, c, p)
  {
    if Registered(a, b, p) {
      var k :| |a.registrations| <= k < |b.registrations| && b.registrations[k].p == p;
      assert c.registrations[k].p == p;
    }
  }

  lemma MovedTwiceAt(w: World, w1: World, w2: World, p: nat)
    requires Grown(w, w1) && Grown(w1, w2)
    requires p < |w.s.core.promises| && MovedAt(w, w1, p) && MovedAt(w1, w2, p)
    ensures MovedAt(w, w2, p)
  {
    hide WellFormed;
    RegisteredSplit(w.s.core, w1.s.core, w2.s.core, p);
    hide Registered;
  }

  lemma MovedTwice(w: World, w1: World, w2: World)
    requires Moved(w, w1) && Moved(w1, w2)
    ensures Moved(w, w2)
  {
    hide WellFormed, MovedAt, Reports;
    forall p: nat | p < |w.s.core.promises| && w.s.core.promises[p].status.Rejected? ensures MovedAt(w, w2, p) {
      assert w1.s.core.promises[p].status == w.s.core.promises[p].status by { MovedKeepsStatus(w, w1, p); }
      MovedTwiceAt(w, w1, w2, p);
    }
  }

  lemma MovedKeepsStatus(w: World, w': World, p: nat)
    requires p < |w.s.core.promises| && p < |w'.s.core.promises| && MovedAt(w, w', p)
    ensures w'.s.core.promises[p].status == w.s.core.promises[p].status
  {
  }

  /** A change that tells the hook nothing: rejections of handled promises, fulfilments, new promises,
      handlers for promises that are not unhandled rejections. */
  ghost predicate Calm(c: Core<nat>, c': Core<nat>)
  {
    && |c.promises| <= |c'.promises| && c'.log == c.log && c.registrations <= c'.registrations
    && c'.potentiallyUnhandled == c.potentiallyUnhandled
    && (forall p: nat :: p < |c.promises| ==> CalmAt(c, c', p))
    && (forall p: nat :: |c.promises| <= p < |c'.promises| ==> c'.promises[p].status.Pending? && c'.promises[p].unhandled == 0)
  }

  ghost predicate CalmAt(c: Core<nat>, c': Core<nat>, p: nat)
    requires p < |c.promises| && p < |c'.promises|
  {
    var pr, pr' := c.promises[p], c'.promises[p];
    && pr'.unhandled == pr.unhandled && (!pr.status.Pending? ==> pr'.status == pr.status)
    && if pr.status.Rejected? then
         pr'.status == pr.status && pr'.isHandled == pr.isHandled && (pr.isHandled || !Registered(c, c', p))
       else pr'.status.Rejected? ==> pr'.isHandled
  }

  lemma CalmGood(w: World, w': World, i: nat, open: set<nat>)
    requires Good(w, i, open) && WellFormed(w'.s) && Calm(w.s.core, w'.s.core) && w'.caught == w.caught
    ensures Good(w', i, open) && Moved(w, w')
  {
    hide WellFormed, Reports, Registered;
    var c, c' := w.s.core, w'.s.core;
    forall p: nat | p < |c'.promises| && p !in open ensures FitsAt(w', p, i) {
      if p < |c.promises| { assert CalmAt(c, c', p) && FitsAt(w, p, i); }
    }
    forall p: nat | p < |c.promises|
      ensures !c.promises[p].status.Pending? ==> c'.promises[p].status == c.promises[p].status
      ensures c.promises[p].status.Rejected? ==> MovedAt(w, w', p)
    {
      assert CalmAt(c, c', p);
    }
  }

  lemma CalmSettle(c: Core<nat>, p: nat, v: Value)
    requires p < |c.promises|
    ensures Calm(c, DoFulfill(c, p, v))
    ensures c.promises[p].status.Pending? && c.promises[p].isHandled ==> Calm(c, SettleRejected(c, p, v))
  {
  }

  lemma CalmAdd(c: Core<nat>)
    ensures Calm(c, c) && Calm(c, AddPromise(c))
  {
  }

  lemma CalmSubscribe(c: Core<nat>, p: nat, onF: Handler, onR: Handler, link: nat)
    requires p < |c.promises| && !(c.promises[p].status.Rejected? && !c.promises[p].isHandled)
    ensures Calm(c, Subscribe(c, p, onF, onR, link))
  {
  }

  lemma CalmQueue(c: Core<nat>, v: Value, f: int, p: nat)
    ensures Calm(c, EnqueueThenable(c, v, f, p)) && (c.queue != [] ==> Calm(c, Dequeue(c)))
  {
  }

  // ---------- Calls of the hook ----------

  /** The events of the tracker and of jobs are not notifications. */
  lemma LogGood(w: World, e: Event, i: nat, open: set<nat>)
    requires Good(w, i, open) && !e.NotifyReject? && !e.NotifyHandle?
    ensures Good(Log(w, e), i, open) && Moved(w, Log(w, e))
  {
    hide Reports, Fits;
    forall p: nat ensures Reports(Log(w, e).s.core.log, p) == Reports(w.s.core.log, p) {
      ReportsPush(w.s.core.log, e, p);
    }
    forall p: nat | p < |w.s.core.promises| && p !in open ensures FitsAt(Log(w, e), p, i) {
      assert FitsAt(w, p, i);
    }
  }

  lemma OpenGood(w: World, i: nat, open: set<nat>, p: nat)
    requires Good(w, i, open) && p < |w.s.core.promises| && w.s.core.promises[p].status.Rejected?
    ensures Good(w, i, open + {p})
  {
    hide WellFormed, FitsAt, Reports;
  }

  /** Rejecting a promise without handlers, up to the call of the hook. */
  lemma RejectStart(w: World, p: nat, v: Value, i: nat, open: set<nat>)
    requires Good(w, i, open) && p < |w.s.core.promises|
    requires w.s.core.promises[p].status.Pending? && !w.s.core.promises[p].isHandled
    ensures p !in open && p !in w.caught && w.s.core.promises[p].unhandled == 0 && Reports(w.s.core.log, p) == []
    ensures Good(With(w, SettleRejected(w.s.core, p, v)), i, open + {p})
  {
    hide WellFormed, Reports;
    SettleGrown(w, p, v);
    var w1 := With(w, SettleRejected(w.s.core, p, v));
    assert FitsAt(w, p, i);
    forall x: nat | x < |w1.s.core.promises| && x !in open + {p} ensures FitsAt(w1, x, i) {
      assert FitsAt(w, x, i);
    }
  }

  lemma TodoGrows(a: seq<nat>, b: seq<nat>, i: nat, p: nat)
    requires i <= |a| && a <= b && p in a[i..]
    ensures p in b[i..]
  {
    var k :| i <= k < |a| && a[k] == p;
    assert b[i..][k - i] == p;
  }

  /** A promise keeps fitting when only the rejection list got longer. */
  lemma FitsLonger(w: World, w': World, p: nat, i: nat)
    requires p < |w.s.core.promises| && p < |w'.s.core.promises| && i <= |w.s.core.potentiallyUnhandled|
    requires w.s.core.potentiallyUnhandled <= w'.s.core.potentiallyUnhandled
    requires w'.s.core.promises[p] == w.s.core.promises[p] && Reports(w'.s.core.log, p) == Reports(w.s.core.log, p)
    requires (p in w'.caught <==> p in w.caught) && FitsAt(w, p, i)
    ensures FitsAt(w', p, i)
  {
    if p in w.s.core.potentiallyUnhandled[i..] {
      TodoGrows(w.s.core.potentiallyUnhandled, w'.s.core.potentiallyUnhandled, i, p);
    }
    hide Reports;
  }

  /** The end of the tracker's work on promise 'p' changes only that promise, which is then no longer open. */
  lemma CloseGood(w: World, w': World, p: nat, i: nat, open: set<nat>)
    requires Good(w, i, open + {p}) && p < |w.s.core.promises|
    requires Grown(w, w') && |w'.s.core.promises| == |w.s.core.promises| && w'.s.core.log == w.s.core.log
    requires forall x: nat :: x < |w.s.core.promises| && x != p ==>
               w'.s.core.promises[x] == w.s.core.promises[x] && (x in w'.caught <==> x in w.caught)
    requires w'.s.core.promises[p].status.Rejected? && (p !in open ==> FitsAt(w', p, i))
    requires forall x: nat :: x in w'.caught ==> x in w.caught || x == p
    ensures Good(w', i, open)
  {
    hide WellFormed, Reports, FitsAt;
    forall x: nat | x < |w'.s.core.promises| && x !in open ensures FitsAt(w', x, i) {
      if x != p { FitsLonger(w, w', x, i); }
    }
  }

  lemma RejectEndAt(w: World, w1: World, w2: World, w3: World, p: nat, i: nat)
    requires p < |w.s.core.promises| <= |w2.s.core.promises| && i <= |w2.s.core.potentiallyUnhandled|
    requires p < |w1.s.core.promises| && w1.s.core.promises[p].status.Rejected? && !w1.s.core.promises[p].isHandled
    requires w1.s.core.promises[p].unhandled == 0 && p !in w1.caught && w1.s.core.registrations == w.s.core.registrations
    requires MovedAt(w1, w2, p) && Reports(w2.s.core.log, p) == []
    requires w3 == Catch(With(w2, AfterRawReject(w2.s.core, p)), p, Registered(w.s.core, w2.s.core, p))
    ensures FitsAt(w3, p, i)
  {
    hide Reports;
    assert Registered(w1.s.core, w2.s.core, p) == Registered(w.s.core, w2.s.core, p);
    hide Registered;
    assert w3.s.core.potentiallyUnhandled[i..][|w2.s.core.potentiallyUnhandled| - i] == p;
  }

  lemma RejectEnd(w: World, w1: World, w2: World, w3: World, p: nat, v: Value, i: nat, open: set<nat>)
    requires Good(w, i, open) && p < |w.s.core.promises|
    requires w.s.core.promises[p].status.Pending? && !w.s.core.promises[p].isHandled
    requires w1 == Log(With(w, SettleRejected(w.s.core, p, v)), RawReject(p)) && WellFormed(w1.s)
    requires Good(w2, i, open + {p}) && Moved(w1, w2)
    requires w3 == Catch(With(w2, AfterRawReject(w2.s.core, p)), p, Registered(w.s.core, w2.s.core, p)) && Grown(w2, w3)
    ensures Good(w3, i, open) && Moved(w, w3)
  {
    hide WellFormed, Reports, FitsAt, Registered;
    RejectStart(w, p, v, i, open);
    forall x: nat { ReportsPush(w.s.core.log, RawReject(p), x); }
    RejectEndAt(w, w1, w2, w3, p, i);
    assert MovedAt(w1, w2, p);
    CloseGood(w2, w3, p, i, open);
    forall x: nat | x < |w.s.core.promises| && w.s.core.promises[x].status.Rejected? ensures MovedAt(w, w3, x) {
      assert MovedAt(w1, w2, x);
      assert Registered(w.s.core, w3.s.core, x) == Registered(w1.s.core, w2.s.core, x) by { SameRegistrations(w.s.core, w3.s.core, w1.s.core, w2.s.core, x); }
    }
  }

  lemma SameRegistrations(a: Core<nat>, b: Core<nat>, c: Core<nat>, d: Core<nat>, p: nat)
    requires a.registrations == c.registrations && b.registrations == d.registrations
    ensures Registered(a, b, p) == Registered(c, d, p)
  {
  }

  lemma SubscribeEndAt(w: World, w2: World, w3: World, p: nat, onR: Handler, link: nat, i: nat)
    requires p < |w.s.core.promises| <= |w2.s.core.promises|
    requires i <= |w.s.core.potentiallyUnhandled| && i <= |w2.s.core.potentiallyUnhandled|
    requires w.s.core.promises[p].status.Rejected? && !w.s.core.promises[p].isHandled
    requires FitsAt(w, p, i) && MovedAt(w, w2, p) && Reports(w2.s.core.log, p) == Reports(w.s.core.log, p)
    requires w3 == Catch(With(w2, RegisterRejected(AfterRawHandle(w2.s.core, p), p, onR, link, w.s.core.promises[p].status.v)), p,
                         w.s.core.promises[p].unhandled == 2 && Registered(w.s.core, w2.s.core, p))
    ensures i <= |w3.s.core.potentiallyUnhandled| && FitsAt(w3, p, i)
  {
    hide Reports, Registered;
    if w2.s.core.promises[p].unhandled == 2 {
      assert w3.s.core.potentiallyUnhandled[i..][|w2.s.core.potentiallyUnhandled| - i] == p;
    }
  }

  lemma SubscribeMovedAt(w: World, w2: World, w3: World, p: nat, onR: Handler, link: nat, v: Value, x: nat)
    requires p < |w.s.core.promises| && x < |w.s.core.promises| && Grown(w, w2)
    requires !w.s.core.promises[p].isHandled && MovedAt(w, w2, x)
    requires w3 == Catch(With(w2, RegisterRejected(AfterRawHandle(w2.s.core, p), p, onR, link, v)), p,
                         w.s.core.promises[p].unhandled == 2 && Registered(w.s.core, w2.s.core, p))
    ensures x < |w3.s.core.promises| && MovedAt(w, w3, x)
  {
    hide WellFormed;
    var n := |w2.s.core.registrations|;
    RegisteredSplit(w.s.core, w2.s.core, w3.s.core, x);
    assert w3.s.core.registrations[n].p == p;
    assert Registered(w2.s.core, w3.s.core, x) <==> x == p;
    hide Registered;
  }

  /** Registering the first handler of a rejected promise, after the call of the hook. */
  lemma SubscribeEnd(w: World, w2: World, w3: World, p: nat, onR: Handler, link: nat, i: nat, open: set<nat>)
    requires Good(w, i, open) && p < |w.s.core.promises|
    requires w.s.core.promises[p].status.Rejected? && !w.s.core.promises[p].isHandled
    requires Good(w2, i, open + {p}) && Moved(Log(w, RawHandle(p)), w2) && Grown(w2, w3)
    requires w3 == Catch(With(w2, RegisterRejected(AfterRawHandle(w2.s.core, p), p, onR, link, w.s.core.promises[p].status.v)), p,
                         w.s.core.promises[p].unhandled == 2 && Registered(w.s.core, w2.s.core, p))
    ensures Good(w3, i, open) && Moved(w, w3)
  {
    hide WellFormed, Reports, FitsAt, Registered, MovedAt;
    LogGood(w, RawHandle(p), i, open);
    MovedTwice(w, Log(w, RawHandle(p)), w2);
    if p !in open { SubscribeEndAt(w, w2, w3, p, onR, link, i); }
    MovedKeepsStatus(w, w2, p);
    CloseGood(w2, w3, p, i, open);
    forall x: nat | x < |w.s.core.promises| && w.s.core.promises[x].status.Rejected? ensures MovedAt(w, w3, x) {
      SubscribeMovedAt(w, w2, w3, p, onR, link, w.s.core.promises[p].status.v, x);
    }
  }

  // ---------- Every action with its hook calls ----------

  /** Changes of pairs and open calls are calm. */
  lemma CalmState(w: World, w': World, i: nat, open: set<nat>)
    requires Good(w, i, open) && WellFormed(w'.s) && w'.s.core == w.s.core && w'.caught == w.caught
    ensures Good(w', i, open) && Moved(w, w')
  {
    assert Calm(w.s.core, w.s.core);
    CalmGood(w, w', i, open);
    hide *;
  }

  lemma RejectGood(w: World, p: nat, v: Value, hooks: Hooks, i: nat, open: set<nat>)
    requires Good(w, i, open) && p < |w.s.core.promises|
    ensures Good(RejectWith(w, p, v, hooks), i, open) && Moved(w, RejectWith(w, p, v, hooks))
    decreases hooks, 1
  {
    hide Reports, FitsAt, Registered, MovedAt, CallHook, CoreWellFormed, SettleRejected, AfterRawReject;
    if !w.s.core.promises[p].status.Pending? {
      MovedNot(w, i, open);
    } else {
      SettleGrown(w, p, v);
      var w1 := With(w, SettleRejected(w.s.core, p, v));
      if w.s.core.promises[p].isHandled {
        CalmSettle(w.s.core, p, v);
        CalmGood(w, w1, i, open);
      } else {
        RejectStart(w, p, v, i, open);
        LogGood(w1, RawReject(p), i, open + {p});
        HookGood(Log(w1, RawReject(p)), hooks, i, open + {p});
        var w2 := CallHook(Log(w1, RawReject(p)), hooks);
        MarkGrown(w2, p, 1);
        hide Good, Moved, WellFormed;
        RejectEnd(w, Log(w1, RawReject(p)), w2, RejectWith(w, p, v, hooks), p, v, i, open);
      }
    }
  }

  lemma SubscribeGood(w: World, p: nat, onF: Handler, onR: Handler, link: nat, hooks: Hooks, i: nat, open: set<nat>)
    requires Good(w, i, open) && p < |w.s.core.promises| && link < |w.s.core.promises|
    ensures var r := SubscribeWith(w, p, onF, onR, link, hooks); Good(r, i, open) && Moved(w, r)
    decreases hooks, 1
  {
    hide Reports, FitsAt, Registered, MovedAt, CallHook, CoreWellFormed, RegisterRejected, AfterRawHandle, Subscribe;
    var pr := w.s.core.promises[p];
    if pr.status.Rejected? && !pr.isHandled {
      var w1 := Log(w, RawHandle(p));
      LogGood(w, RawHandle(p), i, open);
      OpenGood(w1, i, open, p);
      HookGood(w1, hooks, i, open + {p});
      var w2 := CallHook(w1, hooks);
      HandleGrown(w2, p, onR, link, pr.status.v);
      hide Good, Moved, WellFormed;
      SubscribeEnd(w, w2, SubscribeWith(w, p, onF, onR, link, hooks), p, onR, link, i, open);
    } else {
      SubscribeGrown(w, p, onF, onR, link);
      CalmSubscribe(w.s.core, p, onF, onR, link);
      CalmGood(w, With(w, Subscribe(w.s.core, p, onF, onR, link)), i, open);
    }
  }

  lemma HookGood(w: World, hooks: Hooks, i: nat, open: set<nat>)
    requires Good(w, i, open)
    ensures Good(CallHook(w, hooks), i, open) && Moved(w, CallHook(w, hooks))
    decreases hooks, 0
  {
    hide Reports, FitsAt, MovedAt, Perform;
    if hooks.Silent? { MovedNot(w, i, open); } else { PerformGood(w, hooks.script, i, open); }
  }

  lemma ResolveGood(w: World, p: nat, v: Value, hooks: Hooks, i: nat, open: set<nat>)
    requires Good(w, i, open) && p < |w.s.core.promises|
    ensures Good(ResolveWith(w, p, v, hooks), i, open) && Moved(w, ResolveWith(w, p, v, hooks))
    decreases hooks, 2
  {
    hide Reports, FitsAt, MovedAt, RejectWith, CoreWellFormed, DoFulfill;
    var r := ResolveWith(w, p, v, hooks);
    if !w.s.core.promises[p].status.Pending? {
      MovedNot(w, i, open);
    } else if v == PromiseObject(p) {
      RejectGood(w, p, SelfResolutionError, hooks, i, open);
    } else if !v.Plain? {
      CalmState(w, r, i, open);
    } else {
      CalmSettle(w.s.core, p, v);
      CalmGood(w, r, i, open);
    }
  }

  lemma GetterGood(w: World, p: nat, v: Value, look: Look, hooks: Hooks, i: nat, open: set<nat>)
    requires Good(w, i, open) && p < |w.s.core.promises|
    ensures Good(FinishGetterWith(w, p, v, look, hooks), i, open) && Moved(w, FinishGetterWith(w, p, v, look, hooks))
    decreases hooks, 2
  {
    hide Reports, FitsAt, MovedAt, RejectWith, CoreWellFormed, DoFulfill, EnqueueThenable;
    var r := FinishGetterWith(w, p, v, look, hooks);
    match look
    case NotCallable =>
      CalmSettle(w.s.core, p, v);
      CalmGood(w, r, i, open);
    case Callable(f) =>
      CalmQueue(w.s.core, v, f, p);
      CalmGood(w, r, i, open);
    case GetterThrew(e) => RejectGood(w, p, e, hooks, i, open);
  }

  /** A call of a resolve or reject function. */
  lemma PairCallGood(w: World, a: Action, hooks: Hooks, i: nat, open: set<nat>)
    requires Good(w, i, open) && (a.Resolve? || a.Reject?) && Enabled(w.s, a)
    ensures Good(UserWith(w, a, hooks), i, open) && Moved(w, UserWith(w, a, hooks))
    decreases hooks, 3
  {
    hide Reports, FitsAt, MovedAt, RejectWith, ResolveWith, CoreWellFormed;
    if w.s.handles[a.h].alreadyResolved {
      MovedNot(w, i, open);
    } else {
      var p, w1 := w.s.handles[a.h].target, w.(s := Neutralize(w.s, a.h));
      CalmState(w, w1, i, open);
      if a.Resolve? { ResolveGood(w1, p, a.v, hooks, i, open); } else { RejectGood(w1, p, a.v, hooks, i, open); }
      hide Good, Moved;
      MovedTwice(w, w1, UserWith(w, a, hooks));
    }
  }

  lemma ThenGood(w: World, a: Action, hooks: Hooks, i: nat, open: set<nat>)
    requires Good(w, i, open) && a.Then? && Enabled(w.s, a)
    ensures Good(UserWith(w, a, hooks), i, open) && Moved(w, UserWith(w, a, hooks))
    decreases hooks, 3
  {
    hide Reports, FitsAt, MovedAt, SubscribeWith, CoreWellFormed;
    var w1 := With(w, AddPromise(w.s.core));
    CalmAdd(w.s.core);
    AddGrown(w);
    CalmGood(w, w1, i, open);
    SubscribeGood(w1, a.p, OnFulfilled(a.onFulfilled), OnRejected(a.onRejected), |w.s.core.promises|, hooks, i, open);
    hide Good, Moved;
    MovedTwice(w, w1, UserWith(w, a, hooks));
  }

  lemma UserGood(w: World, a: Action, hooks: Hooks, i: nat, open: set<nat>)
    requires Good(w, i, open) && Scriptable(a) && Enabled(w.s, a)
    ensures Good(UserWith(w, a, hooks), i, open) && Moved(w, UserWith(w, a, hooks))
    decreases hooks, 4
  {
    hide Reports, FitsAt, MovedAt, RejectWith, ResolveWith, SubscribeWith, FinishGetterWith, CoreWellFormed;
    match a
    case NewPromise =>
      CalmAdd(w.s.core);
      CalmGood(w, UserWith(w, a, hooks), i, open);
    case Resolve(_, _) => PairCallGood(w, a, hooks, i, open);
    case Reject(_, _) => PairCallGood(w, a, hooks, i, open);
    case Then(_, _, _) => ThenGood(w, a, hooks, i, open);
    case Forward(source, target) => SubscribeGood(w, source, Missing, Missing, target, hooks, i, open);
    case GetterReturns(look) =>
      var w1 := w.(s := Pop(w.s));
      CalmState(w, w1, i, open);
      GetterGood(w1, Top(w.s).p, Top(w.s).v, look, hooks, i, open);
      hide Good, Moved;
      MovedTwice(w, w1, UserWith(w, a, hooks));
  }

  lemma PerformGood(w: World, script: Script, i: nat, open: set<nat>)
    requires Good(w, i, open)
    ensures Good(Perform(w, script), i, open) && Moved(w, Perform(w, script))
    decreases script
  {
    assert WellFormed(w.s);
    hide Good, Moved, UserWith, WellFormed, Enabled;
    match script
    case Done => MovedNot(w, i, open);
    case Do(a, hooks, rest) =>
      if Scriptable(a) && Enabled(w.s, a) {
        var w1 := UserWith(w, a, hooks);
        UserGood(w, a, hooks, i, open);
        PerformGood(w1, rest, i, open);
        MovedTwice(w, w1, Perform(w1, rest));
      } else {
        PerformGood(w, rest, i, open);
      }
  }

  // ---------- The check ----------

  /** A promise that is not the one of entry 'i', or has no notification due, needs the entry no more. */
  lemma PastEntry(w: World, w1: World, i: nat, x: nat)
    requires x < |w.s.core.promises| && x < |w1.s.core.promises| && w1.s.core.promises[x] == w.s.core.promises[x]
    requires i < |w.s.core.potentiallyUnhandled| && w1.s.core.potentiallyUnhandled == w.s.core.potentiallyUnhandled
    requires w.s.core.potentiallyUnhandled[i] != x || w.s.core.promises[x].unhandled !in {1, 3}
    requires w1.caught == w.caught && Reports(w1.s.core.log, x) == Reports(w.s.core.log, x) && FitsAt(w, x, i)
    ensures FitsAt(w1, x, i + 1)
  {
    hide Reports;
    var pu := w.s.core.potentiallyUnhandled;
    assert pu[i..] == [pu[i]] + pu[i + 1..];
  }

  /** Before the hook is told about entry 'i': the promise is rejected, and all others fit without the entry. */
  lemma NotifyStart(w: World, i: nat, e: Event)
    requires Good(w, i, {}) && i < |w.s.core.potentiallyUnhandled|
    requires var p := w.s.core.potentiallyUnhandled[i];
             p < |w.s.core.promises| && w.s.core.promises[p].unhandled in {1, 3} && (e == NotifyReject(p) || e == NotifyHandle(p))
    ensures Good(Log(w, e), i + 1, {w.s.core.potentiallyUnhandled[i]})
    ensures Reports(Log(w, e).s.core.log, w.s.core.potentiallyUnhandled[i])
         == Reports(w.s.core.log, w.s.core.potentiallyUnhandled[i]) + [e]
  {
    var p, w1, next := w.s.core.potentiallyUnhandled[i], Log(w, e), i + 1;
    forall x: nat ensures Reports(w1.s.core.log, x) == Reports(w.s.core.log, x) + if x == p then [e] else [] {
      ReportsPush(w.s.core.log, e, x);
    }
    LogWellFormed(w, e);
    assert FitsAt(w, p, i);
    hide Reports, WellFormed;
    assert w.s.core.promises[p].status.Rejected?;
    hide FitsAt;
    forall x: nat | x < |w1.s.core.promises| && x !in {p} ensures FitsAt(w1, x, next) {
      PastEntry(w, w1, i, x);
    }
  }

  lemma SkipEntry(w: World, i: nat)
    requires Good(w, i, {}) && i < |w.s.core.potentiallyUnhandled|
    requires var p := w.s.core.potentiallyUnhandled[i]; p < |w.s.core.promises| && w.s.core.promises[p].unhandled !in {1, 3}
    ensures Good(w, i + 1, {})
  {
    hide Reports, WellFormed, FitsAt;
    var next := i + 1;
    forall x: nat | x < |w.s.core.promises| ensures FitsAt(w, x, next) {
      PastEntry(w, w, i, x);
    }
  }

  lemma NotifyEnd(w: World, i: nat, e: Event, mark: nat, w2: World, w3: World)
    requires Good(w, i, {}) && i < |w.s.core.potentiallyUnhandled| && w.s.core.potentiallyUnhandled[i] < |w.s.core.promises|
    requires var p := w.s.core.potentiallyUnhandled[i];
             && p < |w2.s.core.promises| && (w.s.core.promises[p].unhandled == 1 || w.s.core.promises[p].unhandled == 3)
             && e == (if w.s.core.promises[p].unhandled == 1 then NotifyReject(p) else NotifyHandle(p))
             && mark == (if w.s.core.promises[p].unhandled == 1 then 2 else 0)
             && w3 == Catch(With(w2, SetMark(w2.s.core, p, mark)), p, mark == 2 && Registered(w.s.core, w2.s.core, p))
    requires Good(w2, i + 1, {w.s.core.potentiallyUnhandled[i]}) && Moved(Log(w, e), w2) && Grown(w2, w3)
    ensures Good(w3, i + 1, {})
  {
    hide Reports, WellFormed, Registered;
    var p, w1 := w.s.core.potentiallyUnhandled[i], Log(w, e);
    NotifyStart(w, i, e);
    SameRegistrations(w.s.core, w2.s.core, w1.s.core, w2.s.core, p);
    assert FitsAt(w, p, i) && MovedAt(w1, w2, p);
    assert {} + {p} == {p};
    assert FitsAt(w3, p, i + 1);
    hide FitsAt, MovedAt;
    CloseGood(w2, w3, p, i + 1, {});
  }

  lemma CheckEntryGood(w: World, i: nat, hooks: Hooks)
    requires Good(w, i, {}) && i < |w.s.core.potentiallyUnhandled|
    ensures w.s.core.potentiallyUnhandled[i] < |w.s.core.promises|
    ensures Good(CheckEntryWith(w, w.s.core.potentiallyUnhandled[i], hooks), i + 1, {})
  {
    var p := w.s.core.potentiallyUnhandled[i];
    assert WellFormed(w.s) && p < |w.s.core.promises|;
    hide Good, Moved, WellFormed, CallHook, SetMark, AfterRawReject;
    var mark := w.s.core.promises[p].unhandled;
    if mark == 1 || mark == 3 {
      var e := if mark == 1 then NotifyReject(p) else NotifyHandle(p);
      NotifyStart(w, i, e);
      HookGood(Log(w, e), hooks, i + 1, {p});
      LogWellFormed(w, e);
      var w2 := CallHook(Log(w, e), hooks);
      MarkGrown(w2, p, if mark == 1 then 2 else 0);
      NotifyEnd(w, i, e, if mark == 1 then 2 else 0, w2, CheckEntryWith(w, p, hooks));
    } else {
      SkipEntry(w, i);
    }
  }

  lemma LogWellFormed(w: World, e: Event)
    requires WellFormed(w.s)
    ensures WellFormed(Log(w, e).s)
  {
  }

  lemma {:induction false} CheckGood(w: World, i: nat, hooks: Hooks)
    requires Good(w, i, {})
    ensures var r := CheckWith(w, i, hooks); Good(r, |r.s.core.potentiallyUnhandled|, {})
    decreases hooks, |w.s.core.potentiallyUnhandled| - i
  {
    assert WellFormed(w.s) && i <= |w.s.core.potentiallyUnhandled|;
    hide Good, CoreWellFormed, CallHook;
    if i < |w.s.core.potentiallyUnhandled| {
      var p := w.s.core.potentiallyUnhandled[i];
      CheckEntryGood(w, i, hooks);
      var told := w.s.core.promises[p].unhandled in {1, 3};
      CheckGood(CheckEntryWith(w, p, hooks), i + 1, if told && hooks.Hook? then hooks.rest else hooks);
    }
  }

  // ---------- Every step and every run ----------

  lemma RunJobGood(w: World, hooks: Hooks)
    requires Good(w, 0, {}) && Enabled(w.s, RunEntry)
    ensures Good(RunJobWith(w, hooks), 0, {})
  {
    assert w.s.core.queue[0].link < |w.s.core.promises|;
    hide Reports, FitsAt, MovedAt, RejectWith, ResolveWith, CoreWellFormed, Dequeue, Calm;
    var w1, r := With(w, Dequeue(w.s.core)), RunJobWith(w, hooks);
    DequeueGrown(w);
    CalmQueue(w.s.core, SelfResolutionError, 0, 0);
    CalmGood(w, w1, 0, {});
    var job := w.s.core.queue[0];
    if job.ThenableJob? || job.handler.Fn? {
      var e := if job.ThenableJob? then CallThen(job.thenFn, job.thenable, |w.s.handles|) else Call(job.handler.f, job.value);
      RunJobWellFormed(w.s);
      LogGood(w1, e, 0, {});
      CalmState(Log(w1, e), r, 0, {});
    } else if job.handler.Thrower? || (job.handler.Missing? && job.rejected) {
      RejectGood(w1, job.link, job.value, hooks, 0, {});
    } else {
      ResolveGood(w1, job.link, job.value, hooks, 0, {});
    }
  }

  lemma FinishJobGood(w: World, outcome: Outcome, hooks: Hooks)
    requires Good(w, 0, {}) && Enabled(w.s, UserReturns(outcome))
    ensures Good(FinishJobWith(w, outcome, hooks), 0, {})
  {
    hide Reports, FitsAt, MovedAt, RejectWith, ResolveWith, UserWith, CoreWellFormed;
    var w1 := w.(s := Pop(w.s));
    CalmState(w, w1, 0, {});
    match Top(w.s)
    case HandlerCall(p) =>
      if outcome.Return? { ResolveGood(w1, p, outcome.v, hooks, 0, {}); } else { RejectGood(w1, p, outcome.e, hooks, 0, {}); }
    case ThenCall(h) =>
      if outcome.Throw? { UserGood(w1, Reject(h, outcome.e), hooks, 0, {}); }
  }

  /** Every step, whatever its hook calls do, leaves exactly the caught promises spoiled. */
  lemma StepGood(w: World, a: Action, hooks: Hooks)
    requires Good(w, 0, {}) && Enabled(w.s, a)
    ensures Good(StepWith(w, a, hooks), 0, {})
    ensures a.Check? ==> StepWith(w, a, hooks).s.core.potentiallyUnhandled == []
  {
    hide Reports, FitsAt, MovedAt, UserWith, RunJobWith, FinishJobWith, CheckWith, CoreWellFormed;
    match a
    case RunEntry => RunJobGood(w, hooks);
    case UserReturns(outcome) => FinishJobGood(w, outcome, hooks);
    case Check =>
      CheckGood(w, 0, hooks);
      ClearGood(CheckWith(w, 0, hooks));
    case _ => UserGood(w, a, hooks, 0, {});
  }

  lemma ClearGood(w: World)
    requires Good(w, |w.s.core.potentiallyUnhandled|, {})
    ensures Good(With(w, w.s.core.(potentiallyUnhandled := [])), 0, {})
  {
    var n, w1 := |w.s.core.potentiallyUnhandled|, With(w, w.s.core.(potentiallyUnhandled := []));
    assert w.s.core.potentiallyUnhandled[n..] == w1.s.core.potentiallyUnhandled[0..];
    hide Reports, Fits;
    forall x: nat | x < |w1.s.core.promises| ensures FitsAt(w1, x, 0) {
      assert FitsAt(w, x, n);
    }
  }

  /** A step and what the hook does during it. */
  datatype Turn = Turn(a: Action, hooks: Hooks)

  predicate CanTake(w: World, turns: seq<Turn>)
    requires WellFormed(w.s)
    decreases |turns|
  {
    turns == [] || (Enabled(w.s, turns[0].a) && CanTake(StepWith(w, turns[0].a, turns[0].hooks), turns[1..]))
  }

  function Take(w: World, turns: seq<Turn>): (r: World)
    requires WellFormed(w.s) && CanTake(w, turns)
    ensures WellFormed(r.s) && Extends(w.s.core, r.s.core) && w.caught <= r.caught
    decreases |turns|
  {
    if turns == [] then w else Take(StepWith(w, turns[0].a, turns[0].hooks), turns[1..])
  }

  lemma TakeFirst(w: World, t: Turn, rest: seq<Turn>)
    requires WellFormed(w.s) && Enabled(w.s, t.a)
    ensures CanTake(w, [t] + rest) <==> CanTake(StepWith(w, t.a, t.hooks), rest)
    ensures CanTake(w, [t] + rest) ==> Take(w, [t] + rest) == Take(StepWith(w, t.a, t.hooks), rest)
  {
    assert ([t] + rest)[1..] == rest;
    hide StepWith, Enabled, WellFormed;
  }

  lemma OneTurn(w: World, t: Turn)
    requires WellFormed(w.s) && Enabled(w.s, t.a)
    ensures CanTake(w, [t]) && Take(w, [t]) == StepWith(w, t.a, t.hooks)
  {
    hide StepWith, WellFormed;
    TakeFirst(w, t, []);
    assert [t] + [] == [t];
  }

  const Start := World(Initial, {})

  lemma StartGood()
    ensures Good(Start, 0, {})
  {
  }

  /** The theorem for all runs with all hooks: a promise was caught if and only if it is handled without
      its mark saying so, and otherwise its reports and its mark fit. */
  lemma {:induction false} RunsGood(w: World, turns: seq<Turn>)
    requires Good(w, 0, {}) && CanTake(w, turns)
    ensures Good(Take(w, turns), 0, {})
    decreases |turns|
  {
    assert WellFormed(w.s);
    hide Good, WellFormed;
    if turns != [] {
      StepGood(w, turns[0].a, turns[0].hooks);
      RunsGood(StepWith(w, turns[0].a, turns[0].hooks), turns[1..]);
    }
  }

  /** The history tells exactly the spoiled promises. */
  lemma CaughtIsSpoiled(w: World, p: nat)
    requires Good(w, 0, {}) && p < |w.s.core.promises|
    ensures p in w.caught <==> Spoiled(w.s.core.promises[p], Reports(w.s.core.log, p), p, w.s.core.potentiallyUnhandled)
  {
    hide Reports, WellFormed;
    assert FitsAt(w, p, 0);
    assert w.s.core.potentiallyUnhandled[0..] == w.s.core.potentiallyUnhandled;
  }

  /** After a check, with all hook calls during it, the reports of a promise are up to date if and only if
      it was never caught; a caught one is handled, but 'reject' is the last that was heard of it. */
  lemma CheckedExactly(w: World, hooks: Hooks, p: nat)
    requires Good(w, 0, {}) && Enabled(w.s, Check)
    requires p < |StepWith(w, Check, hooks).s.core.promises|
    ensures var r := StepWith(w, Check, hooks);
            var pr, reports := r.s.core.promises[p], Reports(r.s.core.log, p);
            && (UpToDate(pr, reports, p) <==> p !in r.caught)
            && (p in r.caught ==> pr.isHandled && reports == [NotifyReject(p)])
  {
    var r := StepWith(w, Check, hooks);
    StepGood(w, Check, hooks);
    assert FitsAt(r, p, 0);
    hide Reports, StepWith;
  }

  /** A caught promise never reports 'handle', whatever happens later. */
  lemma CaughtForEver(w: World, turns: seq<Turn>, p: nat)
    requires Good(w, 0, {}) && CanTake(w, turns) && p in w.caught
    ensures p in Take(w, turns).caught && p < |Take(w, turns).s.core.promises|
    ensures Take(w, turns).s.core.promises[p].isHandled
    ensures Reports(Take(w, turns).s.core.log, p) in [[], [NotifyReject(p)]]
  {
    RunsGood(w, turns);
    assert FitsAt(Take(w, turns), p, 0);
    hide Reports, Take;
  }

  // ---------- Which hook calls lose the report ----------

  /** The 'reject' hook: the 'handle' report is lost if and only if the hook registers on the promise it is told about. */
  lemma RejectHookLoses(w: World, i: nat, hooks: Hooks)
    requires Good(w, i, {}) && i < |w.s.core.potentiallyUnhandled| && w.s.core.potentiallyUnhandled[i] < |w.s.core.promises|
    requires w.s.core.promises[w.s.core.potentiallyUnhandled[i]].unhandled == 1 && w.s.core.potentiallyUnhandled[i] !in w.caught
    ensures var p := w.s.core.potentiallyUnhandled[i];
            var r := CheckEntryWith(w, p, hooks);
            && Reports(r.s.core.log, p) == [NotifyReject(p)]
            && (p in r.caught <==> Registered(w.s.core, r.s.core, p))
            && (Spoiled(r.s.core.promises[p], [NotifyReject(p)], p, []) <==> Registered(w.s.core, r.s.core, p))
            && (UpToDate(r.s.core.promises[p], [NotifyReject(p)], p) <==> !Registered(w.s.core, r.s.core, p))
  {
    hide Reports, CallHook, CoreWellFormed;
    var p := w.s.core.potentiallyUnhandled[i];
    var r, w1 := CheckEntryWith(w, p, hooks), Log(w, NotifyReject(p));
    assert FitsAt(w, p, i);
    NotifyStart(w, i, NotifyReject(p));
    HookGood(w1, hooks, i + 1, {p});
    var w2 := CallHook(w1, hooks);
    assert MovedAt(w1, w2, p);
    SameRegistrations(w.s.core, r.s.core, w1.s.core, w2.s.core, p);
    SameRegistrations(w.s.core, w2.s.core, w1.s.core, w2.s.core, p);
    hide Registered, FitsAt;
    assert Reports(r.s.core.log, p) == Reports(w2.s.core.log, p);
  }

  /** The 'rawReject' hook, called inside any other calls of the hook: the promise is reported although
      handled, and never as handled, if and only if the hook registers on it. */
  lemma RawRejectHookLoses(w: World, p: nat, v: Value, hooks: Hooks, i: nat, open: set<nat>)
    requires Good(w, i, open) && p < |w.s.core.promises|
    requires w.s.core.promises[p].status.Pending? && !w.s.core.promises[p].isHandled
    ensures var r := RejectWith(w, p, v, hooks);
            && p !in w.caught && r.s.core.promises[p].unhandled == 1
            && (p in r.caught <==> Registered(w.s.core, r.s.core, p))
            && (r.s.core.promises[p].isHandled <==> Registered(w.s.core, r.s.core, p))
  {
    hide Reports, CallHook, CoreWellFormed;
    var r, w1 := RejectWith(w, p, v, hooks), Log(With(w, SettleRejected(w.s.core, p, v)), RawReject(p));
    RejectStart(w, p, v, i, open);
    LogGood(With(w, SettleRejected(w.s.core, p, v)), RawReject(p), i, open + {p});
    HookGood(w1, hooks, i, open + {p});
    var w2 := CallHook(w1, hooks);
    assert MovedAt(w1, w2, p);
    SameRegistrations(w.s.core, r.s.core, w1.s.core, w2.s.core, p);
    SameRegistrations(w.s.core, w2.s.core, w1.s.core, w2.s.core, p);
    hide Registered, FitsAt;
  }

  /** The 'rawHandle' hook, told that a rejection gets its first handler, inside any calls of the hook for
      other promises: the 'handle' report is lost if and only if the hook registers on the promise after
      'reject' was reported.  Inside a call for the same promise it is that call that decides. */
  lemma RawHandleHookLoses(w: World, p: nat, onF: Handler, onR: Handler, link: nat, hooks: Hooks, i: nat, open: set<nat>)
    requires Good(w, i, open) && p < |w.s.core.promises| && p !in open && link < |w.s.core.promises|
    requires w.s.core.promises[p].status.Rejected? && !w.s.core.promises[p].isHandled
    ensures var r, told := SubscribeWith(w, p, onF, onR, link, hooks), CallHook(Log(w, RawHandle(p)), hooks);
            && p !in w.caught
            && (p in r.caught <==> Reports(w.s.core.log, p) == [NotifyReject(p)] && Registered(w.s.core, told.s.core, p))
  {
    hide Reports, CallHook, CoreWellFormed;
    var w1 := Log(w, RawHandle(p));
    assert FitsAt(w, p, i);
    LogGood(w, RawHandle(p), i, open);
    OpenGood(w1, i, open, p);
    HookGood(w1, hooks, i, open + {p});
    var w2 := CallHook(w1, hooks);
    assert MovedAt(w1, w2, p);
    SameRegistrations(w.s.core, w2.s.core, w1.s.core, w2.s.core, p);
    hide Registered, FitsAt;
  }
}
