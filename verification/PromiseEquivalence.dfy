/**
 The optimization is unobservable: on every run without Promise.race the optimized and the
 unoptimized machine accept the same actions, call the same functions with the same values in the
 same order, and reach the same promise states.
 */
module PromiseEquivalence {
  import opened Wrappers
  import opened PromiseMachine
  import opened PromiseSettling
  import opened PromiseUnoptimized

  // ---------- Replacing captured pairs by their targets ----------

  function TargetOf(pairs: seq<Pair>, k: nat): nat
  {
    if k < |pairs| then pairs[k].target else 0
  }

  function EraseReactions(rs: seq<Reaction<nat>>, pairs: seq<Pair>): (r: seq<Reaction<nat>>)
    ensures |r| == |rs| && forall k :: 0 <= k < |rs| ==> r[k] == rs[k].(link := TargetOf(pairs, rs[k].link))
  {
    seq(|rs|, k requires 0 <= k < |rs| => rs[k].(link := TargetOf(pairs, rs[k].link)))
  }

  function EraseJobs(q: seq<Job<nat>>, pairs: seq<Pair>): (r: seq<Job<nat>>)
    ensures |r| == |q| && forall k :: 0 <= k < |q| ==> r[k] == q[k].(link := TargetOf(pairs, q[k].link))
  {
    seq(|q|, k requires 0 <= k < |q| => q[k].(link := TargetOf(pairs, q[k].link)))
  }

  function ErasePromise(p: Promise<nat>, pairs: seq<Pair>): Promise<nat>
  {
    p.(fulfillReactions := EraseReactions(p.fulfillReactions, pairs), rejectReactions := EraseReactions(p.rejectReactions, pairs))
  }

  function ErasePromises(ps: seq<Promise<nat>>, pairs: seq<Pair>): (r: seq<Promise<nat>>)
    ensures |r| == |ps| && forall k :: 0 <= k < |ps| ==> r[k] == ErasePromise(ps[k], pairs)
  {
    seq(|ps|, k requires 0 <= k < |ps| => ErasePromise(ps[k], pairs))
  }

  function Erase(c: Core<nat>, pairs: seq<Pair>): Core<nat>
  {
    c.(promises := ErasePromises(c.promises, pairs), queue := EraseJobs(c.queue, pairs))
  }

  function EraseFrame(f: PairFrame, handles: seq<nat>, f': Frame, pairs: seq<Pair>): bool
  {
    match f
    case PairGetterCall(p, v) => f' == GetterCall(p, v)
    case PairHandlerCall(k) => f' == HandlerCall(TargetOf(pairs, k))
    case PairThenCall(k) => f'.ThenCall? && f'.h < |handles| && handles[f'.h] == k
  }

  // ---------- Erasing commutes with the operations ----------

  lemma EraseUpdate(ps: seq<Promise<nat>>, p: nat, v: Promise<nat>, pairs: seq<Pair>)
    requires p < |ps|
    ensures ErasePromises(ps[p := v], pairs) == ErasePromises(ps, pairs)[p := ErasePromise(v, pairs)]
  {
  }

  lemma EraseActivated(q: seq<Job<nat>>, rs: seq<Reaction<nat>>, v: Value, rejected: bool, pairs: seq<Pair>)
    ensures EraseJobs(q + Activated(rs, v, rejected), pairs)
         == EraseJobs(q, pairs) + Activated(EraseReactions(rs, pairs), v, rejected)
  {
  }

  lemma EraseFulfill(c: Core<nat>, p: nat, v: Value, pairs: seq<Pair>)
    requires p < |c.promises|
    ensures Erase(DoFulfill(c, p, v), pairs) == DoFulfill(Erase(c, pairs), p, v)
  {
    if c.promises[p].status.Pending? {
      EraseUpdate(c.promises, p, Settled(c.promises[p], Fulfilled(v)), pairs);
      EraseActivated(c.queue, c.promises[p].fulfillReactions, v, false, pairs);
      assert EraseReactions([], pairs) == [];
    }
  }

  lemma EraseReject(c: Core<nat>, p: nat, v: Value, pairs: seq<Pair>)
    requires p < |c.promises|
    ensures Erase(DoReject(c, p, v), pairs) == DoReject(Erase(c, pairs), p, v)
  {
    if c.promises[p].status.Pending? {
      var x := Settled(c.promises[p], Rejected(v));
      EraseUpdate(c.promises, p, x, pairs);
      EraseUpdate(c.promises[p := x], p, x.(unhandled := 1), pairs);
      EraseActivated(c.queue, c.promises[p].rejectReactions, v, true, pairs);
      assert EraseReactions([], pairs) == [];
    }
  }

  lemma EraseResolve(c: Core<nat>, p: nat, v: Value, pairs: seq<Pair>)
    requires p < |c.promises|
    ensures StartResolve(Erase(c, pairs), p, v) == (Erase(StartResolve(c, p, v).0, pairs), StartResolve(c, p, v).1)
  {
    EraseFulfill(c, p, v, pairs);
    EraseReject(c, p, SelfResolutionError, pairs);
  }

  lemma EraseAddPromise(c: Core<nat>, pairs: seq<Pair>)
    ensures Erase(AddPromise(c), pairs) == AddPromise(Erase(c, pairs))
  {
    assert EraseReactions([], pairs) == [];
    assert ErasePromises(AddPromise(c).promises, pairs) == AddPromise(Erase(c, pairs)).promises;
  }

  lemma EraseTrackHandle(c: Core<nat>, p: nat, pairs: seq<Pair>)
    requires p < |c.promises|
    ensures Erase(TrackHandle(c, p), pairs) == TrackHandle(Erase(c, pairs), p)
  {
    EraseUpdate(c.promises, p, c.promises[p].(unhandled := 3), pairs);
    EraseUpdate(c.promises, p, c.promises[p].(unhandled := 0), pairs);
  }

  lemma EraseMarkHandled(c: Core<nat>, p: nat, pairs: seq<Pair>)
    requires p < |c.promises|
    ensures Erase(MarkHandled(c, p), pairs) == MarkHandled(Erase(c, pairs), p)
  {
    EraseUpdate(c.promises, p, c.promises[p].(isHandled := true), pairs);
  }

  lemma EraseEnqueueNow(c: Core<nat>, p: nat, job: Job<nat>, pairs: seq<Pair>)
    ensures Erase(EnqueueNow(c, p, job), pairs) == EnqueueNow(Erase(c, pairs), p, job.(link := TargetOf(pairs, job.link)))
  {
    assert EraseJobs(c.queue + [job], pairs) == EraseJobs(c.queue, pairs) + [job.(link := TargetOf(pairs, job.link))];
  }

  lemma EraseSubscribe(c: Core<nat>, p: nat, onF: Handler, onR: Handler, k: nat, pairs: seq<Pair>)
    requires p < |c.promises|
    ensures Erase(Subscribe(c, p, onF, onR, k), pairs) == Subscribe(Erase(c, pairs), p, onF, onR, TargetOf(pairs, k))
  {
    var n, pr := |c.owner|, c.promises[p];
    match pr.status
    case Pending =>
      var f, r := Reaction(n, onF, k), Reaction(n + 1, onR, k);
      var t := TargetOf(pairs, k);
      assert EraseReactions(pr.fulfillReactions + [f], pairs) == EraseReactions(pr.fulfillReactions, pairs) + [f.(link := t)];
      assert EraseReactions(pr.rejectReactions + [r], pairs) == EraseReactions(pr.rejectReactions, pairs) + [r.(link := t)];
      var x := pr.(fulfillReactions := pr.fulfillReactions + [f], rejectReactions := pr.rejectReactions + [r]);
      EraseUpdate(c.promises, p, x, pairs);
      EraseUpdate(c.promises[p := x], p, x.(isHandled := true), pairs);
    case Fulfilled(v) =>
      var job := ReactionJob(n, onF, k, v, false);
      EraseEnqueueNow(c, p, job, pairs);
      EraseMarkHandled(EnqueueNow(c, p, job), p, pairs);
    case Rejected(v) =>
      var job := ReactionJob(n, onR, k, v, onR.Missing?);
      var c1 := if pr.isHandled then c else TrackHandle(c, p);
      EraseTrackHandle(c, p, pairs);
      EraseEnqueueNow(c1, p, job, pairs);
      EraseMarkHandled(EnqueueNow(c1, p, job), p, pairs);
  }

  lemma EraseThenable(c: Core<nat>, v: Value, f: int, k: nat, pairs: seq<Pair>)
    ensures Erase(EnqueueThenable(c, v, f, k), pairs) == EnqueueThenable(Erase(c, pairs), v, f, TargetOf(pairs, k))
  {
    var n := |c.owner|;
    assert EraseJobs(c.queue + [ThenableJob(n, v, f, k)], pairs)
        == EraseJobs(c.queue, pairs) + [ThenableJob(n, v, f, TargetOf(pairs, k))];
  }

  lemma EraseDequeue(c: Core<nat>, pairs: seq<Pair>)
    requires c.queue != []
    ensures Erase(Dequeue(c), pairs) == Dequeue(Erase(c, pairs))
  {
    assert EraseJobs(c.queue[1..], pairs) == EraseJobs(c.queue, pairs)[1..];
  }

  lemma EraseCheckOne(c: Core<nat>, p: nat, pairs: seq<Pair>)
    requires p < |c.promises|
    ensures Erase(CheckOne(c, p), pairs) == CheckOne(Erase(c, pairs), p)
  {
    EraseUpdate(c.promises, p, c.promises[p].(unhandled := 2), pairs);
    EraseUpdate(c.promises, p, c.promises[p].(unhandled := 0), pairs);
  }

  lemma {:induction false} EraseCheck(c: Core<nat>, i: nat, pairs: seq<Pair>)
    requires i <= |c.potentiallyUnhandled|
    requires forall k :: 0 <= k < |c.potentiallyUnhandled| ==> c.potentiallyUnhandled[k] < |c.promises|
    ensures Erase(CheckFrom(c, i), pairs) == CheckFrom(Erase(c, pairs), i)
    decreases |c.potentiallyUnhandled| - i
  {
    if i < |c.potentiallyUnhandled| {
      var p := c.potentiallyUnhandled[i];
      EraseCheckOne(c, p, pairs);
      EraseCheck(CheckOne(c, p), i + 1, pairs);
    }
  }

  // ---------- Live links ----------

  /** A captured pair that nobody has called and user code does not hold. */
  predicate Unexposed(pairs: seq<Pair>, handles: seq<nat>, k: nat)
  {
    k < |pairs| && !pairs[k].alreadyResolved && k !in handles
  }

  predicate ReactionsLive(rs: seq<Reaction<nat>>, pairs: seq<Pair>, handles: seq<nat>)
  {
    forall k :: 0 <= k < |rs| ==> Unexposed(pairs, handles, rs[k].link) && !rs[k].handler.Missing?
  }

  predicate CoreLive(c: Core<nat>, pairs: seq<Pair>, handles: seq<nat>)
  {
    && (forall k :: 0 <= k < |c.queue| ==>
          && Unexposed(pairs, handles, c.queue[k].link)
          && (c.queue[k].ReactionJob? ==> !c.queue[k].handler.Missing?))
    && (forall p :: 0 <= p < |c.promises| ==>
          && ReactionsLive(c.promises[p].fulfillReactions, pairs, handles)
          && ReactionsLive(c.promises[p].rejectReactions, pairs, handles))
  }

  predicate FrameLive(f: PairFrame, pairs: seq<Pair>, handles: seq<nat>)
  {
    f.PairHandlerCall? ==> Unexposed(pairs, handles, f.pair)
  }

  /** The relation between the two machines. */
  predicate Related(o: State, u: PairState)
  {
    && o.core == Erase(u.core, u.pairs)
    && CoreLive(u.core, u.pairs, u.handles)
    && (forall k :: 0 <= k < |u.pairs| ==> u.pairs[k].target < |u.core.promises|)
    && |o.handles| == |u.handles|
    && (forall h :: 0 <= h < |u.handles| ==> u.handles[h] < |u.pairs| && o.handles[h] == u.pairs[u.handles[h]])
    && (forall h, h' :: 0 <= h < h' < |u.handles| ==> u.handles[h] != u.handles[h'])
    && |o.frames| == |u.frames|
    && (forall k :: 0 <= k < |u.frames| ==>
          EraseFrame(u.frames[k], u.handles, o.frames[k], u.pairs) && FrameLive(u.frames[k], u.pairs, u.handles))
  }

  predicate SameTargets(pairs: seq<Pair>, pairs': seq<Pair>)
  {
    |pairs| <= |pairs'| && forall k :: 0 <= k < |pairs| ==> pairs'[k].target == pairs[k].target
  }

  /** Erasing only looks at the targets of live links. */
  lemma EraseStable(c: Core<nat>, pairs: seq<Pair>, pairs': seq<Pair>, handles: seq<nat>)
    requires CoreLive(c, pairs, handles) && SameTargets(pairs, pairs')
    ensures Erase(c, pairs') == Erase(c, pairs)
  {
    assert EraseJobs(c.queue, pairs') == EraseJobs(c.queue, pairs);
    forall p | 0 <= p < |c.promises| ensures ErasePromise(c.promises[p], pairs') == ErasePromise(c.promises[p], pairs) {
      assert EraseReactions(c.promises[p].fulfillReactions, pairs') == EraseReactions(c.promises[p].fulfillReactions, pairs);
      assert EraseReactions(c.promises[p].rejectReactions, pairs') == EraseReactions(c.promises[p].rejectReactions, pairs);
    }
    assert ErasePromises(c.promises, pairs') == ErasePromises(c.promises, pairs);
  }

  // ---------- Operations on related states ----------

  lemma RelatedFulfill(o: State, u: PairState, p: nat, v: Value)
    requires Related(o, u) && p < |u.core.promises|
    ensures Related(o.(core := DoFulfill(o.core, p, v)), u.(core := DoFulfill(u.core, p, v)))
  {
    EraseFulfill(u.core, p, v, u.pairs);
    hide Erase, EraseFrame, FrameLive, Unexposed;
  }

  lemma RelatedReject(o: State, u: PairState, p: nat, v: Value)
    requires Related(o, u) && p < |u.core.promises|
    ensures Related(o.(core := DoReject(o.core, p, v)), u.(core := DoReject(u.core, p, v)))
  {
    EraseReject(u.core, p, v, u.pairs);
    hide Erase, EraseFrame, FrameLive, Unexposed;
  }

  lemma RelatedPush(o: State, u: PairState, f: Frame, f': PairFrame)
    requires Related(o, u) && EraseFrame(f', u.handles, f, u.pairs) && FrameLive(f', u.pairs, u.handles)
    ensures Related(o.(frames := o.frames + [f]), u.(frames := u.frames + [f']))
  {
    hide Erase, EraseFrame, FrameLive, CoreLive;
  }

  lemma RelatedPop(o: State, u: PairState)
    requires Related(o, u) && o.frames != []
    ensures Related(Pop(o), PairPop(u)) && EraseFrame(PairTop(u), u.handles, Top(o), u.pairs) && FrameLive(PairTop(u), u.pairs, u.handles)
  {
  }

  /** StartResolve and the frame it may open. */
  lemma RelatedResolve(o: State, u: PairState, p: nat, v: Value)
    requires Related(o, u) && p < |u.core.promises|
    ensures var (c, getter) := StartResolve(u.core, p, v);
            Related(ResolveTarget(o, p, v), u.(core := c, frames := if getter then u.frames + [PairGetterCall(p, v)] else u.frames))
  {
    EraseResolve(u.core, p, v, u.pairs);
    RelatedFulfill(o, u, p, v);
    RelatedReject(o, u, p, SelfResolutionError);
    RelatedPush(o, u, GetterCall(p, v), PairGetterCall(p, v));
    assert o.core.promises[p].status == u.core.promises[p].status;
    hide Related, Erase, DoFulfill, DoReject;
  }

  /** Marking a pair held by user code marks its handle. */
  lemma RelatedMarkHeld(o: State, u: PairState, h: nat)
    requires Related(o, u) && h < |o.handles| && !o.handles[h].alreadyResolved
    ensures Related(Neutralize(o, h), MarkPair(u, u.handles[h]))
  {
    var k := u.handles[h];
    EraseStable(u.core, u.pairs, MarkPair(u, k).pairs, u.handles);
    assert forall j :: Unexposed(u.pairs, u.handles, j) ==> Unexposed(MarkPair(u, k).pairs, u.handles, j);
    assert forall j :: TargetOf(MarkPair(u, k).pairs, j) == TargetOf(u.pairs, j);
    hide Erase, Unexposed, TargetOf;
  }

  /** Nothing is linked to pair 'k' any more. */
  predicate Unlinked(u: PairState, k: nat)
  {
    && (forall j :: 0 <= j < |u.core.queue| ==> u.core.queue[j].link != k)
    && (forall p, j :: 0 <= p < |u.core.promises| && 0 <= j < |u.core.promises[p].fulfillReactions| ==>
          u.core.promises[p].fulfillReactions[j].link != k)
    && (forall p, j :: 0 <= p < |u.core.promises| && 0 <= j < |u.core.promises[p].rejectReactions| ==>
          u.core.promises[p].rejectReactions[j].link != k)
    && (forall j :: 0 <= j < |u.frames| && u.frames[j].PairHandlerCall? ==> u.frames[j].pair != k)
  }

  /** Marking a captured pair that is about to be called is invisible in the optimized machine. */
  lemma RelatedMarkCaptured(o: State, u: PairState, k: nat)
    requires Related(o, u) && Unexposed(u.pairs, u.handles, k) && Unlinked(u, k)
    ensures Related(o, MarkPair(u, k))
  {
    EraseStable(u.core, u.pairs, MarkPair(u, k).pairs, u.handles);
    assert forall j :: j != k && Unexposed(u.pairs, u.handles, j) ==> Unexposed(MarkPair(u, k).pairs, u.handles, j);
    assert forall j :: TargetOf(MarkPair(u, k).pairs, j) == TargetOf(u.pairs, j);
    hide Erase, Unexposed, TargetOf;
  }

  // ---------- A used authority leaves no other link ----------

  lemma ReactionCountsLink(ps: seq<Promise<nat>>, p: nat, j: nat, x: nat)
    requires p < |ps| && j < |ps[p].fulfillReactions| && ps[p].fulfillReactions[j].link == x
    ensures ReactionCount(ps, x) >= 1
  {
    if p < |ps| - 1 {
      ReactionCountsLink(ps[..|ps| - 1], p, j, x);
    } else {
      assert Links(ps[p].fulfillReactions)[j] in multiset(Links(ps[p].fulfillReactions));
    }
  }

  lemma HeldIsUnlinked(o: State, u: PairState, k: nat)
    requires Related(o, u) && k < |u.pairs| && Balanced(o, Some(u.pairs[k].target), {})
    ensures Unlinked(u, k)
  {
    var x := u.pairs[k].target;
    assert Authorities(o, x) == 0;
    forall j | 0 <= j < |u.core.queue| ensures u.core.queue[j].link != k {
      assert JobLinks(o.core.queue)[j] in multiset(JobLinks(o.core.queue));
    }
    forall p, j | 0 <= p < |u.core.promises| && 0 <= j < |u.core.promises[p].fulfillReactions|
      ensures u.core.promises[p].fulfillReactions[j].link != k
    {
      if u.core.promises[p].fulfillReactions[j].link == k { ReactionCountsLink(o.core.promises, p, j, x); }
    }
    forall p, j | 0 <= p < |u.core.promises| && 0 <= j < |u.core.promises[p].rejectReactions|
      ensures u.core.promises[p].rejectReactions[j].link != k
    {
      if u.core.promises[p].rejectReactions[j].link == k {
        assert Links(o.core.promises[p].rejectReactions)[j] == x;
        ReactionCountsLink(o.core.promises, p, j, x);
      }
    }
    forall j | 0 <= j < |u.frames| && u.frames[j].PairHandlerCall? ensures u.frames[j].pair != k {
      if u.frames[j].pair == k { OpenCallCounts(o.frames, j, x); }
    }
  }

  // ---------- Calling pairs ----------

  /** A fresh pair in one machine, the captured pair 'k' in the other. */
  lemma RelatedCallCaptured(o: State, u: PairState, k: nat, v: Value)
    requires Related(o, u) && Unexposed(u.pairs, u.handles, k) && Balanced(o, Some(u.pairs[k].target), {})
    ensures PairValid(u, k)
    ensures Related(ResolveTarget(o, u.pairs[k].target, v), ResolvePair(u, k, v))
    ensures Related(RejectTarget(o, u.pairs[k].target, v), RejectPair(u, k, v))
  {
    var p := u.pairs[k].target;
    HeldIsUnlinked(o, u, k);
    RelatedMarkCaptured(o, u, k);
    RelatedResolve(o, MarkPair(u, k), p, v);
    RelatedReject(o, MarkPair(u, k), p, v);
    assert PairValid(u, k) && !u.pairs[k].alreadyResolved;
    hide Related, ResolveTarget, StartResolve, DoReject;
  }

  /** A pair held by user code, in both machines. */
  lemma RelatedCallHeld(o: State, u: PairState, h: nat, v: Value)
    requires Related(o, u) && h < |o.handles| && o.handles[h].target < |o.core.promises|
    ensures PairValid(u, u.handles[h])
    ensures Related(CallResolve(o, h, v), ResolvePair(u, u.handles[h], v))
    ensures Related(CallReject(o, h, v), RejectPair(u, u.handles[h], v))
  {
    var k, p := u.handles[h], o.handles[h].target;
    assert PairValid(u, k) && u.pairs[k] == o.handles[h];
    if !o.handles[h].alreadyResolved {
      RelatedMarkHeld(o, u, h);
      RelatedResolve(Neutralize(o, h), MarkPair(u, k), p, v);
      RelatedReject(Neutralize(o, h), MarkPair(u, k), p, v);
    }
    hide Related, StartResolve, DoReject;
  }

  /** A pair made for a new job or registration is not visible until it is linked. */
  lemma RelatedAddPair(o: State, u: PairState, p: nat)
    requires Related(o, u) && p < |u.core.promises|
    ensures Related(o, AddPair(u, p))
    ensures Unexposed(AddPair(u, p).pairs, u.handles, |u.pairs|) && TargetOf(AddPair(u, p).pairs, |u.pairs|) == p
  {
    var u' := AddPair(u, p);
    EraseStable(u.core, u.pairs, u'.pairs, u.handles);
    assert forall j :: Unexposed(u.pairs, u.handles, j) ==> Unexposed(u'.pairs, u.handles, j);
    assert forall j :: 0 <= j < |u.pairs| ==> TargetOf(u'.pairs, j) == TargetOf(u.pairs, j);
    forall j | 0 <= j < |u.frames| ensures EraseFrame(u'.frames[j], u'.handles, o.frames[j], u'.pairs) {
      assert FrameLive(u.frames[j], u.pairs, u.handles);
    }
    hide Erase;
  }

  lemma RelatedThenable(o: State, u: PairState, p: nat, v: Value, f: int)
    requires Related(o, u) && p < |u.core.promises|
    ensures Related(o.(core := EnqueueThenable(o.core, v, f, p)), AddPair(u, p).(core := EnqueueThenable(u.core, v, f, |u.pairs|)))
  {
    RelatedAddPair(o, u, p);
    EraseThenable(u.core, v, f, |u.pairs|, AddPair(u, p).pairs);
    hide Erase, Unexposed, EraseFrame, FrameLive;
  }

  lemma RelatedSubscribe(o: State, u: PairState, p: nat, onF: Handler, onR: Handler, k: nat)
    requires Related(o, u) && p < |u.core.promises| && Unexposed(u.pairs, u.handles, k) && !onF.Missing? && !onR.Missing?
    ensures Related(o.(core := Subscribe(o.core, p, onF, onR, TargetOf(u.pairs, k))), u.(core := Subscribe(u.core, p, onF, onR, k)))
  {
    EraseSubscribe(u.core, p, onF, onR, k, u.pairs);
    SubscribeLive(u.core, p, onF, onR, k, u.pairs, u.handles);
    assert |Subscribe(u.core, p, onF, onR, k).promises| == |u.core.promises|;
    hide Erase, Unexposed, EraseFrame, FrameLive, Subscribe, CoreLive;
  }

  lemma SubscribeLive(c: Core<nat>, p: nat, onF: Handler, onR: Handler, k: nat, pairs: seq<Pair>, handles: seq<nat>)
    requires CoreLive(c, pairs, handles) && p < |c.promises| && Unexposed(pairs, handles, k) && !onF.Missing? && !onR.Missing?
    ensures CoreLive(Subscribe(c, p, onF, onR, k), pairs, handles)
  {
    hide Unexposed;
  }

  lemma RelatedAddPromise(o: State, u: PairState)
    requires Related(o, u)
    ensures Related(o.(core := AddPromise(o.core)), u.(core := AddPromise(u.core)))
  {
    EraseAddPromise(u.core, u.pairs);
    hide Erase, Unexposed, EraseFrame, FrameLive;
  }

  /** Handing the newest pair to user code. */
  lemma RelatedHandOut(o: State, u: PairState, k: nat)
    requires Related(o, u) && Unexposed(u.pairs, u.handles, k) && Unlinked(u, k)
    ensures Related(o.(handles := o.handles + [Handle(u.pairs[k].target, false)]), u.(handles := u.handles + [k]))
  {
    assert forall j :: j != k && Unexposed(u.pairs, u.handles, j) ==> Unexposed(u.pairs, u.handles + [k], j);
    hide Erase, Unexposed;
  }

  lemma NewPairUnlinked(o: State, u: PairState, p: nat)
    requires Related(o, u)
    ensures Unlinked(AddPair(u, p), |u.pairs|)
  {
    assert forall j: nat :: Unexposed(u.pairs, u.handles, j) ==> j < |u.pairs|;
    hide Unexposed, Erase;
  }

  // ---------- Steps ----------

  lemma RelatedDequeue(o: State, u: PairState)
    requires Related(o, u) && o.core.queue != []
    ensures Related(o.(core := Dequeue(o.core)), u.(core := Dequeue(u.core)))
    ensures Unexposed(u.pairs, u.handles, u.core.queue[0].link)
    ensures o.core.queue[0] == u.core.queue[0].(link := u.pairs[u.core.queue[0].link].target)
  {
    EraseDequeue(u.core, u.pairs);
    hide Erase, Unexposed, EraseFrame, FrameLive;
  }

  lemma RelatedLog(o: State, u: PairState, e: Event)
    requires Related(o, u)
    ensures Related(o.(core := o.core.(log := o.core.log + [e])), u.(core := u.core.(log := u.core.log + [e])))
  {
    hide Unexposed, EraseFrame, FrameLive;
  }

  lemma RelatedRunThenable(o: State, u: PairState, k: nat, e: Event)
    requires Related(o, u) && Unexposed(u.pairs, u.handles, k) && Balanced(o, Some(u.pairs[k].target), {})
    ensures var h := |o.handles|;
            Related(o.(handles := o.handles + [Handle(u.pairs[k].target, false)], frames := o.frames + [ThenCall(h)],
                       core := o.core.(log := o.core.log + [e])),
                    u.(handles := u.handles + [k], frames := u.frames + [PairThenCall(k)],
                       core := u.core.(log := u.core.log + [e])))
  {
    var h := |u.handles|;
    var o2, u2 := o.(handles := o.handles + [Handle(u.pairs[k].target, false)]), u.(handles := u.handles + [k]);
    HeldIsUnlinked(o, u, k);
    RelatedHandOut(o, u, k);
    RelatedPush(o2, u2, ThenCall(h), PairThenCall(k));
    RelatedLog(o2.(frames := o.frames + [ThenCall(h)]), u2.(frames := u.frames + [PairThenCall(k)]), e);
  }

  lemma RelatedRunHandler(o: State, u: PairState, k: nat, e: Event)
    requires Related(o, u) && Unexposed(u.pairs, u.handles, k)
    ensures Related(o.(frames := o.frames + [HandlerCall(u.pairs[k].target)], core := o.core.(log := o.core.log + [e])),
                    u.(frames := u.frames + [PairHandlerCall(k)], core := u.core.(log := u.core.log + [e])))
  {
    var f := HandlerCall(u.pairs[k].target);
    RelatedPush(o, u, f, PairHandlerCall(k));
    RelatedLog(o.(frames := o.frames + [f]), u.(frames := u.frames + [PairHandlerCall(k)]), e);
  }

  lemma RelatedRunJob(o: State, u: PairState)
    requires WellFormed(o) && Balanced(o, None, {}) && Related(o, u) && Enabled(o, RunEntry)
    ensures PairEnabled(u, RunEntry) && Related(RunJob(o), PairRunJob(u))
  {
    hide Related, Balanced, PairEnabled, ResolveTarget, RejectTarget, ResolvePair, RejectPair;
    RelatedCounts(o, u);
    RelatedDequeue(o, u);
    RunEntryEnabled(o, u);
    DequeueBalanced(o, {});
    var job, k := u.core.queue[0], u.core.queue[0].link;
    var o1, u1 := o.(core := Dequeue(o.core)), u.(core := Dequeue(u.core));
    hide WellFormed;
    match job
    case ThenableJob(_, thenable, f, _) =>
      RelatedRunThenable(o1, u1, k, CallThen(f, thenable, |u.handles|));
    case ReactionJob(_, handler, _, v, _) =>
      RelatedCallCaptured(o1, u1, k, v);
      if handler.Fn? { RelatedRunHandler(o1, u1, k, Call(handler.f, v)); }
  }

  lemma RunEntryEnabled(o: State, u: PairState)
    requires Related(o, u) && Enabled(o, RunEntry)
    ensures PairEnabled(u, RunEntry) && PairValid(u, u.core.queue[0].link)
    ensures u.core.queue[0].ReactionJob? ==> !u.core.queue[0].handler.Missing?
  {
  }

  lemma RelatedCounts(o: State, u: PairState)
    requires Related(o, u)
    ensures |o.handles| == |u.handles| && |o.core.promises| == |u.core.promises| && |o.core.queue| == |u.core.queue|
    ensures o.core.log == u.core.log
  {
  }

  lemma RelatedFinish(o: State, u: PairState, outcome: Outcome)
    requires WellFormed(o) && Balanced(o, None, {}) && Related(o, u) && Enabled(o, UserReturns(outcome))
    ensures PairEnabled(u, UserReturns(outcome)) && Related(FinishJob(o, outcome), PairFinishJob(u, outcome))
  {
    RelatedPop(o, u);
    PopBalanced(o, {});
    var o1, u1 := Pop(o), PairPop(u);
    match PairTop(u)
    case PairHandlerCall(k) =>
      RelatedCallCaptured(o1, u1, k, if outcome.Return? then outcome.v else outcome.e);
    case PairThenCall(k) =>
      if outcome.Throw? { RelatedCallHeld(o1, u1, Top(o).h, outcome.e); }
  }

  lemma RelatedGetter(o: State, u: PairState, look: Look)
    requires WellFormed(o) && Related(o, u) && Enabled(o, GetterReturns(look))
    ensures PairEnabled(u, GetterReturns(look))
    ensures Related(FinishGetter(Pop(o), Top(o).p, Top(o).v, look), PairFinishGetter(PairPop(u), PairTop(u).p, PairTop(u).v, look))
  {
    RelatedPop(o, u);
    var o1, u1, p, v := Pop(o), PairPop(u), Top(o).p, Top(o).v;
    match look
    case NotCallable => RelatedFulfill(o1, u1, p, v);
    case Callable(f) => RelatedThenable(o1, u1, p, v, f);
    case GetterThrew(e) => RelatedReject(o1, u1, p, e);
  }

  lemma RelatedNewPromise(o: State, u: PairState)
    requires WellFormed(o) && Related(o, u)
    ensures Related(Step(o, NewPromise), PairStep(u, NewPromise))
  {
    var o1, u1 := o.(core := AddPromise(o.core)), u.(core := AddPromise(u.core));
    var n, k := |o.core.promises|, |u.pairs|;
    RelatedAddPromise(o, u);
    RelatedAddPair(o1, u1, n);
    NewPairUnlinked(o1, u1, n);
    RelatedHandOut(o1, AddPair(u1, n), k);
  }

  lemma RelatedThen(o: State, u: PairState, p: nat, onF: Option<int>, onR: Option<int>)
    requires WellFormed(o) && Related(o, u) && p < |o.core.promises|
    ensures Related(Step(o, Then(p, onF, onR)), PairStep(u, Then(p, onF, onR)))
  {
    var o1, u1 := o.(core := AddPromise(o.core)), u.(core := AddPromise(u.core));
    var n, k := |o.core.promises|, |u.pairs|;
    RelatedAddPromise(o, u);
    RelatedAddPair(o1, u1, n);
    RelatedSubscribe(o1, AddPair(u1, n), p, OnFulfilled(onF), OnRejected(onR), k);
  }

  lemma RelatedCheck(o: State, u: PairState)
    requires WellFormed(o) && Related(o, u) && Enabled(o, Check)
    ensures PairEnabled(u, Check) && Related(Step(o, Check), PairStep(u, Check))
  {
    assert PairEnabled(u, Check);
    EraseCheck(u.core, 0, u.pairs);
    CheckLive(u.core, 0, u.pairs, u.handles);
    hide Unexposed, EraseFrame, FrameLive, CheckFrom;
  }

  lemma {:induction false} CheckLive(c: Core<nat>, i: nat, pairs: seq<Pair>, handles: seq<nat>)
    requires CoreLive(c, pairs, handles) && i <= |c.potentiallyUnhandled|
    requires forall k :: 0 <= k < |c.potentiallyUnhandled| ==> c.potentiallyUnhandled[k] < |c.promises|
    ensures CoreLive(CheckFrom(c, i), pairs, handles)
    decreases |c.potentiallyUnhandled| - i
  {
    hide Unexposed;
    if i < |c.potentiallyUnhandled| { CheckLive(CheckOne(c, c.potentiallyUnhandled[i]), i + 1, pairs, handles); }
  }

  /** One step keeps the machines together: both accept the action, and stay related. */
  lemma RelatedStep(o: State, u: PairState, a: Action)
    requires WellFormed(o) && Balanced(o, None, {}) && Related(o, u) && Enabled(o, a) && !a.Forward?
    ensures PairEnabled(u, a) && Related(Step(o, a), PairStep(u, a))
  {
    match a
    case NewPromise => RelatedNewPromise(o, u);
    case Resolve(h, v) => RelatedCallHeld(o, u, h, v);
    case Reject(h, v) => RelatedCallHeld(o, u, h, v);
    case Then(p, onF, onR) => RelatedThen(o, u, p, onF, onR);
    case GetterReturns(look) => RelatedGetter(o, u, look);
    case RunEntry => RelatedRunJob(o, u);
    case UserReturns(outcome) => RelatedFinish(o, u, outcome);
    case Check => RelatedCheck(o, u);
  }

  lemma EnabledBack(o: State, u: PairState, a: Action)
    requires Related(o, u) && PairEnabled(u, a)
    ensures Enabled(o, a)
  {
    assert |o.core.promises| == |u.core.promises| && |o.core.queue| == |u.core.queue|;
  }

  /** The theorem, for any related start: same accepted runs, same calls and notifications in the same
      order, same promise states, and the same pairs in the hands of user code. */
  lemma {:induction false} OptimizationIsUnobservable(o: State, u: PairState, actions: seq<Action>)
    requires WellFormed(o) && Balanced(o, None, {}) && Related(o, u)
    requires forall k :: 0 <= k < |actions| ==> !actions[k].Forward?
    ensures CanRun(o, actions) <==> PairCanRun(u, actions)
    ensures CanRun(o, actions) ==>
              var o', u' := Run(o, actions), PairRun(u, actions);
              && Related(o', u')
              && o'.core.log == u'.core.log
              && |o'.core.promises| == |u'.core.promises|
              && (forall p :: 0 <= p < |o'.core.promises| ==>
                    && o'.core.promises[p].status == u'.core.promises[p].status
                    && o'.core.promises[p].isHandled == u'.core.promises[p].isHandled)
              && |o'.handles| == |u'.handles|
              && (forall h :: 0 <= h < |o'.handles| ==> o'.handles[h] == u'.pairs[u'.handles[h]])
    decreases |actions|
  {
    if actions != [] {
      var a := actions[0];
      if Enabled(o, a) {
        RelatedStep(o, u, a);
        StepBalanced(o, a, {});
        StepWellFormed(o, a);
        OptimizationIsUnobservable(Step(o, a), PairStep(u, a), actions[1..]);
      } else if PairEnabled(u, a) {
        EnabledBack(o, u, a);
      }
    }
  }

  lemma InitialRelated()
    ensures WellFormed(Initial) && Balanced(Initial, None, {}) && Related(Initial, PairInitial)
  {
    InitialBalanced({});
  }
}
