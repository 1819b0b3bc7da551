/**
 The promise runtime as it updates its objects in place: the linked-list job queue, promises with
 their reaction lists, and reaction objects that are reused as jobs when their promise settles.
 Every method is proved against the function of the promise machine that specifies it.
 */
module PromiseRuntime {
  import opened Wrappers
  import M = PromiseMachine

  type Value = M.Value
  type Handler = M.Handler

  /** A job, or a reaction waiting to become one. */
  class JobObject {
    ghost const id: nat
    const isThen: bool
    const thenable: Value
    const thenFn: int
    const handler: Handler
    const target: nat
    var value: Value
    var rejected: bool
    var next: JobObject?
    ghost var home: int  // 2p and 2p + 1 for the two reaction lists of promise p, -1 once queued

    constructor Reaction(ghost id: nat, handler: Handler, target: nat, ghost home: int)
      ensures this.id == id && !isThen && this.handler == handler && this.target == target
      ensures next == null && this.home == home && !rejected
    {
      this.id, this.isThen, this.thenable, this.thenFn := id, false, M.Plain(0), 0;
      this.handler, this.target, this.value, this.rejected := handler, target, M.Plain(0), false;
      this.next, this.home := null, home;
    }

    constructor Thenable(ghost id: nat, thenable: Value, thenFn: int, target: nat)
      ensures AsJob() == M.ThenableJob(id, thenable, thenFn, target) && next == null && home == -1
    {
      this.id, this.isThen, this.thenable, this.thenFn := id, true, thenable, thenFn;
      this.handler, this.target, this.value, this.rejected := M.Missing, target, M.Plain(0), false;
      this.next, this.home := null, -1;
    }

    constructor Ready(ghost id: nat, handler: Handler, target: nat, value: Value, rejected: bool)
      ensures AsJob() == M.ReactionJob(id, handler, target, value, rejected) && next == null && home == -1
    {
      this.id, this.isThen, this.thenable, this.thenFn := id, false, M.Plain(0), 0;
      this.handler, this.target, this.value, this.rejected := handler, target, value, rejected;
      this.next, this.home := null, -1;
    }

    ghost function AsReaction(): M.Reaction<nat>
    {
      M.Reaction(id, handler, target)
    }

    ghost function AsJob(): M.Job<nat>
      reads this
    {
      if isThen then M.ThenableJob(id, thenable, thenFn, target) else M.ReactionJob(id, handler, target, value, rejected)
    }
  }

  ghost function AsReactions(rs: seq<JobObject>): (r: seq<M.Reaction<nat>>)
    ensures |r| == |rs| && forall k :: 0 <= k < |rs| ==> r[k] == rs[k].AsReaction()
  {
    seq(|rs|, k requires 0 <= k < |rs| => rs[k].AsReaction())
  }

  /** The object after index 'k', if any. */
  function Follower(nodes: seq<JobObject>, k: nat): JobObject?
  {
    if k + 1 < |nodes| then nodes[k + 1] else null
  }

  /** A singly linked queue of job objects. */
  class JobQueue {
    var head: JobObject?
    var tail: JobObject?
    ghost var nodes: seq<JobObject>

    /** The list from head to tail visits 'nodes' in order, each once. */
    ghost predicate Valid()
      reads this, nodes
    {
      && (nodes == [] ==> head == null && tail == null)
      && (nodes != [] ==> head == nodes[0] && tail == nodes[|nodes| - 1])
      && (forall k :: 0 <= k < |nodes| ==> nodes[k].next == Follower(nodes, k))
      && (forall k, l :: 0 <= k < l < |nodes| ==> nodes[k] != nodes[l])
    }

    ghost function Jobs(): (q: seq<M.Job<nat>>)
      reads this, nodes
      ensures |q| == |nodes| && forall k :: 0 <= k < |nodes| ==> q[k] == nodes[k].AsJob()
    {
      seq(|nodes|, k requires 0 <= k < |nodes| reads this, nodes => nodes[k].AsJob())
    }

    constructor ()
      ensures Valid() && nodes == []
    {
      head, tail, nodes := null, null, [];
    }

    method Enqueue(job: JobObject)
      requires Valid() && job !in nodes && job.next == null
      modifies this, nodes
      ensures Valid() && nodes == old(nodes) + [job]
      ensures Jobs() == old(Jobs()) + [old(job.AsJob())]
      ensures forall n <- old(nodes) :: n.home == old(n.home)
    {
      if head != null {
        tail.next := job;
        tail := job;
      } else {
        head := job;
        tail := job;
      }
      nodes := nodes + [job];
    }

    method Dequeue() returns (job: JobObject?)
      requires Valid()
      modifies this
      ensures Valid()
      ensures old(nodes) == [] ==> job == null && nodes == []
      ensures old(nodes) != [] ==> job == old(nodes)[0] && nodes == old(nodes)[1..] && Jobs() == old(Jobs())[1..]
    {
      job := head;
      if job != null {
        assert job == nodes[0] && nodes[0].next == Follower(nodes, 0);
        head := job.next;
        if head == null {
          tail := null;
        }
        assert forall k :: 0 <= k < |nodes[1..]| ==> nodes[1..][k] == nodes[k + 1] && Follower(nodes[1..], k) == Follower(nodes, k + 1);
        nodes := nodes[1..];
      }
    }
  }

  datatype PromiseObject = PromiseObject(status: M.Status, fulfillReactions: seq<JobObject>, rejectReactions: seq<JobObject>,
                                         isHandled: bool, unhandled: nat)

  ghost function AsPromise(p: PromiseObject): M.Promise<nat>
  {
    M.Promise(p.status, AsReactions(p.fulfillReactions), AsReactions(p.rejectReactions), p.isHandled, p.unhandled)
  }

  ghost function AsPromises(ps: seq<PromiseObject>): (r: seq<M.Promise<nat>>)
    ensures |r| == |ps| && forall k :: 0 <= k < |ps| ==> r[k] == AsPromise(ps[k])
  {
    seq(|ps|, k requires 0 <= k < |ps| => AsPromise(ps[k]))
  }

  /** The promises, the job queue and the list of rejections to report. */
  class PromiseCore {
    const queue: JobQueue
    var promises: seq<PromiseObject>
    var potentiallyUnhandled: seq<nat>
    ghost var log: seq<M.Event>
    ghost var ran: seq<nat>
    ghost var registrations: seq<M.Registration>
    ghost var owner: seq<Option<nat>>
    ghost var objects: set<JobObject>

    /** A reaction list holds distinct objects that are nowhere else. */
    ghost predicate Waiting(rs: seq<JobObject>, home: int)
      reads this`objects, objects
    {
      && (forall k :: 0 <= k < |rs| ==>
            rs[k] in objects && rs[k].home == home && rs[k].next == null && !rs[k].isThen && !rs[k].rejected)
      && (forall k, l :: 0 <= k < l < |rs| ==> rs[k] != rs[l])
    }

    ghost predicate Lists()
      reads this`promises, this`objects, objects
    {
      && (forall p :: 0 <= p < |promises| ==> Waiting(promises[p].fulfillReactions, 2 * p))
      && (forall p :: 0 <= p < |promises| ==> Waiting(promises[p].rejectReactions, 2 * p + 1))
    }

    ghost predicate Queued()
      reads this`objects, queue, queue.nodes, objects
    {
      && queue.Valid()
      && (forall k :: 0 <= k < |queue.nodes| ==> queue.nodes[k] in objects && queue.nodes[k].home == -1)
    }

    ghost predicate Valid()
      reads this`promises, this`objects, queue, queue.nodes, objects
    {
      Queued() && Lists()
    }

    ghost function Model(): M.Core<nat>
      reads this, queue, queue.nodes
    {
      M.Core(AsPromises(promises), queue.Jobs(), potentiallyUnhandled, log, ran, registrations, owner)
    }

    constructor ()
      ensures Valid() && Model() == M.InitialCore && fresh(queue)
    {
      queue := new JobQueue();
      promises, potentiallyUnhandled, log, ran, registrations, owner, objects := [], [], [], [], [], [], {};
    }

    /** No list holds objects at home 'home'. */
    ghost predicate Vacant(home: int)
      reads this`promises
    {
      forall p :: 0 <= p < |promises| ==>
        && (home == 2 * p ==> promises[p].fulfillReactions == [])
        && (home == 2 * p + 1 ==> promises[p].rejectReactions == [])
    }

    /** Turn one reaction object into a queued job. */
    method Activate(ent: JobObject, v: Value, reject: bool, ghost rest: seq<JobObject>)
      requires Valid() && ent !in rest && Waiting(rest, ent.home) && ent in objects && ent.home >= 0 && ent.next == null && !ent.isThen && !ent.rejected
      requires Vacant(ent.home)
      modifies queue, objects
      ensures Valid() && queue.nodes == old(queue.nodes) + [ent]
      ensures queue.Jobs() == old(queue.Jobs()) + [M.Activate(ent.AsReaction(), v, reject)]
      ensures Waiting(rest, old(ent.home))
    {
      ghost var home := ent.home;
      Mark(ent, v, reject);
      assert queue.Jobs() == old(queue.Jobs());
      assert Queued() && Lists() && Waiting(rest, home);
      hide Lists, Waiting, Vacant;
      PutInQueue(ent, rest, home);
    }

    /** Enqueue an object that no list holds. */
    method PutInQueue(ent: JobObject, ghost rest: seq<JobObject>, ghost home: nat)
      requires Valid() && Waiting(rest, home) && ent in objects && ent !in queue.nodes && ent.home == -1 && ent.next == null
      modifies queue, objects
      ensures Valid() && queue.nodes == old(queue.nodes) + [ent] && Waiting(rest, home)
      ensures queue.Jobs() == old(queue.Jobs()) + [old(ent.AsJob())]
    {
      queue.Enqueue(ent);
      assert forall o <- objects :: o.home == old(o.home) && (o.home >= 0 ==> o.next == old(o.next) && o.rejected == old(o.rejected));
      assert Waiting(rest, home);
      forall p | 0 <= p < |promises|
        ensures Waiting(promises[p].fulfillReactions, 2 * p) && Waiting(promises[p].rejectReactions, 2 * p + 1)
      {
        assert old(Waiting(promises[p].fulfillReactions, 2 * p)) && old(Waiting(promises[p].rejectReactions, 2 * p + 1));
      }
    }

    /** Give a reaction object the value its promise was settled with. */
    static method Mark(ent: JobObject, v: Value, reject: bool)
      requires !ent.isThen && !ent.rejected
      modifies ent
      ensures ent.AsJob() == M.Activate(ent.AsReaction(), v, reject) && ent.home == -1 && ent.next == old(ent.next)
    {
      ent.value := v;
      if reject && ent.handler == M.Missing {
        ent.rejected := true;
      }
      ent.home := -1;
    }

    lemma WaitingTail(rs: seq<JobObject>, home: int)
      requires rs != [] && Waiting(rs, home)
      ensures Waiting(rs[1..], home) && rs[0] !in rs[1..]
      ensures rs[0] in objects && rs[0].home == home && rs[0].next == null && !rs[0].isThen && !rs[0].rejected
    {
    }

    /** The first object still waiting is queued, in its job's form. */
    method ActivateNext(reactions: seq<JobObject>, i: nat, v: Value, reject: bool, ghost home: nat)
      requires i < |reactions| && Valid() && Waiting(reactions[i..], home) && Vacant(home)
      modifies queue, objects
      ensures Valid() && Waiting(reactions[i + 1..], home)
      ensures queue.Jobs() == old(queue.Jobs()) + [M.Activate(reactions[i].AsReaction(), v, reject)]
    {
      ghost var rest := reactions[i..];
      WaitingTail(rest, home);
      assert rest[0] == reactions[i] && reactions[i + 1..] == rest[1..];
      hide *;
      Activate(reactions[i], v, reject, rest[1..]);
    }

    /** Queue all objects of a reaction list whose promise was just settled. */
    method ActivateAll(reactions: seq<JobObject>, v: Value, reject: bool, ghost home: nat)
      requires Valid() && Waiting(reactions, home) && Vacant(home)
      modifies queue, objects
      ensures Valid()
      ensures queue.Jobs() == old(queue.Jobs()) + M.Activated(AsReactions(reactions), v, reject)
    {
      hide *;
      assert reactions[0..] == reactions;
      ghost var jobs := M.Activated(AsReactions(reactions), v, reject);
      for i := 0 to |reactions|
        invariant Valid() && Waiting(reactions[i..], home) && Vacant(home)
        invariant queue.Jobs() == old(queue.Jobs()) + jobs[..i]
      {
        ActivateNext(reactions, i, v, reject, home);
        assert jobs[..i + 1] == jobs[..i] + [jobs[i]];
      }
      assert jobs[..|reactions|] == jobs;
    }

    /** Replace the record of promise 'p'. */
    lemma AsPromisesUpdate(ps: seq<PromiseObject>, p: nat, x: PromiseObject)
      requires p < |ps|
      ensures AsPromises(ps[p := x]) == AsPromises(ps)[p := AsPromise(x)]
    {
    }

    /** Write the state and value of a pending promise and drop its reaction lists. */
    method Settle(p: nat, status: M.Status)
      requires Valid() && p < |promises|
      modifies this`promises
      ensures Valid() && Vacant(2 * p) && Vacant(2 * p + 1) && |promises| == |old(promises)|
      ensures AsPromises(promises) == AsPromises(old(promises))[p := M.Settled(AsPromises(old(promises))[p], status)]
      ensures Waiting(old(promises)[p].fulfillReactions, 2 * p) && Waiting(old(promises)[p].rejectReactions, 2 * p + 1)
    {
      ghost var x := promises[p].(status := status, fulfillReactions := [], rejectReactions := []);
      AsPromisesUpdate(promises, p, x);
      assert AsReactions([]) == [];
      promises := promises[p := promises[p].(status := status, fulfillReactions := [], rejectReactions := [])];
    }

    method DoFulfill(p: nat, v: Value)
      requires Valid() && p < |promises|
      modifies this, queue, objects
      ensures Valid() && Model() == M.DoFulfill(old(Model()), p, v) && objects == old(objects)
    {
      if promises[p].status != M.Pending { return; }
      var reactions := promises[p].fulfillReactions;
      Settle(p, M.Fulfilled(v));
      hide Valid, Waiting, Vacant;
      ActivateAll(reactions, v, false, 2 * p);
    }

    method DoReject(p: nat, v: Value)
      requires Valid() && p < |promises|
      modifies this, queue, objects
      ensures Valid() && Model() == M.DoReject(old(Model()), p, v) && objects == old(objects)
    {
      if promises[p].status != M.Pending { return; }
      var reactions := promises[p].rejectReactions;
      Settle(p, M.Rejected(v));
      hide Valid, Waiting, Vacant;
      ActivateAll(reactions, v, true, 2 * p + 1);
      if !promises[p].isHandled {
        RejectionTracker(p, false);
      }
    }

    /** Host hook for unhandled rejections: a promise rejected without handlers, or handled for the first time. */
    method RejectionTracker(p: nat, handle: bool)
      requires Valid() && p < |promises|
      modifies this
      ensures Valid() && Model() == (if handle then M.TrackHandle(old(Model()), p) else M.TrackReject(old(Model()), p))
      ensures objects == old(objects) && |promises| == |old(promises)|
    {
      hide Valid;
      if !handle {
        log := log + [M.RawReject(p)];
        SetUnhandled(p, 1);
        potentiallyUnhandled := potentiallyUnhandled + [p];
      } else {
        log := log + [M.RawHandle(p)];
        if promises[p].unhandled == 2 {
          SetUnhandled(p, 3);
          potentiallyUnhandled := potentiallyUnhandled + [p];
        } else {
          SetUnhandled(p, 0);
        }
      }
    }

    method SetUnhandled(p: nat, u: nat)
      requires Valid() && p < |promises|
      modifies this`promises
      ensures Valid() && |promises| == |old(promises)|
      ensures AsPromises(promises) == AsPromises(old(promises))[p := AsPromises(old(promises))[p].(unhandled := u)]
    {
      AsPromisesUpdate(promises, p, promises[p].(unhandled := u));
      promises := promises[p := promises[p].(unhandled := u)];
    }

    method SetHandled(p: nat)
      requires Valid() && p < |promises|
      modifies this`promises
      ensures Valid() && Model() == M.MarkHandled(old(Model()), p)
    {
      AsPromisesUpdate(promises, p, promises[p].(isHandled := true));
      promises := promises[p := promises[p].(isHandled := true)];
    }

    /** A new pending promise. */
    method NewPromise() returns (p: nat)
      requires Valid()
      modifies this`promises
      ensures Valid() && p == old(|promises|) && Model() == M.AddPromise(old(Model()))
    {
      p := |promises|;
      promises := promises + [PromiseObject(M.Pending, [], [], false, 0)];
      assert AsReactions([]) == [];
      assert AsPromises(promises) == AsPromises(old(promises)) + [M.Promise(M.Pending, [], [], false, 0)];
    }

    /** A new object joins those in use. */
    ghost method Adopt(ent: JobObject)
      requires Valid()
      modifies this`objects
      ensures Valid() && objects == old(objects) + {ent}
    {
      objects := objects + {ent};
      assert Queued() && Lists();
    }

    /** Queue a new job object. */
    method EnqueueJob(ent: JobObject)
      requires Valid() && ent !in objects && ent.home == -1 && ent.next == null
      modifies this`objects, queue, objects, ent
      ensures Valid() && queue.Jobs() == old(queue.Jobs()) + [old(ent.AsJob())] && objects == old(objects) + {ent}
    {
      assert ent !in queue.nodes && Waiting([], 0);
      Adopt(ent);
      hide Valid;
      PutInQueue(ent, [], 0);
    }

    /** Put two reaction objects at the end of the lists of promise 'p'. */
    method AppendReactions(p: nat, f: JobObject, r: JobObject)
      requires Valid() && p < |promises| && f in objects && r in objects
      requires f.home == 2 * p && f.next == null && !f.isThen && !f.rejected && f !in promises[p].fulfillReactions
      requires r.home == 2 * p + 1 && r.next == null && !r.isThen && !r.rejected && r !in promises[p].rejectReactions
      modifies this`promises
      ensures Valid() && |promises| == |old(promises)|
      ensures var pr := AsPromises(old(promises))[p];
              AsPromises(promises) == AsPromises(old(promises))[p := pr.(
                fulfillReactions := pr.fulfillReactions + [f.AsReaction()],
                rejectReactions := pr.rejectReactions + [r.AsReaction()])]
    {
      var pr := promises[p];
      ghost var x := pr.(fulfillReactions := pr.fulfillReactions + [f], rejectReactions := pr.rejectReactions + [r]);
      AsPromisesUpdate(promises, p, x);
      assert AsReactions(x.fulfillReactions) == AsReactions(pr.fulfillReactions) + [f.AsReaction()];
      assert AsReactions(x.rejectReactions) == AsReactions(pr.rejectReactions) + [r.AsReaction()];
      promises := promises[p := pr.(fulfillReactions := pr.fulfillReactions + [f], rejectReactions := pr.rejectReactions + [r])];
    }

    /** Register both reactions on a pending promise. */
    method PushReactions(p: nat, onF: Handler, onR: Handler, target: nat)
      requires Valid() && p < |promises| && promises[p].status == M.Pending
      modifies this`promises, this`objects
      ensures Valid() && fresh(objects - old(objects)) && |promises| == |old(promises)|
      ensures var pr, n := AsPromises(old(promises))[p], |owner|;
              AsPromises(promises) == AsPromises(old(promises))[p := pr.(
                fulfillReactions := pr.fulfillReactions + [M.Reaction(n, onF, target)],
                rejectReactions := pr.rejectReactions + [M.Reaction(n + 1, onR, target)])]
    {
      var f := new JobObject.Reaction(|owner|, onF, target, 2 * p);
      var r := new JobObject.Reaction(|owner| + 1, onR, target, 2 * p + 1);
      assert f !in promises[p].fulfillReactions && r !in promises[p].rejectReactions;
      hide Valid, Waiting;
      Adopt(f);
      Adopt(r);
      AppendReactions(p, f, r);
    }

    /** Queue a reaction of a settled promise at once. */
    method EnqueueReady(p: nat, handler: Handler, target: nat, v: Value, rejected: bool)
      requires Valid()
      modifies this, queue, objects
      ensures Valid() && Model() == M.EnqueueNow(old(Model()), p, M.ReactionJob(|old(owner)|, handler, target, v, rejected))
    {
      hide Valid;
      var ent := new JobObject.Ready(|owner|, handler, target, v, rejected);
      EnqueueJob(ent);
      registrations := registrations + [M.Registration(p, |owner|, |owner|)];
      owner := owner + [Some(p)];
    }

    /** A registration on a settled promise queues its job at once. */
    method SubscribeSettled(p: nat, onF: Handler, onR: Handler, target: nat)
      requires Valid() && p < |promises| && promises[p].status != M.Pending
      modifies this, queue, objects
      ensures Valid() && Model() == M.Subscribe(old(Model()), p, onF, onR, target)
    {
      var value := promises[p].status.v;
      if promises[p].status.Fulfilled? {
        hide Valid, M.EnqueueNow, M.MarkHandled;
        EnqueueReady(p, onF, target, value, false);
      } else {
        hide Valid, M.EnqueueNow, M.MarkHandled, M.TrackHandle;
        if !promises[p].isHandled {
          RejectionTracker(p, true);
        }
        EnqueueReady(p, onR, target, value, onR == M.Missing);
      }
      SetHandled(p);
    }

    /** The part of then() after the derived promise was made: register, or queue a job at once. */
    method Subscribe(p: nat, onF: Handler, onR: Handler, target: nat)
      requires Valid() && p < |promises|
      modifies this, queue, objects
      ensures Valid() && Model() == M.Subscribe(old(Model()), p, onF, onR, target)
    {
      hide Valid;
      if promises[p].status == M.Pending {
        PushReactions(p, onF, onR, target);
        registrations := registrations + [M.Registration(p, |owner|, |owner| + 1)];
        owner := owner + [Some(p), Some(p)];
        SetHandled(p);
      } else {
        SubscribeSettled(p, onF, onR, target);
      }
    }

    /** Queue the job that calls the 'then' method of a thenable. */
    method EnqueueThenable(thenable: Value, thenFn: int, target: nat)
      requires Valid()
      modifies this, queue, objects
      ensures Valid() && Model() == M.EnqueueThenable(old(Model()), thenable, thenFn, target)
    {
      hide Valid;
      var ent := new JobObject.Thenable(|owner|, thenable, thenFn, target);
      EnqueueJob(ent);
      owner := owner + [None];
    }

    /** The guards of a resolve function; 'getter' asks the caller to read the 'then' property. */
    method StartResolve(p: nat, v: Value) returns (getter: bool)
      requires Valid() && p < |promises|
      modifies this, queue, objects
      ensures Valid() && (Model(), getter) == M.StartResolve(old(Model()), p, v)
    {
      hide Valid;
      getter := false;
      if promises[p].status != M.Pending { return; }
      if v == M.PromiseObject(p) {
        DoReject(p, M.SelfResolutionError);
      } else if !v.Plain? {
        getter := true;
      } else {
        DoFulfill(p, v);
      }
    }

    /** Take the next job, if any. */
    method DequeueJob() returns (job: JobObject?)
      requires Valid()
      modifies this`ran, queue
      ensures Valid()
      ensures old(Model()).queue == [] ==> job == null && Model() == old(Model())
      ensures old(Model()).queue != [] ==>
                job != null && job.AsJob() == old(Model()).queue[0] && Model() == M.Dequeue(old(Model()))
    {
      hide Lists, Waiting;
      assert queue.nodes != [] ==> queue.Jobs()[0] == queue.nodes[0].AsJob();
      job := queue.Dequeue();
      if job != null {
        ran := ran + [job.id];
      }
      assert Lists();
    }

    /** Report one entry of the list, if it still calls for it. */
    method CheckEntry(p: nat)
      requires Valid() && p < |promises|
      modifies this`promises, this`log
      ensures Valid() && |promises| == |old(promises)| && Model() == M.CheckOne(old(Model()), p)
    {
      hide Valid;
      if promises[p].unhandled == 1 {
        log := log + [M.NotifyReject(p)];
        SetUnhandled(p, 2);
      } else if promises[p].unhandled == 3 {
        log := log + [M.NotifyHandle(p)];
        SetUnhandled(p, 0);
      }
    }

    /** Report rejections; hooks do not re-enter. */
    method CheckUnhandledRejections()
      requires Valid() && forall k :: 0 <= k < |potentiallyUnhandled| ==> potentiallyUnhandled[k] < |promises|
      modifies this
      ensures Valid() && Model() == M.CheckRejections(old(Model()))
    {
      hide Valid, M.CheckOne;
      ghost var want := M.CheckFrom(Model(), 0);
      for idx := 0 to |potentiallyUnhandled|
        invariant Valid() && objects == old(objects)
        invariant potentiallyUnhandled == old(potentiallyUnhandled) && |promises| == old(|promises|)
        invariant M.CheckFrom(Model(), idx) == want
      {
        CheckEntry(potentiallyUnhandled[idx]);
      }
      potentiallyUnhandled := [];
    }
  }
}
