/**
 Runs: any sequence of operations on two value stacks of one heap refines the matching sequence of
 edits on two frames, and both stacks stay sound at every step.
 */
module StackRuns {
  import opened Wrappers
  import opened StackEdits
  import opened StackLaws
  import opened ValueStack

  /** An operation on one stack, with what its caller passes and what the allocator answers.  Packing,
      taking a stretch out and opening a gap are done only where their callers have made sure of the place. */
  datatype Edit =
    | Push(v: Tval) | Dup(idx: int) | SetTop(idx: int) | PopN(count: int)
    | Insert(to: int) | Pull(from: int) | Swap(idx1: int, idx2: int) | Copy(from: int, to: int)
    | Remove(idx: int) | Replace(to: int) | Pack(count: int)
    | TakeOut(p: nat, n: nat) | OpenGap(p: nat, n: nat)
    | Check(extra: int, growShift: Option<nat>, allocOk: bool)
    | Shrink(snug: bool, checkShift: Option<nat>, slackShift: Option<nat>, tvalSize: nat, allocOk: bool)

  /** An operation on one stack, or values copied or moved to it from the other. */
  datatype Act = Do(e: Edit) | Take(count: int, isCopy: bool)

  /** What is done to the first or to the second of two stacks. */
  datatype Op = Op(first: bool, act: Act)

  predicate Signed32(n: int)
  {
    -0x8000_0000 <= n < 0x8000_0000
  }

  predicate ArgsOk(e: Edit)
  {
    match e
    case SetTop(idx) => Signed32(idx)
    case PopN(count) => Signed32(count)
    case Pack(count) => Signed32(count)
    case Shrink(_, _, _, tvalSize, _) => tvalSize > 0
    case _ => true
  }

  predicate ActOk(act: Act)
  {
    match act
    case Do(e) => ArgsOk(e)
    case Take(count, _) => Signed32(count)
  }

  // ---------- the edits ----------

  /** The frame after an operation; an index or a count out of range, or a missing reserve, changes nothing. */
  function Edited(f: seq<Tval>, room: int, e: Edit): seq<Tval>
  {
    match e
    case Push(v) => if |f| < room then f + [v] else f
    case Dup(idx) => var p := Position(idx, |f|); if |f| < room && p.Some? then f + [f[p.value]] else f
    case SetTop(idx) =>
      var n := if idx < 0 then |f| + idx else idx;
      if !(0 <= n <= room) then f else if n < |f| then f[..n] else f + Undefineds(n - |f|)
    case PopN(count) => if 0 <= count <= |f| then f[..|f| - count] else f
    case Insert(to) => var p := Position(to, |f|); if p.Some? then Inserted(f, p.value) else f
    case Pull(from) => var p := Position(from, |f|); if p.Some? then Pulled(f, p.value) else f
    case Swap(i, j) =>
      var p, q := Position(i, |f|), Position(j, |f|);
      if p.Some? && q.Some? then f[p.value := f[q.value]][q.value := f[p.value]] else f
    case Copy(from, to) =>
      var p, q := Position(from, |f|), Position(to, |f|);
      if p.Some? && q.Some? then f[q.value := f[p.value]] else f
    case Remove(idx) => var p := Position(idx, |f|); if p.Some? then Removed(f, p.value, 1) else f
    case Replace(to) => var p := Position(to, |f|); if p.Some? then f[p.value := f[|f| - 1]][..|f| - 1] else f
    case TakeOut(p, n) => if p + n <= |f| then Removed(f, p, n) else f
    case OpenGap(p, n) => if p <= |f| && |f| + n <= room then Widened(f, p, Undefineds(n)) else f
    case _ => f
  }

  /** A frame and the number of values that its reserve allows. */
  datatype View = View(f: seq<Tval>, room: int)

  /** Both frames, the contents of packed arrays, and the references held outside both stacks. */
  datatype World = World(a: View, b: View, arrays: map<nat, seq<Tval>>, other: multiset<nat>)

  /** What one operation does to one frame and to the packed arrays; 'more' is what the heap now holds itself. */
  ghost predicate Follows(v: View, arrays: map<nat, seq<Tval>>, e: Edit, v1: View, arrays1: map<nat, seq<Tval>>, more: multiset<nat>)
  {
    match e
    case Check(extra, _, _) =>
      v1.f == v.f && (v1.room == v.room || v1.room - |v.f| >= extra) && arrays1 == arrays && more == multiset{}
    case Pack(count) =>
      if 0 <= count <= |v.f| < v.room then
        var k := |v.f| - count;
        && v1.room == v.room && |v1.f| == k + 1 && v1.f[..k] == v.f[..k] && v1.f[k].Ref? && v1.f[k].o !in arrays
        && arrays1 == arrays[v1.f[k].o := v.f[k..]] && more == Refs(v.f[k..])
      else v1 == v && arrays1 == arrays && more == multiset{}
    case _ => v1 == View(Edited(v.f, v.room, e), v.room) && arrays1 == arrays && more == multiset{}
  }

  /** Values on the top of one frame, put on the other. */
  predicate Moves(to: View, from: View, count: int, isCopy: bool, to1: View, from1: View)
  {
    && to1.room == to.room && from1.room == from.room
    && if 0 <= count <= |from.f| && |to.f| + count <= to.room then
         var k := |from.f| - count;
         to1.f == to.f + from.f[k..] && from1.f == if isCopy then from.f else from.f[..k]
       else to1 == to && from1 == from
  }

  function Swapped(w: World): World
  {
    World(w.b, w.a, w.arrays, w.other)
  }

  /** An act on the first stack. */
  ghost predicate Acts(w: World, act: Act, w1: World)
  {
    match act
    case Do(e) => w1.b == w.b && exists more :: w1.other == w.other + more && Follows(w.a, w.arrays, e, w1.a, w1.arrays, more)
    case Take(count, isCopy) => w1.arrays == w.arrays && w1.other == w.other && Moves(w.a, w.b, count, isCopy, w1.a, w1.b)
  }

  ghost predicate Next(w: World, op: Op, w1: World)
  {
    if op.first then Acts(w, op.act, w1) else Acts(Swapped(w), op.act, Swapped(w1))
  }

  // ---------- one step ----------

  ghost predicate Ordered(st: Stack)
    reads st
  {
    st.bottom <= st.top <= st.slots.Length
  }

  ghost function ViewOf(st: Stack): View
    reads st, st.slots
  {
    View(if Ordered(st) then st.Now().Frame() else [], st.end - st.bottom)
  }

  /** Two stacks on one heap, and every reference count is exact. */
  ghost predicate Sound(a: Stack, b: Stack, other: multiset<nat>)
    reads a, b, a.slots, b.slots, a.h
  {
    && a.h == b.h && a != b && a.slots != b.slots && Ordered(a) && Ordered(b)
    && BothReady(a.Now(), b.Now(), a.h.refs, other)
  }

  ghost function WorldOf(a: Stack, b: Stack, other: multiset<nat>): (w: World)
    reads a, b, a.slots, b.slots, a.h
    ensures w.other == other
  {
    World(ViewOf(a), ViewOf(b), a.h.arrays, other)
  }

  /** An identity that no reference and no array uses. */
  method Allocate(h: Heap) returns (id: nat)
    ensures h.refs[id] == 0 && id !in h.arrays
  {
    ghost var r := AboveAll(h.refs);
    ghost var s := AboveKeys(h.arrays.Keys);
    id := 0;
    while id in h.refs || id in h.arrays
      invariant id <= r + s
      decreases r + s - id
    {
      id := id + 1;
    }
  }

  lemma AboveAll(m: multiset<nat>) returns (k: nat)
    ensures forall id: nat :: id >= k ==> id !in m
    decreases |m|
  {
    if m == multiset{} { return 0; }
    var e :| e in m;
    assert forall id :: id in m && id != e ==> id in m - multiset{e};
    var j := AboveAll(m - multiset{e});
    return if e + 1 > j then e + 1 else j;
  }

  lemma AboveKeys(s: set<nat>) returns (k: nat)
    ensures forall id: nat :: id >= k ==> id !in s
  {
    if s == {} { return 0; }
    var e :| e in s;
    assert forall id :: id in s && id != e ==> id in s - {e};
    var j := AboveKeys(s - {e});
    return if e + 1 > j then e + 1 else j;
  }

  /** The stack 'st' is sound and still has what it had outside its frame; its slots may have moved. */
  twostate predicate Applied(st: Stack, other: multiset<nat>, e: Edit, more: multiset<nat>)
    reads st, st.slots, st.h
    requires old(Ordered(st))
  {
    && (st.slots == old(st.slots) || fresh(st.slots)) && st.bottom == old(st.bottom)
    && Ordered(st) && st.Now().Ready(st.h.refs, other + more)
    && st.Now().s[..st.bottom] == old(st.Now().s[..st.bottom])
    && Follows(old(ViewOf(st)), old(st.h.arrays), e, ViewOf(st), st.h.arrays, more)
  }

  /** The operations that put one value on the frame. */
  predicate Pushing(e: Edit)
  {
    e.Push? || e.Dup?
  }

  /** The operations that move the top. */
  predicate Topping(e: Edit)
  {
    e.SetTop? || e.PopN?
  }

  /** The operations that work at an index of the frame. */
  predicate Inside(e: Edit)
  {
    e.Insert? || e.Pull? || e.Swap? || e.Copy? || e.Remove? || e.Replace?
  }

  /** The operations on a stretch of the frame. */
  predicate Stretching(e: Edit)
  {
    e.TakeOut? || e.OpenGap?
  }

  method ApplyPushing(st: Stack, e: Edit, ghost other: multiset<nat>)
    requires Ordered(st) && st.Now().Ready(st.h.refs, other) && Pushing(e)
    modifies st`top, st.slots, st.h`refs
    ensures old(st.Now()).Becomes(st.Now(), st.h.refs, other, Edited(old(st.Now().Frame()), st.end - st.bottom, e))
  {
    Stays(st.Now(), st.h.refs, other);
    hide Refs, Position, Picture.Becomes, Picture.Ready;
    var r;
    match e
    case Push(v) => r := st.Push(v, other);
    case Dup(idx) => r := st.Dup(idx, other);
  }

  method ApplyTopping(st: Stack, e: Edit, ghost other: multiset<nat>)
    requires Ordered(st) && st.Now().Ready(st.h.refs, other) && ArgsOk(e) && Topping(e)
    modifies st`top, st.slots, st.h`refs
    ensures old(st.Now()).Becomes(st.Now(), st.h.refs, other, Edited(old(st.Now().Frame()), st.end - st.bottom, e))
  {
    hide Refs, Undefineds, Picture.Becomes, Picture.Ready;
    var r;
    match e
    case SetTop(idx) => r := st.SetTop(idx, other);
    case PopN(count) => r := st.PopN(count, other);
  }

  method ApplyInside(st: Stack, e: Edit, ghost other: multiset<nat>)
    requires Ordered(st) && st.Now().Ready(st.h.refs, other) && Inside(e)
    modifies st`top, st.slots, st.h`refs
    ensures old(st.Now()).Becomes(st.Now(), st.h.refs, other, Edited(old(st.Now().Frame()), st.end - st.bottom, e))
  {
    Stays(st.Now(), st.h.refs, other);
    hide Refs, Position, Inserted, Pulled, Removed, Undefineds, Picture.Becomes, Picture.Ready;
    var r;
    match e
    case Insert(to) => r := st.Insert(to, other);
    case Pull(from) => r := st.Pull(from, other);
    case Swap(i, j) => r := st.Swap(i, j, other);
    case Copy(from, to) => r := st.Copy(from, to, other);
    case Remove(idx) => r := st.Remove(idx, other);
    case Replace(to) => r := st.Replace(to, other);
  }

  method ApplyStretching(st: Stack, e: Edit, ghost other: multiset<nat>)
    requires Ordered(st) && st.Now().Ready(st.h.refs, other) && Stretching(e)
    modifies st`top, st.slots, st.h`refs
    ensures old(st.Now()).Becomes(st.Now(), st.h.refs, other, Edited(old(st.Now().Frame()), st.end - st.bottom, e))
  {
    Stays(st.Now(), st.h.refs, other);
    hide Refs, Removed, Widened, Undefineds, Picture.Becomes, Picture.Ready;
    match e
    case TakeOut(p, n) => if p + n <= st.top - st.bottom { st.RemoveN(p, n, other); }
    case OpenGap(p, n) => if p <= st.top - st.bottom && n <= st.end - st.top { st.InsertUndefinedN(p, n, other); }
  }

  /** The frame that Becomes() describes, with the heap's arrays as they were. */
  lemma PlainFollows(x: Picture, y: Picture, refs: multiset<nat>, other: multiset<nat>, e: Edit, arrays: map<nat, seq<Tval>>)
    requires x.b <= x.t <= |x.s| && x.b <= x.e && (Pushing(e) || Topping(e) || Inside(e) || Stretching(e))
    requires x.Becomes(y, refs, other, Edited(x.Frame(), x.e - x.b, e))
    ensures y.Ready(refs, other + multiset{}) && y.b == x.b && y.b <= y.t <= |y.s| && y.e == x.e && y.s[..y.b] == x.s[..x.b]
    ensures Follows(View(x.Frame(), x.e - x.b), arrays, e, View(y.Frame(), y.e - y.b), arrays, multiset{})
  {
    hide Edited, Refs;
    assert other + multiset{} == other;
  }

  /** The frame that packing leaves, with the new array. */
  lemma PackFollows(x: Picture, y: Picture, refs: multiset<nat>, other: multiset<nat>, count: int, id: nat, arrays: map<nat, seq<Tval>>)
    requires x.b <= x.t <= |x.s| && 0 <= count <= |x.Frame()| < x.e - x.b && id !in arrays
    requires var k := |x.Frame()| - count;
             x.Becomes(y, refs, other + Refs(x.Frame()[k..]), x.Frame()[..k] + [Ref(id)])
    ensures var more := Refs(x.Frame()[|x.Frame()| - count..]);
            && y.Ready(refs, other + more) && y.b == x.b && y.b <= y.t <= |y.s| && y.e == x.e && y.s[..y.b] == x.s[..x.b]
            && Follows(View(x.Frame(), x.e - x.b), arrays, Pack(count),
                       View(y.Frame(), y.e - y.b), arrays[id := x.Frame()[|x.Frame()| - count..]], more)
  {
    hide Refs;
  }

  lemma NothingFollows(x: Picture, refs: multiset<nat>, other: multiset<nat>, e: Edit, arrays: map<nat, seq<Tval>>)
    requires x.Ready(refs, other) && x.b <= x.t <= |x.s| && e.Pack? && !(0 <= e.count <= |x.Frame()| < x.e - x.b)
    ensures x.Ready(refs, other + multiset{})
    ensures Follows(View(x.Frame(), x.e - x.b), arrays, e, View(x.Frame(), x.e - x.b), arrays, multiset{})
  {
    hide Refs;
    assert other + multiset{} == other;
  }

  /** Pack into an array that is allocated for it. */
  method PackNew(st: Stack, count: nat, ghost x: Picture, ghost other: multiset<nat>) returns (ghost id: nat)
    requires x == st.Now() && x.Ready(st.h.refs, other) && x.b + count <= x.t < x.e && x.t <= |x.s| && count < 0x8000_0000
    modifies st`top, st.slots, st.h`refs, st.h`arrays
    ensures id !in old(st.h.arrays) && st.h.arrays == old(st.h.arrays)[id := x.Frame()[x.t - x.b - count..]]
    ensures x.Becomes(st.Now(), st.h.refs, other + Refs(x.Frame()[x.t - x.b - count..]), x.Frame()[..x.t - x.b - count] + [Ref(id)])
  {
    hide *;
    Stays(x, st.h.refs, other);
    var arr := Allocate(st.h);
    var r := st.Pack(count, arr, other);
    id := arr;
  }

  /** Move the top values into a new array, when there is a slot for it. */
  method ApplyPack(st: Stack, count: int, ghost other: multiset<nat>) returns (ghost more: multiset<nat>)
    requires Ordered(st) && st.Now().Ready(st.h.refs, other) && Signed32(count)
    modifies st`top, st.slots, st.h`refs, st.h`arrays
    ensures Applied(st, other, Pack(count), more)
  {
    hide Refs, Follows, Picture.Ready, Picture.Becomes;
    ghost var x, arrays := st.Now(), st.h.arrays;
    assert |x.Frame()| == st.top - st.bottom;
    if st.top >= st.end || !(0 <= count <= st.top - st.bottom) {
      NothingFollows(x, st.h.refs, other, Pack(count), arrays);
      return multiset{};
    }
    ghost var id := PackNew(st, count, x, other);
    PackFollows(x, st.Now(), st.h.refs, other, count, id, arrays);
    return Refs(x.Frame()[|x.Frame()| - count..]);
  }

  /** Ask for room, or give unused slots back. */
  method ApplyRoom(st: Stack, e: Edit, ghost other: multiset<nat>)
    requires Ordered(st) && st.Now().Ready(st.h.refs, other) && ArgsOk(e) && (e.Check? || e.Shrink?)
    modifies st`slots, st`end
    ensures Applied(st, other, e, multiset{})
  {
    hide Refs;
    assert other + multiset{} == other;
    match e
    case Check(extra, growShift, allocOk) => var _ := st.CheckStack(extra, growShift, allocOk, other);
    case Shrink(snug, checkShift, slackShift, tvalSize, allocOk) =>
      st.ShrinkCheck(snug, checkShift, slackShift, tvalSize, allocOk, other);
  }

  /** An operation that edits the frame and allocates nothing. */
  method ApplyPlain(st: Stack, e: Edit, ghost other: multiset<nat>)
    requires Ordered(st) && st.Now().Ready(st.h.refs, other) && ArgsOk(e) && !e.Pack? && !e.Check? && !e.Shrink?
    modifies st`top, st.slots, st.h`refs
    ensures Applied(st, other, e, multiset{})
  {
    hide Refs, Edited, Follows, Picture.Ready, Picture.Becomes;
    ghost var x := st.Now();
    Stays(x, st.h.refs, other);
    if Pushing(e) { ApplyPushing(st, e, other); }
    else if Topping(e) { ApplyTopping(st, e, other); }
    else if Inside(e) { ApplyInside(st, e, other); }
    else { ApplyStretching(st, e, other); }
    PlainFollows(x, st.Now(), st.h.refs, other, e, st.h.arrays);
  }

  /** An operation on one stack. */
  method Apply(st: Stack, e: Edit, ghost other: multiset<nat>) returns (ghost more: multiset<nat>)
    requires Ordered(st) && st.Now().Ready(st.h.refs, other) && ArgsOk(e)
    modifies st`top, st`slots, st`end, st.slots, st.h`refs, st.h`arrays
    ensures Applied(st, other, e, more)
  {
    hide *;
    more := multiset{};
    if e.Pack? {
      SignedCount(e);
      more := ApplyPack(st, e.count, other);
    } else if e.Check? || e.Shrink? {
      ApplyRoom(st, e, other);
    } else {
      ApplyPlain(st, e, other);
    }
  }

  lemma SignedCount(e: Edit)
    requires e.Pack? && ArgsOk(e)
    ensures Signed32(e.count)
  {
  }

  // ---------- two stacks ----------

  /** A step on x keeps y sound: y's counts are held elsewhere as far as x is concerned. */
  lemma OtherSide(x: Picture, y: Picture, refs: multiset<nat>, other: multiset<nat>, more: multiset<nat>)
    requires y.Valid() && x.Ready(refs, y.Held() + other + more)
    ensures BothReady(x, y, refs, other + more) && BothReady(y, x, refs, other + more)
  {
    hide Refs;
    assert y.Held() + other + more == y.Held() + (other + more);
    Exchanged(x, y, refs, other + more);
  }

  /** Two stacks are sound together in either order. */
  lemma Turned(x: Picture, y: Picture, refs: multiset<nat>, other: multiset<nat>)
    requires BothReady(x, y, refs, other)
    ensures BothReady(y, x, refs, other) && x.Ready(refs, y.Held() + other) && y.Valid() && x.Valid()
  {
    hide Refs;
    Exchanged(x, y, refs, other);
  }

  lemma FrameSize(x: Picture)
    requires x.b <= x.t <= |x.s|
    ensures |x.Frame()| == x.t - x.b
  {
  }

  lemma InOrder(x: Picture, y: Picture, refs: multiset<nat>, other: multiset<nat>)
    requires BothReady(x, y, refs, other)
    ensures x.b <= x.t <= |x.s| && y.b <= y.t <= |y.s|
  {
    hide Refs;
  }

  /** What a transfer, or an attempt at one, does to the two views. */
  lemma TransferMoves(x: Picture, y: Picture, x1: Picture, y1: Picture, refs: multiset<nat>, other: multiset<nat>,
                      count: int, isCopy: bool, done: bool)
    requires x.b <= x.t <= x.e <= |x.s| && y.b <= y.t <= y.e <= |y.s|
    requires done <==> 0 <= count <= x.e - x.t && count <= y.t - y.b
    requires done ==> Transferred(x, y, x1, y1, refs, other, count, isCopy)
    requires !done ==> x1 == x && y1 == y && BothReady(x, y, refs, other)
    ensures x1.b <= x1.t <= |x1.s| && y1.b <= y1.t <= |y1.s| && BothReady(x1, y1, refs, other)
    ensures Moves(View(x.Frame(), x.e - x.b), View(y.Frame(), y.e - y.b), count, isCopy,
                  View(x1.Frame(), x1.e - x1.b), View(y1.Frame(), y1.e - y1.b))
  {
    hide Refs, BothReady, Picture.Frame;
    FrameSize(x);
    FrameSize(y);
    InOrder(x1, y1, refs, other);
  }

  /** An operation on x; y stays as it is. */
  method StepOn(x: Stack, y: Stack, e: Edit, ghost other: multiset<nat>) returns (ghost more: multiset<nat>)
    requires Sound(x, y, other) && ArgsOk(e)
    modifies x`top, x`slots, x`end, x.slots, x.h`refs, x.h`arrays
    ensures Sound(x, y, other + more) && (x.slots == old(x.slots) || fresh(x.slots))
    ensures ViewOf(y) == old(ViewOf(y)) && Follows(old(ViewOf(x)), old(x.h.arrays), e, ViewOf(x), x.h.arrays, more)
  {
    ghost var q := y.Now();
    Turned(x.Now(), q, x.h.refs, other);
    hide Refs, Follows, ArgsOk, BothReady, Picture.Ready, Picture.Valid;
    more := Apply(x, e, q.Held() + other);
    OtherSide(x.Now(), q, x.h.refs, other, more);
  }

  /** Values copied or moved from y, as the picture q shows it, to x. */
  method TransferTop(x: Stack, y: Stack, count: int, isCopy: bool, ghost p: Picture, ghost q: Picture, ghost other: multiset<nat>)
    requires x.h == y.h && x != y && x.slots != y.slots && -0x8000_0000 <= count < 0x8000_0000
    requires p == x.Now() && q == y.Now() && BothReady(p, q, x.h.refs, other) && p.b <= p.t <= |p.s| && q.b <= q.t <= |q.s|
    modifies x`top, x.slots, y`top, y.slots, x.h`refs
    ensures var p1, q1 := x.Now(), y.Now();
            && p1.b <= p1.t <= |p1.s| && q1.b <= q1.t <= |q1.s| && BothReady(p1, q1, x.h.refs, other)
            && Moves(View(p.Frame(), p.e - p.b), View(q.Frame(), q.e - q.b), count, isCopy,
                     View(p1.Frame(), p1.e - p1.b), View(q1.Frame(), q1.e - q1.b))
  {
    hide *;
    NothingMoved(p, q, x.h.refs, other);
    var r := XCopyMove(x, y, count, isCopy, other);
    TransferMoves(p, q, x.Now(), y.Now(), x.h.refs, other, count, isCopy, r == Done);
  }

  method StepTransfer(x: Stack, y: Stack, count: int, isCopy: bool, ghost other: multiset<nat>)
    requires Sound(x, y, other) && Signed32(count)
    modifies x`top, x.slots, y`top, y.slots, x.h`refs
    ensures Sound(x, y, other)
    ensures Moves(old(ViewOf(x)), old(ViewOf(y)), count, isCopy, ViewOf(x), ViewOf(y))
  {
    hide BothReady, Moves;
    TransferTop(x, y, count, isCopy, x.Now(), y.Now(), other);
  }

  // ---------- runs ----------

  lemma DoActs(w: World, e: Edit, w1: World, more: multiset<nat>)
    requires w1.b == w.b && w1.other == w.other + more && Follows(w.a, w.arrays, e, w1.a, w1.arrays, more)
    ensures Acts(w, Do(e), w1)
  {
  }

  lemma TakeActs(w: World, count: int, isCopy: bool, w1: World)
    requires w1.arrays == w.arrays && w1.other == w.other && Moves(w.a, w.b, count, isCopy, w1.a, w1.b)
    ensures Acts(w, Take(count, isCopy), w1)
  {
  }

  method StepDo(x: Stack, y: Stack, e: Edit, ghost other: multiset<nat>) returns (ghost other1: multiset<nat>)
    requires Sound(x, y, other) && ArgsOk(e)
    modifies x`top, x`slots, x`end, x.slots, x.h`refs, x.h`arrays
    ensures Sound(x, y, other1) && (x.slots == old(x.slots) || fresh(x.slots)) && y.slots == old(y.slots)
    ensures Acts(old(WorldOf(x, y, other)), Do(e), WorldOf(x, y, other1))
  {
    OneHeap(x, y, other);
    hide Sound, ViewOf, BothReady, Follows, Moves, Acts, ArgsOk;
    ghost var w := WorldOf(x, y, other);
    ghost var more := StepOn(x, y, e, other);
    other1 := other + more;
    DoActs(w, e, WorldOf(x, y, other1), more);
  }

  method StepTake(x: Stack, y: Stack, count: int, isCopy: bool, ghost other: multiset<nat>)
    requires Sound(x, y, other) && Signed32(count)
    modifies x`top, x.slots, y`top, y.slots, x.h`refs
    ensures Sound(x, y, other) && x.slots == old(x.slots) && y.slots == old(y.slots)
    ensures Acts(old(WorldOf(x, y, other)), Take(count, isCopy), WorldOf(x, y, other))
  {
    OneHeap(x, y, other);
    hide Sound, ViewOf, BothReady, Follows, Moves, Acts, ArgsOk;
    ghost var w := WorldOf(x, y, other);
    StepTransfer(x, y, count, isCopy, other);
    TakeActs(w, count, isCopy, WorldOf(x, y, other));
  }

  lemma OneHeap(x: Stack, y: Stack, other: multiset<nat>)
    requires Sound(x, y, other)
    ensures x != y && x.h == y.h
  {
  }

  /** An act on x. */
  method StepAct(x: Stack, y: Stack, act: Act, ghost other: multiset<nat>) returns (ghost other1: multiset<nat>)
    requires Sound(x, y, other) && ActOk(act)
    modifies x`top, x`slots, x`end, x.slots, y`top, y.slots, x.h`refs, x.h`arrays
    ensures Sound(x, y, other1) && (x.slots == old(x.slots) || fresh(x.slots)) && y.slots == old(y.slots)
    ensures Acts(old(WorldOf(x, y, other)), act, WorldOf(x, y, other1))
  {
    hide *;
    OneHeap(x, y, other);
    ActArgs(act);
    match act
    case Do(e) => other1 := StepDo(x, y, e, other);
    case Take(count, isCopy) =>
      StepTake(x, y, count, isCopy, other);
      other1 := other;
  }

  lemma ActArgs(act: Act)
    requires ActOk(act)
    ensures if act.Do? then ArgsOk(act.e) else Signed32(act.count)
  {
  }

  /** One operation. */
  method Step(a: Stack, b: Stack, op: Op, ghost other: multiset<nat>) returns (ghost other1: multiset<nat>)
    requires Sound(a, b, other) && ActOk(op.act)
    modifies a`top, a`slots, a`end, a.slots, b`top, b`slots, b`end, b.slots, a.h`refs, a.h`arrays
    ensures Sound(a, b, other1) && (a.slots == old(a.slots) || fresh(a.slots)) && (b.slots == old(b.slots) || fresh(b.slots))
    ensures Next(old(WorldOf(a, b, other)), op, WorldOf(a, b, other1))
  {
    SoundBothWays(a, b, other);
    hide Sound, ViewOf, Acts, ActOk;
    if op.first {
      other1 := StepAct(a, b, op.act, other);
    } else {
      other1 := StepAct(b, a, op.act, other);
      SoundBothWays(b, a, other1);
    }
  }

  lemma SoundBothWays(a: Stack, b: Stack, other: multiset<nat>)
    requires Sound(a, b, other)
    ensures Sound(b, a, other) && a.h == b.h
  {
    hide BothReady;
    Turned(a.Now(), b.Now(), a.h.refs, other);
  }

  /** Both stacks as values, the reference counts, and what the edits see of them. */
  datatype Snapshot = Snapshot(a: Picture, b: Picture, refs: multiset<nat>, w: World)

  ghost function Snap(a: Stack, b: Stack, other: multiset<nat>): (s: Snapshot)
    reads a, b, a.slots, b.slots, a.h
    ensures s.w == WorldOf(a, b, other)
  {
    Snapshot(a.Now(), b.Now(), a.h.refs, WorldOf(a, b, other))
  }

  /** In a snapshot the pointers of both stacks are in order, unused slots are undefined, every reference count
      is exact, and the frames are those that the edits see. */
  ghost predicate SoundAt(s: Snapshot)
  {
    && s.a.b <= s.a.t <= |s.a.s| && s.b.b <= s.b.t <= |s.b.s| && BothReady(s.a, s.b, s.refs, s.w.other)
    && s.w.a == View(s.a.Frame(), s.a.e - s.a.b) && s.w.b == View(s.b.Frame(), s.b.e - s.b.b)
  }

  lemma SoundSnap(a: Stack, b: Stack, other: multiset<nat>)
    requires Sound(a, b, other)
    ensures SoundAt(Snap(a, b, other))
  {
    hide BothReady, Refs;
  }

  /** Any sequence of operations on two stacks: at every point both stacks are sound, and the frames and arrays
      change step by step as the operations say.  The trace holds the state before the first operation and
      after each one. */
  method Execute(a: Stack, b: Stack, ops: seq<Op>, ghost other: multiset<nat>) returns (ghost trace: seq<Snapshot>)
    requires Sound(a, b, other) && forall i :: 0 <= i < |ops| ==> ActOk(ops[i].act)
    modifies a`top, a`slots, a`end, a.slots, b`top, b`slots, b`end, b.slots, a.h`refs, a.h`arrays
    ensures |trace| == |ops| + 1 && trace[0] == old(Snap(a, b, other))
    ensures forall i :: 0 <= i <= |ops| ==> SoundAt(trace[i])
    ensures forall i :: 0 <= i < |ops| ==> Next(trace[i].w, ops[i], trace[i + 1].w)
    ensures Sound(a, b, trace[|ops|].w.other) && trace[|ops|] == Snap(a, b, trace[|ops|].w.other)
  {
    hide *;
    trace := [Snap(a, b, other)];
    SoundSnap(a, b, other);
    ghost var now := other;
    for i := 0 to |ops|
      invariant Sound(a, b, now) && (a.slots == old(a.slots) || fresh(a.slots)) && (b.slots == old(b.slots) || fresh(b.slots))
      invariant |trace| == i + 1 && trace[0] == old(Snap(a, b, other)) && trace[i] == Snap(a, b, now)
      invariant forall j :: 0 <= j <= i ==> SoundAt(trace[j])
      invariant forall j :: 0 <= j < i ==> Next(trace[j].w, ops[j], trace[j + 1].w)
    {
      now := Step(a, b, ops[i], now);
      SoundSnap(a, b, now);
      trace := trace + [Snap(a, b, now)];
    }
  }

  // ---------- runs on one frame ----------

  /** The frame after a list of edits. */
  function EditedAll(f: seq<Tval>, room: int, es: seq<Edit>): seq<Tval>
    decreases |es|
  {
    if es == [] then f else EditedAll(Edited(f, room, es[0]), room, es[1..])
  }

  /** A run that packs nothing and asks for no room is the edits one after the other; the other stack, the arrays
      and the references held elsewhere stay as they are. */
  lemma {:induction false} RunIsEdits(trace: seq<Snapshot>, es: seq<Edit>)
    requires |trace| == |es| + 1 && forall i :: 0 <= i < |es| ==> Next(trace[i].w, Op(true, Do(es[i])), trace[i + 1].w)
    requires forall i :: 0 <= i < |es| ==> !es[i].Pack? && !es[i].Check?
    ensures trace[|es|].w == trace[0].w.(a := View(EditedAll(trace[0].w.a.f, trace[0].w.a.room, es), trace[0].w.a.room))
    decreases |es|
  {
    if es != [] {
      var w, w1 := trace[0].w, trace[1].w;
      assert Next(w, Op(true, Do(es[0])), w1);
      hide Edited;
      assert w.other + multiset{} == w.other;
      assert w1 == w.(a := View(Edited(w.a.f, w.a.room, es[0]), w.a.room));
      var rest, more := trace[1..], es[1..];
      forall i | 0 <= i < |more| ensures Next(rest[i].w, Op(true, Do(more[i])), rest[i + 1].w) {
        assert Next(trace[i + 1].w, Op(true, Do(es[i + 1])), trace[i + 2].w);
      }
      RunIsEdits(rest, more);
    }
  }
}
