/** The value stack of a thread: one array with a bottom, a top, a reserve end and an allocated end. */
module ValueStack {
  import opened Wrappers
  import opened Memory
  import opened StackEdits
  import opened StackLaws

  /** The slots that every check keeps free for internal use, and the number of 32-bit values. */
  const INTERNAL_EXTRA := 32
  const UINT_VALUES := 0x1_0000_0000

  datatype Result = Done | RangeError | TypeError

  /** The frame position of an index, counted from the top when negative; the unsigned sum wraps. */
  function Position(idx: int, size: nat): (p: Option<nat>)
    ensures p.Some? ==> p.value < size
  {
    var u := if idx < 0 then (size + idx) % UINT_VALUES else idx;
    if u < size then Some(u) else None
  }

  /** An index is valid exactly when it names a value of the frame, and wrapping never makes it so. */
  lemma {:induction false} PositionIsExact(idx: int, size: nat)
    requires -0x8000_0000 <= idx < 0x8000_0000 && size <= VALSTACK_LIMIT
    ensures Position(idx, size) == if 0 <= idx < size then Some(idx) else if 0 <= size + idx && idx < 0 then Some(size + idx) else None
  {
    var n: int := size;
    if idx < 0 && n + idx < 0 {
      assert (n + idx) % UINT_VALUES == n + idx + UINT_VALUES;
    }
  }

  /** A cast to the unsigned type. */
  function Unsigned(n: int): nat
  {
    n % UINT_VALUES
  }

  /** A negative number is above every limit once it is unsigned. */
  lemma UnsignedAbove(n: int, limit: nat)
    requires -0x8000_0000 <= n < 0x8000_0000 && limit <= VALSTACK_LIMIT
    ensures Unsigned(n) > limit <==> !(0 <= n <= limit)
  {
  }

  lemma UnsignedAboveLimit(n: int)
    requires -0x8000_0000 <= n < 0x8000_0000
    ensures 0 <= VALSTACK_LIMIT && (Unsigned(n) > VALSTACK_LIMIT <==> !(0 <= n <= VALSTACK_LIMIT))
  {
  }

  /** Heap objects: a reference count each, and the contents of packed arrays. */
  class Heap {
    var refs: multiset<nat>
    var arrays: map<nat, seq<Tval>>

    constructor ()
      ensures refs == multiset{} && arrays == map[]
    {
      refs, arrays := multiset{}, map[];
    }

    method Incref(v: Tval)
      modifies this`refs
      ensures refs == old(refs) + RefOf(v)
    {
      if v.Ref? {
        refs := refs[v.o := refs[v.o] + 1];
      }
    }

    /** Drop a reference; the result tells whether the count reached zero. */
    method Decref(v: Tval) returns (zero: bool)
      requires Covers(refs, RefOf(v))
      modifies this`refs
      ensures Less(refs, RefOf(v), old(refs))
      ensures zero == (v.Ref? && refs[v.o] == 0)
    {
      zero := false;
      if v.Ref? {
        assert multiset{v.o}[v.o] == 1;
        refs := refs[v.o := refs[v.o] - 1];
        zero := refs[v.o] == 0;
      }
    }

    method IncrefRange(a: array<Tval>, lo: nat, hi: nat)
      requires lo <= hi <= a.Length
      modifies this`refs
      ensures refs == old(refs) + Refs(a[lo..hi])
    {
      hide *;
      ghost var s, all := a[lo..hi], refs;
      CountStart(all, s);
      for i := lo to hi
        invariant Added(all, refs, s, i - lo)
      {
        CountNext(all, refs, s, i - lo);
        assert s[i - lo] == a[i];
        Incref(a[i]);
      }
      CountEnd(all, refs, s);
    }

    /** Drop the references held by a stretch of slots. */
    method DecrefRange(a: array<Tval>, lo: nat, hi: nat)
      requires lo <= hi <= a.Length && Covers(refs, Refs(a[lo..hi]))
      modifies this`refs
      ensures Less(refs, Refs(a[lo..hi]), old(refs))
    {
      hide *;
      ghost var s, all := a[lo..hi], refs;
      CountStart(all, s);
      for i := lo to hi
        invariant Added(refs, all, s, i - lo)
      {
        assert s[i - lo] == a[i];
        StillCounted(all, refs, s, i - lo);
        ghost var before := refs;
        var _ := Decref(a[i]);
        DropNext(all, before, refs, s, i - lo);
      }
      CountEnd(refs, all, s);
      LessEnd(refs, all, Refs(s));
    }
  }

  /** 'more' is 'less' with the references of the first 'i' values added. */
  ghost predicate Added(less: multiset<nat>, more: multiset<nat>, s: seq<Tval>, i: int)
  {
    0 <= i <= |s| && more == less + Refs(s[..i])
  }

  lemma CountStart(all: multiset<nat>, s: seq<Tval>)
    ensures Added(all, all, s, 0)
  {
    assert s[..0] == [];
  }

  lemma CountEnd(less: multiset<nat>, more: multiset<nat>, s: seq<Tval>)
    requires Added(less, more, s, |s|)
    ensures more == less + Refs(s)
  {
    hide Refs;
    assert s[..|s|] == s;
  }

  lemma LessEnd(less: multiset<nat>, more: multiset<nat>, gone: multiset<nat>)
    requires more == less + gone
    ensures Less(less, gone, more)
  {
  }

  lemma PrefixRefs(s: seq<Tval>, i: nat)
    requires i < |s|
    ensures Refs(s[..i + 1]) == Refs(s[..i]) + RefOf(s[i])
  {
    hide *;
    assert s[..i + 1] == s[..i] + [s[i]];
    RefsConcat(s[..i], [s[i]]);
    RefsOne(s[i]);
  }

  lemma SumAssociates(a: multiset<nat>, b: multiset<nat>, c: multiset<nat>)
    ensures a + b + c == a + (b + c) == a + c + b
  {
  }

  lemma CountNext(less: multiset<nat>, more: multiset<nat>, s: seq<Tval>, i: int)
    requires Added(less, more, s, i) && i < |s|
    ensures Added(less, more + RefOf(s[i]), s, i + 1)
  {
    hide Refs, RefOf;
    PrefixRefs(s, i);
    SumAssociates(less, Refs(s[..i]), RefOf(s[i]));
  }

  lemma DropNext(all: multiset<nat>, before: multiset<nat>, left: multiset<nat>, s: seq<Tval>, i: int)
    requires 0 <= i < |s| && Less(left, RefOf(s[i]), before) && Added(before, all, s, i)
    ensures Added(left, all, s, i + 1)
  {
    hide Refs, RefOf;
    PrefixRefs(s, i);
    SumAssociates(left, Refs(s[..i]), RefOf(s[i]));
  }

  /** What is left after some references were dropped still holds the next one. */
  lemma StillCounted(all: multiset<nat>, left: multiset<nat>, s: seq<Tval>, i: int)
    requires Added(left, all, s, i) && i < |s| && Covers(all, Refs(s))
    ensures Covers(left, RefOf(s[i]))
  {
    hide Refs, RefOf;
    PrefixRefs(s, i);
    RefsConcat(s[..i + 1], s[i + 1..]);
    assert s == s[..i + 1] + s[i + 1..];
    TakeOne(all, left, Refs(s[..i]), RefOf(s[i]), Refs(s[i + 1..]));
  }

  lemma TakeOne(all: multiset<nat>, left: multiset<nat>, done: multiset<nat>, one: multiset<nat>, rest: multiset<nat>)
    requires all == left + done && done + one + rest <= all
    ensures one <= left
  {
    forall o ensures one[o] <= left[o] {
      assert left[o] + done[o] == all[o];
      assert done[o] + one[o] + rest[o] == (done + one + rest)[o] <= all[o];
    }
  }

  /** Copy what fits into a new array, and set the slots beyond to undefined. */
  method Reallocate(from: array<Tval>, a: array<Tval>)
    requires from != a
    modifies a
    ensures a[..] == Resized(from[..], a.Length)
  {
    var n := a.Length;
    var fit := if from.Length <= n then from.Length else n;
    for i := 0 to fit
      invariant a[..i] == from[..i]
    {
      a[i] := from[i];
    }
    for i := fit to n
      invariant a[..fit] == from[..fit]
      invariant forall k :: fit <= k < i ==> a[k] == Undefined
    {
      a[i] := Undefined;
    }
    assert a[..] == a[..fit] + a[fit..];
    assert a[fit..] == Undefineds(n - fit);
  }

  /** Write one slot. */
  method Store(a: array<Tval>, i: nat, v: Tval)
    requires i < a.Length
    modifies a
    ensures a[..] == old(a[..])[i := v]
  {
    a[i] := v;
  }

  // ---------- moves inside the array ----------

  method RotateUp(a: array<Tval>, at: nat, q: nat)
    requires at <= q < a.Length
    modifies a
    ensures a[..] == RotatedUp(old(a[..]), at, q)
  {
    var tmp := a[q];
    MemMove(a, at + 1, at, q - at);
    ghost var m := a[..];
    a[at] := tmp;
    assert a[..] == m[at := tmp];
  }

  method RotateDown(a: array<Tval>, at: nat, q: nat)
    requires at <= q < a.Length
    modifies a
    ensures a[..] == RotatedDown(old(a[..]), at, q)
  {
    var tmp := a[at];
    MemMove(a, at, at + 1, q - at);
    ghost var m := a[..];
    a[q] := tmp;
    assert a[..] == m[q := tmp];
  }

  /** Set slots to undefined. */
  method Wipe(a: array<Tval>, at: nat, t: nat)
    requires at <= t <= a.Length
    modifies a
    ensures a[..] == Wiped(old(a[..]), at, t)
  {
    ghost var m := a[..];
    for i := at to t
      invariant forall k :: 0 <= k < a.Length ==> a[k] == if at <= k < i then Undefined else m[k]
    {
      a[i] := Undefined;
    }
    assert a[..] == Wiped(m, at, t);
  }

  method CloseGap(a: array<Tval>, at: nat, n: nat, t: nat)
    requires at + n <= t <= a.Length
    modifies a
    ensures a[..] == Closed(old(a[..]), at, n, t)
  {
    hide Patched, Undefineds;
    MemMove(a, at, at + n, t - (at + n));
    Wipe(a, t - n, t);
  }

  method OpenGap(a: array<Tval>, at: nat, n: nat, t: nat)
    requires at <= t && t + n <= a.Length
    modifies a
    ensures a[..] == Opened(old(a[..]), at, Undefineds(n), t)
  {
    hide Patched, Undefineds;
    MemMove(a, at + n, at, t - at);
    Wipe(a, at, at + n);
  }

  class Stack {
    const h: Heap
    var slots: array<Tval>
    var bottom: nat
    var top: nat
    var end: nat

    /** An empty stack with 'size' slots, of which 'reserve' may be used without a check. */
    constructor (h: Heap, size: nat, reserve: nat)
      requires reserve <= size <= VALSTACK_LIMIT
      ensures this.h == h && fresh(slots) && Now().Valid() && Now().Frame() == [] && bottom == 0 && end == reserve && slots.Length == size
    {
      this.h := h;
      slots := new Tval[size](_ => Undefined);
      bottom, top, end := 0, 0, reserve;
    }

    function Now(): (x: Picture)
      reads this, slots
      ensures x.b == bottom && x.t == top && x.e == end && |x.s| == slots.Length
      ensures forall i :: 0 <= i < slots.Length ==> x.s[i] == slots[i]
    {
      Picture(slots[..], bottom, top, end)
    }

    // ---------- what is written ----------

    method PushSlot(v: Tval)
      requires top < slots.Length
      modifies this`top, slots
      ensures Now() == PushPicture(old(Now()), v) && top == old(top) + 1
    {
      slots[top] := v;
      top := top + 1;
      assert slots[..] == old(slots[..])[old(top) := v];
    }

    method RaiseTop(k: nat)
      modifies this`top
      ensures Now() == old(Now()).(t := old(top) + k)
    {
      top := top + k;
    }

    method MoveTopDown(p: nat)
      requires bottom + p < top <= slots.Length
      modifies slots
      ensures Now() == InsertPicture(old(Now()), p)
    {
      hide RotatedUp;
      RotateUp(slots, bottom + p, top - 1);
    }

    method MoveToTop(p: nat)
      requires bottom + p < top <= slots.Length
      modifies slots
      ensures Now() == PullPicture(old(Now()), p)
    {
      hide RotatedDown;
      RotateDown(slots, bottom + p, top - 1);
    }

    method WipeFrom(n: nat)
      requires bottom + n <= top <= slots.Length
      modifies this`top, slots
      ensures Now() == TruncatePicture(old(Now()), n)
    {
      hide Wiped;
      Wipe(slots, bottom + n, top);
      top := bottom + n;
    }

    method CloseFrame(p: nat, n: nat)
      requires bottom + p + n <= top <= slots.Length
      modifies this`top, slots
      ensures Now() == RemovePicture(old(Now()), p, n)
    {
      hide Closed;
      CloseGap(slots, bottom + p, n, top);
      top := top - n;
    }

    method OpenFrame(p: nat, n: nat)
      requires bottom + p <= top && top + n <= slots.Length
      modifies this`top, slots
      ensures Now() == WidenPicture(old(Now()), p, Undefineds(n))
    {
      hide Opened, Undefineds;
      OpenGap(slots, bottom + p, n, top);
      top := top + n;
    }

    method WriteSlot(p: nat, v: Tval)
      requires bottom + p < top <= slots.Length
      modifies slots
      ensures Now() == UpdatePicture(old(Now()), p, v)
    {
      slots[bottom + p] := v;
      assert slots[..] == old(slots[..])[bottom + p := v];
    }

    method ExchangeSlots(p: nat, q: nat)
      requires bottom + p < top <= slots.Length && bottom + q < top
      modifies slots
      ensures Now() == SwapPicture(old(Now()), p, q)
    {
      var tmp := slots[bottom + p];
      WriteSlot(p, slots[bottom + q]);
      WriteSlot(q, tmp);
    }

    method PopOver(p: nat)
      requires bottom + p < top <= slots.Length
      modifies this`top, slots
      ensures Now() == ReplacePicture(old(Now()), p)
    {
      ghost var s := slots[..];
      slots[bottom + p] := slots[top - 1];
      assert slots[..] == s[bottom + p := s[top - 1]];
      slots[top - 1] := Undefined;
      assert slots[..] == s[bottom + p := s[top - 1]][top - 1 := Undefined];
      top := top - 1;
    }

    /** Drop the references of the slots from 'lo' up to 'hi'. */
    method DropRange(lo: nat, hi: nat)
      requires lo <= hi <= slots.Length && Covers(h.refs, Now().Span(lo, hi))
      modifies h`refs
      ensures Less(h.refs, Now().Span(lo, hi), old(h.refs))
    {
      hide Refs;
      assert Now().s[lo..hi] == slots[lo..hi];
      h.DecrefRange(slots, lo, hi);
    }

    // ---------- pushes and pops ----------

    /** Push a value; the reserve is checked. */
    method Push(v: Tval, ghost other: multiset<nat>) returns (r: Result)
      requires Now().Ready(h.refs, other)
      modifies this`top, slots, h`refs
      ensures r == (if old(top) < end then Done else RangeError) && top == old(top) + (if r.Done? then 1 else 0)
      ensures r.Done? ==> h.refs == old(h.refs) + RefOf(v)
      ensures var f := old(Now().Frame()); old(Now()).Becomes(Now(), h.refs, other, if r.Done? then f + [v] else f)
    {
      hide *;
      Stays(Now(), h.refs, other);
      if top >= end { return RangeError; }
      PushLaw(Now(), v, h.refs, other);
      PushSlot(v);
      h.Incref(v);
      return Done;
    }

    /** Duplicate a value on the top. */
    method Dup(idx: int, ghost other: multiset<nat>) returns (r: Result)
      requires Now().Ready(h.refs, other)
      modifies this`top, slots, h`refs
      ensures var f := old(Now().Frame());
              var p := Position(idx, |f|);
              && r == (if old(top) < end && p.Some? then Done else RangeError)
              && old(Now()).Becomes(Now(), h.refs, other, if r.Done? then f + [f[p.value]] else f)
    {
      hide *;
      Stays(Now(), h.refs, other);
      if top >= end { return RangeError; }
      var p := Position(idx, top - bottom);
      if p.None? { return RangeError; }
      FrameAt(Now(), p.value);
      r := Push(slots[bottom + p.value], other);
    }

    /** Set the top: extending shows undefined values, and lowering drops the references of those above. */
    method SetTop(idx: int, ghost other: multiset<nat>) returns (r: Result)
      requires Now().Ready(h.refs, other) && -0x8000_0000 <= idx < 0x8000_0000
      modifies this`top, slots, h`refs
      ensures var f := old(Now().Frame());
              var n := if idx < 0 then |f| + idx else idx;
              && r == (if 0 <= n <= end - bottom then Done else RangeError)
              && old(Now()).Becomes(Now(), h.refs, other, if r.RangeError? then f else if n < |f| then f[..n] else f + Undefineds(n - |f|))
    {
      Stays(Now(), h.refs, other);
      var size, limit := top - bottom, end - bottom;
      var uidx := if idx < 0 then (size + idx) % UINT_VALUES else idx;
      WrappedTop(idx, size, limit);
      hide *;
      if uidx > limit { return RangeError; }
      if uidx >= size {
        Extend(uidx - size, other);
      } else {
        Truncate(uidx, other);
      }
      return Done;
    }

    /** Raise the top by 'k' values, which are undefined already. */
    method Extend(k: nat, ghost other: multiset<nat>)
      requires Now().Ready(h.refs, other) && k <= end - top
      modifies this`top
      ensures old(Now()).Becomes(Now(), h.refs, other, old(Now().Frame()) + Undefineds(k))
    {
      hide *;
      ExtendLaw(Now(), k, h.refs, other);
      RaiseTop(k);
    }

    /** Lower the top to 'n' values, wiping the slots and dropping their references. */
    method Truncate(n: nat, ghost other: multiset<nat>)
      requires Now().Ready(h.refs, other) && n <= top - bottom
      modifies this`top, slots, h`refs
      ensures old(Now()).Becomes(Now(), h.refs, other, old(Now().Frame())[..n])
    {
      hide *;
      ghost var x, refs := Now(), h.refs;
      Stays(x, refs, other);
      HeldIsCounted(x, n, top - bottom - n, refs, other);
      DropRange(bottom + n, top);
      TruncateLaw(x, n, refs, h.refs, other);
      WipeFrom(n);
    }

    method PopN(count: int, ghost other: multiset<nat>) returns (r: Result)
      requires Now().Ready(h.refs, other) && -0x8000_0000 <= count < 0x8000_0000
      modifies this`top, slots, h`refs
      ensures var f := old(Now().Frame());
              && r == (if 0 <= count <= |f| then Done else RangeError)
              && old(Now()).Becomes(Now(), h.refs, other, if r.Done? then f[..|f| - count] else f)
    {
      hide *;
      Stays(Now(), h.refs, other);
      UnsignedAbove(count, top - bottom);
      if top - bottom < Unsigned(count) { return RangeError; }
      Truncate(top - bottom - count, other);
      return Done;
    }

    // ---------- edits inside the frame ----------

    /** Move the top value down to an index; no reference count is touched. */
    method Insert(to: int, ghost other: multiset<nat>) returns (r: Result)
      requires Now().Ready(h.refs, other)
      modifies slots
      ensures var f := old(Now().Frame());
              var p := Position(to, |f|);
              && r == (if p.Some? then Done else RangeError)
              && old(Now()).Becomes(Now(), h.refs, other, if r.Done? then Inserted(f, p.value) else f)
    {
      hide *;
      Stays(Now(), h.refs, other);
      var p := Position(to, top - bottom);
      if p.None? { return RangeError; }
      InsertLaw(Now(), p.value, h.refs, other);
      MoveTopDown(p.value);
      return Done;
    }

    /** Move the value at an index to the top; no reference count is touched. */
    method Pull(from: int, ghost other: multiset<nat>) returns (r: Result)
      requires Now().Ready(h.refs, other)
      modifies slots
      ensures var f := old(Now().Frame());
              var p := Position(from, |f|);
              && r == (if p.Some? then Done else RangeError)
              && old(Now()).Becomes(Now(), h.refs, other, if r.Done? then Pulled(f, p.value) else f)
    {
      hide *;
      Stays(Now(), h.refs, other);
      var p := Position(from, top - bottom);
      if p.None? { return RangeError; }
      PullLaw(Now(), p.value, h.refs, other);
      MoveToTop(p.value);
      return Done;
    }

    /** Exchange two values. */
    method Swap(idx1: int, idx2: int, ghost other: multiset<nat>) returns (r: Result)
      requires Now().Ready(h.refs, other)
      modifies slots
      ensures var f := old(Now().Frame());
              var p, q := Position(idx1, |f|), Position(idx2, |f|);
              && r == (if p.Some? && q.Some? then Done else RangeError)
              && old(Now()).Becomes(Now(), h.refs, other, if r.Done? then f[p.value := f[q.value]][q.value := f[p.value]] else f)
    {
      hide *;
      Stays(Now(), h.refs, other);
      var p, q := Position(idx1, top - bottom), Position(idx2, top - bottom);
      if p.None? || q.None? { return RangeError; }
      SwapLaw(Now(), p.value, q.value, h.refs, other);
      ExchangeSlots(p.value, q.value);
      return Done;
    }

    /** Write the value at one index over that at another. */
    method Copy(from: int, to: int, ghost other: multiset<nat>) returns (r: Result)
      requires Now().Ready(h.refs, other)
      modifies slots, h`refs
      ensures var f := old(Now().Frame());
              var p, q := Position(from, |f|), Position(to, |f|);
              && r == (if p.Some? && q.Some? then Done else RangeError)
              && old(Now()).Becomes(Now(), h.refs, other, if r.Done? then f[q.value := f[p.value]] else f)
    {
      hide *;
      Stays(Now(), h.refs, other);
      var p, q := Position(from, top - bottom), Position(to, top - bottom);
      if p.None? || q.None? { return RangeError; }
      FrameAt(Now(), p.value);
      Overwrite(q.value, slots[bottom + p.value], other);
      return Done;
    }

    /** Write a value over another: the new reference is counted before the old one is dropped. */
    method Overwrite(p: nat, v: Tval, ghost other: multiset<nat>)
      requires Now().Ready(h.refs, other) && p < top - bottom
      modifies slots, h`refs
      ensures old(Now()).Becomes(Now(), h.refs, other, old(Now().Frame())[p := v])
    {
      hide *;
      ghost var x, refs := Now(), h.refs;
      Stays(x, refs, other);
      FrameAt(x, p);
      OneIsCounted(x, p, refs, other);
      var was := slots[bottom + p];
      h.Incref(v);
      WriteSlot(p, v);
      StillThere(RefOf(was), refs, RefOf(v));
      var _ := h.Decref(was);
      CopyLaw(x, p, v, refs, h.refs, other);
    }

    /** Take a value out. */
    method Remove(idx: int, ghost other: multiset<nat>) returns (r: Result)
      requires Now().Ready(h.refs, other)
      modifies this`top, slots, h`refs
      ensures var f := old(Now().Frame());
              var p := Position(idx, |f|);
              && r == (if p.Some? then Done else RangeError)
              && old(Now()).Becomes(Now(), h.refs, other, if r.Done? then Removed(f, p.value, 1) else f)
    {
      hide *;
      Stays(Now(), h.refs, other);
      var p := Position(idx, top - bottom);
      if p.None? { return RangeError; }
      TakeOut(p.value, other);
      return Done;
    }

    /** Take the value at 'p' out: its reference is dropped when the stack is in order again. */
    method TakeOut(p: nat, ghost other: multiset<nat>)
      requires Now().Ready(h.refs, other) && p < top - bottom
      modifies this`top, slots, h`refs
      ensures old(Now()).Becomes(Now(), h.refs, other, Removed(old(Now().Frame()), p, 1))
    {
      hide *;
      ghost var x, refs := Now(), h.refs;
      Stays(x, refs, other);
      OneIsCounted(x, p, refs, other);
      SpanOne(x, bottom + p);
      var was := slots[bottom + p];
      CloseFrame(p, 1);
      var _ := h.Decref(was);
      RemoveLaw(x, p, 1, refs, h.refs, other);
    }

    /** Take 'n' values out from 'p' on: their references are dropped before the rest moves down. */
    method RemoveN(p: nat, n: nat, ghost other: multiset<nat>)
      requires Now().Ready(h.refs, other) && p + n <= top - bottom
      modifies this`top, slots, h`refs
      ensures old(Now()).Becomes(Now(), h.refs, other, Removed(old(Now().Frame()), p, n))
    {
      hide *;
      ghost var x, refs := Now(), h.refs;
      Stays(x, refs, other);
      HeldIsCounted(x, p, n, refs, other);
      DropRange(bottom + p, bottom + p + n);
      RemoveLaw(x, p, n, refs, h.refs, other);
      CloseFrame(p, n);
    }

    /** Put 'n' undefined values in before 'p'; the caller has made sure that there is room. */
    method InsertUndefinedN(p: nat, n: nat, ghost other: multiset<nat>)
      requires Now().Ready(h.refs, other) && p <= top - bottom && n <= end - top
      modifies this`top, slots
      ensures old(Now()).Becomes(Now(), h.refs, other, Widened(old(Now().Frame()), p, Undefineds(n)))
    {
      hide *;
      Stays(Now(), h.refs, other);
      RefsUndefined(Undefineds(n));
      WidenLaw(Now(), p, Undefineds(n), h.refs, other);
      assert h.refs + multiset{} == h.refs;
      OpenFrame(p, n);
    }

    /** Pop the top value into an index. */
    method Replace(to: int, ghost other: multiset<nat>) returns (r: Result)
      requires Now().Ready(h.refs, other)
      modifies this`top, slots, h`refs
      ensures var f := old(Now().Frame());
              var p := Position(to, |f|);
              && r == (if p.Some? then Done else RangeError)
              && old(Now()).Becomes(Now(), h.refs, other, if r.Done? then f[p.value := f[|f| - 1]][..|f| - 1] else f)
    {
      hide *;
      Stays(Now(), h.refs, other);
      var p := Position(to, top - bottom);
      if p.None? { return RangeError; }
      Drop(p.value, other);
      return Done;
    }

    /** Pop the top value over that at 'p'. */
    method Drop(p: nat, ghost other: multiset<nat>)
      requires Now().Ready(h.refs, other) && p < top - bottom
      modifies this`top, slots, h`refs
      ensures var f := old(Now().Frame()); old(Now()).Becomes(Now(), h.refs, other, f[p := f[|f| - 1]][..|f| - 1])
    {
      hide *;
      ghost var x, refs := Now(), h.refs;
      Stays(x, refs, other);
      OneIsCounted(x, p, refs, other);
      var was := slots[bottom + p];
      PopOver(p);
      var _ := h.Decref(was);
      ReplaceLaw(x, p, refs, h.refs, other);
    }

    // ---------- packing ----------

    /** The top value over the 'n' values before it, whose slots are wiped. */
    method PackSlots(p: nat, n: nat)
      requires bottom + p + n + 1 == top <= slots.Length
      modifies this`top, slots
      ensures Now() == RemovePicture(old(Now()), p, n)
    {
      var at := bottom + p;
      PackedSlots(slots[..], at, n, top);
      hide Wiped, Closed;
      Store(slots, at, slots[top - 1]);
      Wipe(slots, at + 1, top);
      top := at + 1;
    }

    /** Move the top 'count' values into a new array object 'id': their references move with them uncounted. */
    method Pack(count: int, id: nat, ghost other: multiset<nat>) returns (r: Result)
      requires Now().Ready(h.refs, other) && -0x8000_0000 <= count < 0x8000_0000
      requires h.refs[id] == 0 && id !in h.arrays && (0 <= count <= top - bottom ==> top < end)
      modifies this`top, slots, h`refs, h`arrays
      ensures r == if 0 <= count <= old(top - bottom) then Done else RangeError
      ensures r.Done? ==>
                var f := old(Now().Frame());
                var vs := f[|f| - count..];
                && h.arrays == old(h.arrays)[id := vs] && h.refs[id] == 1
                && old(Now()).Becomes(Now(), h.refs, other + Refs(vs), f[..|f| - count] + [Ref(id)])
      ensures r.RangeError? ==> Now() == old(Now()) && h.refs == old(h.refs) && h.arrays == old(h.arrays)
    {
      hide *;
      Stays(Now(), h.refs, other);
      UnsignedAbove(count, top - bottom);
      if Unsigned(count) > top - bottom { return RangeError; }
      PackTop(top - bottom - count, count, id, other);
      return Done;
    }

    method PackTop(p: nat, n: nat, id: nat, ghost other: multiset<nat>)
      requires Now().Ready(h.refs, other) && bottom + p + n == top < end && h.refs[id] == 0
      modifies this`top, slots, h`refs, h`arrays
      ensures h.arrays == old(h.arrays)[id := old(Now().Frame())[p..]] && h.refs[id] == 1
      ensures var f := old(Now().Frame());
              old(Now()).Becomes(Now(), h.refs, other + Refs(f[p..]), f[..p] + [Ref(id)])
    {
      hide *;
      ghost var x := Now();
      Stays(x, h.refs, other);
      OneMore(h.refs, id);
      var _ := Push(Ref(id), other);
      PackLaw(x, Now(), Ref(id), p, n, h.refs, other);
      var vs := slots[top - n - 1..top - 1];
      PackedValues(slots, Now(), top - n - 1, top - 1);
      PackSlots(p, n);
      h.arrays := h.arrays[id := vs];
    }

    // ---------- growing and shrinking ----------

    /** Reallocate to 'n' slots: a new array with what fits of the old one, and new slots set to undefined.
        An allocation may fail, which changes nothing. */
    method Resize(n: nat, allocOk: bool) returns (ok: bool)
      requires Now().Valid() && end <= n <= VALSTACK_LIMIT
      modifies this`slots
      ensures ok == allocOk
      ensures if ok then fresh(slots) && Now() == ResizedPicture(old(Now()), n) else slots == old(slots) && Now() == old(Now())
    {
      if !allocOk { return false; }
      var a := new Tval[n];
      Reallocate(slots, a);
      slots := a;
      return true;
    }

    /** Grow the allocation for a reserve of 'min' slots, with a proportional slack when one is configured. */
    method Grow(min: nat, growShift: Option<nat>, allocOk: bool, ghost other: multiset<nat>) returns (ok: bool)
      requires Now().Ready(h.refs, other) && min > slots.Length
      modifies this`slots, this`end
      ensures ok == (Slack(min, growShift) <= VALSTACK_LIMIT && allocOk)
      ensures ok ==> fresh(slots) && end == min && Now().Grown(old(Now()), h.refs, other)
      ensures !ok ==> slots == old(slots) && Now() == old(Now())
    {
      var newSize := Slack(min, growShift);
      if newSize > VALSTACK_LIMIT || newSize < min { return false; }
      ghost var x := Now();
      ok := Resize(newSize, allocOk);
      if ok {
        ReserveLaw(x, newSize, min, h.refs, other);
        end := min;
        assert Now() == ResizedPicture(x, newSize).(e := min);
      }
    }

    /** Make the reserve at least 'min' slots: it may be there, or be allocated already, or have to be allocated. */
    method GrowCheck(min: nat, growShift: Option<nat>, allocOk: bool, ghost other: multiset<nat>) returns (ok: bool)
      requires Now().Ready(h.refs, other)
      modifies this`slots, this`end
      ensures ok == (min <= old(slots.Length) || (Slack(min, growShift) <= VALSTACK_LIMIT && allocOk))
      ensures ok ==> end >= min && Now().Grown(old(Now()), h.refs, other)
      ensures slots == old(slots) || fresh(slots)
      ensures !ok ==> slots == old(slots) && Now() == old(Now())
    {
      if end >= min { return true; }
      if slots.Length >= min {
        end := min;
        return true;
      }
      ok := Grow(min, growShift, allocOk, other);
    }

    /** Ask for room for 'extra' more values; the internal extra comes on top. */
    method CheckStack(extra: int, growShift: Option<nat>, allocOk: bool, ghost other: multiset<nat>) returns (ok: bool)
      requires Now().Ready(h.refs, other)
      modifies this`slots, this`end
      ensures var min := old(top) + Clamped(extra) + INTERNAL_EXTRA;
              ok == (min <= old(slots.Length) || (Slack(min, growShift) <= VALSTACK_LIMIT && allocOk))
      ensures ok ==> end - top >= extra && end - top >= INTERNAL_EXTRA && Now().Grown(old(Now()), h.refs, other)
      ensures slots == old(slots) || fresh(slots)
      ensures !ok ==> slots == old(slots) && Now() == old(Now())
    {
      SlackIsMore(top + Clamped(extra) + INTERNAL_EXTRA, growShift);
      ok := GrowCheck(top + Clamped(extra) + INTERNAL_EXTRA, growShift, allocOk, other);
    }

    /** Give unused slots back, but never those of the reserve: without a check shift, or when snug, all of
        them; otherwise nothing unless a large enough share would be freed, and all but a slack if so. */
    method ShrinkCheck(snug: bool, checkShift: Option<nat>, slackShift: Option<nat>, tvalSize: nat, allocOk: bool, ghost other: multiset<nat>)
      requires Now().Ready(h.refs, other) && tvalSize > 0
      modifies this`slots
      ensures end <= slots.Length <= old(slots.Length) && end == old(end) && Now().Grown(old(Now()), h.refs, other)
      ensures slots == old(slots) || fresh(slots)
      ensures var all := checkShift.None? || snug;
              var alloc := InBytes(old(slots.Length), tvalSize);
              var enough := all || alloc - InBytes(end, tvalSize) >= ShiftRight(alloc, checkShift.value);
              var slack := if all || slackShift.None? then 0 else InSlots(ShiftRight(alloc, slackShift.value), tvalSize);
              slots.Length == if allocOk && enough && end + slack < old(slots.Length) then end + slack else old(slots.Length)
    {
      GrownSame(Now(), h.refs, other);
      Stays(Now(), h.refs, other);
      hide *;
      var alloc, reserve := InBytes(slots.Length, tvalSize), InBytes(end, tvalSize);
      var size := end;
      if checkShift.Some? && !snug {
        if alloc - reserve < ShiftRight(alloc, checkShift.value) { return; }
        if slackShift.Some? {
          size := end + InSlots(ShiftRight(alloc, slackShift.value), tvalSize);
        }
      }
      if size >= slots.Length { return; }
      Shrink(size, allocOk, other);
    }

    method Shrink(n: nat, allocOk: bool, ghost other: multiset<nat>)
      requires Now().Ready(h.refs, other) && end <= n <= slots.Length
      modifies this`slots
      ensures slots.Length == (if allocOk then n else old(slots.Length)) && Now().Grown(old(Now()), h.refs, other)
      ensures slots == old(slots) || fresh(slots)
    {
      ghost var x := Now();
      ReserveLaw(x, n, end, h.refs, other);
      assert ResizedPicture(x, n).(e := end) == ResizedPicture(x, n);
      hide Refs;
      var _ := Resize(n, allocOk);
    }

    /** Push values one after the other, in room that a check has made. */
    method PushAll(vs: seq<Tval>, ghost other: multiset<nat>)
      requires Now().Ready(h.refs, other) && |vs| <= end - top
      modifies this`top, slots, h`refs
      ensures old(Now()).Becomes(Now(), h.refs, other, old(Now().Frame()) + vs)
    {
      hide *;
      ghost var x := Now();
      Stays(x, h.refs, other);
      assert x.Frame() + vs[..0] == x.Frame();
      for i := 0 to |vs|
        invariant top == old(top) + i && slots == old(slots) && x.Becomes(Now(), h.refs, other, x.Frame() + vs[..i])
      {
        PushNext(vs[i], x, x.Frame() + vs[..i], other);
        assert x.Frame() + vs[..i] + [vs[i]] == x.Frame() + vs[..i + 1];
      }
      assert vs[..|vs|] == vs;
    }

    /** One more push in room that is known to be there. */
    method PushNext(v: Tval, ghost x: Picture, ghost f: seq<Tval>, ghost other: multiset<nat>)
      requires x.Becomes(Now(), h.refs, other, f) && top < end
      modifies this`top, slots, h`refs
      ensures x.Becomes(Now(), h.refs, other, f + [v]) && top == old(top) + 1
    {
      hide *;
      BecomesNext(x, Now(), h.refs, other, f);
      ghost var y := Now();
      var r := Push(v, other);
      BecomesTwice(x, y, Now(), h.refs, other, f + [v]);
    }

    /** After a check for room succeeded, that many pushes succeed. */
    method CheckThenPush(vs: seq<Tval>, growShift: Option<nat>, allocOk: bool, ghost other: multiset<nat>) returns (ok: bool)
      requires Now().Ready(h.refs, other)
      modifies this`top, this`slots, this`end, slots, h`refs
      ensures ok == (old(top) + Clamped(|vs|) + INTERNAL_EXTRA <= old(slots.Length)
                     || (Slack(old(top) + Clamped(|vs|) + INTERNAL_EXTRA, growShift) <= VALSTACK_LIMIT && allocOk))
      ensures Now().Ready(h.refs, other)
      ensures Now().Frame() == if ok then old(Now().Frame()) + vs else old(Now().Frame())
    {
      ok := CheckStack(|vs|, growShift, allocOk, other);
      if ok {
        PushAll(vs, other);
      }
    }
  }

  // ---------- two stacks ----------

  /** Copy a stretch of one array to another. */
  method CopySlots(to: array<Tval>, at: nat, from: array<Tval>, lo: nat, n: nat)
    requires to != from && at + n <= to.Length && lo + n <= from.Length
    modifies to
    ensures to[..] == Patched(old(to[..]), at, from[lo..lo + n])
  {
    ghost var m := to[..];
    for i := 0 to n
      invariant forall k {:trigger to[k]} :: 0 <= k < to.Length ==> to[k] == if at <= k < at + i then from[lo + (k - at)] else m[k]
    {
      to[at + i] := from[lo + i];
    }
    assert to[..] == Patched(m, at, from[lo..lo + n]);
  }

  /** Both stacks are sound, and every count is the references from both and from elsewhere. */
  ghost predicate BothReady(x: Picture, y: Picture, refs: multiset<nat>, other: multiset<nat>)
  {
    y.Valid() && x.Ready(refs, y.Held() + other)
  }

  /** The top 'n' values of y's frame are on x's frame too, and gone from y's unless they were copied; both stacks
      are sound, and nothing else in them has changed. */
  ghost predicate Transferred(x: Picture, y: Picture, x1: Picture, y1: Picture, refs: multiset<nat>, other: multiset<nat>, n: int, isCopy: bool)
  {
    && x.b <= x.t <= |x.s| && y.b <= y.t <= |y.s| && 0 <= n <= |y.Frame()|
    && BothReady(x1, y1, refs, other) && x1.Keeps(x) && y1.Keeps(y)
    && var k := |y.Frame()| - n;
       x1.Frame() == x.Frame() + y.Frame()[k..] && y1.Frame() == if isCopy then y.Frame() else y.Frame()[..k]
  }

  /** Put values on a stack's top, as they lie in another's slots; nothing is counted. */
  method AppendSlots(to: Stack, from: array<Tval>, lo: nat, n: nat)
    requires to.slots != from && to.top + n <= to.slots.Length && lo + n <= from.Length
    modifies to`top, to.slots
    ensures to.Now() == AppendPicture(old(to.Now()), from[lo..lo + n]) && to.top == old(to.top) + n
  {
    hide Patched;
    CopySlots(to.slots, to.top, from, lo, n);
    to.top := to.top + n;
  }

  /** Copy or move the top 'count' values of one stack to another on the same heap.  A copy is counted; a move
      changes no count. */
  method XCopyMove(to: Stack, from: Stack, count: int, isCopy: bool, ghost other: multiset<nat>) returns (r: Result)
    requires to.h == from.h && (to != from ==> to.slots != from.slots) && -0x8000_0000 <= count < 0x8000_0000
    requires to != from ==> BothReady(to.Now(), from.Now(), to.h.refs, other)
    modifies to`top, to.slots, from`top, from.slots, to.h`refs
    ensures r == if to == from then TypeError
                 else if count == 0 || (0 < count <= VALSTACK_LIMIT && count <= old(to.end - to.top) && count <= old(from.top - from.bottom))
                 then Done else RangeError
    ensures r != Done ==> to.Now() == old(to.Now()) && from.Now() == old(from.Now()) && to.h.refs == old(to.h.refs)
    ensures r == Done ==> Transferred(old(to.Now()), old(from.Now()), to.Now(), from.Now(), to.h.refs, other, count, isCopy)
    ensures r == Done && !isCopy ==> to.h.refs == old(to.h.refs)
  {
    hide *;
    if to == from { return TypeError; }
    UnsignedAboveLimit(count);
    if Unsigned(count) > VALSTACK_LIMIT { return RangeError; }
    NothingMoved(to.Now(), from.Now(), to.h.refs, other);
    if count == 0 { return Done; }
    if to.end - to.top < count { return RangeError; }
    if from.top - count < from.bottom { return RangeError; }
    if isCopy {
      CopyTop(to, from, count, other);
    } else {
      MoveTop(to, from, count, other);
    }
    return Done;
  }

  lemma NothingMoved(x: Picture, y: Picture, refs: multiset<nat>, other: multiset<nat>)
    requires BothReady(x, y, refs, other)
    ensures Transferred(x, y, x, y, refs, other, 0, true) && Transferred(x, y, x, y, refs, other, 0, false)
    ensures x.b <= x.t <= x.e <= |x.s| <= VALSTACK_LIMIT && y.b <= y.t <= y.e <= |y.s| <= VALSTACK_LIMIT
  {
    hide Refs;
    assert y.Frame()[|y.Frame()|..] == [] && y.Frame()[..|y.Frame()|] == y.Frame();
    assert x.Frame() + [] == x.Frame();
  }

  method CopyTop(to: Stack, from: Stack, n: nat, ghost other: multiset<nat>)
    requires to.h == from.h && to != from && to.slots != from.slots && BothReady(to.Now(), from.Now(), to.h.refs, other)
    requires n <= to.end - to.top && n <= from.top - from.bottom
    modifies to`top, to.slots, to.h`refs
    ensures Transferred(old(to.Now()), old(from.Now()), to.Now(), from.Now(), to.h.refs, other, n, true)
  {
    hide *;
    ghost var x, y := to.Now(), from.Now();
    NothingMoved(x, y, to.h.refs, other);
    CopyTopLaw(x, y, n, to.h.refs, other);
    PackedValues(from.slots, y, from.top - n, from.top);
    AppendSlots(to, from.slots, from.top - n, n);
    ghost var z := to.Now();
    to.h.IncrefRange(to.slots, to.top - n, to.top);
    PackedValues(to.slots, z, to.top - n, to.top);
  }

  method MoveTop(to: Stack, from: Stack, n: nat, ghost other: multiset<nat>)
    requires to.h == from.h && to != from && to.slots != from.slots && BothReady(to.Now(), from.Now(), to.h.refs, other)
    requires n <= to.end - to.top && n <= from.top - from.bottom
    modifies to`top, to.slots, from`top, from.slots
    ensures Transferred(old(to.Now()), old(from.Now()), to.Now(), from.Now(), to.h.refs, other, n, false)
  {
    hide *;
    ghost var x, y := to.Now(), from.Now();
    NothingMoved(x, y, to.h.refs, other);
    MoveTopLaw(x, y, n, to.h.refs, other);
    PackedValues(from.slots, y, from.top - n, from.top);
    AppendSlots(to, from.slots, from.top - n, n);
    from.WipeFrom(from.top - from.bottom - n);
  }

  /** Appending a stack's top values to another, and counting them, keeps both sound. */
  lemma CopyTopLaw(x: Picture, y: Picture, n: nat, refs: multiset<nat>, other: multiset<nat>)
    requires BothReady(x, y, refs, other) && n <= x.e - x.t && n <= y.t - y.b
    ensures var vs := y.s[y.t - n..y.t];
            var z := AppendPicture(x, vs);
            Transferred(x, y, z, y, refs + Refs(vs), other, n, true) && z.s[z.t - n..z.t] == vs
  {
    hide Refs, Patched;
    var vs := y.s[y.t - n..y.t];
    AppendLaw(x, vs, refs, y.Held() + other);
    assert y.Frame()[|y.Frame()| - n..] == vs;
    AppendedSlots(x, vs);
  }

  /** Moving a stack's top values to another keeps both sound with the counts as they are. */
  lemma MoveTopLaw(x: Picture, y: Picture, n: nat, refs: multiset<nat>, other: multiset<nat>)
    requires BothReady(x, y, refs, other) && n <= x.e - x.t && n <= y.t - y.b
    ensures var k := y.t - y.b - n;
            var vs := y.s[y.t - n..y.t];
            var z, w := AppendPicture(x, vs), TruncatePicture(y, k);
            Transferred(x, y, z, w, refs, other, n, false)
  {
    hide Refs, Patched, Wiped, Less, Covers;
    var k := y.t - y.b - n;
    var part := y.Span(y.b + k, y.t);
    assert |y.Frame()| == k + n;
    Exchanged(x, y, refs, other);
    HeldIsCounted(y, k, n, refs, x.Held() + other);
    Taken(refs, part);
    TruncateLaw(y, k, refs, refs - part, x.Held() + other);
    var w := TruncatePicture(y, k);
    Exchanged(w, x, refs - part, other);
    var vs := y.s[y.t - n..y.t];
    assert part == Refs(vs);
    AppendLaw(x, vs, refs - part, w.Held() + other);
    SameSum(refs, part);
    assert y.Frame()[|y.Frame()| - n..] == vs;
  }

  function Clamped(extra: int): nat
  {
    if extra < 0 then 0 else if extra > VALSTACK_LIMIT then VALSTACK_LIMIT else extra
  }

  function Distance(a: int, b: int): nat
  {
    if a <= b then b - a else a - b
  }

  /** A number of extra values stands for the nearest one that the size limit allows. */
  lemma ClampedMeans(extra: int)
    ensures Clamped(extra) <= VALSTACK_LIMIT
    ensures forall k :: 0 <= k <= VALSTACK_LIMIT ==> Distance(Clamped(extra), extra) <= Distance(k, extra)
  {
  }

  function ShiftRight(n: nat, k: nat): nat
  {
    if k == 0 then n else ShiftRight(n / 2, k - 1)
  }

  /** Slots in bytes, and the slots that fit in bytes. */
  function InBytes(n: nat, tvalSize: nat): nat
  {
    if n == 0 then 0 else InBytes(n - 1, tvalSize) + tvalSize
  }

  function InSlots(bytes: nat, tvalSize: nat): nat
    requires tvalSize > 0
  {
    if bytes < tvalSize then 0 else 1 + InSlots(bytes - tvalSize, tvalSize)
  }

  /** 2 to the power 'k'. */
  function Pow2(k: nat): (n: nat)
    ensures n > 0
  {
    if k == 0 then 1 else 2 * Pow2(k - 1)
  }

  /** Shifting right by 'k' divides by 2 to the power 'k' and drops the remainder. */
  lemma {:induction false} ShiftDivides(n: nat, k: nat)
    ensures ShiftRight(n, k) * Pow2(k) <= n < (ShiftRight(n, k) + 1) * Pow2(k)
  {
    if k > 0 {
      ShiftDivides(n / 2, k - 1);
      Halved(n, ShiftRight(n / 2, k - 1), Pow2(k - 1));
    }
  }

  lemma Halved(n: nat, q: nat, w: nat)
    requires q * w <= n / 2 < (q + 1) * w
    ensures q * (2 * w) <= n < (q + 1) * (2 * w)
  {
    var x, y := q * w, (q + 1) * w;
    assert q * (2 * w) == 2 * x;
    assert (q + 1) * (2 * w) == 2 * y;
  }

  /** Slots and bytes are converted by the size of a slot, rounding down. */
  lemma {:induction false} BytesPerSlot(n: nat, tvalSize: nat)
    requires tvalSize > 0
    ensures InBytes(n, tvalSize) == n * tvalSize
    ensures InSlots(n, tvalSize) * tvalSize <= n < (InSlots(n, tvalSize) + 1) * tvalSize
  {
    if n > 0 {
      BytesPerSlot(n - 1, tvalSize);
      assert n * tvalSize == (n - 1) * tvalSize + tvalSize;
    }
    if n >= tvalSize {
      BytesPerSlot(n - tvalSize, tvalSize);
      var q := InSlots(n - tvalSize, tvalSize);
      assert (1 + q) * tvalSize == q * tvalSize + tvalSize && (2 + q) * tvalSize == (q + 1) * tvalSize + tvalSize;
    }
  }

  /** A size with its slack. */
  function Slack(min: nat, growShift: Option<nat>): nat
  {
    min + (if growShift.Some? then ShiftRight(min, growShift.value) else 0)
  }

  lemma SlackIsMore(min: nat, growShift: Option<nat>)
    ensures Slack(min, growShift) >= min
  {
  }

  /** Without a configured shift there is no slack, and with one it is the size divided by a power of two. */
  lemma SlackMeans(min: nat, growShift: Option<nat>)
    ensures growShift.None? ==> Slack(min, growShift) == min
    ensures growShift.Some? ==>
              var slack, n := Slack(min, growShift) - min, Pow2(growShift.value); slack * n <= min < (slack + 1) * n
  {
    if growShift.Some? { ShiftDivides(min, growShift.value); }
    hide ShiftRight, Pow2;
  }

  /** Out-of-range indices stay out of range when the unsigned sum wraps. */
  lemma WrappedTop(idx: int, size: nat, limit: nat)
    requires -0x8000_0000 <= idx < 0x8000_0000 && size <= limit <= VALSTACK_LIMIT
    ensures var u := if idx < 0 then (size + idx) % UINT_VALUES else idx;
            var n := if idx < 0 then size + idx else idx;
            (u > limit <==> !(0 <= n <= limit)) && (u <= limit ==> u == n)
  {
    if idx < 0 && size + idx < 0 {
      assert (size + idx) % UINT_VALUES == size + idx + UINT_VALUES;
    }
  }

  lemma PackedValues(a: array<Tval>, x: Picture, lo: nat, hi: nat)
    requires lo <= hi <= a.Length == |x.s| && forall i :: 0 <= i < a.Length ==> x.s[i] == a[i]
    ensures a[lo..hi] == x.s[lo..hi]
  {
  }

  lemma StillThere(one: multiset<nat>, all: multiset<nat>, more: multiset<nat>)
    requires Covers(all, one)
    ensures Covers(all + more, one)
  {
  }
}
