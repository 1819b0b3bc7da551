/**
 Arrays with holes, and the built-ins that move elements inside one array: reverse, shift, unshift
 and splice.  An array has own index properties only; an absent index is a hole.
 */
module SparseArray {
  import opened Wrappers

  datatype Value = Undefined | Defined(n: int)

  /** An array position: a value, or None for a hole. */
  type Slot = Option<Value>

  /** What a property table holds at an index. */
  function SlotOf(props: map<nat, Value>, k: nat): Slot
  {
    if k in props then Some(props[k]) else None
  }

  /** The first 'n' slots of a property table. */
  function SlotsOf(props: map<nat, Value>, n: nat): (s: seq<Slot>)
    ensures |s| == n && forall k :: 0 <= k < n ==> s[k] == SlotOf(props, k)
  {
    seq(n, k requires 0 <= k < n => SlotOf(props, k))
  }

  class Array {
    var props: map<nat, Value>
    var length: nat

    /** The array has no index at or above its length. */
    ghost predicate Valid()
      reads this
    {
      forall k: nat :: k >= length ==> SlotOf(props, k) == None
    }

    /** The array as a sequence of slots. */
    function Slots(): (s: seq<Slot>)
      reads this
      ensures |s| == length
    {
      SlotsOf(props, length)
    }

    constructor ()
      ensures Valid() && Slots() == [] && length == 0 && forall k: nat :: SlotOf(props, k) == None
    {
      props, length := map[], 0;
    }

    method Get(k: nat) returns (have: bool, v: Value)
      ensures have == SlotOf(props, k).Some? && v == Content(SlotOf(props, k))
    {
      have := k in props;
      v := if have then props[k] else Undefined;
    }

    /** Writing an index at or above the length raises the length. */
    method Put(k: nat, v: Value)
      requires Valid()
      modifies this
      ensures Valid() && forall j: nat :: SlotOf(props, j) == if j == k then Some(v) else SlotOf(old(props), j)
      ensures length == if k < old(length) then old(length) else k + 1
    {
      ghost var before := props;
      props := props[k := v];
      if k >= length { length := k + 1; }
      assert forall j: nat :: SlotOf(props, j) == if j == k then Some(v) else SlotOf(before, j);
    }

    method Del(k: nat)
      requires Valid()
      modifies this`props
      ensures Valid() && forall j: nat :: SlotOf(props, j) == if j == k then None else SlotOf(old(props), j)
    {
      ghost var before := props;
      props := props - {k};
      assert forall j: nat :: SlotOf(props, j) == if j == k then None else SlotOf(before, j);
    }

    /** Writing the length removes the indices at or above it. */
    method SetLength(n: nat)
      requires Valid()
      modifies this
      ensures Valid() && length == n && forall j: nat :: SlotOf(props, j) == if j < n then SlotOf(old(props), j) else None
    {
      props := map k | k in props && k < n :: props[k];
      length := n;
    }

    /** Move one element, or the hole in its place. */
    method Move(source: nat, target: nat)
      requires Valid()
      modifies this
      ensures Valid()
      ensures forall j: nat :: SlotOf(props, j) == if j == target then SlotOf(old(props), source) else SlotOf(old(props), j)
      ensures length == if SlotOf(old(props), source).Some? && target >= old(length) then target + 1 else old(length)
    {
      var have, v := Get(source);
      if have {
        Put(target, v);
      } else {
        Del(target);
      }
    }

    /** Exchange two elements; holes are exchanged as holes. */
    method Swap(l: nat, r: nat)
      requires Valid() && l < length && r < length
      modifies this
      ensures Valid() && length == old(length)
      ensures Slots() == old(Slots())[l := old(Slots())[r]][r := old(Slots())[l]]
      ensures SlotOf(props, l) == SlotOf(old(props), r) && SlotOf(props, r) == SlotOf(old(props), l)
      ensures forall j: nat :: j != l && j != r ==> SlotOf(props, j) == SlotOf(old(props), j)
    {
      if l == r { return; }
      var haveL, vL := Get(l);
      var haveR, vR := Get(r);
      if haveR {
        Put(l, vR);
      } else {
        Del(l);
      }
      if haveL {
        Put(r, vL);
      } else {
        Del(r);
      }
    }

    // ---------- reverse ----------

    method Reverse()
      requires Valid()
      modifies this
      ensures Valid() && Slots() == Reversed(old(Slots()))
    {
      var len := length;
      var middle := len / 2;
      ghost var p0 := props;
      for lower := 0 to middle
        invariant Valid() && length == len
        invariant forall k: nat {:trigger SlotOf(props, k)} :: k < len ==>
                    SlotOf(props, k) == if k < lower || k >= len - lower then SlotOf(p0, len - 1 - k) else SlotOf(p0, k)
      {
        Swap(lower, len - lower - 1);
      }
      IsReversed(SlotsOf(p0, len), Slots());
    }

    // ---------- shift and unshift ----------

    method Shift() returns (first: Value)
      requires Valid()
      modifies this
      ensures Valid()
      ensures old(length) == 0 ==> first == Undefined && Slots() == []
      ensures old(length) > 0 ==>
                Slots() == old(Slots())[1..] && first == match old(Slots())[0] case Some(v) => v case None => Undefined
    {
      var len := length;
      if len == 0 {
        SetLength(0);
        return Undefined;
      }
      ghost var p0 := props;
      var have;
      have, first := Get(0);
      for i := 1 to len
        invariant Valid() && length == len
        invariant forall k: nat {:trigger SlotOf(props, k)} :: SlotOf(props, k) == SlotOf(p0, if k < i - 1 then k + 1 else k)
      {
        Move(i, i - 1);
      }
      Del(len - 1);
      SetLength(len - 1);
    }

    /** Prepend values; None is the length error. */
    method Unshift(items: seq<Value>) returns (newLength: Option<nat>)
      requires Valid() && length < 0x1_0000_0000 && |items| < 0x1_0000_0000
      modifies this
      ensures Valid()
      ensures old(length) + |items| >= 0x1_0000_0000 ==> newLength == None && props == old(props) && length == old(length)
      ensures old(length) + |items| < 0x1_0000_0000 ==>
                newLength == Some(length) && Slots() == Filled(items) + old(Slots())
    {
      var len, nargs := length, |items|;
      if (len + nargs) % 0x1_0000_0000 < len {
        return None;
      }
      ghost var p0 := props;
      var i := len;
      while i > 0
        invariant 0 <= i <= len && Valid() && len <= length <= len + nargs
        invariant forall k: nat {:trigger SlotOf(props, k)} :: SlotOf(props, k) == if i + nargs <= k < len + nargs then SlotOf(p0, k - nargs) else SlotOf(p0, k)
      {
        i := i - 1;
        Move(i, i + nargs);
      }
      ghost var p1 := props;
      for j := 0 to nargs
        invariant Valid() && length <= len + nargs
        invariant forall k: nat {:trigger SlotOf(props, k)} :: SlotOf(props, k) == if k < j then Some(items[k]) else SlotOf(p1, k)
      {
        Put(j, items[j]);
      }
      SetLength(len + nargs);
      newLength := Some(len + nargs);
    }

    // ---------- splice ----------

    /** Copy a segment into a new array. */
    method CopyOut(from: nat, count: nat) returns (result: Array)
      requires Valid() && from + count <= length
      ensures fresh(result) && result.Valid() && result.Slots() == Slots()[from..from + count]
    {
      result := new Array();
      for i := 0 to count
        invariant fresh(result) && result.Valid()
        invariant forall k: nat {:trigger SlotOf(result.props, k)} :: SlotOf(result.props, k) == if k < i then SlotOf(props, from + k) else None
      {
        var have, v := Get(from + i);
        if have {
          result.Put(i, v);
        }
      }
      result.SetLength(count);
    }

    /** Move the elements after a segment of 'delCount' so that 'itemCount' fit in its place; no element
        is overwritten before it is read. */
    method MakeRoom(actStart: nat, delCount: nat, itemCount: nat)
      requires Valid() && actStart + delCount <= length
      modifies this
      ensures Valid() && RoomMade(old(props), old(length), props, actStart, delCount, itemCount)
    {
      var len := length;
      ghost var p0 := props;
      if itemCount < delCount {
        for i := actStart to len - delCount
          invariant Valid() && length == len
          invariant forall k: nat {:trigger SlotOf(props, k)} :: SlotOf(props, k) ==
                      if actStart + itemCount <= k < i + itemCount then SlotOf(p0, k - itemCount + delCount) else SlotOf(p0, k)
        {
          Move(i + delCount, i + itemCount);
        }
        var n := len - delCount + itemCount;
        ghost var p1 := props;
        var i := len - 1;
        while i >= n
          invariant n - 1 <= i <= len - 1 && Valid() && length == len
          invariant forall k: nat {:trigger SlotOf(props, k)} :: SlotOf(props, k) == if i < k < len then None else SlotOf(p1, k)
        {
          Del(i);
          i := i - 1;
        }
      } else if itemCount > delCount {
        var i := len - delCount - 1;
        while i >= actStart
          invariant actStart - 1 <= i <= len - delCount - 1 && Valid() && len <= length <= len - delCount + itemCount
          invariant forall k: nat {:trigger SlotOf(props, k)} :: SlotOf(props, k) ==
                      if i + 1 + itemCount <= k < len - delCount + itemCount then SlotOf(p0, k - itemCount + delCount) else SlotOf(p0, k)
        {
          Move(i + delCount, i + itemCount);
          i := i - 1;
        }
      }
    }

    /** Write values from an index on. */
    method Insert(from: nat, items: seq<Value>)
      requires Valid()
      modifies this
      ensures Valid() && Written(old(props), props, from, items)
    {
      for i := 0 to |items|
        invariant Valid()
        invariant forall k: nat {:trigger SlotOf(props, k)} :: SlotOf(props, k) == if from <= k < from + i then Some(items[k - from]) else SlotOf(old(props), k)
      {
        Put(from + i, items[i]);
      }
    }

    /** Replace 'delCount' slots from 'actStart' on by values and return them as a new array. */
    method SpliceAt(actStart: nat, delCount: nat, items: seq<Value>) returns (result: Array)
      requires Valid() && actStart + delCount <= length
      modifies this
      ensures Valid() && fresh(result) && result.Valid()
      ensures Replaced(old(Slots()), actStart, delCount, items, result.Slots(), Slots())
    {
      hide SlotOf, SlotsOf, Filled, Replaced;
      ghost var p0 := props;
      var len := length;
      result := CopyOut(actStart, delCount);
      FillGap(actStart, delCount, items);
      ghost var s := SlotsOf(p0, len);
      assert result.Slots() == s[actStart..actStart + delCount];
    }

    /** The part of a splice behind the copy of what is removed. */
    method FillGap(actStart: nat, delCount: nat, items: seq<Value>)
      requires Valid() && actStart + delCount <= length
      modifies this
      ensures Valid()
      ensures Replaced(old(Slots()), actStart, delCount, items, old(Slots())[actStart..actStart + delCount], Slots())
    {
      hide SlotOf, SlotsOf, Filled, Replaced, RoomMade, Written;
      ghost var p0 := props;
      var len := length;
      MakeRoom(actStart, delCount, |items|);
      ghost var p1 := props;
      Insert(actStart, items);
      ghost var p2 := props;
      SetLength(len - delCount + |items|);
      Spliced(p0, len, p1, p2, props, actStart, delCount, items);
    }

    /** Replace a segment by values and return it as a new array; None is the length error.  A start below zero
        counts from the end, and both numbers are clamped to the array.  An absent delete count deletes to the
        end when 'toEnd' is configured, and nothing otherwise. */
    method Splice(start: int, deleteCount: Option<int>, toEnd: bool, items: seq<Value>) returns (removed: Option<Array>)
      requires Valid()
      modifies this
      ensures Valid()
      ensures var len := old(length);
              var from, count := ClampedStart(start, len), ClampedCount(start, deleteCount, toEnd, len);
              if len >= 0x8000_0000 || len - count + |items| > 0xffff_ffff then
                removed == None && props == old(props) && length == old(length)
              else
                && removed.Some? && fresh(removed.value) && removed.value.Valid()
                && Replaced(old(Slots()), from, count, items, removed.value.Slots(), Slots())
      ensures removed.Some? && deleteCount.Some? && 0 <= deleteCount.value ==>
                var len, count := old(length), deleteCount.value;
                && (0 <= start && start + count <= len ==>
                      Replaced(old(Slots()), start, count, items, removed.value.Slots(), Slots()))
                && (start < 0 && len + start >= 0 && start + count <= 0 ==>
                      Replaced(old(Slots()), len + start, count, items, removed.value.Slots(), Slots()))
    {
      if deleteCount.Some? && 0 <= deleteCount.value { InRangeIsItself(start, deleteCount, toEnd, length); }
      hide Replaced, Slots, ClampedStart, ClampedCount;
      var len, itemCount := length, |items|;
      if len >= 0x8000_0000 { return None; }
      var actStart := ClampedStart(start, len);
      var delCount := ClampedCount(start, deleteCount, toEnd, len);
      if len - delCount + itemCount > 0xffff_ffff { return None; }
      var result := SpliceAt(actStart, delCount, items);
      removed := Some(result);
    }
  }

  /** The slots 's', with 'count' of them from 'from' on taken out and values put in their place. */
  ghost predicate Replaced(s: seq<Slot>, from: nat, count: nat, items: seq<Value>, removed: seq<Slot>, left: seq<Slot>)
  {
    && from + count <= |s| && removed == s[from..from + count]
    && left == s[..from] + Filled(items) + s[from + count..]
  }

  /** The slots in front of a segment are as before, and those behind it have moved so that 'itemCount' fit in its
      place. */
  ghost predicate RoomMade(p0: map<nat, Value>, len: nat, p: map<nat, Value>, from: nat, delCount: nat, itemCount: nat)
  {
    && (forall k: nat :: k < from ==> SlotOf(p, k) == SlotOf(p0, k))
    && (forall k: nat :: from + itemCount <= k < len - delCount + itemCount ==> SlotOf(p, k) == SlotOf(p0, k - itemCount + delCount))
  }

  /** Values are at the indices from 'from' on, and nothing else has changed. */
  ghost predicate Written(p0: map<nat, Value>, p: map<nat, Value>, from: nat, items: seq<Value>)
  {
    forall k: nat :: SlotOf(p, k) == if from <= k < from + |items| then Some(items[k - from]) else SlotOf(p0, k)
  }

  lemma Spliced(p0: map<nat, Value>, len: nat, p1: map<nat, Value>, p2: map<nat, Value>, p: map<nat, Value>,
                from: nat, count: nat, items: seq<Value>)
    requires from + count <= len
    requires RoomMade(p0, len, p1, from, count, |items|) && Written(p1, p2, from, items)
    requires forall k: nat :: k < len - count + |items| ==> SlotOf(p, k) == SlotOf(p2, k)
    ensures var s := SlotsOf(p0, len); Replaced(s, from, count, items, s[from..from + count], SlotsOf(p, len - count + |items|))
  {
    hide SlotOf;
  }

  /** The value read at a slot. */
  function Content(s: Slot): Value
  {
    if s.Some? then s.value else Undefined
  }

  /** A relative start counted from the end when negative, clamped to the array. */
  function ClampedStart(start: int, len: nat): (r: nat)
    ensures r <= len
  {
    var n: int := len;
    var s: int := if start < -n then -n else if start > len then len else start;
    if s < 0 then len + s else s
  }

  /** What a relative start means: an index of the array, or its end, is itself; a negative one is counted
      from the end; and outside both ranges the nearest of them stands for it. */
  lemma StartMeans(start: int, len: nat)
    ensures 0 <= start <= len ==> ClampedStart(start, len) == start
    ensures 0 - len <= start < 0 ==> ClampedStart(start, len) == ClampedStart(len + start, len) == len + start
    ensures start > len ==> ClampedStart(start, len) == ClampedStart(len, len)
    ensures start < 0 - len ==> ClampedStart(start, len) == ClampedStart(0, len)
  {
  }

  function ClampedCount(start: int, deleteCount: Option<int>, toEnd: bool, len: nat): (r: nat)
    ensures ClampedStart(start, len) + r <= len
  {
    var room := len - ClampedStart(start, len);
    match deleteCount
    case Some(c) => if c < 0 then 0 else if c > room then room else c
    case None => if toEnd then room else 0
  }

  function Distance(a: int, b: int): nat
  {
    if a <= b then b - a else a - b
  }

  /** A count given by the caller is brought to the nearest number of slots that there are behind the start;
      without one it is all of them or none. */
  lemma CountMeans(start: int, deleteCount: Option<int>, toEnd: bool, len: nat)
    ensures var r, room := ClampedCount(start, deleteCount, toEnd, len), len - ClampedStart(start, len);
            && (deleteCount.Some? ==> forall k :: 0 <= k <= room ==> Distance(r, deleteCount.value) <= Distance(k, deleteCount.value))
            && (deleteCount.None? ==> r == if toEnd then room else 0)
  {
  }

  lemma InRangeIsItself(start: int, deleteCount: Option<int>, toEnd: bool, len: nat)
    requires deleteCount.Some? && 0 <= deleteCount.value
    ensures 0 <= start && start + deleteCount.value <= len ==>
              ClampedStart(start, len) == start && ClampedCount(start, deleteCount, toEnd, len) == deleteCount.value
    ensures start < 0 && len + start >= 0 && start + deleteCount.value <= 0 ==>
              ClampedStart(start, len) == len + start && ClampedCount(start, deleteCount, toEnd, len) == deleteCount.value
  {
  }

  function Filled(items: seq<Value>): (s: seq<Slot>)
    ensures |s| == |items| && forall k :: 0 <= k < |items| ==> s[k] == Some(items[k])
  {
    seq(|items|, k requires 0 <= k < |items| => Some(items[k]))
  }

  function Reversed(s: seq<Slot>): (r: seq<Slot>)
  {
    if s == [] then [] else Reversed(s[1..]) + [s[0]]
  }

  lemma {:induction false} ReversedAt(s: seq<Slot>, k: nat)
    requires k < |s|
    ensures |Reversed(s)| == |s| && Reversed(s)[k] == s[|s| - 1 - k]
  {
    if |s| > 1 { ReversedAt(s[1..], if k < |s| - 1 then k else 0); }
  }

  lemma IsReversed(s: seq<Slot>, t: seq<Slot>)
    requires |t| == |s| && forall k :: 0 <= k < |s| ==> t[k] == s[|s| - 1 - k]
    ensures t == Reversed(s)
  {
    if s == [] {
      assert t == [];
    } else {
      forall k | 0 <= k < |s| ensures |Reversed(s)| == |s| && t[k] == Reversed(s)[k] {
        ReversedAt(s, k);
      }
      ReversedAt(s, 0);
    }
  }

  lemma {:induction false} ReversedConcat(a: seq<Slot>, b: seq<Slot>)
    ensures Reversed(a + b) == Reversed(b) + Reversed(a)
  {
    if a == [] {
      assert a + b == b;
    } else {
      assert (a + b)[1..] == a[1..] + b;
      ReversedConcat(a[1..], b);
    }
  }

  /** Reversing twice changes nothing, holes included. */
  lemma {:induction false} ReverseTwice(s: seq<Slot>)
    ensures Reversed(Reversed(s)) == s
  {
    if s != [] {
      ReversedConcat(Reversed(s[1..]), [s[0]]);
      ReverseTwice(s[1..]);
      assert Reversed([s[0]]) == [s[0]];
    }
  }
}
