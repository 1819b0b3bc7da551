/**
 The order that sort() works with: the caller's comparator or the byte order of coerced strings, with
 undefined values after all others and holes after everything.
 */
module SortOrder {
  import opened Wrappers
  import opened SparseArray

  /** A comparator gives a number, or None for NaN; it may depend on how often it was called before. */
  datatype Comparator =
    | Callback(fn: (nat, int, int) -> Option<real>)
    | Default(text: int -> seq<int>)

  /** The sign of a comparator's result. */
  function Sign(d: Option<real>): int
  {
    if d.Some? && d.value < 0.0 then -1 else if d.Some? && d.value > 0.0 then 1 else 0
  }

  // ---------- the default order ----------

  /** The first difference of two byte strings within their first 'n' bytes, as a sign. */
  function MemCompare(a: seq<int>, b: seq<int>, n: nat): (r: int)
    requires n <= |a| && n <= |b|
  {
    if n == 0 then 0
    else if a[0] != b[0] then (if a[0] < b[0] then -1 else 1)
    else MemCompare(a[1..], b[1..], n - 1)
  }

  function DataCompare(a: seq<int>, b: seq<int>): int
  {
    var n := if |a| <= |b| then |a| else |b|;
    var rc := MemCompare(a, b, n);
    if rc != 0 then rc else if |a| < |b| then -1 else if |a| > |b| then 1 else 0
  }

  lemma DataCompareStep(a: seq<int>, b: seq<int>)
    requires a != [] && b != []
    ensures DataCompare(a, b) == if a[0] < b[0] then -1 else if a[0] > b[0] then 1 else DataCompare(a[1..], b[1..])
  {
  }

  lemma {:induction false} DataCompareFlip(a: seq<int>, b: seq<int>)
    ensures DataCompare(a, b) == -DataCompare(b, a)
  {
    if a != [] && b != [] {
      DataCompareStep(a, b);
      DataCompareStep(b, a);
      DataCompareFlip(a[1..], b[1..]);
    }
  }

  lemma {:induction false} DataCompareTransitive(a: seq<int>, b: seq<int>, c: seq<int>)
    requires DataCompare(a, b) <= 0 && DataCompare(b, c) <= 0
    ensures DataCompare(a, c) <= 0
  {
    if a != [] && b != [] && c != [] {
      DataCompareStep(a, b);
      DataCompareStep(b, c);
      DataCompareStep(a, c);
      if a[0] == b[0] == c[0] {
        DataCompareTransitive(a[1..], b[1..], c[1..]);
      }
    }
  }

  /** The first place at which two strings differ, or the end of the shorter, decides for the first of them. */
  ghost predicate Precedes(a: seq<int>, b: seq<int>)
  {
    exists k: nat :: PrecedesAt(a, b, k)
  }

  predicate PrecedesAt(a: seq<int>, b: seq<int>, k: nat)
  {
    k <= |a| && k <= |b| && a[..k] == b[..k] && ((k == |a| && k < |b|) || (k < |a| && k < |b| && a[k] < b[k]))
  }

  lemma PrecedesStep(a: seq<int>, b: seq<int>)
    requires a != [] && b != []
    ensures Precedes(a, b) <==> a[0] < b[0] || (a[0] == b[0] && Precedes(a[1..], b[1..]))
  {
    if a[0] < b[0] { assert PrecedesAt(a, b, 0); }
    if a[0] == b[0] && Precedes(a[1..], b[1..]) {
      var k: nat :| PrecedesAt(a[1..], b[1..], k);
      assert a[..k + 1] == [a[0]] + a[1..][..k] && b[..k + 1] == [b[0]] + b[1..][..k];
      assert PrecedesAt(a, b, k + 1);
    }
    if Precedes(a, b) && !(a[0] < b[0]) {
      var k: nat :| PrecedesAt(a, b, k);
      assert a[..k][0] == a[0] && b[..k][0] == b[0];
      assert a[1..][..k - 1] == a[..k][1..] && b[1..][..k - 1] == b[..k][1..];
      assert PrecedesAt(a[1..], b[1..], k - 1);
    }
  }

  lemma PrecedesEmpty(a: seq<int>, b: seq<int>)
    requires a == [] || b == []
    ensures Precedes(a, b) <==> a == [] && b != []
  {
    if a == [] && b != [] { assert PrecedesAt(a, b, 0); }
  }

  /** The comparison is the lexicographic order of bytes, in which a proper prefix comes first. */
  lemma {:induction false} DataCompareIsLexicographic(a: seq<int>, b: seq<int>)
    ensures DataCompare(a, b) < 0 <==> Precedes(a, b)
    ensures DataCompare(a, b) == 0 <==> a == b
  {
    hide Precedes, PrecedesAt;
    if a == [] || b == [] {
      PrecedesEmpty(a, b);
    } else {
      DataCompareStep(a, b);
      PrecedesStep(a, b);
      hide DataCompare;
      DataCompareIsLexicographic(a[1..], b[1..]);
      assert a == [a[0]] + a[1..] && b == [b[0]] + b[1..];
    }
  }

  // ---------- slots ----------

  /** The verdict on two defined values at the comparator's 't'-th call. */
  function Rank(c: Comparator, t: nat, x: int, y: int): int
  {
    match c
    case Callback(fn) => Sign(fn(t, x, y))
    case Default(text) => DataCompare(text(x), text(y))
  }

  /** The verdict on two slots. */
  function SlotRank(c: Comparator, t: nat, x: Slot, y: Slot): int
  {
    if x.None? || y.None? then
      (if x.Some? then -1 else if y.Some? then 1 else 0)
    else if x.value.Undefined? || y.value.Undefined? then
      (if x.value.Defined? then -1 else if y.value.Defined? then 1 else 0)
    else Rank(c, t, x.value.n, y.value.n)
  }

  /** The comparator is a total preorder that does not change from call to call. */
  ghost predicate Consistent(c: Comparator)
  {
    && (forall t: nat, x, y :: Rank(c, t, x, y) == Rank(c, 0, x, y))
    && (forall x, y :: Rank(c, 0, x, y) == -Rank(c, 0, y, x))
    && (forall x, y, z :: Rank(c, 0, x, y) <= 0 && Rank(c, 0, y, z) <= 0 ==> Rank(c, 0, x, z) <= 0)
  }

  predicate Leq(c: Comparator, x: Slot, y: Slot)
  {
    SlotRank(c, 0, x, y) <= 0
  }

  /** The byte order of strings is consistent, whatever the coercion gives. */
  lemma {:induction false} DefaultIsConsistent(text: int -> seq<int>)
    ensures Consistent(Default(text))
  {
    var c := Default(text);
    forall x, y ensures Rank(c, 0, x, y) == -Rank(c, 0, y, x) {
      DataCompareFlip(text(x), text(y));
    }
    forall x, y, z | Rank(c, 0, x, y) <= 0 && Rank(c, 0, y, z) <= 0 ensures Rank(c, 0, x, z) <= 0 {
      DataCompareTransitive(text(x), text(y), text(z));
    }
  }

  lemma SlotRankFlip(c: Comparator, t: nat, x: Slot, y: Slot)
    requires Consistent(c)
    ensures SlotRank(c, t, x, y) == SlotRank(c, 0, x, y) == -SlotRank(c, 0, y, x)
  {
    if x.Some? && y.Some? && x.value.Defined? && y.value.Defined? {
      assert Rank(c, t, x.value.n, y.value.n) == Rank(c, 0, x.value.n, y.value.n);
    }
  }

  lemma LeqTransitive(c: Comparator, x: Slot, y: Slot, z: Slot)
    requires Consistent(c) && Leq(c, x, y) && Leq(c, y, z)
    ensures Leq(c, x, z)
  {
  }

  // ---------- sorted sequences ----------

  /** Every slot is no greater than every later one, in s[lo..end]. */
  ghost predicate Sorted(c: Comparator, s: seq<Slot>, lo: int, end: int)
    requires 0 <= lo && end <= |s|
  {
    forall i, j :: lo <= i < j < end ==> Leq(c, s[i], s[j])
  }

  /** What a comparator's caller means by 'x' not coming after 'y': the callback's result is not positive, or
      the strings are equal or in byte order. */
  ghost predicate NotAfter(c: Comparator, x: int, y: int)
  {
    match c
    case Callback(fn) => fn(0, x, y).None? || fn(0, x, y).value <= 0.0
    case Default(text) => text(x) == text(y) || Precedes(text(x), text(y))
  }

  /** Each slot stays behind those before it: nothing but holes behind a hole, no defined value behind an
      undefined one, and defined values in the comparator's order. */
  ghost predicate Ascending(c: Comparator, s: seq<Slot>)
  {
    forall i, j :: 0 <= i < j < |s| ==>
      && (s[i].None? ==> s[j].None?)
      && (s[i] == Some(Undefined) ==> s[j] in {None, Some(Undefined)})
      && (s[i].Some? && s[i].value.Defined? && s[j].Some? && s[j].value.Defined? ==> NotAfter(c, s[i].value.n, s[j].value.n))
  }

  lemma LeqMeans(c: Comparator, x: int, y: int)
    requires Leq(c, Some(Defined(x)), Some(Defined(y)))
    ensures NotAfter(c, x, y)
  {
    if c.Default? { DataCompareIsLexicographic(c.text(x), c.text(y)); }
    hide DataCompare, Precedes;
  }

  lemma {:induction false} SortedMeans(c: Comparator, s: seq<Slot>)
    requires Sorted(c, s, 0, |s|)
    ensures Ascending(c, s)
  {
    hide NotAfter, Rank;
    forall i, j | 0 <= i < j < |s| && s[i].Some? && s[i].value.Defined? && s[j].Some? && s[j].value.Defined?
      ensures NotAfter(c, s[i].value.n, s[j].value.n)
    {
      LeqMeans(c, s[i].value.n, s[j].value.n);
    }
  }

  /** 0 for a defined value, 1 for undefined, 2 for a hole. */
  function Kind(x: Slot): int
  {
    if x.None? then 2 else if x.value.Undefined? then 1 else 0
  }

  /** Defined values in s[..d], undefined ones in s[d..u], holes from 'u' on. */
  ghost predicate Layout(s: seq<Slot>, d: int, u: int)
  {
    && 0 <= d <= u <= |s|
    && forall k :: 0 <= k < |s| ==> if k < d then s[k].Some? && s[k].value.Defined? else s[k] == if k < u then Some(Undefined) else None
  }

  /** The first index from 'from' on whose kind is above 'kind'. */
  lemma FirstAbove(c: Comparator, s: seq<Slot>, from: int, kind: int) returns (d: int)
    requires Sorted(c, s, 0, |s|) && 0 <= from <= |s|
    ensures from <= d <= |s|
    ensures forall k :: from <= k < |s| ==> (k < d <==> Kind(s[k]) <= kind)
  {
    d := from;
    while d < |s| && Kind(s[d]) <= kind
      invariant from <= d <= |s| && forall k :: from <= k < d ==> Kind(s[k]) <= kind
    {
      d := d + 1;
    }
    forall k | d <= k < |s| ensures Kind(s[k]) > kind {
      assert d < k ==> Leq(c, s[d], s[k]);
    }
  }

  /** A sorted sequence holds the defined values first, then the undefined ones, then the holes. */
  lemma {:induction false} SortedLayout(c: Comparator, s: seq<Slot>) returns (d: int, u: int)
    requires Sorted(c, s, 0, |s|)
    ensures Layout(s, d, u)
  {
    d := FirstAbove(c, s, 0, 0);
    u := FirstAbove(c, s, d, 1);
  }

  /** 't' is 's' with the slots of [lo, end) permuted. */
  ghost predicate Rearranged(s: seq<Slot>, t: seq<Slot>, lo: int, end: int)
  {
    && 0 <= lo <= end <= |s| == |t|
    && s[..lo] == t[..lo] && s[end..] == t[end..]
    && multiset(s[lo..end]) == multiset(t[lo..end])
  }

  lemma RearrangedElsewhere(s: seq<Slot>, t: seq<Slot>, lo: int, end: int, k: int)
    requires Rearranged(s, t, lo, end) && 0 <= k < |s| && !(lo <= k < end)
    ensures s[k] == t[k]
  {
    if k < lo {
      assert s[k] == s[..lo][k] == t[..lo][k];
    } else {
      assert s[k] == s[end..][k - end] == t[end..][k - end];
    }
  }

  /** What holds of every slot of a range still holds after it is permuted. */
  lemma RearrangedOrigin(s: seq<Slot>, t: seq<Slot>, lo: int, end: int, k: int) returns (j: int)
    requires Rearranged(s, t, lo, end) && lo <= k < end
    ensures lo <= j < end && t[k] == s[j]
  {
    assert t[k] == t[lo..end][k - lo];
    assert t[k] in multiset(t[lo..end]);
    assert t[k] in s[lo..end];
    var i :| 0 <= i < |s[lo..end]| && s[lo..end][i] == t[k];
    j := lo + i;
  }

  lemma RearrangedWiden(s: seq<Slot>, t: seq<Slot>, lo: int, end: int, lo0: int, end0: int)
    requires Rearranged(s, t, lo, end) && 0 <= lo0 <= lo && end <= end0 <= |s|
    ensures Rearranged(s, t, lo0, end0)
  {
    assert s[lo0..end0] == s[..lo][lo0..] + s[lo..end] + s[end..][..end0 - end];
    assert t[lo0..end0] == t[..lo][lo0..] + t[lo..end] + t[end..][..end0 - end];
    assert s[..lo0] == s[..lo][..lo0] && t[..lo0] == t[..lo][..lo0];
    assert s[end0..] == s[end..][end0 - end..] && t[end0..] == t[end..][end0 - end..];
  }

  lemma RearrangedTwice(s: seq<Slot>, t: seq<Slot>, u: seq<Slot>, lo: int, end: int)
    requires Rearranged(s, t, lo, end) && Rearranged(t, u, lo, end)
    ensures Rearranged(s, u, lo, end)
  {
  }

  lemma CutAt(s: seq<Slot>, l: int, r: int, lo: int, end: int)
    requires 0 <= lo <= l < r < end <= |s|
    ensures s[lo..end] == s[lo..l] + [s[l]] + s[l + 1..r] + [s[r]] + s[r + 1..end]
  {
  }

  /** Where a swap changes nothing. */
  lemma SwapKeeps(s: seq<Slot>, l: int, r: int, lo: int, end: int)
    requires 0 <= lo <= l < r < end <= |s|
    ensures var t := s[l := s[r]][r := s[l]];
            && t[..lo] == s[..lo] && t[end..] == s[end..]
            && t[lo..l] == s[lo..l] && t[l + 1..r] == s[l + 1..r] && t[r + 1..end] == s[r + 1..end]
            && t[l] == s[r] && t[r] == s[l]
  {
  }

  lemma SwapInside(s: seq<Slot>, t: seq<Slot>, l: int, r: int, lo: int, end: int)
    requires 0 <= lo <= l < r < end <= |s| == |t| && t[l] == s[r] && t[r] == s[l]
    requires t[lo..l] == s[lo..l] && t[l + 1..r] == s[l + 1..r] && t[r + 1..end] == s[r + 1..end]
    ensures multiset(s[lo..end]) == multiset(t[lo..end])
  {
    CutAt(s, l, r, lo, end);
    CutAt(t, l, r, lo, end);
    SwappedMultiset(s[lo..l], s[l], s[l + 1..r], s[r], s[r + 1..end]);
  }

  lemma SwapRearranges(s: seq<Slot>, l: int, r: int, lo: int, end: int)
    requires 0 <= lo <= l <= r < end <= |s|
    ensures Rearranged(s, s[l := s[r]][r := s[l]], lo, end)
  {
    if l < r {
      SwapKeeps(s, l, r, lo, end);
      SwapInside(s, s[l := s[r]][r := s[l]], l, r, lo, end);
    } else {
      assert s[l := s[r]][r := s[l]] == s;
    }
  }

  lemma SwappedMultiset(a: seq<Slot>, x: Slot, b: seq<Slot>, y: Slot, c: seq<Slot>)
    ensures multiset(a + [x] + b + [y] + c) == multiset(a + [y] + b + [x] + c)
  {
  }
}

/** sort(): an in-place quicksort with a random pivot, over an array with holes. */
module ArraySort {
  import opened Wrappers
  import opened SparseArray
  import opened SortOrder

  function Scaled(x: real, n: real): (y: real)
    requires 0.0 <= x < 1.0 && 0.0 < n
    ensures 0.0 <= y < n
  {
    x * n
  }

  /** A random number in [0, 1) picks an index inside the range. */
  function PickPivot(x: real, lo: nat, hi: nat): (p: nat)
    requires 0.0 <= x < 1.0 && lo <= hi
    ensures lo <= p <= hi
  {
    hide Scaled;
    lo + Scaled(x, (hi - lo + 1) as real).Floor
  }

  /** Compare the slots at two indices; 'calls' counts the comparator's calls. */
  method Compare(a: Array, c: Comparator, i: nat, j: nat, calls: nat) returns (ret: int, used: nat)
    requires a.Valid() && i < a.length && j < a.length
    ensures calls <= used <= calls + 1 && (i == j ==> ret == 0)
    ensures i != j ==> ret == SlotRank(c, calls, a.Slots()[i], a.Slots()[j])
  {
    used := calls;
    if i == j { return 0, used; }
    var haveI, x := a.Get(i);
    var haveJ, y := a.Get(j);
    if haveI {
      if !haveJ { return -1, used; }
    } else {
      if haveJ { return 1, used; } else { return 0, used; }
    }
    if x.Undefined? {
      if y.Undefined? { return 0, used; } else { return 1, used; }
    } else if y.Undefined? {
      return -1, used;
    }
    if c.Callback? {
      used := calls + 1;
      ret := Sign(c.fn(calls, x.n, y.n));
    } else {
      ret := DataCompare(c.text(x.n), c.text(y.n));
    }
  }

  /** Every slot of (lo, l) is no greater than the pivot at 'lo', and every slot of (r, hi] no less. */
  ghost predicate Split(c: Comparator, s: seq<Slot>, lo: int, l: int, r: int, hi: int)
    requires 0 <= lo < |s| && hi < |s|
  {
    && (forall k :: lo < k < l && k < |s| ==> Leq(c, s[k], s[lo]))
    && (forall k :: lo <= r < k <= hi ==> Leq(c, s[lo], s[k]))
  }

  /** Skip the slots below the pivot from the left. */
  method ScanRight(a: Array, c: Comparator, lo: nat, from: nat, r: nat, hi: nat, calls: nat) returns (l: nat, used: nat)
    requires a.Valid() && lo < from <= hi < a.length && lo <= r
    requires Consistent(c) ==> Split(c, a.Slots(), lo, from, r, hi)
    ensures from <= l <= hi
    ensures Consistent(c) ==> Split(c, a.Slots(), lo, l, r, hi) && (l >= hi || Leq(c, a.Slots()[lo], a.Slots()[l]))
  {
    l, used := from, calls;
    while true
      invariant from <= l <= hi
      invariant Consistent(c) ==> Split(c, a.Slots(), lo, l, r, hi)
      decreases hi - l
    {
      if l >= hi { break; }
      var t := used;
      var ret;
      ret, used := Compare(a, c, l, lo, used);
      if Consistent(c) {
        SlotRankFlip(c, t, a.Slots()[l], a.Slots()[lo]);
      }
      if ret >= 0 { break; }
      l := l + 1;
    }
  }

  /** Skip the slots above the pivot from the right. */
  method ScanLeft(a: Array, c: Comparator, lo: nat, l: nat, from: nat, hi: nat, calls: nat) returns (r: nat, used: nat)
    requires a.Valid() && lo <= from <= hi < a.length && lo < l <= hi
    requires Consistent(c) ==> Split(c, a.Slots(), lo, l, from, hi)
    ensures lo <= r <= from
    ensures Consistent(c) ==> Split(c, a.Slots(), lo, l, r, hi) && (r <= lo || Leq(c, a.Slots()[r], a.Slots()[lo]))
  {
    r, used := from, calls;
    while true
      invariant lo <= r <= from
      invariant Consistent(c) ==> Split(c, a.Slots(), lo, l, r, hi)
      decreases r
    {
      if r <= lo { break; }
      var t := used;
      var ret;
      ret, used := Compare(a, c, lo, r, used);
      if Consistent(c) {
        SlotRankFlip(c, t, a.Slots()[lo], a.Slots()[r]);
      }
      if ret >= 0 { break; }
      r := r - 1;
    }
  }

  lemma SplitAtStart(c: Comparator, s: seq<Slot>, lo: int, hi: int)
    requires 0 <= lo < hi < |s|
    ensures Split(c, s, lo, lo + 1, hi, hi)
  {
  }

  lemma SplitAfterSwap(c: Comparator, s: seq<Slot>, lo: int, l: int, r: int, hi: int)
    requires 0 <= lo < l < r <= hi < |s| && Split(c, s, lo, l, r, hi)
    requires Leq(c, s[lo], s[l]) && Leq(c, s[r], s[lo])
    ensures Split(c, s[l := s[r]][r := s[l]], lo, l + 1, r - 1, hi)
  {
    hide Leq;
  }

  /** The slot at 'r' separates [lo, r) from (r, hi]. */
  ghost predicate Parted(c: Comparator, s: seq<Slot>, lo: int, r: int, hi: int)
    requires 0 <= lo <= r <= hi < |s|
  {
    && (forall k :: lo <= k < r ==> Leq(c, s[k], s[r]))
    && (forall k :: r < k <= hi ==> Leq(c, s[r], s[k]))
  }

  lemma PartedAfterSwap(c: Comparator, s: seq<Slot>, lo: int, l: int, r: int, hi: int)
    requires 0 <= lo < l <= hi < |s| && lo <= r <= hi && l >= r && Split(c, s, lo, l, r, hi)
    requires r <= lo || Leq(c, s[r], s[lo])
    ensures Parted(c, s[lo := s[r]][r := s[lo]], lo, r, hi)
  {
    hide Leq;
  }

  /** Swap two slots of a range. */
  method SwapWithin(a: Array, l: nat, r: nat, ghost lo: nat, ghost hi: nat)
    requires a.Valid() && lo <= l <= r <= hi < a.length
    modifies a
    ensures a.Valid() && a.length == old(a.length)
    ensures a.Slots() == old(a.Slots())[l := old(a.Slots())[r]][r := old(a.Slots())[l]]
    ensures Rearranged(old(a.Slots()), a.Slots(), lo, hi + 1)
  {
    SwapRearranges(a.Slots(), l, r, lo, hi + 1);
    a.Swap(l, r);
  }

  /** Swap a slot not below the pivot with a later one not above it. */
  method SwapStep(a: Array, ghost c: Comparator, lo: nat, l: nat, r: nat, ghost hi: nat, ghost s0: seq<Slot>)
    requires a.Valid() && lo < l < r <= hi < a.length && Rearranged(s0, a.Slots(), lo, hi + 1)
    requires Consistent(c) ==>
               Split(c, a.Slots(), lo, l, r, hi) && Leq(c, a.Slots()[lo], a.Slots()[l]) && Leq(c, a.Slots()[r], a.Slots()[lo])
    modifies a
    ensures a.Valid() && a.length == old(a.length)
    ensures Rearranged(s0, a.Slots(), lo, hi + 1)
    ensures Consistent(c) ==> Split(c, a.Slots(), lo, l + 1, r - 1, hi)
  {
    hide *;
    ghost var s := a.Slots();
    if Consistent(c) {
      SplitAfterSwap(c, s, lo, l, r, hi);
    }
    SwapWithin(a, l, r, lo, hi);
    RearrangedTwice(s0, s, a.Slots(), lo, hi + 1);
  }

  /** Move the pivot to its final place. */
  method PlacePivot(a: Array, ghost c: Comparator, lo: nat, ghost l: nat, r: nat, ghost hi: nat, ghost s0: seq<Slot>)
    requires a.Valid() && lo < l <= hi < a.length && lo <= r <= hi && l >= r && Rearranged(s0, a.Slots(), lo, hi + 1)
    requires Consistent(c) ==> Split(c, a.Slots(), lo, l, r, hi) && (r <= lo || Leq(c, a.Slots()[r], a.Slots()[lo]))
    modifies a
    ensures a.Valid() && a.length == old(a.length)
    ensures Rearranged(s0, a.Slots(), lo, hi + 1)
    ensures Consistent(c) ==> Parted(c, a.Slots(), lo, r, hi)
  {
    hide *;
    ghost var s := a.Slots();
    if Consistent(c) {
      PartedAfterSwap(c, s, lo, l, r, hi);
    }
    SwapWithin(a, lo, r, lo, hi);
    RearrangedTwice(s0, s, a.Slots(), lo, hi + 1);
  }

  /** Partition a[lo..hi] around a pivot, which ends at 'r'. */
  method Partition(a: Array, c: Comparator, rand: nat -> real, lo: nat, hi: nat, calls: nat, draws: nat)
    returns (r: nat, used: nat)
    requires a.Valid() && lo < hi < a.length && forall k: nat :: 0.0 <= rand(k) < 1.0
    modifies a
    ensures a.Valid() && a.length == old(a.length) && lo <= r <= hi
    ensures Rearranged(old(a.Slots()), a.Slots(), lo, hi + 1)
    ensures Consistent(c) ==> Parted(c, a.Slots(), lo, r, hi)
  {
    hide *;
    ghost var s0 := a.Slots();
    var p := PickPivot(rand(draws), lo, hi);
    SwapWithin(a, lo, p, lo, hi);
    SplitAtStart(c, a.Slots(), lo, hi);
    var l: int := lo + 1;
    r, used := hi, calls;
    while true
      invariant a.Valid() && a.length == old(a.length)
      invariant lo < l <= hi && lo <= r <= hi && l <= r + 1
      invariant Rearranged(s0, a.Slots(), lo, hi + 1)
      invariant Consistent(c) ==> Split(c, a.Slots(), lo, l, r, hi)
      decreases r - l + 1
    {
      var from := l;
      l, used := ScanRight(a, c, lo, l, r, hi, used);
      r, used := ScanLeft(a, c, lo, l, r, hi, used);
      if l >= r { break; }
      SwapStep(a, c, lo, l, r, hi, s0);
      l := l + 1;
      r := r - 1;
    }
    PlacePivot(a, c, lo, l, r, hi, s0);
  }

  /** Rearranging both sides of a separating slot leaves it separating. */
  lemma PartedKept(c: Comparator, s: seq<Slot>, s1: seq<Slot>, s2: seq<Slot>, lo: int, r: int, hi: int)
    requires 0 <= lo <= r <= hi < |s| && Parted(c, s, lo, r, hi)
    requires Rearranged(s, s1, lo, r) && Rearranged(s1, s2, r + 1, hi + 1)
    ensures |s2| == |s1| == |s| && Parted(c, s2, lo, r, hi)
  {
    assert |s2| == |s1| == |s|;
    hide Rearranged, Leq;
    RearrangedElsewhere(s, s1, lo, r, r);
    RearrangedElsewhere(s1, s2, r + 1, hi + 1, r);
    forall k | lo <= k < r ensures Leq(c, s2[k], s2[r]) {
      var j := RearrangedOrigin(s, s1, lo, r, k);
      RearrangedElsewhere(s1, s2, r + 1, hi + 1, k);
    }
    forall k | r < k <= hi ensures Leq(c, s2[r], s2[k]) {
      var j := RearrangedOrigin(s1, s2, r + 1, hi + 1, k);
      RearrangedElsewhere(s, s1, lo, r, j);
    }
  }

  /** Sorting both sides of a separating slot sorts the range. */
  lemma Assembled(c: Comparator, s1: seq<Slot>, s2: seq<Slot>, lo: int, r: int, hi: int)
    requires Consistent(c) && 0 <= lo <= r <= hi < |s1| && Rearranged(s1, s2, r + 1, hi + 1)
    requires Parted(c, s2, lo, r, hi) && Sorted(c, s1, lo, r) && Sorted(c, s2, r + 1, hi + 1)
    ensures Sorted(c, s2, lo, hi + 1)
  {
    assert |s2| == |s1|;
    hide Leq, Consistent, Rearranged;
    forall k | lo <= k < r ensures s2[k] == s1[k] {
      RearrangedElsewhere(s1, s2, r + 1, hi + 1, k);
    }
    forall i, j | lo <= i < j < hi + 1 ensures Leq(c, s2[i], s2[j]) {
      if i < r && r < j {
        LeqTransitive(c, s2[i], s2[r], s2[j]);
      }
    }
  }

  lemma BothSidesSorted(c: Comparator, s0: seq<Slot>, s: seq<Slot>, s1: seq<Slot>, s2: seq<Slot>, lo: int, r: int, hi: int)
    requires 0 <= lo <= r <= hi < |s0| && Rearranged(s0, s, lo, hi + 1)
    requires Rearranged(s, s1, lo, r) && Rearranged(s1, s2, r + 1, hi + 1)
    requires Consistent(c) ==> Parted(c, s, lo, r, hi) && Sorted(c, s1, lo, r) && Sorted(c, s2, r + 1, hi + 1)
    ensures Rearranged(s0, s2, lo, hi + 1)
    ensures Consistent(c) ==> Sorted(c, s2, lo, hi + 1)
  {
    assert |s| == |s0|;
    hide Rearranged, Sorted, Parted, Consistent;
    RearrangedWiden(s, s1, lo, r, lo, hi + 1);
    RearrangedWiden(s1, s2, r + 1, hi + 1, lo, hi + 1);
    RearrangedTwice(s0, s, s1, lo, hi + 1);
    RearrangedTwice(s0, s1, s2, lo, hi + 1);
    if Consistent(c) {
      PartedKept(c, s, s1, s2, lo, r, hi);
      Assembled(c, s1, s2, lo, r, hi);
    }
  }

  lemma ShortRange(c: Comparator, s: seq<Slot>, lo: int, hi: int)
    requires 0 <= lo && lo - 1 <= hi < |s| && hi - lo < 1
    ensures Rearranged(s, s, lo, hi + 1) && Sorted(c, s, lo, hi + 1)
  {
  }

  /** Sort a[lo..hi]; 'hi' may be below 'lo'.  Any comparator leaves a permutation, and a consistent one
      leaves it sorted, whatever pivots are drawn. */
  method QSort(a: Array, c: Comparator, rand: nat -> real, lo: nat, hi: int, calls: nat, draws: nat)
    returns (used: nat, drawn: nat)
    requires a.Valid() && lo - 1 <= hi < a.length && forall k: nat :: 0.0 <= rand(k) < 1.0
    modifies a
    ensures a.Valid() && a.length == old(a.length)
    ensures Rearranged(old(a.Slots()), a.Slots(), lo, hi + 1)
    ensures Consistent(c) ==> Sorted(c, a.Slots(), lo, hi + 1)
    decreases hi - lo + 1
  {
    hide *;
    used, drawn := calls, draws;
    ghost var s0 := a.Slots();
    if hi - lo < 1 {
      ShortRange(c, s0, lo, hi);
      return;
    }
    var r: int;
    r, used := Partition(a, c, rand, lo, hi, used, drawn);
    ghost var s := a.Slots();
    used, drawn := QSort(a, c, rand, lo, r - 1, used, drawn + 1);
    ghost var s1 := a.Slots();
    used, drawn := QSort(a, c, rand, r + 1, hi, used, drawn);
    BothSidesSorted(c, s0, s, s1, a.Slots(), lo, r, hi);
  }

  /** The length limit of the signed indices is an error that changes nothing. */
  method Sort(a: Array, c: Comparator, rand: nat -> real) returns (ok: bool)
    requires a.Valid() && forall k: nat :: 0.0 <= rand(k) < 1.0
    modifies a
    ensures a.Valid() && a.length == old(a.length) && ok == (a.length < 0x8000_0000)
    ensures !ok ==> a.Slots() == old(a.Slots())
    ensures multiset(a.Slots()) == multiset(old(a.Slots()))
    ensures ok && Consistent(c) ==> Sorted(c, a.Slots(), 0, a.length) && Ascending(c, a.Slots())
  {
    hide Ascending;
    if a.length >= 0x8000_0000 { return false; }
    if a.length > 0 {
      ghost var s0 := a.Slots();
      var _, _ := QSort(a, c, rand, 0, a.length - 1, 0, 0);
      assert s0[0..a.length] == s0 && a.Slots()[0..a.length] == a.Slots();
    }
    if Consistent(c) { SortedMeans(c, a.Slots()); }
    return true;
  }
}
