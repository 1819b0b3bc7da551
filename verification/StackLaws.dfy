/** A picture of a value stack, and what each primitive's writes do to it. */
module StackLaws {
  import opened Memory
  import opened StackEdits

  /** The size limit of a value stack. */
  const VALSTACK_LIMIT := 1000000

  /** The slots of a stack with its bottom, top and reserve end; the allocated end is |s|. */
  datatype Picture = Picture(s: seq<Tval>, b: nat, t: nat, e: nat) {
    /** The pointers are in order, and every slot from the top to the allocated end is undefined. */
    ghost predicate Valid()
    {
      && b <= t <= e <= |s| <= VALSTACK_LIMIT
      && forall i :: t <= i < |s| ==> s[i] == Undefined
    }

    /** The values of the current frame. */
    function Frame(): seq<Tval>
      requires b <= t <= |s|
    {
      s[b..t]
    }

    /** The references held by the slots from 'lo' up to 'hi'. */
    function Span(lo: nat, hi: nat): multiset<nat>
      requires lo <= hi <= |s|
    {
      Refs(s[lo..hi])
    }

    /** The references held by all frames. */
    function Held(): multiset<nat>
      requires b <= t <= |s|
    {
      Refs(s[..b]) + Refs(s[b..t])
    }

    /** Every reference count is the number of references from this stack and from elsewhere. */
    ghost predicate Ready(refs: multiset<nat>, other: multiset<nat>)
    {
      Valid() && refs == Held() + other
    }

    /** The next picture is as sound as this one, has the frame 'f', and keeps everything outside the frame. */
    ghost predicate Becomes(y: Picture, refs: multiset<nat>, other: multiset<nat>, f: seq<Tval>)
    {
      y.Ready(refs, other) && y.Keeps(this) && y.Frame() == f
    }

    /** Another reserve or allocation, with the same frames. */
    ghost predicate Grown(x: Picture, refs: multiset<nat>, other: multiset<nat>)
    {
      && Ready(refs, other) && x.b == b && x.t == t && b <= t <= |x.s|
      && s[..b] == x.s[..b] && Frame() == x.Frame()
    }

    /** What the primitives leave alone: the bottom, the reserve, the allocation and the frames below. */
    ghost predicate Keeps(x: Picture)
    {
      b == x.b && e == x.e && |s| == |x.s| && b <= |s| && s[..b] == x.s[..b]
    }
  }

  /** 'refs1' is 'refs' without some references. */
  ghost predicate Less(refs1: multiset<nat>, gone: multiset<nat>, refs: multiset<nat>)
  {
    refs1 + gone == refs
  }

  ghost predicate Covers(refs: multiset<nat>, part: multiset<nat>)
  {
    part <= refs
  }

  /** A picture keeps its sums when only the frame changes. */
  lemma Reframed(x: Picture, y: Picture, refs: multiset<nat>, more: multiset<nat>, less: multiset<nat>, other: multiset<nat>, refs1: multiset<nat>)
    requires x.Ready(refs, other) && y.Keeps(x) && y.Valid()
    requires Refs(y.Frame()) + less == Refs(x.Frame()) + more
    requires Less(refs1, less, refs + more)
    ensures x.Becomes(y, refs1, other, y.Frame())
  {
    hide Refs;
    SumShift(Refs(x.s[..x.b]), Refs(x.Frame()), Refs(y.Frame()), other, more, less, refs, refs1);
  }

  lemma SumShift(below: multiset<nat>, f: multiset<nat>, g: multiset<nat>, other: multiset<nat>,
                 more: multiset<nat>, less: multiset<nat>, refs: multiset<nat>, refs1: multiset<nat>)
    requires refs == below + f + other && g + less == f + more && refs1 + less == refs + more
    ensures refs1 == below + g + other
  {
    assert refs1 + less - less == refs1;
    assert below + g + other + less == below + (g + less) + other;
    assert refs + more == below + (f + more) + other;
    assert below + g + other + less - less == below + g + other;
  }

  // ---------- what the primitives write ----------

  function PushPicture(x: Picture, v: Tval): Picture
    requires x.t < |x.s|
  {
    Picture(x.s[x.t := v], x.b, x.t + 1, x.e)
  }

  /** The slot at 'q' moved down to 'at', and those between moved up by one. */
  function RotatedUp(s: seq<Tval>, at: nat, q: nat): (r: seq<Tval>)
    requires at <= q < |s|
    ensures |r| == |s|
  {
    Patched(s, at + 1, s[at..q])[at := s[q]]
  }

  /** The slot at 'at' moved up to 'q', and those between moved down by one. */
  function RotatedDown(s: seq<Tval>, at: nat, q: nat): (r: seq<Tval>)
    requires at <= q < |s|
    ensures |r| == |s|
  {
    Patched(s, at, s[at + 1..q + 1])[q := s[at]]
  }

  /** The slots behind a gap of 'n' moved down over it, and the freed ones below 't' wiped. */
  function Closed(s: seq<Tval>, at: nat, n: nat, t: nat): (r: seq<Tval>)
    requires at + n <= t <= |s|
    ensures |r| == |s|
  {
    Patched(Patched(s, at, s[at + n..t]), t - n, Undefineds(n))
  }

  /** The slots from 'at' up to 't' moved up, and the gap filled. */
  function Opened(s: seq<Tval>, at: nat, vs: seq<Tval>, t: nat): (r: seq<Tval>)
    requires at <= t && t + |vs| <= |s|
    ensures |r| == |s|
  {
    Patched(Patched(s, at + |vs|, s[at..t]), at, vs)
  }

  /** The slots from 'at' up to 't' wiped. */
  function Wiped(s: seq<Tval>, at: nat, t: nat): (r: seq<Tval>)
    requires at <= t <= |s|
    ensures |r| == |s|
  {
    Patched(s, at, Undefineds(t - at))
  }

  function InsertPicture(x: Picture, p: nat): Picture
    requires x.b + p < x.t <= |x.s|
  {
    x.(s := RotatedUp(x.s, x.b + p, x.t - 1))
  }

  function PullPicture(x: Picture, p: nat): Picture
    requires x.b + p < x.t <= |x.s|
  {
    x.(s := RotatedDown(x.s, x.b + p, x.t - 1))
  }

  function RemovePicture(x: Picture, p: nat, n: nat): Picture
    requires x.b + p + n <= x.t <= |x.s|
  {
    Picture(Closed(x.s, x.b + p, n, x.t), x.b, x.t - n, x.e)
  }

  function WidenPicture(x: Picture, p: nat, vs: seq<Tval>): Picture
    requires x.b + p <= x.t && x.t + |vs| <= |x.s|
  {
    Picture(Opened(x.s, x.b + p, vs, x.t), x.b, x.t + |vs|, x.e)
  }

  function TruncatePicture(x: Picture, n: nat): Picture
    requires x.b + n <= x.t <= |x.s|
  {
    Picture(Wiped(x.s, x.b + n, x.t), x.b, x.b + n, x.e)
  }

  function UpdatePicture(x: Picture, p: nat, v: Tval): Picture
    requires x.b + p < x.t <= |x.s|
  {
    x.(s := x.s[x.b + p := v])
  }

  function SwapPicture(x: Picture, p: nat, q: nat): Picture
    requires x.b + p < x.t <= |x.s| && x.b + q < x.t
  {
    UpdatePicture(UpdatePicture(x, p, x.s[x.b + q]), q, x.s[x.b + p])
  }

  // ---------- how that changes the frame ----------

  lemma PushShape(x: Picture, v: Tval)
    requires x.Valid() && x.t < x.e
    ensures var y := PushPicture(x, v); y.Valid() && y.Keeps(x) && y.Frame() == x.Frame() + [v]
  {
  }

  lemma InsertShape(x: Picture, p: nat)
    requires x.Valid() && x.b + p < x.t
    ensures var y := InsertPicture(x, p); y.Valid() && y.Keeps(x) && y.Frame() == Inserted(x.Frame(), p)
  {
    var y, f, g := InsertPicture(x, p), x.Frame(), Inserted(x.Frame(), p);
    assert |g| == |f|;
    forall k | 0 <= k < |g| ensures y.Frame()[k] == g[k] {
      assert y.Frame()[k] == y.s[x.b + k];
      if k > p {
        assert y.s[x.b + k] == x.s[x.b + k - 1] == f[k - 1] == f[p..|f| - 1][k - p - 1];
      }
    }
  }

  lemma PullShape(x: Picture, p: nat)
    requires x.Valid() && x.b + p < x.t
    ensures var y := PullPicture(x, p); y.Valid() && y.Keeps(x) && y.Frame() == Pulled(x.Frame(), p)
  {
    var y, g := PullPicture(x, p), Pulled(x.Frame(), p);
    assert |g| == x.t - x.b;
    forall k | 0 <= k < |g| ensures y.Frame()[k] == g[k] {
      assert y.Frame()[k] == y.s[x.b + k];
    }
  }

  lemma ClosedAt(s: seq<Tval>, at: nat, n: nat, t: nat, k: nat)
    requires at + n <= t <= |s| && k < |s|
    ensures Closed(s, at, n, t)[k] == if k < at then s[k] else if k < t - n then s[k + n] else if k < t then Undefined else s[k]
  {
    var moved := Patched(s, at, s[at + n..t]);
    assert moved[k] == if k < at then s[k] else if k < t - n then s[k + n] else s[k];
  }

  lemma RemoveShape(x: Picture, p: nat, n: nat)
    requires x.Valid() && x.b + p + n <= x.t
    ensures var y := RemovePicture(x, p, n); y.Valid() && y.Keeps(x) && y.Frame() == Removed(x.Frame(), p, n)
  {
    hide Closed;
    var y, g := RemovePicture(x, p, n), Removed(x.Frame(), p, n);
    forall k {:trigger y.s[k]} | 0 <= k < |x.s| ensures y.s[k] == if k < x.b + p then x.s[k] else if k < y.t then x.s[k + n] else Undefined {
      ClosedAt(x.s, x.b + p, n, x.t, k);
    }
    assert |g| == y.t - y.b;
    forall k | 0 <= k < |g| ensures y.Frame()[k] == g[k] {
      assert y.Frame()[k] == y.s[x.b + k];
    }
  }

  lemma WidenShape(x: Picture, p: nat, vs: seq<Tval>)
    requires x.Valid() && x.b + p <= x.t && x.t + |vs| <= x.e
    ensures var y := WidenPicture(x, p, vs); y.Valid() && y.Keeps(x) && y.Frame() == Widened(x.Frame(), p, vs)
  {
    var at := x.b + p;
    var moved := Patched(x.s, at + |vs|, x.s[at..x.t]);
    var y, g := WidenPicture(x, p, vs), Widened(x.Frame(), p, vs);
    assert |g| == y.t - y.b;
    forall k | 0 <= k < |g| ensures y.Frame()[k] == g[k] {
      assert y.Frame()[k] == y.s[x.b + k];
      if k >= p + |vs| {
        assert y.s[x.b + k] == moved[x.b + k] == x.s[x.b + k - |vs|] == x.Frame()[k - |vs|];
      } else if k < p {
        assert y.s[x.b + k] == moved[x.b + k] == x.s[x.b + k] == x.Frame()[k];
      } else {
        assert y.s[x.b + k] == vs[k - p];
      }
    }
  }

  lemma TruncateShape(x: Picture, n: nat)
    requires x.Valid() && n <= x.t - x.b
    ensures var y := TruncatePicture(x, n); y.Valid() && y.Keeps(x) && y.Frame() == x.Frame()[..n]
  {
  }

  lemma UpdateShape(x: Picture, p: nat, v: Tval)
    requires x.Valid() && x.b + p < x.t
    ensures var y := UpdatePicture(x, p, v); y.Valid() && y.Keeps(x) && y.Frame() == x.Frame()[p := v]
  {
  }

  // ---------- what the primitives keep ----------

  lemma Stays(x: Picture, refs: multiset<nat>, other: multiset<nat>)
    requires x.Ready(refs, other)
    ensures x.Becomes(x, refs, other, x.Frame())
    ensures x.b <= x.t <= x.e <= |x.s| <= VALSTACK_LIMIT && |x.Frame()| == x.t - x.b
  {
  }

  lemma FrameAt(x: Picture, p: nat)
    requires x.b + p < x.t <= |x.s|
    ensures x.Frame()[p] == x.s[x.b + p]
  {
  }

  lemma PushLaw(x: Picture, v: Tval, refs: multiset<nat>, other: multiset<nat>)
    requires x.Ready(refs, other) && x.t < x.e
    ensures var y := PushPicture(x, v); x.Becomes(y, refs + RefOf(v), other, x.Frame() + [v])
  {
    PushShape(x, v);
    hide *;
    RefsConcat(x.Frame(), [v]);
    RefsOne(v);
    Reframed(x, PushPicture(x, v), refs, RefOf(v), multiset{}, other, refs + RefOf(v));
  }

  lemma InsertLaw(x: Picture, p: nat, refs: multiset<nat>, other: multiset<nat>)
    requires x.Ready(refs, other) && x.b + p < x.t
    ensures var y := InsertPicture(x, p); x.Becomes(y, refs, other, Inserted(x.Frame(), p))
  {
    InsertShape(x, p);
    hide *;
    InsertedRefs(x.Frame(), p);
    Reframed(x, InsertPicture(x, p), refs, multiset{}, multiset{}, other, refs);
  }

  lemma PullLaw(x: Picture, p: nat, refs: multiset<nat>, other: multiset<nat>)
    requires x.Ready(refs, other) && x.b + p < x.t
    ensures var y := PullPicture(x, p); x.Becomes(y, refs, other, Pulled(x.Frame(), p))
  {
    PullShape(x, p);
    hide *;
    PulledRefs(x.Frame(), p);
    Reframed(x, PullPicture(x, p), refs, multiset{}, multiset{}, other, refs);
  }

  lemma SwapShape(x: Picture, p: nat, q: nat)
    requires x.Valid() && x.b + p < x.t && x.b + q < x.t
    ensures var y := SwapPicture(x, p, q);
            y.Valid() && y.Keeps(x) && y.Frame() == x.Frame()[p := x.Frame()[q]][q := x.Frame()[p]]
  {
    UpdateShape(x, p, x.s[x.b + q]);
    UpdateShape(UpdatePicture(x, p, x.s[x.b + q]), q, x.s[x.b + p]);
  }

  lemma SwapLaw(x: Picture, p: nat, q: nat, refs: multiset<nat>, other: multiset<nat>)
    requires x.Ready(refs, other) && x.b + p < x.t && x.b + q < x.t
    ensures var y := SwapPicture(x, p, q);
            x.Becomes(y, refs, other, x.Frame()[p := x.Frame()[q]][q := x.Frame()[p]])
  {
    SwapShape(x, p, q);
    assert |x.Frame()| == x.t - x.b;
    hide *;
    SwappedRefs(x.Frame(), p, q);
    Reframed(x, SwapPicture(x, p, q), refs, multiset{}, multiset{}, other, refs);
  }

  /** Writing a value over another: one reference more, then one less. */
  lemma CopyLaw(x: Picture, p: nat, v: Tval, refs: multiset<nat>, refs1: multiset<nat>, other: multiset<nat>)
    requires x.Ready(refs, other) && x.b + p < x.t && Less(refs1, RefOf(x.Frame()[p]), refs + RefOf(v))
    ensures var y := UpdatePicture(x, p, v); x.Becomes(y, refs1, other, x.Frame()[p := v])
  {
    UpdateShape(x, p, v);
    UpdatedRefs(x.Frame(), p, v);
    hide *;
    Reframed(x, UpdatePicture(x, p, v), refs, RefOf(v), RefOf(x.Frame()[p]), other, refs1);
  }

  lemma PartIsCounted(below: multiset<nat>, f: multiset<nat>, rest: multiset<nat>, part: multiset<nat>, other: multiset<nat>)
    requires f == rest + part
    ensures part <= below + f + other
  {
    assert below + f + other == below + rest + other + part;
  }

  /** References that a frame holds are counted. */
  lemma HeldIsCounted(x: Picture, p: nat, n: nat, refs: multiset<nat>, other: multiset<nat>)
    requires x.Ready(refs, other) && x.b + p + n <= x.t
    ensures Covers(refs, x.Span(x.b + p, x.b + p + n))
  {
    assert x.Frame()[p..p + n] == x.s[x.b + p..x.b + p + n];
    hide Refs;
    RemovedRefs(x.Frame(), p, n);
    PartIsCounted(Refs(x.s[..x.b]), Refs(x.Frame()), Refs(Removed(x.Frame(), p, n)), Refs(x.Frame()[p..p + n]), other);
  }

  lemma Single(s: seq<Tval>, i: nat)
    requires i < |s|
    ensures s[i..i + 1] == [s[i]]
  {
  }

  lemma SpanOne(x: Picture, p: nat)
    requires p < |x.s|
    ensures x.Span(p, p + 1) == RefOf(x.s[p])
  {
    Single(x.s, p);
    RefsOne(x.s[p]);
    hide Refs, RefOf;
  }

  lemma OneIsCounted(x: Picture, p: nat, refs: multiset<nat>, other: multiset<nat>)
    requires x.Ready(refs, other) && x.b + p < x.t
    ensures Covers(refs, RefOf(x.s[x.b + p]))
  {
    hide Refs, RefOf, Covers;
    HeldIsCounted(x, p, 1, refs, other);
    SpanOne(x, x.b + p);
  }

  lemma SpanOfFrame(x: Picture, p: nat, n: nat)
    requires x.b + p + n <= x.t <= |x.s|
    ensures x.Span(x.b + p, x.b + p + n) == Refs(x.Frame()[p..p + n])
  {
    hide Refs;
    assert x.Frame()[p..p + n] == x.s[x.b + p..x.b + p + n];
  }

  lemma RemoveLaw(x: Picture, p: nat, n: nat, refs: multiset<nat>, refs1: multiset<nat>, other: multiset<nat>)
    requires x.Ready(refs, other) && x.b + p + n <= x.t
    requires Less(refs1, x.Span(x.b + p, x.b + p + n), refs)
    ensures var y := RemovePicture(x, p, n); x.Becomes(y, refs1, other, Removed(x.Frame(), p, n))
  {
    SpanOfFrame(x, p, n);
    RemoveShape(x, p, n);
    hide *;
    RemovedRefs(x.Frame(), p, n);
    Reframed(x, RemovePicture(x, p, n), refs, multiset{}, x.Span(x.b + p, x.b + p + n), other, refs1);
  }

  lemma WidenLaw(x: Picture, p: nat, vs: seq<Tval>, refs: multiset<nat>, other: multiset<nat>)
    requires x.Ready(refs, other) && x.b + p <= x.t && x.t + |vs| <= x.e
    ensures var y := WidenPicture(x, p, vs); x.Becomes(y, refs + Refs(vs), other, Widened(x.Frame(), p, vs))
  {
    WidenShape(x, p, vs);
    hide *;
    WidenedRefs(x.Frame(), p, vs);
    Reframed(x, WidenPicture(x, p, vs), refs, Refs(vs), multiset{}, other, refs + Refs(vs));
  }

  /** Values put on the top. */
  function AppendPicture(x: Picture, vs: seq<Tval>): Picture
    requires x.t + |vs| <= |x.s|
  {
    Picture(Patched(x.s, x.t, vs), x.b, x.t + |vs|, x.e)
  }

  lemma AppendedSlots(x: Picture, vs: seq<Tval>)
    requires x.t + |vs| <= |x.s|
    ensures AppendPicture(x, vs).s[x.t..x.t + |vs|] == vs
  {
    assert |x.s[..x.t]| == x.t;
  }

  lemma AppendShape(x: Picture, vs: seq<Tval>)
    requires x.Valid() && x.t + |vs| <= x.e
    ensures var y := AppendPicture(x, vs); y.Valid() && y.Keeps(x) && y.Frame() == x.Frame() + vs
  {
    var y := AppendPicture(x, vs);
    assert y.s[x.b..x.t] == x.s[x.b..x.t];
    assert y.s[x.t..x.t + |vs|] == vs;
    assert y.Frame() == y.s[x.b..x.t] + y.s[x.t..x.t + |vs|];
  }

  lemma AppendLaw(x: Picture, vs: seq<Tval>, refs: multiset<nat>, other: multiset<nat>)
    requires x.Ready(refs, other) && x.t + |vs| <= x.e
    ensures x.Becomes(AppendPicture(x, vs), refs + Refs(vs), other, x.Frame() + vs)
  {
    AppendShape(x, vs);
    hide *;
    RefsConcat(x.Frame(), vs);
    Reframed(x, AppendPicture(x, vs), refs, Refs(vs), multiset{}, other, refs + Refs(vs));
  }

  lemma TruncateLaw(x: Picture, n: nat, refs: multiset<nat>, refs1: multiset<nat>, other: multiset<nat>)
    requires x.Ready(refs, other) && n <= x.t - x.b && Less(refs1, x.Span(x.b + n, x.t), refs)
    ensures var y := TruncatePicture(x, n); x.Becomes(y, refs1, other, x.Frame()[..n])
  {
    assert x.Frame() == x.Frame()[..n] + x.s[x.b + n..x.t];
    TruncateShape(x, n);
    assert x.Span(x.b + n, x.t) == Refs(x.s[x.b + n..x.t]);
    hide *;
    RefsConcat(x.Frame()[..n], x.s[x.b + n..x.t]);
    Reframed(x, TruncatePicture(x, n), refs, multiset{}, x.Span(x.b + n, x.t), other, refs1);
  }

  /** The top raised over slots that are undefined already. */
  lemma ExtendLaw(x: Picture, k: nat, refs: multiset<nat>, other: multiset<nat>)
    requires x.Ready(refs, other) && x.t + k <= x.e
    ensures var y := x.(t := x.t + k);
            x.Becomes(y, refs, other, x.Frame() + Undefineds(k))
  {
    var y := x.(t := x.t + k);
    assert y.Frame() == x.Frame() + Undefineds(k);
    assert y.Keeps(x) && y.Valid();
    RefsUndefined(Undefineds(k));
    hide *;
    RefsConcat(x.Frame(), Undefineds(k));
    Reframed(x, y, refs, multiset{}, multiset{}, other, refs);
  }

  /** The top value over that at 'p', and its slot wiped. */
  function ReplacePicture(x: Picture, p: nat): Picture
    requires x.b + p < x.t <= |x.s|
  {
    Picture(x.s[x.b + p := x.s[x.t - 1]][x.t - 1 := Undefined], x.b, x.t - 1, x.e)
  }

  lemma ReplaceShape(x: Picture, p: nat)
    requires x.Valid() && x.b + p < x.t
    ensures var y, f := ReplacePicture(x, p), x.Frame();
            y.Valid() && y.Keeps(x) && y.Frame() == f[p := f[|f| - 1]][..|f| - 1]
  {
    var y, f := ReplacePicture(x, p), x.Frame();
    var g := f[p := f[|f| - 1]][..|f| - 1];
    assert |g| == y.t - y.b;
    forall k | 0 <= k < |g| ensures y.Frame()[k] == g[k] {
      assert y.Frame()[k] == y.s[x.b + k];
    }
  }

  /** Replacing drops exactly the reference of the value written over. */
  lemma ReplaceLaw(x: Picture, p: nat, refs: multiset<nat>, refs1: multiset<nat>, other: multiset<nat>)
    requires x.Ready(refs, other) && x.b + p < x.t && Less(refs1, RefOf(x.s[x.b + p]), refs)
    ensures x.Becomes(ReplacePicture(x, p), refs1, other, x.Frame()[p := x.Frame()[|x.Frame()| - 1]][..|x.Frame()| - 1])
  {
    ReplaceShape(x, p);
    hide *;
    FrameAt(x, p);
    ReplacedRefs(x.Frame(), p);
    Reframed(x, ReplacePicture(x, p), refs, multiset{}, RefOf(x.s[x.b + p]), other, refs1);
  }

  lemma ReplacedRefs(f: seq<Tval>, p: nat)
    requires p < |f|
    ensures Refs(f[p := f[|f| - 1]][..|f| - 1]) + RefOf(f[p]) == Refs(f)
  {
    hide Refs, RefOf;
    var n := |f| - 1;
    var g := f[p := f[n]];
    UpdatedRefs(f, p, f[n]);
    assert g == g[..n] + [f[n]];
    RefsConcat(g[..n], [f[n]]);
    RefsOne(f[n]);
    SumSwap(Refs(g[..n]), RefOf(f[n]), RefOf(f[p]));
    SumCancel(Refs(f), Refs(g), Refs(g[..n]) + RefOf(f[p]), RefOf(f[p]), RefOf(f[n]));
  }

  /** The slots cut or extended by undefined ones. */
  function Resized(s: seq<Tval>, n: nat): (r: seq<Tval>)
    ensures |r| == n
  {
    if n <= |s| then s[..n] else s + Undefineds(n - |s|)
  }

  function ResizedPicture(x: Picture, n: nat): Picture
  {
    x.(s := Resized(x.s, n))
  }

  /** A reallocation that leaves the used slots in place, and a new reserve within it, keep every frame. */
  lemma ReserveLaw(x: Picture, n: nat, e: nat, refs: multiset<nat>, other: multiset<nat>)
    requires x.Ready(refs, other) && x.t <= e <= n <= VALSTACK_LIMIT
    ensures ResizedPicture(x, n).(e := e).Grown(x, refs, other)
  {
    var y := ResizedPicture(x, n).(e := e);
    assert y.s[..y.b] == x.s[..x.b];
    assert y.Frame() == x.Frame();
    hide Refs;
  }

  lemma GrownSame(x: Picture, refs: multiset<nat>, other: multiset<nat>)
    requires x.Ready(refs, other)
    ensures x.Grown(x, refs, other)
  {
    hide Refs;
  }

  lemma BecomesNext(x: Picture, y: Picture, refs: multiset<nat>, other: multiset<nat>, f: seq<Tval>)
    requires x.Becomes(y, refs, other, f)
    ensures y.Ready(refs, other) && y.Keeps(x) && y.b <= y.t <= |y.s| && y.Frame() == f
  {
    hide Refs;
  }

  lemma BecomesTwice(x: Picture, y: Picture, z: Picture, refs: multiset<nat>, other: multiset<nat>, f: seq<Tval>)
    requires y.Becomes(z, refs, other, f) && y.Keeps(x)
    ensures x.Becomes(z, refs, other, f)
  {
    hide Refs;
  }

  /** Counts of references that something else holds may be booked there. */
  lemma Rebooked(x: Picture, refs: multiset<nat>, more: multiset<nat>, other: multiset<nat>)
    requires x.Ready(refs, other)
    ensures x.Ready(refs + more, other + more)
  {
    hide Refs;
    assert x.Held() + (other + more) == x.Held() + other + more;
  }

  /** With two stacks on one heap, each is ready when the other's references are booked as held elsewhere. */
  lemma Exchanged(x: Picture, y: Picture, refs: multiset<nat>, other: multiset<nat>)
    requires y.Valid() && x.Ready(refs, y.Held() + other)
    ensures y.Ready(refs, x.Held() + other)
  {
    hide Refs;
    assert x.Held() + (y.Held() + other) == y.Held() + (x.Held() + other);
  }

  // ---------- packing ----------

  lemma PackedSlots(s: seq<Tval>, at: nat, n: nat, t: nat)
    requires at + n < t <= |s| && t == at + n + 1
    ensures Wiped(s[at := s[t - 1]], at + 1, t) == Closed(s, at, n, t)
  {
    var a, b := Wiped(s[at := s[t - 1]], at + 1, t), Closed(s, at, n, t);
    var moved := Patched(s, at, s[at + n..t]);
    forall k | 0 <= k < |s| ensures a[k] == b[k] {
      if k < at {
        assert b[k] == moved[k] == s[k];
      } else if k == at {
        assert b[k] == moved[k] == s[at + n];
      } else if k < t {
        assert b[k] == Undefined;
      } else {
        assert b[k] == moved[k] == s[k];
      }
    }
  }

  lemma OneMore(refs: multiset<nat>, id: nat)
    requires refs[id] == 0
    ensures (refs + RefOf(Ref(id)))[id] == 1
  {
  }

  lemma Taken(refs: multiset<nat>, part: multiset<nat>)
    requires Covers(refs, part)
    ensures Less(refs - part, part, refs)
  {
  }

  /** After the array was pushed, its contents leave the stack with their references, which it now holds. */
  lemma PackLaw(x: Picture, y: Picture, v: Tval, p: nat, n: nat, refs: multiset<nat>, other: multiset<nat>)
    requires x.b <= x.t <= |x.s| && x.Becomes(y, refs, other, x.Frame() + [v]) && p + n == |x.Frame()|
    ensures y.b == x.b && y.t == x.t + 1 <= |y.s| && y.s[y.t - n - 1..y.t - 1] == x.Frame()[p..]
    ensures x.Becomes(RemovePicture(y, p, n), refs, other + Refs(x.Frame()[p..]), x.Frame()[..p] + [v])
  {
    hide Refs, RefOf, RemovePicture, Less, Covers;
    var f := x.Frame();
    assert |y.Frame()| == |f| + 1;
    var part := y.Span(y.b + p, y.b + p + n);
    HeldIsCounted(y, p, n, refs, other);
    Taken(refs, part);
    RemoveLaw(y, p, n, refs, refs - part, other);
    PackFrame(f, v, p, n);
    SpanOfFrame(y, p, n);
    var z := RemovePicture(y, p, n);
    Rebooked(z, refs - part, part, other);
    assert refs - part + part == refs by { assert Less(refs - part, part, refs); SameSum(refs, part); }
    PackedPart(x, y, v, p, n);
  }

  lemma SameSum(refs: multiset<nat>, part: multiset<nat>)
    requires Less(refs - part, part, refs)
    ensures refs - part + part == refs
  {
  }

  lemma PackFrame(f: seq<Tval>, v: Tval, p: nat, n: nat)
    requires p + n == |f|
    ensures Removed(f + [v], p, n) == f[..p] + [v] && (f + [v])[p..p + n] == f[p..]
  {
  }

  lemma PackedPart(x: Picture, y: Picture, v: Tval, p: nat, n: nat)
    requires x.b <= x.t <= |x.s| && y.b <= y.t <= |y.s| && y.b == x.b && y.Frame() == x.Frame() + [v] && p + n == |x.Frame()|
    ensures y.t == x.t + 1 && y.s[y.t - n - 1..y.t - 1] == x.Frame()[p..]
  {
    assert |y.Frame()| == |x.Frame()| + 1;
    assert y.s[y.t - n - 1..y.t - 1] == y.Frame()[p..p + n];
    PackFrame(x.Frame(), v, p, n);
  }
}
