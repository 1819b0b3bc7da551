/** Tagged values, the references they hold, and the edits that the stack primitives make to a sequence. */
module StackEdits {
  import opened Memory

  /** A tagged value: undefined, a value without a heap object, or a reference to a heap object. */
  datatype Tval = Undefined | Plain(n: int) | Ref(o: nat)

  function RefOf(v: Tval): multiset<nat>
  {
    if v.Ref? then multiset{v.o} else multiset{}
  }

  /** The references that a stretch of values holds, each as often as it occurs. */
  function Refs(s: seq<Tval>): multiset<nat>
  {
    if s == [] then multiset{} else Refs(s[..|s| - 1]) + RefOf(s[|s| - 1])
  }

  function Undefineds(n: nat): (s: seq<Tval>)
    ensures |s| == n && forall i :: 0 <= i < n ==> s[i] == Undefined
  {
    seq(n, _ => Undefined)
  }

  lemma {:induction false} RefsConcat(a: seq<Tval>, b: seq<Tval>)
    ensures Refs(a + b) == Refs(a) + Refs(b)
  {
    if b == [] {
      assert a + b == a;
    } else {
      var front := b[..|b| - 1];
      assert (a + b)[..|a + b| - 1] == a + front;
      RefsConcat(a, front);
    }
  }

  lemma RefsOne(v: Tval)
    ensures Refs([v]) == RefOf(v)
  {
    assert [v][..0] == [];
  }

  lemma {:induction false} RefsUndefined(s: seq<Tval>)
    requires forall i :: 0 <= i < |s| ==> s[i] == Undefined
    ensures Refs(s) == multiset{}
  {
    if s != [] { RefsUndefined(s[..|s| - 1]); }
  }

  /** The references of a sequence cut in three. */
  lemma RefsThree(a: seq<Tval>, b: seq<Tval>, c: seq<Tval>)
    ensures Refs(a + b + c) == Refs(a) + Refs(b) + Refs(c)
  {
    RefsConcat(a + b, c);
    RefsConcat(a, b);
  }

  // ---------- edits of a frame ----------

  /** The last value goes to 'p', and those from 'p' on move up. */
  function Inserted(f: seq<Tval>, p: nat): seq<Tval>
    requires p < |f|
  {
    f[..p] + [f[|f| - 1]] + f[p..|f| - 1]
  }

  /** The value at 'p' goes to the top, and those behind it move down. */
  function Pulled(f: seq<Tval>, p: nat): seq<Tval>
    requires p < |f|
  {
    f[..p] + f[p + 1..] + [f[p]]
  }

  /** 'n' values from 'p' on are taken out. */
  function Removed(f: seq<Tval>, p: nat, n: nat): seq<Tval>
    requires p + n <= |f|
  {
    f[..p] + f[p + n..]
  }

  /** Values are put in before 'p'. */
  function Widened(f: seq<Tval>, p: nat, vs: seq<Tval>): seq<Tval>
    requires p <= |f|
  {
    f[..p] + vs + f[p..]
  }

  /** Pulling a value undoes inserting it there, and the other way round; the value is at its new place, and
      the others keep their order. */
  lemma {:induction false} PullUndoesInsert(f: seq<Tval>, p: nat)
    requires p < |f|
    ensures |Inserted(f, p)| == |f| == |Pulled(f, p)|
    ensures Pulled(Inserted(f, p), p) == f && Inserted(Pulled(f, p), p) == f
    ensures Inserted(f, p)[p] == f[|f| - 1] && Removed(Inserted(f, p), p, 1) == f[..|f| - 1]
    ensures Pulled(f, p)[|f| - 1] == f[p] && Removed(f, p, 1) == Pulled(f, p)[..|f| - 1]
  {
    var g, h := Inserted(f, p), Pulled(f, p);
    assert g[..p] == f[..p] && g[p] == f[|f| - 1] && g[p + 1..] == f[p..|f| - 1];
    assert f == f[..p] + f[p..|f| - 1] + [f[|f| - 1]];
    assert h[..p] == f[..p] && h[|h| - 1] == f[p] && h[p..|h| - 1] == f[p + 1..];
    assert f == f[..p] + [f[p]] + f[p + 1..];
  }

  lemma {:induction false} RemoveUndoesWiden(f: seq<Tval>, p: nat, vs: seq<Tval>)
    requires p <= |f|
    ensures |Widened(f, p, vs)| == |f| + |vs| && Removed(Widened(f, p, vs), p, |vs|) == f
    ensures Widened(f, p, vs)[p..p + |vs|] == vs
  {
    var g := Widened(f, p, vs);
    assert g[..p] == f[..p] && g[p + |vs|..] == f[p..];
  }

  /** After a removal the values in front of the gap are where they were, and those behind it 'n' lower. */
  lemma RemovedAt(f: seq<Tval>, p: nat, n: nat)
    requires p + n <= |f|
    ensures |Removed(f, p, n)| == |f| - n
    ensures forall k :: 0 <= k < |f| - n ==> Removed(f, p, n)[k] == f[if k < p then k else k + n]
  {
  }

  // ---------- references of edited frames ----------

  lemma SumSwap(x: multiset<nat>, y: multiset<nat>, z: multiset<nat>)
    ensures x + y + z == x + z + y
  {
  }

  lemma InsertedRefs(f: seq<Tval>, p: nat)
    requires p < |f|
    ensures Refs(Inserted(f, p)) == Refs(f)
  {
    hide Refs;
    var a, b, c := f[..p], f[p..|f| - 1], [f[|f| - 1]];
    assert f == a + b + c;
    RefsThree(a, b, c);
    RefsThree(a, c, b);
    SumSwap(Refs(a), Refs(b), Refs(c));
  }

  lemma PulledRefs(f: seq<Tval>, p: nat)
    requires p < |f|
    ensures Refs(Pulled(f, p)) == Refs(f)
  {
    hide Refs;
    var a, b, c := f[..p], [f[p]], f[p + 1..];
    assert f == a + b + c;
    RefsThree(a, b, c);
    RefsThree(a, c, b);
    SumSwap(Refs(a), Refs(b), Refs(c));
  }

  lemma RemovedRefs(f: seq<Tval>, p: nat, n: nat)
    requires p + n <= |f|
    ensures Refs(f) == Refs(Removed(f, p, n)) + Refs(f[p..p + n])
  {
    hide Refs;
    var a, b, c := f[..p], f[p..p + n], f[p + n..];
    assert f == a + b + c;
    RefsThree(a, b, c);
    RefsConcat(a, c);
    SumSwap(Refs(a), Refs(b), Refs(c));
  }

  lemma WidenedRefs(f: seq<Tval>, p: nat, vs: seq<Tval>)
    requires p <= |f|
    ensures Refs(Widened(f, p, vs)) == Refs(f) + Refs(vs)
  {
    hide Refs;
    var a, c := f[..p], f[p..];
    assert f == a + c;
    RefsConcat(a, c);
    RefsThree(a, vs, c);
    SumSwap(Refs(a), Refs(vs), Refs(c));
  }

  lemma UpdatedRefs(f: seq<Tval>, p: nat, v: Tval)
    requires p < |f|
    ensures Refs(f[p := v]) + RefOf(f[p]) == Refs(f) + RefOf(v)
  {
    hide Refs, RefOf;
    var a, c := f[..p], f[p + 1..];
    assert f == a + [f[p]] + c && f[p := v] == a + [v] + c;
    RefsThree(a, [f[p]], c);
    RefsThree(a, [v], c);
    RefsOne(f[p]);
    RefsOne(v);
    SumSwap(Refs(a), RefOf(f[p]), Refs(c));
    SumSwap(Refs(a), RefOf(v), Refs(c));
    SumSwap(Refs(a) + Refs(c), RefOf(f[p]), RefOf(v));
  }

  lemma SwappedRefs(f: seq<Tval>, p: nat, q: nat)
    requires p < |f| && q < |f|
    ensures Refs(f[p := f[q]][q := f[p]]) == Refs(f)
  {
    hide Refs, RefOf;
    UpdatedRefs(f, p, f[q]);
    UpdatedRefs(f[p := f[q]], q, f[p]);
    var g := f[p := f[q]];
    SumCancel(Refs(f), Refs(g), Refs(g[q := f[p]]), RefOf(f[p]), RefOf(f[q]));
  }

  lemma SumCancel(x: multiset<nat>, y: multiset<nat>, z: multiset<nat>, a: multiset<nat>, b: multiset<nat>)
    requires y + a == x + b && z + b == y + a
    ensures z == x
  {
    assert z + b - b == z && x + b - b == x;
  }
}
