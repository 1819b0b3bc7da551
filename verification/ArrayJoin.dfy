/**
 Joining strings on the value stack, and Array.prototype.join() which joins in batches.  The model
 keeps the part of the value stack that join() itself pushes, as a sequence of byte strings.
 */
module StringJoin {
  type Str = seq<int>

  /** The longest string, and the number of values of the 32-bit size type. */
  const MAX_BYTELEN := 0x7fff_ffff
  const SIZE_VALUES := 0x1_0000_0000

  /** The items with the separator between them. */
  function Joined(sep: Str, items: seq<Str>): Str
  {
    if items == [] then []
    else if |items| == 1 then items[0]
    else Joined(sep, items[..|items| - 1]) + sep + items[|items| - 1]
  }

  /** The combined length of items. */
  function Total(items: seq<Str>): nat
  {
    if items == [] then 0 else Total(items[..|items| - 1]) + |items[|items| - 1]|
  }

  /** The combined length of 'n' separators. */
  function Gaps(sep: Str, n: nat): nat
  {
    if n == 0 then 0 else Gaps(sep, n - 1) + |sep|
  }

  lemma {:induction false} GapsProduct(sep: Str, n: nat)
    ensures Gaps(sep, n) == |sep| * n
  {
    if n > 0 {
      GapsProduct(sep, n - 1);
      assert |sep| * n == |sep| * (n - 1) + |sep|;
    }
  }

  lemma {:induction false} JoinedLength(sep: Str, items: seq<Str>)
    requires items != []
    ensures |Joined(sep, items)| == Gaps(sep, |items| - 1) + Total(items)
  {
    var k := |items| - 1;
    if k > 0 {
      JoinedLength(sep, items[..k]);
    } else {
      assert Total(items[..0]) == 0;
    }
  }

  lemma {:induction false} TotalMonotone(items: seq<Str>, k: nat)
    requires k <= |items|
    ensures Total(items[..k]) <= Total(items)
  {
    if k < |items| {
      var shorter := items[..|items| - 1];
      TotalMonotone(shorter, k);
      assert shorter[..k] == items[..k];
    } else {
      assert items[..k] == items;
    }
  }

  /** Item lists that join to the same string still do after the same item is added. */
  lemma JoinedPush(sep: Str, a: seq<Str>, b: seq<Str>, s: Str)
    requires Joined(sep, a) == Joined(sep, b) && (a == [] <==> b == [])
    ensures Joined(sep, a + [s]) == Joined(sep, b + [s])
  {
    assert (a + [s])[..|a|] == a;
    assert (b + [s])[..|b|] == b;
  }

  /** Replacing the first strings by their join does not change what the whole joins to. */
  lemma {:induction false} JoinedInParts(sep: Str, a: seq<Str>, b: seq<Str>)
    requires a != []
    ensures Joined(sep, [Joined(sep, a)] + b) == Joined(sep, a + b)
    decreases |b|
  {
    if b == [] {
      assert [Joined(sep, a)] + b == [Joined(sep, a)] && a + b == a;
    } else {
      var front, s := b[..|b| - 1], b[|b| - 1];
      JoinedInParts(sep, a, front);
      JoinedPush(sep, [Joined(sep, a)] + front, a + front, s);
      assert [Joined(sep, a)] + b == [Joined(sep, a)] + front + [s] && a + b == a + front + [s];
    }
  }

  lemma JoinedStep(sep: Str, items: seq<Str>, i: nat)
    requires i < |items|
    ensures Joined(sep, items[..i + 1]) == (if i == 0 then items[i] else Joined(sep, items[..i]) + sep + items[i])
    ensures Joined(sep, items[..0]) == []
  {
    assert items[..i + 1][..i] == items[..i];
  }

  /** Where the k-th item begins in the joined string. */
  function Offset(sep: Str, items: seq<Str>, k: nat): nat
    requires k < |items|
  {
    Gaps(sep, k) + Total(items[..k])
  }

  lemma OffsetInFront(sep: Str, items: seq<Str>, k: nat)
    requires k < |items| - 1
    ensures Offset(sep, items, k) == Offset(sep, items[..|items| - 1], k)
  {
    assert items[..|items| - 1][..k] == items[..k];
  }

  /** The k-th item is in the joined string behind all items and separators before it, and a separator follows it
      unless it is the last. */
  predicate InPlace(sep: Str, items: seq<Str>, k: nat)
    requires k < |items|
  {
    var s, at, end := Joined(sep, items), Offset(sep, items, k), Offset(sep, items, k) + |items[k]|;
    && end <= |s| && s[at..end] == items[k]
    && if k == |items| - 1 then end == |s| else end + |sep| <= |s| && s[end..end + |sep|] == sep
  }

  lemma {:induction false} ItemsInPlace(sep: Str, items: seq<Str>, k: nat)
    requires k < |items|
    ensures InPlace(sep, items, k)
    decreases |items|
  {
    hide *;
    if |items| == 1 {
      OnlyInPlace(sep, items);
    } else if k == |items| - 1 {
      LastInPlace(sep, items);
    } else {
      ItemsInPlace(sep, items[..|items| - 1], k);
      FrontInPlace(sep, items, k);
    }
  }

  lemma OnlyInPlace(sep: Str, items: seq<Str>)
    requires |items| == 1
    ensures InPlace(sep, items, 0)
  {
    assert items[..0] == [];
  }

  lemma LastInPlace(sep: Str, items: seq<Str>)
    requires |items| >= 2
    ensures InPlace(sep, items, |items| - 1)
  {
    LastOffset(sep, items);
    assert Joined(sep, items) == Joined(sep, items[..|items| - 1]) + sep + items[|items| - 1];
    hide Joined, Offset;
  }

  lemma FrontInPlace(sep: Str, items: seq<Str>, k: nat)
    requires k < |items| - 1 && InPlace(sep, items[..|items| - 1], k)
    ensures InPlace(sep, items, k)
  {
    OffsetInFront(sep, items, k);
    assert Joined(sep, items) == Joined(sep, items[..|items| - 1]) + sep + items[|items| - 1];
    hide Joined, Offset;
  }

  lemma LastOffset(sep: Str, items: seq<Str>)
    requires |items| >= 2
    ensures Offset(sep, items, |items| - 1) == |Joined(sep, items[..|items| - 1])| + |sep|
  {
    JoinedLength(sep, items[..|items| - 1]);
  }

  /** A prefix joins to a string no longer than the whole. */
  lemma {:induction false} JoinedPrefixLength(sep: Str, items: seq<Str>, k: nat)
    requires k <= |items|
    ensures |Joined(sep, items[..k])| <= |Joined(sep, items)|
  {
    if k < |items| {
      var shorter := items[..|items| - 1];
      JoinedPrefixLength(sep, shorter, k);
      assert shorter[..k] == items[..k];
    } else {
      assert items[..k] == items;
    }
  }

  /** Copy a string into a buffer. */
  method CopyInto(buf: array<int>, idx: nat, s: Str)
    requires idx + |s| <= buf.Length
    modifies buf
    ensures buf[..idx + |s|] == old(buf[..idx]) + s
  {
    for i := 0 to |s|
      invariant buf[..idx] == old(buf[..idx])
      invariant buf[idx..idx + i] == s[..i]
    {
      buf[idx + i] := s[i];
    }
    assert buf[..idx + |s|] == buf[..idx] + buf[idx..idx + |s|];
  }

  lemma ProductMonotone(a: nat, b: nat, c: nat)
    requires a <= b
    ensures a * c <= b * c
  {
  }

  /** Dividing the limit tells exactly whether a product is above it. */
  lemma ProductLimit(t1: nat, t2: nat, limit: nat)
    requires t2 > 0
    ensures t1 > limit / t2 <==> t1 * t2 > limit
  {
    var q := limit / t2;
    assert q * t2 <= limit < (q + 1) * t2;
    if t1 > q {
      ProductMonotone(q + 1, t1, t2);
    } else {
      ProductMonotone(t1, q, t2);
    }
  }

  /** The length of the separators, or an error when it alone is above the limit; the product is only
      taken once a division has shown that it does not wrap. */
  method GapLength(sep: Str, n: nat) returns (ok: bool, len: nat)
    requires |sep| <= MAX_BYTELEN && n < SIZE_VALUES
    ensures ok == (Gaps(sep, n) <= MAX_BYTELEN)
    ensures ok ==> len == Gaps(sep, n)
  {
    GapsProduct(sep, n);
    var t1, t2 := |sep|, n;
    if t2 != 0 {
      ProductLimit(t1, t2, MAX_BYTELEN);
    }
    if t2 != 0 && t1 > MAX_BYTELEN / t2 {
      return false, 0;
    }
    return true, (t1 * t2) % SIZE_VALUES;
  }

  /** The length of the joined string, or an error; every sum stays in the size type. */
  method JoinLength(sep: Str, items: seq<Str>, isJoin: bool) returns (ok: bool, len: nat)
    requires items != [] && |items| < 0x8000_0000 && |sep| <= MAX_BYTELEN
    requires (forall i :: 0 <= i < |items| ==> |items[i]| <= MAX_BYTELEN) && (!isJoin ==> sep == [])
    ensures ok == (|Joined(sep, items)| <= MAX_BYTELEN)
    ensures ok ==> len == |Joined(sep, items)|
  {
    hide Joined, Gaps;
    JoinedLength(sep, items);
    len := 0;
    if isJoin {
      ok, len := GapLength(sep, |items| - 1);
      if !ok { return; }
    } else {
      GapsProduct(sep, |items| - 1);
    }
    for i := 0 to |items|
      invariant len == Gaps(sep, |items| - 1) + Total(items[..i]) <= MAX_BYTELEN
    {
      assert items[..i + 1][..i] == items[..i];
      TotalMonotone(items, i + 1);
      var newLen := (len + |items[i]|) % SIZE_VALUES;
      if newLen < len || newLen > MAX_BYTELEN {
        return false, 0;
      }
      len := newLen;
    }
    assert items[..|items|] == items;
    return true, len;
  }

  /** Copy an item, after the separator when one is due. */
  method AppendItem(buf: array<int>, idx: nat, sep: Str, item: Str, gap: bool) returns (end: nat)
    requires idx + (if gap then |sep| else 0) + |item| <= buf.Length
    modifies buf
    ensures end == idx + (if gap then |sep| else 0) + |item|
    ensures buf[..end] == old(buf[..idx]) + (if gap then sep + item else item)
  {
    end := idx;
    if gap {
      CopyInto(buf, end, sep);
      end := end + |sep|;
    }
    CopyInto(buf, end, item);
    end := end + |item|;
  }

  /** Fill a buffer of the computed length; the write index ends at that length. */
  method JoinFill(sep: Str, items: seq<Str>, isJoin: bool, len: nat) returns (s: Str)
    requires items != [] && len == |Joined(sep, items)| && (!isJoin ==> sep == [])
    ensures s == Joined(sep, items)
  {
    hide Joined;
    JoinedStep(sep, items, 0);
    var buf := new int[len];
    var idx: nat := 0;
    for i := 0 to |items|
      invariant idx == |Joined(sep, items[..i])| <= len
      invariant buf[..idx] == Joined(sep, items[..i])
    {
      JoinedStep(sep, items, i);
      JoinedPrefixLength(sep, items, i + 1);
      idx := AppendItem(buf, idx, sep, items[i], isJoin && i != 0);
    }
    assert items[..|items|] == items;
    s := buf[..];
  }

  datatype Outcome = Stack(values: seq<Str>) | InvalidCount | TooLong

  /** Join or concatenate the top 'count' strings of a stack; a join also takes the separator below them. */
  method ConcatAndJoin(stack: seq<Str>, count: int, isJoin: bool) returns (r: Outcome)
    requires forall i :: 0 <= i < |stack| ==> |stack[i]| <= MAX_BYTELEN
    requires count < 0x8000_0000 && (count > 0 ==> count + (if isJoin then 1 else 0) <= |stack|)
    ensures count < 0 ==> r == InvalidCount
    ensures count == 0 ==> r == Stack(stack + [[]])
    ensures count > 0 ==>
              var base := |stack| - count;
              var sep := if isJoin then stack[base - 1] else [];
              var full := Joined(sep, stack[base..]);
              r == if |full| > MAX_BYTELEN then TooLong
                   else Stack(stack[..if isJoin then base - 1 else base] + [full])
  {
    if count <= 0 {
      if count < 0 { return InvalidCount; }
      return Stack(stack + [[]]);
    }
    var base := |stack| - count;
    var sep := if isJoin then stack[base - 1] else [];
    var ok, len := JoinLength(sep, stack[base..], isJoin);
    if !ok { return TooLong; }
    var full := JoinFill(sep, stack[base..], isJoin, len);
    return Stack(stack[..if isJoin then base - 1 else base] + [full]);
  }
}

module ArrayJoin {
  import opened Wrappers
  import opened SparseArray
  import opened StringJoin

  /** The number of element strings on the stack that triggers an intermediate join. */
  const MID_JOIN_LIMIT := 4096

  /** The string an element contributes: empty for null, undefined and holes. */
  function Text(text: int -> Option<Str>, x: Slot): Str
  {
    match x
    case Some(Defined(n)) => (match text(n) case Some(t) => t case None => [])
    case _ => []
  }

  function Texts(text: int -> Option<Str>, s: seq<Slot>): (r: seq<Str>)
    ensures |r| == |s| && forall k :: 0 <= k < |s| ==> r[k] == Text(text, s[k])
  {
    seq(|s|, k requires 0 <= k < |s| => Text(text, s[k]))
  }

  /** In a join a hole, undefined and null leave only the separators around them; any other element is there with
      its string. */
  lemma ElementInJoin(sep: Str, text: int -> Option<Str>, s: seq<Slot>, k: nat)
    requires k < |s|
    ensures var parts := Texts(text, s);
            var at := Offset(sep, parts, k);
            && (s[k] == None || s[k] == Some(Undefined) || (s[k].value.Defined? && text(s[k].value.n) == None) ==>
                  at <= |Joined(sep, parts)| && |parts[k]| == 0)
            && (s[k].Some? && s[k].value.Defined? && text(s[k].value.n).Some? ==>
                  var t := text(s[k].value.n).value; at + |t| <= |Joined(sep, parts)| && Joined(sep, parts)[at..at + |t|] == t)
  {
    ItemsInPlace(sep, Texts(text, s), k);
    hide Joined, Offset;
  }

  lemma TextsFit(text: int -> Option<Str>, s: seq<Slot>)
    requires forall n, t :: text(n) == Some(t) ==> |t| <= MAX_BYTELEN
    ensures forall k :: 0 <= k < |s| ==> |Texts(text, s)[k]| <= MAX_BYTELEN
  {
  }

  function Max(a: nat, b: nat): (m: nat)
    ensures m >= a && m >= b && (m == a || m == b)
  {
    if a >= b then a else b
  }

  /** The room reserved on the value stack. */
  function Reserve(len: nat): nat
  {
    (if len >= MID_JOIN_LIMIT then MID_JOIN_LIMIT else len) + 4
  }

  /** The stack holds the separator and 'count' strings that join to what the first 'idx' elements join to. */
  ghost predicate Pending(sep: Str, stack: seq<Str>, parts: seq<Str>, count: nat, idx: nat)
  {
    && idx <= |parts| && count <= idx && (count == 0 <==> idx == 0)
    && |stack| == count + 1 && stack[0] == sep
    && Joined(sep, stack[1..]) == Joined(sep, parts[..idx])
    && forall i :: 0 <= i < |stack| ==> |stack[i]| <= MAX_BYTELEN
  }

  lemma PendingStart(sep: Str, parts: seq<Str>)
    requires |sep| <= MAX_BYTELEN
    ensures Pending(sep, [sep], parts, 0, 0)
  {
    assert [sep][1..] == [] && parts[..0] == [];
  }

  lemma PendingShape(sep: Str, stack: seq<Str>, parts: seq<Str>, count: nat, idx: nat)
    requires Pending(sep, stack, parts, count, idx)
    ensures |stack| == count + 1 && count <= idx <= |parts| && (count == 0 <==> idx == 0)
  {
  }

  lemma PendingNext(sep: Str, stack: seq<Str>, parts: seq<Str>, count: nat, idx: nat)
    requires Pending(sep, stack, parts, count, idx) && idx < |parts| && |parts[idx]| <= MAX_BYTELEN
    ensures Pending(sep, stack + [parts[idx]], parts, count + 1, idx + 1)
  {
    var s := parts[idx];
    JoinedPush(sep, stack[1..], parts[..idx], s);
    assert (stack + [s])[1..] == stack[1..] + [s] && parts[..idx + 1] == parts[..idx] + [s];
  }

  /** Join the element strings above the separator, and put the separator back below the result.  Joining no
      strings leaves the old separator where it is. */
  method JoinBatch(stack: seq<Str>, count: nat, ghost parts: seq<Str>, ghost idx: nat) returns (r: Option<seq<Str>>)
    requires stack != [] && Pending(stack[0], stack, parts, count, idx) && count <= MID_JOIN_LIMIT
    ensures var full := Joined(stack[0], parts[..idx]);
            r == if |full| > MAX_BYTELEN then None
                 else Some(if count == 0 then [stack[0], stack[0], full] else [stack[0], full])
    ensures r.Some? && idx > 0 ==> Pending(stack[0], r.value, parts, 1, idx)
  {
    var joined := ConcatAndJoin(stack, count, true);
    if count == 0 {
      assert joined.values == stack + [[]] && stack == [stack[0]] && parts[..idx] == [];
      ghost var full := Joined(stack[0], parts[..idx]);
      assert full == [] && joined.values[..|stack|] == stack && joined.values[|stack|..] == [[]];
      assert stack + [stack[0]] + [[]] == [stack[0], stack[0], full];
      return Some(joined.values[..|stack|] + [stack[0]] + joined.values[|stack|..]);
    }
    assert stack[|stack| - count..] == stack[1..];
    if joined.TooLong? { return None; }
    ghost var str := Joined(stack[0], stack[1..]);
    assert joined.values == [str];
    assert [stack[0]] + joined.values == [stack[0], str];
    assert [stack[0], str][1..] == [str];
    return Some([stack[0]] + joined.values);
  }

  /** The string of one element. */
  method ElementText(a: Array, text: int -> Option<Str>, idx: nat) returns (s: Str)
    requires a.Valid() && idx < a.length
    ensures s == Texts(text, a.Slots())[idx]
  {
    var _, v := a.Get(idx);
    if v.Undefined? { return []; }
    var t := text(v.n);
    return if t.None? then [] else t.value;
  }

  /** join() and, with 'local', toLocaleString(); 'peak' is the largest number of values pushed at a time.
      None is the length error. */
  method Join(a: Array, sep: Str, text: int -> Option<Str>, local: bool) returns (r: Option<Str>, peak: nat)
    requires a.Valid() && a.length < SIZE_VALUES && |sep| <= MAX_BYTELEN
    requires forall n, t :: text(n) == Some(t) ==> |t| <= MAX_BYTELEN
    ensures var full := Joined(sep, Texts(text, a.Slots()));
            r == if |full| > MAX_BYTELEN then None else Some(full)
    ensures peak <= Reserve(a.length)
  {
    hide Joined, Texts, Text, Pending;
    var len := a.length;
    ghost var parts := Texts(text, a.Slots());
    TextsFit(text, a.Slots());
    var stack: seq<Str> := [sep];
    peak := 1;
    var count: nat, idx: nat := 0, 0;
    PendingStart(sep, parts);
    assert |parts| == len;
    while true
      invariant idx <= len && count <= MID_JOIN_LIMIT && peak <= Reserve(len)
      invariant stack != [] && stack[0] == sep && Pending(sep, stack, parts, count, idx)
      decreases len - idx
    {
      PendingShape(sep, stack, parts, count, idx);
      if count >= MID_JOIN_LIMIT || idx >= len {
        peak := Max(peak, |stack| + 1);
        JoinedPrefixLength(sep, parts, idx);
        var joined := JoinBatch(stack, count, parts, idx);
        if joined.None? { return None, peak; }
        stack := joined.value;
        peak := Max(peak, |stack|);
        count := 1;
      }
      if idx >= len {
        assert parts[..idx] == parts;
        return Some(stack[|stack| - 1]), peak;
      }
      peak := Max(peak, |stack| + (if local then 2 else 1));
      var s := ElementText(a, text, idx);
      PendingNext(sep, stack, parts, count, idx);
      stack := stack + [s];
      count := count + 1;
      idx := idx + 1;
    }
  }
}
