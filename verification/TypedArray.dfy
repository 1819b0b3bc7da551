/** TypedArray.prototype.set() between views of integer elements that may share memory. */
module TypedArraySpec {
  import opened Words
  import opened VarintSpec

  datatype Elem = Uint8 | Uint8Clamped | Int8 | Uint16 | Int16 | Uint32 | Int32

  function Size(e: Elem): (n: nat)
    ensures n == 1 || n == 2 || n == 4
  {
    match e
    case Uint8 => 1
    case Uint8Clamped => 1
    case Int8 => 1
    case Uint16 => 2
    case Int16 => 2
    case Uint32 => 4
    case Int32 => 4
  }

  predicate Signed(e: Elem)
  {
    e.Int8? || e.Int16? || e.Int32?
  }

  /** The number in an element's bytes; 'big' is the byte order of the platform. */
  function ReadElem(e: Elem, p: Bytes, big: bool): int
    requires |p| == Size(e)
  {
    FieldValue(p, big, Signed(e))
  }

  /** Clamped elements go to the nearest end of their range, and all others wrap. */
  function Coerce(e: Elem, v: int): int
  {
    if e.Uint8Clamped? then (if v <= 0 then 0 else if v >= 255 then 255 else v) else v
  }

  function WriteElem(e: Elem, v: int, big: bool): (p: Bytes)
    ensures |p| == Size(e)
  {
    Ordered(Digits(Coerce(e, v), Size(e)), big)
  }

  /** The bytes of an element after it is read as one type and written as another. */
  function Convert(dst: Elem, src: Elem, p: Bytes, big: bool): (q: Bytes)
    requires |p| == Size(src)
    ensures |q| == Size(dst)
  {
    WriteElem(dst, ReadElem(src, p, big), big)
  }

  /** The bytes that 'n' source bytes are converted to. */
  function OutLength(dst: Elem, src: Elem, n: nat): nat
  {
    n / Size(src) * Size(dst)
  }

  lemma OneElementLess(dst: Elem, src: Elem, n: nat)
    ensures OutLength(dst, src, n) == if n < Size(src) then 0 else OutLength(dst, src, n - Size(src)) + Size(dst)
  {
    var z, k := Size(src), Size(dst);
    if n >= z {
      assert n / z == (n - z) / z + 1;
      assert ((n - z) / z + 1) * k == (n - z) / z * k + k;
    }
  }

  /** The bytes of a whole source after every element is converted. */
  function Converted(dst: Elem, src: Elem, p: Bytes, big: bool): (q: Bytes)
    ensures |q| == OutLength(dst, src, |p|)
    decreases |p|
  {
    OneElementLess(dst, src, |p|);
    hide OutLength;
    if |p| < Size(src) then []
    else Convert(dst, src, p[..Size(src)], big) + Converted(dst, src, p[Size(src)..], big)
  }

  // ---------- what conversion means ----------

  /** The values of each type. */
  predicate InType(e: Elem, v: int)
  {
    match e
    case Uint8 => 0 <= v <= 255
    case Uint8Clamped => 0 <= v <= 255
    case Int8 => -128 <= v <= 127
    case Uint16 => 0 <= v <= 65535
    case Int16 => -32768 <= v <= 32767
    case Uint32 => 0 <= v <= 4294967295
    case Int32 => -2147483648 <= v <= 2147483647
  }

  /** The number of values of each type. */
  function Values(e: Elem): (n: nat)
    ensures n > 0
  {
    match e
    case Uint8 => 256
    case Uint8Clamped => 256
    case Int8 => 256
    case Uint16 => 65536
    case Int16 => 65536
    case Uint32 => 4294967296
    case Int32 => 4294967296
  }

  function Distance(a: int, b: int): nat
  {
    if a <= b then b - a else a - b
  }

  /** 'w' is what a type makes of the number 'v': the nearest value for clamped bytes, and for all others the
      value that differs from 'v' by a multiple of the number of values. */
  ghost predicate Represents(e: Elem, w: int, v: int)
  {
    && InType(e, w)
    && if e.Uint8Clamped? then forall k :: 0 <= k <= 255 ==> Distance(w, v) <= Distance(k, v)
       else exists m: int :: Wraps(w, v, m, Values(e))
  }

  predicate Wraps(w: int, v: int, m: int, n: nat)
  {
    v - w == m * n
  }

  lemma TypeRadix(e: Elem)
    ensures Radix(Size(e)) == Values(e)
  {
    assert Radix(1) == 256 * Radix(0) && Radix(2) == 256 * Radix(1) && Radix(3) == 256 * Radix(2) && Radix(4) == 256 * Radix(3);
  }

  /** Digits read back as a number of the type. */
  lemma DigitsInType(e: Elem, c: int, big: bool) returns (m: int)
    ensures var w := ReadElem(e, Ordered(Digits(c, Size(e)), big), big); InType(e, w) && c - w == m * Values(e)
  {
    var n := Size(e);
    var ds := Digits(c, n);
    OrderedTwice(ds, big);
    NumberBound(ds);
    TypeRadix(e);
    m := NumberOfDigits(c, n);
    hide Ordered, Digits, Number, Radix;
    if Signed(e) && 2 * Number(ds) >= Values(e) {
      m := m + 1;
    }
  }

  /** The number read back after a number was written is what the type makes of it. */
  lemma WrittenMeans(e: Elem, v: int, big: bool)
    ensures Represents(e, ReadElem(e, WriteElem(e, v, big), big), v)
  {
    var c := Coerce(e, v);
    var w := ReadElem(e, WriteElem(e, v, big), big);
    var m := DigitsInType(e, c, big);
    hide Ordered, Digits, FieldValue;
    if e.Uint8Clamped? {
      assert w == c;
    } else {
      assert Wraps(w, v, m, Values(e));
    }
  }

  /** A converted element holds what its type makes of the number in the source element. */
  lemma ConvertMeans(dst: Elem, src: Elem, p: Bytes, big: bool)
    requires |p| == Size(src)
    ensures InType(src, ReadElem(src, p, big))
    ensures Represents(dst, ReadElem(dst, Convert(dst, src, p, big), big), ReadElem(src, p, big))
  {
    WrittenMeans(dst, ReadElem(src, p, big), big);
    WriteBack(p, big, Signed(src));
    var _ := DigitsInType(src, ReadElem(src, p, big), big);
    hide Represents, WriteElem, Ordered, Digits, FieldValue, InType;
  }

  /** The i-th of the elements of 'z' bytes that a sequence of bytes consists of. */
  function Piece(p: Bytes, z: nat, i: nat): (r: Bytes)
    requires i * z + z <= |p|
    ensures |r| == z
  {
    assert i * z >= 0;
    p[i * z..i * z + z]
  }

  lemma PieceBehind(a: Bytes, b: Bytes, i: nat)
    requires i > 0 && i * |a| + |a| <= |a + b|
    ensures (i - 1) * |a| + |a| <= |b| && Piece(a + b, |a|, i) == Piece(b, |a|, i - 1)
  {
    var z := |a|;
    assert i * z == (i - 1) * z + z && (i - 1) * z >= 0;
    assert (a + b)[i * z..i * z + z] == b[(i - 1) * z..(i - 1) * z + z];
  }

  /** 'q' is an element that represents the number in the source element 'p'. */
  ghost predicate Holds(dst: Elem, q: Bytes, src: Elem, p: Bytes, big: bool)
  {
    |p| == Size(src) && |q| == Size(dst) && Represents(dst, ReadElem(dst, q, big), ReadElem(src, p, big))
  }

  lemma ConvertedFirst(dst: Elem, src: Elem, p: Bytes, big: bool)
    requires |p| >= Size(src)
    ensures Converted(dst, src, p, big) == Convert(dst, src, p[..Size(src)], big) + Converted(dst, src, p[Size(src)..], big)
  {
    hide Convert, OutLength;
  }

  lemma FirstHolds(dst: Elem, src: Elem, p: Bytes, big: bool)
    requires |p| == Size(src)
    ensures Holds(dst, Convert(dst, src, p, big), src, p, big)
  {
    ConvertMeans(dst, src, p, big);
    hide Represents, ReadElem, Convert, InType;
  }

  /** Every element of a converted source holds what its type makes of the number in the source element. */
  lemma {:induction false} ConvertedMeans(dst: Elem, src: Elem, p: Bytes, big: bool, i: nat)
    requires i * Size(src) + Size(src) <= |p|
    ensures i * Size(dst) + Size(dst) <= |Converted(dst, src, p, big)|
    ensures Holds(dst, Piece(Converted(dst, src, p, big), Size(dst), i), src, Piece(p, Size(src), i), big)
    decreases i
  {
    hide *;
    hide OutLength;
    var z := Size(src);
    assert |p| >= z by { assert i * z >= 0; }
    var first, rest := Convert(dst, src, p[..z], big), Converted(dst, src, p[z..], big);
    ConvertedFirst(dst, src, p, big);
    assert p == p[..z] + p[z..];
    if i == 0 {
      FirstHolds(dst, src, p[..z], big);
      PieceInFront(first, rest);
      PieceInFront(p[..z], p[z..]);
    } else {
      PieceBehind(p[..z], p[z..], i);
      ConvertedMeans(dst, src, p[z..], big, i - 1);
      PieceFits(|first|, |rest|, i);
      PieceBehind(first, rest, i);
    }
  }

  lemma PieceInFront(a: Bytes, b: Bytes)
    ensures 0 * |a| + |a| <= |a + b| && Piece(a + b, |a|, 0) == a
  {
  }

  lemma PieceFits(z: nat, n: nat, i: nat)
    requires i > 0 && (i - 1) * z + z <= n
    ensures i * z + z <= z + n
  {
  }

  // ---------- the compatibility table ----------

  /** The source types from which a target type may be copied byte by byte. */
  function CopyCompatible(dst: Elem): set<Elem>
  {
    match dst
    case Uint8 => {Uint8, Uint8Clamped, Int8}
    case Uint8Clamped => {Uint8, Uint8Clamped}
    case Int8 => {Uint8, Uint8Clamped, Int8}
    case Uint16 => {Uint16, Int16}
    case Int16 => {Uint16, Int16}
    case Uint32 => {Uint32, Int32}
    case Int32 => {Uint32, Int32}
  }

  lemma ByteInRange(p: Bytes, big: bool)
    requires |p| == 1
    ensures 0 <= FieldValue(p, big, false) <= 255
  {
    NumberBound(Ordered(p, big));
    assert Radix(1) == 256 * Radix(0);
  }

  lemma {:induction false} ByteIdentity(dst: Elem, src: Elem, p: Bytes, big: bool)
    requires src in CopyCompatible(dst) && |p| == Size(src)
    ensures Size(dst) == Size(src) && Convert(dst, src, p, big) == p
  {
    WriteBack(p, big, Signed(src));
    if dst.Uint8Clamped? {
      ByteInRange(p, big);
    }
    hide Ordered, Digits, FieldValue;
  }

  /** The one pair of equal sizes that the table leaves out loses information. */
  lemma ClampChanges(big: bool)
    ensures Convert(Uint8Clamped, Int8, [0xff], big) == [0]
  {
    assert Ordered([0xff], big) == [0xff];
    assert Number([0xff]) == 255 by { assert Number([0xff][..0]) == 0; }
    assert Radix(1) == 256 * Radix(0);
    assert FieldValue([0xff], big, true) == -1;
    assert Digits(0, 1) == Digits(0, 0) + [0];
    assert Ordered([0], big) == [0];
  }

  /** Any other pair changes some bytes. */
  lemma SomeChange(dst: Elem, src: Elem, big: bool) returns (p: Bytes)
    requires src !in CopyCompatible(dst)
    ensures |p| == Size(src) && Convert(dst, src, p, big) != p
  {
    if Size(src) == Size(dst) {
      p := [0xff];
      ClampChanges(big);
    } else {
      p := if Size(src) == 1 then [0] else if Size(src) == 2 then [0, 0] else [0, 0, 0, 0];
    }
    hide Convert;
  }

  /** The table allows exactly the pairs of types between which conversion keeps every byte pattern. */
  lemma {:induction false} TableIsExact(dst: Elem, src: Elem, big: bool)
    ensures src in CopyCompatible(dst) <==> forall p: Bytes :: |p| == Size(src) ==> Convert(dst, src, p, big) == p
  {
    hide Convert, CopyCompatible, Size;
    if src in CopyCompatible(dst) {
      forall p: Bytes | |p| == Size(src) ensures Convert(dst, src, p, big) == p {
        ByteIdentity(dst, src, p, big);
      }
    } else {
      var p := SomeChange(dst, src, big);
    }
  }

  lemma {:induction false} ConvertedIdentity(dst: Elem, src: Elem, p: Bytes, big: bool, n: nat)
    requires src in CopyCompatible(dst) && |p| == n * Size(src)
    ensures Converted(dst, src, p, big) == p
    decreases n
  {
    hide Convert, CopyCompatible;
    if n == 0 {
      assert p == [];
    } else {
      assert n * Size(src) == (n - 1) * Size(src) + Size(src);
      ByteIdentity(dst, src, p[..Size(src)], big);
      ConvertedIdentity(dst, src, p[Size(src)..], big, n - 1);
      assert p == p[..Size(src)] + p[Size(src)..];
    }
  }
}

module TypedArray {
  import opened Memory
  import opened Words
  import opened TypedArraySpec

  const UINT_VALUES := 0x1_0000_0000

  /** A view of integer elements on part of the memory. */
  datatype View = View(elem: Elem, base: nat, length: nat)

  /** The view lies in memory and holds whole elements. */
  predicate Covered(v: View, size: nat)
  {
    v.base + v.length <= size && v.length < UINT_VALUES && v.length % Size(v.elem) == 0
  }

  datatype Outcome = Done | TypeError | RangeError

  /** Write one element. */
  method Store(mem: array<byte>, at: nat, p: Bytes)
    requires at + |p| <= mem.Length
    modifies mem
    ensures mem[..] == Patched(old(mem[..]), at, p)
  {
    ghost var m := mem[..];
    for i := 0 to |p|
      invariant mem[..] == Patched(m, at, p[..i])
    {
      mem[at + i] := p[i];
    }
    assert p[..|p|] == p;
  }

  lemma PatchedTwice(m: Bytes, d: nat, p: Bytes, q: Bytes)
    requires d + |p| + |q| <= |m|
    ensures Patched(Patched(m, d, p), d + |p|, q) == Patched(m, d, p + q)
  {
  }

  lemma PatchedElsewhere(m: Bytes, d: nat, p: Bytes, s: nat, n: nat)
    requires d + |p| <= |m| && s + n <= |m| && (s >= d + |p| || s + n <= d)
    ensures Patched(m, d, p)[s..s + n] == m[s..s + n]
  {
  }

  lemma AtLeastOne(n: nat, z: nat)
    requires (z == 1 || z == 2 || z == 4) && n % z == 0 && n > 0
    ensures n >= z && (n - z) % z == 0
  {
  }

  lemma ConvertedStep(dst: Elem, src: Elem, p: Bytes, big: bool)
    requires |p| >= Size(src)
    ensures Converted(dst, src, p, big) == Convert(dst, src, p[..Size(src)], big) + Converted(dst, src, p[Size(src)..], big)
  {
    hide Convert, OutLength;
  }

  /** The next element of a source, in front of those that remain to be converted. */
  lemma NextElement(dst: Elem, src: Elem, p: Bytes, big: bool, i: nat, done: Bytes, all: Bytes)
    requires i < |p| && (|p| - i) % Size(src) == 0 && done + Converted(dst, src, p[i..], big) == all
    ensures i + Size(src) <= |p| && (|p| - (i + Size(src))) % Size(src) == 0
    ensures var q := Convert(dst, src, p[i..i + Size(src)], big);
            done + q + Converted(dst, src, p[i + Size(src)..], big) == all && |done| + |q| <= |all|
  {
    hide Converted, Convert, Size, OutLength;
    var z := Size(src);
    AtLeastOne(|p| - i, z);
    assert p[i..][..z] == p[i..i + z] && p[i..][z..] == p[i + z..];
    ConvertedStep(dst, src, p[i..], big);
    Associate(done, Convert(dst, src, p[i..i + z], big), Converted(dst, src, p[i + z..], big));
  }

  lemma Associate(a: Bytes, b: Bytes, c: Bytes)
    ensures a + b + c == a + (b + c)
  {
  }

  /** Store the next converted element behind those done; a source that does not overlap stays what it is. */
  method StoreNext(mem: array<byte>, at: nat, q: Bytes, ghost from: array<byte>, ghost s: nat, ghost n: nat,
                   ghost m: Bytes, ghost d: nat, ghost done: Bytes)
    requires |m| == mem.Length && at == d + |done| && at + |q| <= mem.Length && s + n <= from.Length
    requires from != mem || s >= at + |q| || s + n <= d
    requires mem[..] == Patched(m, d, done)
    modifies mem
    ensures mem[..] == Patched(m, d, done + q) && from[s..s + n] == old(from[s..s + n])
  {
    Store(mem, at, q);
    PatchedTwice(m, d, done, q);
    if from == mem {
      PatchedElsewhere(m, d, done, s, n);
      PatchedElsewhere(m, d, done + q, s, n);
      assert from[s..s + n] == mem[..][s..s + n];
      assert old(from[s..s + n]) == old(mem[..])[s..s + n];
    }
  }

  /** A conversion to be done: the memory before it, the target area's start, and the source bytes. */
  datatype Job = Job(m: Bytes, d: nat, dst: Elem, src: Elem, p: Bytes, big: bool) {
    function All(): Bytes
    {
      Converted(dst, src, p, big)
    }

    ghost predicate Valid()
    {
      |p| % Size(src) == 0 && d + |All()| <= |m|
    }

    function Result(): Bytes
      requires Valid()
    {
      Patched(m, d, All())
    }

    /** The elements before 'i' are in the target area and nothing else is changed. */
    ghost predicate Reached(b: Bytes, i: nat, done: Bytes)
    {
      && Valid() && i <= |p| && (|p| - i) % Size(src) == 0 && |done| <= |All()|
      && done + Converted(dst, src, p[i..], big) == All()
      && b == Patched(m, d, done)
    }
  }

  lemma JobStart(job: Job)
    requires job.Valid()
    ensures job.Reached(job.m, 0, [])
  {
    assert job.p[0..] == job.p;
    assert Patched(job.m, job.d, []) == job.m;
    hide Converted;
    assert [] + job.All() == job.All();
  }

  lemma JobEnd(job: Job, b: Bytes, done: Bytes)
    requires job.Reached(b, |job.p|, done)
    ensures b == job.Result()
  {
    var none := job.p[|job.p|..];
    assert none == [];
    assert Converted(job.dst, job.src, none, job.big) == [];
    assert done + [] == done;
  }

  lemma SliceOf(f: Bytes, s: nat, n: nat, i: nat, z: nat)
    requires s + n <= |f| && i + z <= n
    ensures f[s..s + n][i..i + z] == f[s + i..s + i + z]
  {
    var a, b := f[s..s + n][i..i + z], f[s + i..s + i + z];
    forall k | 0 <= k < z ensures a[k] == b[k] {
      assert f[s..s + n][i + k] == f[s + (i + k)];
    }
  }

  /** Convert one element. */
  method CopyOne(mem: array<byte>, from: array<byte>, at: nat, to: nat, dst: Elem, src: Elem, big: bool,
                 ghost s: nat, ghost job: Job, ghost i: nat, ghost done: Bytes)
    returns (ghost q: Bytes)
    requires job.dst == dst && job.src == src && job.big == big && |job.m| == mem.Length
    requires job.Reached(mem[..], i, done) && i < |job.p| && at == s + i && to == job.d + |done|
    requires s + |job.p| <= from.Length && from[s..s + |job.p|] == job.p
    requires from != mem || s >= job.d + |job.All()| || s + |job.p| <= job.d
    modifies mem
    ensures job.Reached(mem[..], i + Size(src), done + q) && |q| == Size(dst) && i + Size(src) <= |job.p|
    ensures from[s..s + |job.p|] == job.p
  {
    hide Converted, Convert, ReadElem, WriteElem, Patched, OutLength, Size;
    NextElement(dst, src, job.p, big, i, done, job.All());
    SliceOf(from[..], s, |job.p|, i, Size(src));
    ConvertIs(dst, src, job.p[i..i + Size(src)], big);
    var v := ReadElem(src, from[at..at + Size(src)], big);
    var w := WriteElem(dst, v, big);
    q := w;
    StoreNext(mem, to, w, from, s, |job.p|, job.m, job.d, done);
  }

  /** Convert element by element; the source is in other memory or does not overlap the target area. */
  method CopyElements(mem: array<byte>, from: array<byte>, s: nat, n: nat, d: nat, dst: Elem, src: Elem, big: bool, ghost job: Job)
    requires s + n <= from.Length && job == Job(mem[..], d, dst, src, from[s..s + n], big) && job.Valid()
    requires from != mem || s >= d + |job.All()| || s + n <= d
    modifies mem
    ensures mem[..] == job.Result()
  {
    hide *;
    ghost var done: Bytes := [];
    var i: nat, j: nat := 0, 0;
    JobStart(job);
    while i != n
      invariant i <= n && j == |done| && job.Reached(mem[..], i, done)
      invariant from[s..s + n] == job.p
      decreases n - i
    {
      ghost var q := CopyOne(mem, from, s + i, d + j, dst, src, big, s, job, i, done);
      done := done + q;
      i := i + Size(src);
      j := j + Size(dst);
    }
    JobEnd(job, mem[..], done);
  }

  lemma ConvertIs(dst: Elem, src: Elem, p: Bytes, big: bool)
    requires |p| == Size(src)
    ensures Convert(dst, src, p, big) == WriteElem(dst, ReadElem(src, p, big), big)
  {
    hide ReadElem, WriteElem;
  }

  // ---------- set() ----------

  /** The number of whole elements in a view. */
  function Count(v: View): nat
  {
    v.length / Size(v.elem)
  }

  /** A shift left by the size of an element, in 32 bits. */
  function Scale(n: nat, e: Elem): nat
  {
    (n * Size(e)) % UINT_VALUES
  }

  /** Scaling and scaling back tells exactly whether a byte length fits in 32 bits. */
  lemma ScaleIsExact(n: nat, e: Elem)
    requires n < UINT_VALUES
    ensures Scale(n, e) / Size(e) == n <==> n * Size(e) < UINT_VALUES
    ensures n * Size(e) < UINT_VALUES ==> Scale(n, e) == n * Size(e)
  {
  }

  lemma CountTimesSize(v: View)
    requires v.length % Size(v.elem) == 0
    ensures Count(v) * Size(v.elem) == v.length
  {
  }

  /** Whether the areas of a copy overlap. */
  predicate Overlap(s: nat, n: nat, d: nat, k: nat)
  {
    !(s >= d + k || s + n <= d)
  }

  /** One memmove(). */
  method CopySame(mem: array<byte>, d: nat, src: View, ghost job: Job)
    requires Covered(src, mem.Length) && job.m == mem[..] && job.d == d && job.src == src.elem && job.Valid()
    requires job.p == mem[src.base..src.base + src.length] && job.src in CopyCompatible(job.dst)
    modifies mem
    ensures mem[..] == job.Result()
  {
    CountTimesSize(src);
    ConvertedIdentity(job.dst, job.src, job.p, job.big, Count(src));
    hide Converted;
    MemMove(mem, d, src.base, src.length);
  }

  /** Element by element from a temporary copy. */
  method CopyOverlapping(mem: array<byte>, dst: Elem, d: nat, src: View, big: bool, ghost job: Job)
    requires Covered(src, mem.Length) && job == Job(mem[..], d, dst, src.elem, mem[src.base..src.base + src.length], big) && job.Valid()
    modifies mem
    ensures mem[..] == job.Result()
  {
    var temp := new byte[src.length];
    MoveInto(temp, mem, src.base);
    assert temp[0..src.length] == temp[..];
    hide Converted, Patched;
    CopyElements(mem, temp, 0, src.length, d, dst, src.elem, big, job);
  }

  /** The copy itself, once the lengths are known to fit: one memmove() for compatible types unless the build
      leaves the table out, and otherwise element by element, from a temporary copy when the areas overlap. */
  method CopyView(mem: array<byte>, dst: Elem, d: nat, k: nat, src: View, preferSize: bool, big: bool, ghost job: Job)
    requires Covered(src, mem.Length) && job == Job(mem[..], d, dst, src.elem, mem[src.base..src.base + src.length], big) && job.Valid()
    requires k == |job.All()|
    modifies mem
    ensures mem[..] == job.Result()
  {
    hide Converted, Patched, Size;
    if !preferSize && src.elem in CopyCompatible(dst) {
      CopySame(mem, d, src, job);
    } else if !Overlap(src.base, src.length, d, k) {
      CopyElements(mem, mem, src.base, src.length, d, dst, src.elem, big, job);
    } else {
      CopyOverlapping(mem, dst, d, src, big, job);
    }
  }

  /** Copy a stretch of memory into a temporary buffer. */
  method MoveInto(temp: array<byte>, mem: array<byte>, s: nat)
    requires s + temp.Length <= mem.Length && temp != mem
    modifies temp
    ensures temp[..] == mem[s..s + temp.Length]
  {
    for i := 0 to temp.Length
      invariant temp[..i] == mem[s..s + i]
    {
      temp[i] := mem[s + i];
    }
  }

  /** The target elements that set() writes lie in the target view. */
  predicate Fits(target: View, src: View, offset: int)
  {
    0 <= offset && (offset + Count(src)) * Size(target.elem) <= target.length
  }

  /** The memory 'm1' is 'm0' with the bytes 'q' in their place. */
  predicate Stored(m0: seq<byte>, m1: seq<byte>, at: int, q: Bytes)
  {
    0 <= at && at + |q| <= |m0| && m1 == Patched(m0, at, q)
  }

  /** The place and the length of what set() writes, in bytes; a scaled number that does not scale back is out of
      range, since it has wrapped. */
  method Measure(target: View, src: View, offset: int) returns (r: Outcome, offsetBytes: nat, targetLength: nat)
    requires target.length < UINT_VALUES && src.length < UINT_VALUES && -0x8000_0000 <= offset < 0x8000_0000
    ensures r == if offset < 0 then TypeError else if Fits(target, src, offset) then Done else RangeError
    ensures r == Done ==> offsetBytes == offset * Size(target.elem) && targetLength == Count(src) * Size(target.elem)
    ensures r == Done ==> offsetBytes + targetLength <= target.length
  {
    offsetBytes, targetLength := 0, 0;
    if offset < 0 { return TypeError, 0, 0; }
    var z := Size(target.elem);
    ScaleIsExact(offset, target.elem);
    offsetBytes := Scale(offset, target.elem);
    if offsetBytes / z != offset { return RangeError, 0, 0; }
    if offsetBytes > target.length { return RangeError, 0, 0; }
    var elems := Count(src);
    ScaleIsExact(elems, target.elem);
    targetLength := Scale(elems, target.elem);
    if targetLength / z != elems { return RangeError, 0, 0; }
    assert (offset + elems) * z == offset * z + elems * z;
    if targetLength > target.length - offsetBytes { return RangeError, 0, 0; }
    return Done, offsetBytes, targetLength;
  }

  /** set(): the elements of 'src', converted, go to 'target' from the element 'offset' on, as if the source had
      been copied first; every other byte keeps its value, and an error changes nothing. */
  method Set(mem: array<byte>, target: View, src: View, offset: int, preferSize: bool, big: bool) returns (r: Outcome)
    requires Covered(target, mem.Length) && Covered(src, mem.Length) && -0x8000_0000 <= offset < 0x8000_0000
    modifies mem
    ensures r == if offset < 0 then TypeError else if Fits(target, src, offset) then Done else RangeError
    ensures r != Done ==> mem[..] == old(mem[..])
    ensures r == Done ==>
              Stored(old(mem[..]), mem[..], target.base + offset * Size(target.elem),
                     Converted(target.elem, src.elem, old(mem[src.base..src.base + src.length]), big))
  {
    var offsetBytes, targetLength;
    r, offsetBytes, targetLength := Measure(target, src, offset);
    if r != Done { return; }
    hide Fits, Converted, Patched;
    ghost var job := Job(mem[..], target.base + offsetBytes, target.elem, src.elem, mem[src.base..src.base + src.length], big);
    CopyView(mem, target.elem, target.base + offsetBytes, targetLength, src, preferSize, big, job);
  }
}
