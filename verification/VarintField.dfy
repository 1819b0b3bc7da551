/** The value of a field of one to six bytes, and the bytes of a value. */
module VarintSpec {
  import opened Words

  /** 256 to the power 'n'. */
  function Radix(n: nat): (r: nat)
    ensures r >= 1
  {
    if n == 0 then 1 else 256 * Radix(n - 1)
  }

  /** The value of bytes given most significant first. */
  function Number(ds: seq<byte>): nat
  {
    if ds == [] then 0 else Number(ds[..|ds| - 1]) * 256 + ds[|ds| - 1]
  }

  /** The low 'n' bytes of an integer in two's complement, most significant first. */
  function Digits(v: int, n: nat): (ds: seq<byte>)
    ensures |ds| == n
    decreases n
  {
    if n == 0 then [] else Digits(v / 256, n - 1) + [v % 256]
  }

  /** The bytes of a field, most significant first. */
  function Ordered(p: seq<byte>, big: bool): (ds: seq<byte>)
    ensures |ds| == |p|
    ensures forall k :: 0 <= k < |p| ==> ds[k] == if big then p[k] else p[|p| - 1 - k]
  {
    seq(|p|, k requires 0 <= k < |p| => if big then p[k] else p[|p| - 1 - k])
  }

  /** The value of a field: in two's complement when signed. */
  function FieldValue(p: seq<byte>, big: bool, signed: bool): int
  {
    var v := Number(Ordered(p, big));
    if signed && 2 * v >= Radix(|p|) then v - Radix(|p|) else v
  }

  /** The values a field of 'n' bytes can hold. */
  predicate InRange(v: int, n: nat, signed: bool)
  {
    if signed then 0 - Radix(n) <= 2 * v < Radix(n) else 0 <= v < Radix(n)
  }

  lemma NumberPush(ds: seq<byte>, d: byte)
    ensures Number(ds + [d]) == Number(ds) * 256 + d
  {
    assert (ds + [d])[..|ds|] == ds;
  }

  /** Words are read most significant byte first. */
  lemma WordNumber(w: seq<byte>)
    ensures |w| == 2 ==> Number(w) == Get16(w)
    ensures |w| == 4 ==> Number(w) == Get32(w)
  {
    if |w| == 2 {
      NumberPush([], w[0]);
      NumberPush([w[0]], w[1]);
      assert w == [w[0]] + [w[1]] && [w[0]] == [] + [w[0]];
    } else if |w| == 4 {
      WordNumber(w[..2]);
      NumberPush(w[..2], w[2]);
      NumberPush(w[..3], w[3]);
      assert w == w[..3] + [w[3]] && w[..3] == w[..2] + [w[2]];
    }
  }

  lemma OrderedEnds(p: seq<byte>, b: byte)
    ensures Ordered(p + [b], true) == Ordered(p, true) + [b]
    ensures Ordered([b] + p, false) == Ordered(p, false) + [b]
  {
  }

  /** The byte orders: a byte added at the end of a field is its least significant one in big-endian order, and a
      byte added in front in the other. */
  lemma ByteOrders(p: seq<byte>, b: byte)
    ensures FieldValue([], true, false) == FieldValue([], false, false) == 0
    ensures FieldValue(p + [b], true, false) == FieldValue(p, true, false) * 256 + b
    ensures FieldValue([b] + p, false, false) == FieldValue(p, false, false) * 256 + b
  {
    assert Ordered([], true) == Ordered([], false) == [];
    OrderedEnds(p, b);
    NumberPush(Ordered(p, true), b);
    NumberPush(Ordered(p, false), b);
    hide Ordered, Radix;
  }

  lemma {:induction false} NumberBound(ds: seq<byte>)
    ensures Number(ds) < Radix(|ds|)
  {
    if ds != [] { NumberBound(ds[..|ds| - 1]); }
  }

  lemma DigitSplit(v: int, q: int, d: int)
    requires v == 256 * q + d && 0 <= d < 256
    ensures v / 256 == q && v % 256 == d
  {
  }

  /** The bytes of a value give it back up to a multiple of the radix. */
  lemma {:induction false} NumberOfDigits(v: int, n: nat) returns (wraps: int)
    ensures v == wraps * Radix(n) + Number(Digits(v, n))
    decreases n
  {
    if n == 0 {
      wraps := v;
    } else {
      wraps := NumberOfDigits(v / 256, n - 1);
      assert Digits(v, n)[..n - 1] == Digits(v / 256, n - 1);
      RadixStep(wraps, n);
    }
  }

  lemma RadixStep(wraps: int, n: nat)
    requires n > 0
    ensures wraps * Radix(n) == 256 * (wraps * Radix(n - 1))
  {
    var r := Radix(n - 1);
    assert wraps * (256 * r) == 256 * (wraps * r);
  }

  /** Adding multiples of the radix does not change the bytes. */
  lemma {:induction false} DigitsOfNumber(ds: seq<byte>, wraps: int)
    ensures Digits(Number(ds) + wraps * Radix(|ds|), |ds|) == ds
  {
    if ds != [] {
      var n := |ds| - 1;
      var q, d := Number(ds[..n]) + wraps * Radix(n), ds[n];
      RadixStep(wraps, n + 1);
      DigitSplit(Number(ds) + wraps * Radix(n + 1), q, d);
      DigitsOfNumber(ds[..n], wraps);
      assert ds == ds[..n] + [d];
    }
  }

  lemma OrderedTwice(p: seq<byte>, big: bool)
    ensures Ordered(Ordered(p, big), big) == p
  {
  }

  lemma WrapsAreZero(v: int, w: int, wraps: int, m: int)
    requires v == wraps * m + w && -m < v - w < m
    ensures v == w
  {
    assert wraps > 0 ==> (wraps - 1) * m >= 0;
    assert wraps < 0 ==> (-1 - wraps) * m >= 0;
  }

  /** Reading back the bytes of a value gives that value exactly when it is in the field's range. */
  lemma {:induction false} RoundTrip(v: int, n: nat, big: bool, signed: bool)
    requires n > 0
    ensures FieldValue(Ordered(Digits(v, n), big), big, signed) == v <==> InRange(v, n, signed)
  {
    var ds := Digits(v, n);
    OrderedTwice(ds, big);
    NumberBound(ds);
    var wraps := NumberOfDigits(v, n);
    var w := Number(ds);
    if InRange(v, n, signed) {
      if signed && 2 * w >= Radix(n) {
        assert (wraps + 1) * Radix(n) == wraps * Radix(n) + Radix(n);
        WrapsAreZero(v, w - Radix(n), wraps + 1, Radix(n));
      } else {
        WrapsAreZero(v, w, wraps, Radix(n));
      }
    }
  }

  /** Writing a value that was read puts the same bytes back. */
  lemma {:induction false} WriteBack(p: seq<byte>, big: bool, signed: bool)
    ensures Ordered(Digits(FieldValue(p, big, signed), |p|), big) == p
  {
    var ds := Ordered(p, big);
    OrderedTwice(p, big);
    hide Ordered, Digits, Number, Radix;
    if FieldValue(p, big, signed) == Number(ds) {
      DigitsOfNumber(ds, 0);
    } else {
      DigitsOfNumber(ds, -1);
    }
  }
}

/** The variable-width cases of the shared read and write methods of buffers. */
module VarintField {
  import opened Memory
  import opened Words
  import opened Wrappers
  import opened VarintSpec

  const UINT_VALUES := 0x1_0000_0000
  const INT64_VALUES := 0x1_0000_0000_0000_0000
  const INT64_LIMIT := 0x8000_0000_0000_0000

  datatype ReadResult = Got(value: int) | NotANumber | RangeError

  // ---------- readers ----------

  /** A left shift by eight in 64 bits. */
  function Shift8(x: nat): nat
  {
    (x * 256) % INT64_VALUES
  }

  /** Nothing is lost while gathering up to six bytes. */
  lemma GatherStep(ds: seq<byte>, k: nat)
    requires k < |ds| <= 6
    ensures Number(ds[..k + 1]) == Shift8(Number(ds[..k])) + ds[k]
  {
    NumberBound(ds[..k]);
    RadixValues();
    assert Radix(0) == 1;
    assert ds[..k + 1][..k] == ds[..k];
  }

  /** Gather the bytes with 64-bit arithmetic. */
  method Gather64(p: seq<byte>, big: bool) returns (tmp: nat)
    requires 1 <= |p| <= 6
    ensures tmp == Number(Ordered(p, big))
  {
    var n := |p|;
    var i: int, step: int, end: int := 0, 1, n;
    if !big {
      i, step, end := n - 1, -1, -1;
    }
    tmp := 0;
    ghost var ds := Ordered(p, big);
    ghost var k := 0;
    assert Number(ds[..0]) == 0;
    hide Number, Shift8;
    while true
      invariant 0 <= k < n && i == (if big then k else n - 1 - k)
      invariant tmp == Number(ds[..k])
      decreases n - k
    {
      GatherStep(ds, k);
      tmp := Shift8(tmp) + p[i];
      i := i + step;
      k := k + 1;
      if i == end { break; }
    }
    assert ds[..n] == ds;
  }

  lemma RadixValues()
    ensures Radix(1) == 0x100 && Radix(2) == 0x1_0000 && Radix(3) == 0x100_0000 && Radix(4) == 0x1_0000_0000
    ensures Radix(5) == 0x100_0000_0000 && Radix(6) == 0x1_0000_0000_0000
  {
    assert Radix(1) == 256 * Radix(0);
    assert Radix(2) == 256 * Radix(1);
    assert Radix(3) == 256 * Radix(2);
    assert Radix(4) == 256 * Radix(3);
    assert Radix(5) == 256 * Radix(4);
    assert Radix(6) == 256 * Radix(5);
  }

  /** 2 to the power of the shift that moves the top byte of 'n' to the top of 64 bits. */
  function ShiftFactor(n: nat): nat
    requires 1 <= n <= 6
  {
    if n == 1 then 0x100_0000_0000_0000 else if n == 2 then 0x1_0000_0000_0000 else if n == 3 then 0x100_0000_0000
    else if n == 4 then 0x1_0000_0000 else if n == 5 then 0x100_0000 else 0x1_0000
  }

  /** The shift moves the field's top bit to the top of the word. */
  lemma ShiftedRange(tmp: nat, n: nat)
    requires 1 <= n <= 6 && tmp < Radix(n)
    ensures var f := ShiftFactor(n); f > 0 && Radix(n) * f == INT64_VALUES && 0 <= tmp * f < INT64_VALUES
    ensures 2 * tmp >= Radix(n) <==> tmp * ShiftFactor(n) >= INT64_LIMIT
  {
    RadixValues();
    hide Radix;
  }

  lemma DivideBack(x: int, n: nat)
    requires 1 <= n <= 6
    ensures x * ShiftFactor(n) / ShiftFactor(n) == x
  {
    if n == 1 {} else if n == 2 {} else if n == 3 {} else if n == 4 {} else if n == 5 {} else {}
  }

  /** The unsigned left shift and signed right shift that extend the sign. */
  method SignExtend(tmp: nat, n: nat) returns (r: int)
    requires 1 <= n <= 6 && tmp < Radix(n)
    ensures r == if 2 * tmp >= Radix(n) then tmp - Radix(n) else tmp
  {
    ShiftedRange(tmp, n);
    hide Radix, ShiftFactor;
    var f := ShiftFactor(n);
    var shifted: int := (tmp * f) % INT64_VALUES;
    if shifted >= INT64_LIMIT { shifted := shifted - INT64_VALUES; }
    assert shifted == (if 2 * tmp >= Radix(n) then (tmp - Radix(n)) * f else tmp * f);
    DivideBack(if 2 * tmp >= Radix(n) then tmp - Radix(n) else tmp, n);
    r := shifted / f;
  }

  method Read64(p: seq<byte>, big: bool, signed: bool) returns (v: int)
    requires 1 <= |p| <= 6
    ensures v == FieldValue(p, big, signed)
  {
    var tmp := Gather64(p, big);
    NumberBound(Ordered(p, big));
    v := tmp;
    if signed {
      v := SignExtend(tmp, |p|);
    }
  }

  /** The value of the first 'k' bytes, the first of them signed when the field is negative. */
  function Part(ds: seq<byte>, k: nat, negative: bool): int
    requires k <= |ds|
  {
    Number(ds[..k]) - if negative then Radix(k) else 0
  }

  /** The reader for platforms without 64-bit integers; every intermediate value is an integer below 2^48. */
  method ReadDouble(p: seq<byte>, big: bool, signed: bool) returns (v: real)
    requires 1 <= |p| <= 6
    ensures v == FieldValue(p, big, signed) as real
  {
    var n := |p|;
    var i: int, step: int, end: int := 0, 1, n;
    if !big {
      i, step, end := n - 1, -1, -1;
    }
    ghost var ds := Ordered(p, big);
    var high: int := p[i];
    ghost var negative := signed && high >= 128;
    v := if signed && high >= 128 then (high - 256) as real else high as real;
    ghost var k := 1;
    FirstDigit(ds);
    hide Number, Radix, Ordered, FieldValue;
    assert v == Part(ds, 1, negative) as real;
    hide Part;
    while true
      invariant 1 <= k <= n && i == (if big then k - 1 else n - k)
      invariant v == Part(ds, k, negative) as real
      decreases n - k
    {
      i := i + step;
      if i == end { break; }
      NextDigit(ds, k, negative);
      Scaled(Part(ds, k, negative), p[i]);
      v := v * 256.0 + p[i] as real;
      k := k + 1;
    }
    SignedValue(p, big, signed);
  }

  lemma SignedValue(p: seq<byte>, big: bool, signed: bool)
    requires p != []
    ensures var ds := Ordered(p, big);
            FieldValue(p, big, signed) == Part(ds, |p|, signed && ds[0] >= 128)
  {
    assert Ordered(p, big)[..|p|] == Ordered(p, big);
    TopBit(Ordered(p, big));
    hide Number, Radix, Ordered;
  }

  lemma Scaled(a: int, d: int)
    ensures a as real * 256.0 + d as real == (a * 256 + d) as real
  {
  }

  lemma NextDigit(ds: seq<byte>, k: nat, negative: bool)
    requires k < |ds|
    ensures Part(ds, k + 1, negative) == Part(ds, k, negative) * 256 + ds[k]
  {
    assert ds[..k + 1][..k] == ds[..k];
  }

  lemma FirstDigit(ds: seq<byte>)
    requires ds != []
    ensures Number(ds[..1]) == ds[0] && Radix(1) == 256
  {
    assert Number(ds[..1][..0]) == 0;
    assert Radix(0) == 1;
  }

  /** The sign is decided by the most significant byte. */
  lemma {:induction false} TopBit(ds: seq<byte>)
    requires ds != []
    ensures ds[0] >= 128 <==> 2 * Number(ds) >= Radix(|ds|)
    ensures ds[0] < 128 ==> 2 * Number(ds) <= Radix(|ds|) - 2
  {
    if |ds| == 1 {
      FirstDigit(ds);
    } else {
      TopBit(ds[..|ds| - 1]);
    }
  }

  // ---------- writers ----------

  /** The lowest byte of a value and the rest. */
  lemma LowestDigit(v: int, n: nat)
    requires n > 0
    ensures Digits(v, n)[n - 1] == v % 256 && Digits(v, n)[..n - 1] == Digits(v / 256, n - 1)
  {
  }

  /** The index in the field of the byte with 'j' more significant ones. */
  function Place(n: nat, big: bool, j: int): int
  {
    if big then j else n - 1 - j
  }

  /** The last 'k' of the bytes 'ds' are in the field, and everything outside the field is unchanged. */
  ghost predicate Written(b0: seq<byte>, b: seq<byte>, offset: nat, big: bool, ds: seq<byte>, k: nat)
  {
    var n := |ds|;
    && |b| == |b0| && offset + n <= |b| && k <= n
    && (forall j :: n - k <= j < n ==> b[offset + Place(n, big, j)] == ds[j])
    && (forall j :: 0 <= j < |b| && !(offset <= j < offset + n) ==> b[j] == b0[j])
  }

  /** A write of 'v' in progress: 'k' bytes are in the field and 'rest' is still to be written. */
  ghost predicate Writing(b0: seq<byte>, b: seq<byte>, offset: nat, n: nat, big: bool, v: int, k: nat, rest: int)
  {
    && k <= n && Written(b0, b, offset, big, Digits(v, n), k)
    && Digits(rest, n - k) == Digits(v, n)[..n - k]
  }

  lemma WritingStart(b: seq<byte>, offset: nat, n: nat, big: bool, v: int)
    requires offset + n <= |b|
    ensures Writing(b, b, offset, n, big, v, 0, v)
  {
  }

  lemma WritingNext(b0: seq<byte>, b: seq<byte>, offset: nat, n: nat, big: bool, v: int, k: nat, rest: int)
    requires Writing(b0, b, offset, n, big, v, k, rest) && k < n && offset + n <= |b|
    ensures Writing(b0, b[offset + Place(n, big, n - k - 1) := rest % 256], offset, n, big, v, k + 1, rest / 256)
  {
    LowestDigit(rest, n - k);
    hide Digits;
  }

  lemma WritingEnd(b0: seq<byte>, b: seq<byte>, offset: nat, n: nat, big: bool, v: int, rest: int)
    requires Writing(b0, b, offset, n, big, v, n, rest) && offset + n <= |b0|
    ensures b == Patched(b0, offset, Ordered(Digits(v, n), big))
  {
    hide Digits;
    var ds := Digits(v, n);
    var t := Patched(b0, offset, Ordered(ds, big));
    forall j | 0 <= j < |b| ensures b[j] == t[j] {
      if offset <= j < offset + n {
        var k := Place(n, big, j - offset);
        assert b[offset + Place(n, big, k)] == ds[k];
      }
    }
  }

  method WriteByte(buf: array<byte>, i: nat, b: byte)
    requires i < buf.Length
    modifies buf
    ensures buf[..] == old(buf[..])[i := b]
  {
    buf[i] := b;
  }

  /** Write the low 'n' bytes of a 64-bit integer. */
  method Write64(buf: array<byte>, offset: nat, n: nat, big: bool, v: int)
    requires 1 <= n <= 6 && offset + n <= buf.Length && -INT64_LIMIT <= v < INT64_LIMIT
    modifies buf
    ensures buf[..] == Patched(old(buf[..]), offset, Ordered(Digits(v, n), big))
  {
    var i: int, step: int, end: int := n, -1, 0;
    if !big {
      i, step, end := -1, 1, n - 1;
    }
    var tmp := v;
    ghost var k := 0;
    ghost var b0 := buf[..];
    WritingStart(b0, offset, n, big, v);
    hide Digits, Ordered, Writing, Patched;
    while true
      invariant 0 <= k < n && i == (if big then n - k else k - 1)
      invariant Writing(b0, buf[..], offset, n, big, v, k, tmp)
      decreases n - k
    {
      i := i + step;
      WritingNext(b0, buf[..], offset, n, big, v, k, tmp);
      WriteByte(buf, offset + i, tmp % 256);
      tmp := tmp / 256;
      k := k + 1;
      if i == end { break; }
    }
    WritingEnd(b0, buf[..], offset, n, big, v, tmp);
  }

  /** The remainder by 256 of a number that is not negative. */
  function Fmod256(x: real): real
  {
    x - 256.0 * (x / 256.0).Floor as real
  }

  lemma FloorBetween(y: real, q: int)
    requires q as real <= y < q as real + 1.0
    ensures y.Floor == q
  {
  }

  lemma DoubleDigit(m: nat, q: nat, d: nat)
    requires m == 256 * q + d && d < 256
    ensures Fmod256(m as real) == d as real && (m as real / 256.0).Floor == q
  {
    var y := m as real / 256.0;
    assert m as real == 256.0 * q as real + d as real;
    assert y == q as real + d as real / 256.0;
    FloorBetween(y, q);
  }

  /** The lowest byte of a floored value, and the rest. */
  method TakeDigit(v: real) returns (b: byte, rest: real)
    requires v >= 0.0
    ensures rest >= 0.0 && b == v.Floor % 256 && rest.Floor == v.Floor / 256
  {
    ghost var q, d := v.Floor / 256, v.Floor % 256;
    DoubleDigit(v.Floor, q, d);
    hide Fmod256;
    var tmp := v.Floor as real;
    b := Fmod256(tmp).Floor;
    rest := tmp / 256.0;
  }

  /** The writer for platforms without 64-bit integers, for values that are not negative. */
  method WriteDouble(buf: array<byte>, offset: nat, n: nat, big: bool, v: real)
    requires 1 <= n <= 6 && offset + n <= buf.Length && v >= 0.0
    modifies buf
    ensures buf[..] == Patched(old(buf[..]), offset, Ordered(Digits(v.Floor, n), big))
  {
    var i: int, step: int, end: int := n, -1, 0;
    if !big {
      i, step, end := -1, 1, n - 1;
    }
    var tmp := v;
    ghost var k := 0;
    ghost var b0 := buf[..];
    WritingStart(b0, offset, n, big, v.Floor);
    hide Digits, Ordered, Writing, Patched;
    while true
      invariant 0 <= k < n && i == (if big then n - k else k - 1) && tmp >= 0.0
      invariant Writing(b0, buf[..], offset, n, big, v.Floor, k, tmp.Floor)
      decreases n - k
    {
      i := i + step;
      WritingNext(b0, buf[..], offset, n, big, v.Floor, k, tmp.Floor);
      var b;
      b, tmp := TakeDigit(tmp);
      WriteByte(buf, offset + i, b);
      k := k + 1;
      if i == end { break; }
    }
    WritingEnd(b0, buf[..], offset, n, big, v.Floor, tmp.Floor);
  }

  // ---------- the shared methods ----------

  /** The checks that both methods make: a width of 1 to 6 and a field inside the buffer. */
  predicate Fits(offset: int, n: int, length: nat)
  {
    1 <= n <= 6 && 0 <= offset && offset + n <= length
  }

  method ReadField(buf: array<byte>, offset: int, n: int, big: bool, signed: bool, noAssert: bool) returns (r: ReadResult)
    requires -0x8000_0000 <= offset < 0x8000_0000
    ensures r == if Fits(offset, n, buf.Length) then Got(FieldValue(buf[offset..offset + n], big, signed))
                 else if noAssert then NotANumber else RangeError
  {
    var failed := if noAssert then NotANumber else RangeError;
    if offset < 0 { return failed; }
    if n < 1 || n > 6 { return failed; }
    if (offset + n) % UINT_VALUES > buf.Length { return failed; }
    var v := Read64(buf[offset..offset + n], big, signed);
    return Got(v);
  }

  /** The result is the offset after the field, or None for the range error; the unsigned sum wraps when a
      failed write reports it. */
  method WriteField(buf: array<byte>, offset: int, n: int, big: bool, v: int, noAssert: bool) returns (r: Option<nat>)
    requires -0x8000_0000 <= offset < 0x8000_0000 && -INT64_LIMIT <= v < INT64_LIMIT
    modifies buf
    ensures if Fits(offset, n, buf.Length) then
              && r == Some(offset + n)
              && buf[..] == Patched(old(buf[..]), offset, Ordered(Digits(v, n), big))
            else
              && r == (if noAssert then Some((offset + n) % UINT_VALUES) else None)
              && buf[..] == old(buf[..])
  {
    var failed := if noAssert then Some((offset + n) % UINT_VALUES) else None;
    if n < 1 || n > 6 { return failed; }
    if offset < 0 { return failed; }
    if (offset + n) % UINT_VALUES > buf.Length { return failed; }
    Write64(buf, offset, n, big, v);
    return Some(offset + n);
  }

  /** A field read right after it was written has the written value exactly when the field can hold it. */
  method WriteThenRead(buf: array<byte>, offset: int, n: int, big: bool, signed: bool, v: int) returns (r: ReadResult)
    requires -0x8000_0000 <= offset < 0x8000_0000 && -INT64_LIMIT <= v < INT64_LIMIT
    modifies buf
    ensures !Fits(offset, n, buf.Length) ==> r == RangeError && buf[..] == old(buf[..])
    ensures Fits(offset, n, buf.Length) ==> (r == Got(v) <==> InRange(v, n, signed))
  {
    var _ := WriteField(buf, offset, n, big, v, false);
    r := ReadField(buf, offset, n, big, signed, false);
    if Fits(offset, n, buf.Length) {
      RoundTrip(v, n, big, signed);
      assert buf[offset..offset + n] == Ordered(Digits(v, n), big);
    }
  }
}
