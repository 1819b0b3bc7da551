/** The values of the debugger protocol, their byte format, and the parser of one value. */
module DebugValues {
  import opened Words
  import opened Wrappers
  import VarintSpec

  /** Values as the debugger keeps them.  A whole JavaScript number other than negative zero is an Int, and
      any other JavaScript number is a Double with its IEEE bytes; a Number holds bytes that came from the
      target.  Data and pointers are byte sequences, written in hexadecimal in the original. */
  datatype Dval =
    | Eom | Req | Rep | Err | Nfy
    | Unused | Undefined | Null | Bool(b: bool)
    | Int(n: int) | Double(bits: Octets) | Number(data: Bytes)
    | Str(chars: seq<nat>) | Buf(data: Bytes)
    | Object(cls: int, ptr: Bytes) | Pointer(ptr: Bytes) | Lightfunc(flags: int, ptr: Bytes) | Heapptr(ptr: Bytes)

  function Signed32(u: nat): int
  {
    if u >= 0x8000_0000 then u - 0x1_0000_0000 else u
  }

  // ---------- parsing ----------

  /** The number of header bytes that an initial byte announces, or None for a bad initial byte. */
  function HeadSize(x: byte): (n: Option<nat>)
    ensures n.Some? ==> 1 <= n.value <= 5
  {
    if x >= 0xc0 then Some(2)
    else if x >= 0x60 then Some(1)
    else if x <= 0x04 || 0x15 <= x <= 0x1a then Some(1)
    else if x == 0x10 || x == 0x11 || x == 0x13 then Some(5)
    else if x == 0x12 || x == 0x14 || x == 0x1b then Some(3)
    else if x == 0x1c || x == 0x1e then Some(2)
    else if x == 0x1d then Some(4)
    else None
  }

  /** The number of payload bytes that a header announces. */
  function PayloadSize(h: Bytes): nat
    requires h != [] && HeadSize(h[0]) == Some(|h|)
  {
    var x := h[0];
    if 0x60 <= x < 0x80 then x - 0x60
    else if x == 0x11 || x == 0x13 then Get32(h[1..])
    else if x == 0x12 || x == 0x14 then Get16(h[1..])
    else if x == 0x1a then 8
    else if x == 0x1b then h[2]
    else if x == 0x1c || x == 0x1e then h[1]
    else if x == 0x1d then h[3]
    else 0
  }

  /** A string value holds one character per byte. */
  function Chars(p: Bytes): (s: seq<nat>)
    ensures |s| == |p| && forall i :: 0 <= i < |p| ==> s[i] == p[i]
  {
    seq(|p|, i requires 0 <= i < |p| => p[i])
  }

  function Decode(h: Bytes, p: Bytes): Dval
    requires h != [] && HeadSize(h[0]) == Some(|h|)
  {
    var x := h[0];
    if x >= 0xc0 then Int(Append8(x - 0xc0, h[1]))
    else if x >= 0x80 then Int(x - 0x80)
    else if x >= 0x60 || x == 0x11 || x == 0x12 then Str(Chars(p))
    else if x == 0x00 then Eom else if x == 0x01 then Req else if x == 0x02 then Rep
    else if x == 0x03 then Err else if x == 0x04 then Nfy
    else if x == 0x10 then Int(Signed32(Get32(h[1..])))
    else if x == 0x13 || x == 0x14 then Buf(p)
    else if x == 0x15 then Unused else if x == 0x16 then Undefined else if x == 0x17 then Null
    else if x == 0x18 then Bool(true) else if x == 0x19 then Bool(false)
    else if x == 0x1a then Number(p)
    else if x == 0x1b then Object(h[1], p)
    else if x == 0x1c then Pointer(p)
    else if x == 0x1d then Lightfunc(Get16(h[1..3]), p)
    else Heapptr(p)
  }

  datatype Trial = Parsed(v: Dval, size: nat) | NeedMore | Bad

  /** The value at the front of a buffer. */
  function TryParse(b: Bytes): (t: Trial)
    ensures t.Parsed? ==> 0 < t.size <= |b|
  {
    if b == [] then NeedMore
    else match HeadSize(b[0])
      case None => Bad
      case Some(k) =>
        if |b| < k then NeedMore
        else if |b| < k + PayloadSize(b[..k]) then NeedMore
        else Parsed(Decode(b[..k], b[k..k + PayloadSize(b[..k])]), k + PayloadSize(b[..k]))
  }

  /** A complete value at the front of a buffer, or a bad byte there, stays what it is when bytes follow. */
  lemma {:induction false} PrefixCode(b: Bytes, c: Bytes)
    requires !TryParse(b).NeedMore?
    ensures TryParse(b + c) == TryParse(b)
  {
    hide PayloadSize, Decode, HeadSize;
    var k := HeadSize(b[0]);
    if k.Some? {
      assert (b + c)[..k.value] == b[..k.value];
      var n := k.value + PayloadSize(b[..k.value]);
      assert (b + c)[k.value..n] == b[k.value..n];
    }
  }

  // ---------- formatting ----------

  datatype Parts = Parts(h: Bytes, p: Bytes)

  /** The low eight bits of every character. */
  function LowChars(s: seq<nat>): (p: Bytes)
    ensures |p| == |s| && forall i :: 0 <= i < |s| ==> p[i] == Low(s[i])
  {
    seq(|s|, i requires 0 <= i < |s| => Low(s[i]))
  }

  function FormatInt(n: int, ieee: int -> Octets): Parts
  {
    if 0 <= n <= 0x3f then Parts([0x80 + n], [])
    else if 0 <= n <= 0x3fff then Parts([0xc0 + n / 0x100, Low(n)], [])
    else if -0x8000_0000 <= n <= 0x7fff_ffff then Parts([0x10] + Put32(n), [])
    else Parts([0x1a], ieee(n))
  }

  function FormatSized(short: byte, long: byte, p: Bytes): Parts
  {
    if |p| <= 0xffff then Parts([short] + Put16(|p|), p) else Parts([long] + Put32(|p|), p)
  }

  /** The header and payload of a value, or None for the type error; 'ieee' gives the bytes of whole numbers. */
  function Format(v: Dval, ieee: int -> Octets): Option<Parts>
  {
    match v
    case Eom => Some(Parts([0x00], []))
    case Req => Some(Parts([0x01], []))
    case Rep => Some(Parts([0x02], []))
    case Err => Some(Parts([0x03], []))
    case Nfy => Some(Parts([0x04], []))
    case Unused => Some(Parts([0x15], []))
    case Undefined => Some(Parts([0x16], []))
    case Null => Some(Parts([0x17], []))
    case Bool(b) => Some(Parts([if b then 0x18 else 0x19], []))
    case Int(n) => Some(FormatInt(n, ieee))
    case Double(bits) => Some(Parts([0x1a], bits))
    case Number(data) => if |data| != 8 then None else Some(Parts([0x1a], data))
    case Str(chars) =>
      if |chars| > 0xffff_ffff then None
      else if |chars| <= 0x1f then Some(Parts([0x60 + |chars|], LowChars(chars)))
      else Some(FormatSized(0x12, 0x11, LowChars(chars)))
    case Buf(data) => Some(FormatSized(0x14, 0x13, data))
    case Object(cls, ptr) => Some(Parts([0x1b, Low(cls), Low(|ptr|)], ptr))
    case Pointer(ptr) => Some(Parts([0x1c, Low(|ptr|)], ptr))
    case Lightfunc(flags, ptr) => Some(Parts([0x1d] + Put16(flags) + [Low(|ptr|)], ptr))
    case Heapptr(ptr) => Some(Parts([0x1e, Low(|ptr|)], ptr))
  }

  /** The values that the format can carry. */
  predicate Encodable(v: Dval)
  {
    match v
    case Int(n) => -0x8000_0000 <= n <= 0x7fff_ffff
    case Double(_) => false
    case Number(data) => |data| == 8
    case Str(chars) => |chars| <= 0xffff_ffff && forall i :: 0 <= i < |chars| ==> chars[i] <= 0xff
    case Buf(data) => |data| <= 0xffff_ffff
    case Object(cls, ptr) => 0 <= cls <= 0xff && |ptr| <= 0xff
    case Pointer(ptr) => |ptr| <= 0xff
    case Lightfunc(flags, ptr) => 0 <= flags <= 0xffff && |ptr| <= 0xff
    case Heapptr(ptr) => |ptr| <= 0xff
    case _ => true
  }

  /** A header is read with the size it was written with. */
  ghost predicate HeaderOk(x: Parts)
  {
    x.h != [] && HeadSize(x.h[0]) == Some(|x.h|)
  }

  /** The parts decode to a value. */
  ghost predicate Reads(x: Parts, v: Dval)
    requires HeaderOk(x)
  {
    PayloadSize(x.h) == |x.p| && Decode(x.h, x.p) == v
  }

  lemma IntParts(n: int, ieee: int -> Octets)
    ensures var x := FormatInt(n, ieee); HeaderOk(x) && (Reads(x, Int(n)) <==> Encodable(Int(n)))
  {
    hide Put32;
    if 0x3f < n <= 0x3fff {
      assert Append8(n / 0x100, Low(n)) == n;
    } else if -0x8000_0000 <= n < 0 || 0x3fff < n <= 0x7fff_ffff {
      WideInt(n);
    }
  }

  lemma WideInt(n: int)
    requires -0x8000_0000 <= n <= 0x7fff_ffff
    ensures var x := Parts([0x10] + Put32(n), []); HeaderOk(x) && Reads(x, Int(n))
  {
    Word32(n);
    SignedBack(n);
    hide Put32, Get32, Signed32;
    assert ([0x10] + Put32(n))[1..] == Put32(n);
  }

  lemma SignedBack(n: int)
    requires -0x8000_0000 <= n <= 0x7fff_ffff
    ensures Signed32(n % 0x1_0000_0000) == n
  {
  }

  lemma SizedParts(short: byte, long: byte, p: Bytes)
    requires (short == 0x12 && long == 0x11) || (short == 0x14 && long == 0x13)
    ensures var x := FormatSized(short, long, p);
            && HeaderOk(x) && x.p == p && x.h[0] in {short, long}
            && (PayloadSize(x.h) == |p| <==> |p| <= 0xffff_ffff)
  {
    hide Put16, Put32, Get16, Get32;
    var x := FormatSized(short, long, p);
    Word16(|p|);
    Word32(|p|);
    if |p| <= 0xffff {
      assert x.h[1..] == Put16(|p|);
    } else {
      assert x.h[1..] == Put32(|p|);
    }
  }

  lemma CharsBack(s: seq<nat>)
    ensures Chars(LowChars(s)) == s <==> forall i :: 0 <= i < |s| ==> s[i] <= 0xff
  {
    var t := Chars(LowChars(s));
    assert forall i :: 0 <= i < |s| ==> (t[i] == s[i] <==> s[i] <= 0xff);
  }

  lemma StrParts(chars: seq<nat>, ieee: int -> Octets)
    requires |chars| <= 0xffff_ffff
    ensures var x := Format(Str(chars), ieee).value; HeaderOk(x) && (Reads(x, Str(chars)) <==> Encodable(Str(chars)))
  {
    CharsBack(chars);
    hide LowChars, Chars;
    if |chars| > 0x1f {
      SizedParts(0x12, 0x11, LowChars(chars));
      hide FormatSized, PayloadSize;
    }
  }

  lemma BufParts(data: Bytes, ieee: int -> Octets)
    ensures var x := Format(Buf(data), ieee).value; HeaderOk(x) && (Reads(x, Buf(data)) <==> Encodable(Buf(data)))
  {
    SizedParts(0x14, 0x13, data);
    hide FormatSized, PayloadSize;
  }

  lemma LightfuncParts(flags: int, ptr: Bytes, ieee: int -> Octets)
    ensures var v := Lightfunc(flags, ptr);
            var x := Format(v, ieee).value; HeaderOk(x) && (Reads(x, v) <==> Encodable(v))
  {
    hide Put16, Get16;
    var h := [0x1d] + Put16(flags) + [Low(|ptr|)];
    Word16(flags);
    assert h[1..3] == Put16(flags) && h[3] == |ptr| % 256 && |h| == 4;
    assert Format(Lightfunc(flags, ptr), ieee) == Some(Parts(h, ptr));
  }

  /** A value's parts decode to it exactly when it is encodable. */
  lemma FormatParts(v: Dval, ieee: int -> Octets)
    requires Format(v, ieee).Some?
    ensures var x := Format(v, ieee).value; HeaderOk(x) && (Reads(x, v) <==> Encodable(v))
  {
    match v
    case Int(n) => IntParts(n, ieee);
    case Str(chars) => StrParts(chars, ieee);
    case Buf(data) => BufParts(data, ieee);
    case Lightfunc(flags, ptr) => LightfuncParts(flags, ptr, ieee);
    case Number(data) => SimpleParts(v, ieee);
    case _ => SimpleParts(v, ieee);
  }

  lemma SimpleParts(v: Dval, ieee: int -> Octets)
    requires !v.Int? && !v.Str? && !v.Buf? && !v.Lightfunc? && Format(v, ieee).Some?
    ensures var x := Format(v, ieee).value; HeaderOk(x) && (Reads(x, v) <==> Encodable(v))
  {
  }

  /** Parsing a formatted value, whatever follows it, gives the value and exactly its bytes if and only if
      the value is encodable. */
  lemma {:induction false} ParseFormatted(v: Dval, ieee: int -> Octets, rest: Bytes)
    ensures Encodable(v) ==> Format(v, ieee).Some?
    ensures Format(v, ieee).Some? ==>
              var f := Format(v, ieee).value.h + Format(v, ieee).value.p;
              TryParse(f + rest) == Parsed(v, |f|) <==> Encodable(v)
  {
    if Format(v, ieee).Some? {
      var x := Format(v, ieee).value;
      FormatParts(v, ieee);
      hide Format, Encodable, Decode, HeadSize, PayloadSize;
      var b := x.h + x.p + rest;
      assert b[..|x.h|] == x.h;
      assert b[|x.h|..|x.h| + |x.p|] == x.p;
    }
  }

  /** A double and a whole number beyond 32 bits come back as the eight bytes that stand for them. */
  lemma OtherNumbersBack(v: Dval, ieee: int -> Octets, rest: Bytes)
    requires v.Double? || (v.Int? && !(-0x8000_0000 <= v.n <= 0x7fff_ffff))
    ensures Format(v, ieee).Some?
    ensures var x := Format(v, ieee).value;
            TryParse(x.h + x.p + rest) == Parsed(Number(if v.Double? then v.bits else ieee(v.n)), 9)
  {
    var bits := if v.Double? then v.bits else ieee(v.n);
    var b := [0x1a] + bits + rest;
    assert b[..1] == [0x1a] && b[1..9] == bits;
  }

  /** The initial bytes of the protocol. */
  lemma InitialBytes(v: Dval, ieee: int -> Octets)
    requires Format(v, ieee).Some?
    ensures var x := Format(v, ieee).value.h[0];
            && (x < 0x10 <==> v.Eom? || v.Req? || v.Rep? || v.Err? || v.Nfy?)
            && (v in [Eom, Req, Rep, Err, Nfy] ==> [Eom, Req, Rep, Err, Nfy][x] == v)
            && (0x15 <= x <= 0x19 ==> v == [Unused, Undefined, Null, Bool(true), Bool(false)][x - 0x15])
            && (v.Int? <==> x == 0x10 || x >= 0x80 || (x == 0x1a && !v.Double? && !v.Number?))
            && (v.Str? <==> x == 0x11 || x == 0x12 || 0x60 <= x < 0x80) && (v.Buf? <==> x == 0x13 || x == 0x14)
            && (x == 0x1a <==> v.Double? || v.Number? || (v.Int? && !(-0x8000_0000 <= v.n <= 0x7fff_ffff)))
            && (v.Object? <==> x == 0x1b) && (v.Pointer? <==> x == 0x1c) && (v.Lightfunc? <==> x == 0x1d) && (v.Heapptr? <==> x == 0x1e)
  {
    hide Put32, Put16, LowChars;
  }

  /** The numbers in a header: the value of an integer, and the length of a string or a buffer. */
  predicate HeaderNumber(h: Bytes, n: int)
    requires 1 <= |h| <= 5
  {
    && (|h| == 5 ==> VarintSpec.Number(h[1..]) == n % 0x1_0000_0000)
    && (|h| == 3 ==> VarintSpec.Number(h[1..]) == n)
    && (|h| == 2 ==> 0xc0 <= h[0] && VarintSpec.Number([h[0] - 0xc0, h[1]]) == n)
    && (|h| == 1 ==> h[0] == n + if h[0] >= 0x80 then 0x80 else 0x60)
  }

  /** Headers hold their numbers most significant byte first. */
  lemma HeaderFields(v: Dval, ieee: int -> Octets)
    requires Format(v, ieee).Some?
    ensures var x := Format(v, ieee).value;
            && 1 <= |x.h| <= 5
            && (v.Int? && x.h[0] != 0x1a ==> HeaderNumber(x.h, v.n))
            && (v.Str? || v.Buf? ==> HeaderNumber(x.h, |x.p|))
  {
    match v
    case Int(n) => IntHeader(n, ieee);
    case Str(chars) => SizedHeader(0x12, 0x11, LowChars(chars));
    case Buf(data) => SizedHeader(0x14, 0x13, data);
    case _ =>
    hide HeaderNumber, LowChars, FormatSized, FormatInt;
  }

  lemma IntHeader(n: int, ieee: int -> Octets)
    ensures var h := FormatInt(n, ieee).h; 1 <= |h| <= 5 && (h[0] != 0x1a ==> HeaderNumber(h, n))
  {
    Word32(n);
    VarintSpec.WordNumber(Put32(n));
    assert ([0x10] + Put32(n))[1..] == Put32(n);
    if 0x3f < n <= 0x3fff {
      VarintSpec.WordNumber([n / 0x100, Low(n)]);
    }
    hide Put32, VarintSpec.Number;
  }

  lemma SizedHeader(short: byte, long: byte, p: Bytes)
    ensures var h := FormatSized(short, long, p).h; 1 <= |h| <= 5 && |h| != 2 && HeaderNumber(h, |p|)
  {
    Word32(|p|);
    Word16(|p|);
    VarintSpec.WordNumber(Put32(|p|));
    VarintSpec.WordNumber(Put16(|p|));
    assert ([long] + Put32(|p|))[1..] == Put32(|p|) && ([short] + Put16(|p|))[1..] == Put16(|p|);
    hide Put32, Put16, VarintSpec.Number;
  }
}
