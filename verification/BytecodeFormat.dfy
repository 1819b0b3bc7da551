/** The bytecode format of compiled functions: what a dump is, and what loading makes of bytes. */
module BytecodeFormat {
  import opened Words
  import opened Wrappers
  import opened StringLength

  type U16 = x: int | 0 <= x < 0x1_0000
  type U32 = x: int | 0 <= x < 0x1_0000_0000

  /** Strings and buffers, within the maximum byte length. */
  type Str = s: Bytes | |s| <= 0x7fff_ffff witness []

  datatype Const = Text(s: Str) | Num(bits: Octets)
  datatype Binding = Binding(name: Str, reg: U32)

  /** The properties of a function that a dump keeps; None is an absent property, or one of another type. */
  datatype Props = Props(length: Option<U32>, name: Option<Str>, fileName: Option<Str>, pc2line: Option<Str>,
                         varmap: Option<seq<Binding>>, formals: Option<seq<Str>>)

  /** The fixed-size part of a function; the flags are without the heap type, which the header word also holds. */
  datatype Head = Head(nregs: U16, nargs: U16, startLine: U32, endLine: U32, flags: U32)

  datatype Func = Func(head: Head, code: seq<U32>, consts: seq<Const>, funcs: seq<Func>, props: Props)

  const SER_MARKER: byte := 0xbf
  const SER_STRING: byte := 0x00
  const SER_NUMBER: byte := 0x01
  const NO_FORMALS: U32 := 0xffff_ffff

  /** Bit 21 of the flags marks a function with a finalizer. */
  const FINALIZER := 0x20_0000

  function ClearFinalizer(flags: U32): (r: U32)
    ensures (r / FINALIZER) % 2 == 0 && r % FINALIZER == flags % FINALIZER && r / (2 * FINALIZER) == flags / (2 * FINALIZER)
  {
    if (flags / FINALIZER) % 2 == 1 then flags - FINALIZER else flags
  }

  function Default<T>(x: Option<T>, d: T): T
  {
    if x.Some? then x.value else d
  }

  // ---------- dump ----------

  function DumpStr(s: Bytes): Bytes
  {
    Put32(|s|) + s
  }

  function DumpHead(f: Func): (b: Bytes)
    ensures |b| == 28
  {
    Put32(|f.code|) + Put32(|f.consts|) + Put32(|f.funcs|) + Put16(f.head.nregs) + Put16(f.head.nargs)
    + Put32(f.head.startLine) + Put32(f.head.endLine) + Put32(ClearFinalizer(f.head.flags))
  }

  function DumpCode(code: seq<U32>): Bytes
  {
    if code == [] then [] else Put32(code[0]) + DumpCode(code[1..])
  }

  function DumpConst(c: Const): Bytes
  {
    match c
    case Text(s) => [SER_STRING] + DumpStr(s)
    case Num(bits) => [SER_NUMBER] + bits
  }

  function DumpConsts(cs: seq<Const>): Bytes
  {
    if cs == [] then [] else DumpConst(cs[0]) + DumpConsts(cs[1..])
  }

  function DumpBindings(vs: seq<Binding>): Bytes
  {
    if vs == [] then Put32(0) else DumpStr(vs[0].name) + Put32(vs[0].reg) + DumpBindings(vs[1..])
  }

  function DumpNames(ns: seq<Str>): Bytes
  {
    if ns == [] then [] else DumpStr(ns[0]) + DumpNames(ns[1..])
  }

  function DumpFormals(formals: Option<seq<Str>>): Bytes
  {
    match formals
    case None => Put32(NO_FORMALS)
    case Some(ns) => Put32(|ns|) + DumpNames(ns)
  }

  function DumpProps(p: Props, nargs: U16): Bytes
  {
    Put32(Default(p.length, nargs)) + DumpStr(Default(p.name, [])) + DumpStr(Default(p.fileName, []))
    + DumpStr(Default(p.pc2line, [])) + DumpBindings(Default(p.varmap, [])) + DumpFormals(p.formals)
  }

  function Dump(f: Func): Bytes
    decreases f, 0
  {
    DumpHead(f) + DumpCode(f.code) + DumpConsts(f.consts) + DumpFuncs(f, |f.funcs|) + DumpProps(f.props, f.head.nargs)
  }

  /** The dumps of the last 'n' inner functions. */
  function DumpFuncs(f: Func, n: nat): Bytes
    requires n <= |f.funcs|
    decreases f, 0, n
  {
    if n == 0 then [] else Dump(f.funcs[|f.funcs| - n]) + DumpFuncs(f, n - 1)
  }

  // ---------- load ----------

  /** What a loader makes of the front of some bytes, and the bytes behind it.  The original does not check
      for the end of input; Overrun stands for its undefined behaviour there. */
  datatype Parse<T> = Got(v: T, rest: Bytes) | Malformed | Overrun

  /** A failure stays the failure it is. */
  function Failure<T, U>(r: Parse<T>): (q: Parse<U>)
    requires !r.Got?
    ensures !q.Got? && q.Malformed? == r.Malformed?
  {
    if r.Malformed? then Malformed else Overrun
  }

  /** A value in front of a loaded list. */
  function Prepend<T>(v: T, r: Parse<seq<T>>): (q: Parse<seq<T>>)
    ensures q.Got? == r.Got? && (r.Got? ==> q.rest == r.rest)
  {
    if r.Got? then Got([v] + r.v, r.rest) else r
  }

  /** A load succeeds with the value 'v'. */
  predicate Yields<T(==)>(r: Parse<T>, v: T)
  {
    r.Got? && r.v == v
  }

  function Word(w: Bytes): U32
    requires |w| == 4
  {
    WordBound(w);
    Get32(w)
  }

  lemma WordBound(w: Bytes)
    requires |w| == 4
    ensures Get32(w) < 0x1_0000_0000
  {
  }

  function LoadU32(b: Bytes): (r: Parse<U32>)
    ensures r.Got? ==> |r.rest| <= |b|
  {
    if |b| < 4 then Overrun else Got(Word(b[..4]), b[4..])
  }

  function LoadStr(b: Bytes): (r: Parse<Str>)
    ensures r.Got? ==> |r.rest| < |b|
  {
    if |b| < 4 then Overrun
    else
      var len := Word(b[..4]);
      if |b| < 4 + len || len > 0x7fff_ffff then Overrun
      else
        var s: Str := b[4..4 + len];
        Got(s, b[4 + len..])
  }

  /** The fields of the fixed-size start of a dump. */
  datatype Start = Start(instrs: U32, consts: U32, funcs: U32, head: Head)

  function LoadStart(b: Bytes): (r: Parse<Start>)
    ensures r.Got? ==> |r.rest| < |b|
  {
    if |b| < 28 then Overrun
    else
      Got(Start(Word(b[0..4]), Word(b[4..8]), Word(b[8..12]),
                Head(Get16(b[12..14]), Get16(b[14..16]), Word(b[16..20]), Word(b[20..24]), Word(b[24..28]))), b[28..])
  }

  function LoadCode(b: Bytes, n: nat): (r: Parse<seq<U32>>)
    ensures r.Got? ==> |r.rest| <= |b|
    decreases n
  {
    if n == 0 then Got([], b)
    else
      var x := LoadU32(b);
      if x.Got? then Prepend(x.v, LoadCode(x.rest, n - 1)) else Failure(x)
  }

  function LoadConst(b: Bytes): (r: Parse<Const>)
    ensures r.Got? ==> |r.rest| <= |b|
  {
    if b == [] then Overrun
    else if b[0] == SER_STRING then
      var s := LoadStr(b[1..]);
      if s.Got? then Got(Text(s.v), s.rest) else Failure(s)
    else if b[0] == SER_NUMBER then
      if |b| < 9 then Overrun else Got(Num(b[1..9]), b[9..])
    else Malformed
  }

  function LoadConsts(b: Bytes, n: nat): (r: Parse<seq<Const>>)
    ensures r.Got? ==> |r.rest| <= |b|
    decreases n
  {
    if n == 0 then Got([], b)
    else
      var x := LoadConst(b);
      if x.Got? then Prepend(x.v, LoadConsts(x.rest, n - 1)) else Failure(x)
  }

  /** Put a key into a property table. */
  function Put(vs: seq<Binding>, name: Str, reg: U32): seq<Binding>
  {
    if vs == [] then [Binding(name, reg)]
    else if vs[0].name == name then [Binding(name, reg)] + vs[1..]
    else [vs[0]] + Put(vs[1..], name, reg)
  }

  /** Read bindings up to a name of length zero. */
  function LoadBindings(b: Bytes, acc: seq<Binding>): (r: Parse<seq<Binding>>)
    ensures r.Got? ==> |r.rest| <= |b|
    decreases |b|
  {
    var s := LoadStr(b);
    if !s.Got? then Failure(s)
    else if Length(s.v) == 0 then Got(acc, s.rest)
    else
      var x := LoadU32(s.rest);
      if x.Got? then LoadBindings(x.rest, Put(acc, s.v, x.v)) else Failure(x)
  }

  function LoadNames(b: Bytes, n: nat): (r: Parse<seq<Str>>)
    ensures r.Got? ==> |r.rest| <= |b|
    decreases n
  {
    if n == 0 then Got([], b)
    else
      var x := LoadStr(b);
      if x.Got? then Prepend(x.v, LoadNames(x.rest, n - 1)) else Failure(x)
  }

  function LoadFormals(b: Bytes): (r: Parse<Option<seq<Str>>>)
    ensures r.Got? ==> |r.rest| <= |b|
  {
    var n := LoadU32(b);
    if !n.Got? then Failure(n)
    else if n.v == NO_FORMALS then Got(None, n.rest)
    else
      var r := LoadNames(n.rest, n.v);
      if r.Got? then Got(Some(r.v), r.rest) else Failure(r)
  }

  /** The part of the properties with one entry each. */
  function LoadNamed(b: Bytes): (r: Parse<Props>)
    ensures r.Got? ==> |r.rest| <= |b|
  {
    var l := LoadU32(b);
    if !l.Got? then Failure(l)
    else
      var n := LoadStr(l.rest);
      if !n.Got? then Failure(n)
      else
        var fn := LoadStr(n.rest);
        if !fn.Got? then Failure(fn)
        else
          var pc := LoadStr(fn.rest);
          if !pc.Got? then Failure(pc)
          else Got(Props(Some(l.v), Some(n.v), Some(fn.v), Some(pc.v), None, None), pc.rest)
  }

  /** The variable map and formals, added to the properties read so far. */
  function LoadLists(p: Props, b: Bytes): (r: Parse<Props>)
    ensures r.Got? ==> |r.rest| <= |b|
  {
    var vs := LoadBindings(b, []);
    if !vs.Got? then Failure(vs)
    else
      var ns := LoadFormals(vs.rest);
      if !ns.Got? then Failure(ns) else Got(p.(varmap := Some(vs.v), formals := ns.v), ns.rest)
  }

  function LoadProps(b: Bytes): (r: Parse<Props>)
    ensures r.Got? ==> |r.rest| <= |b|
  {
    var p := LoadNamed(b);
    if p.Got? then LoadLists(p.v, p.rest) else p
  }

  /** The start, instructions and constants of a function. */
  datatype Body = Body(start: Start, code: seq<U32>, consts: seq<Const>)

  function LoadBody(b: Bytes): (r: Parse<Body>)
    ensures r.Got? ==> |r.rest| < |b|
  {
    var h := LoadStart(b);
    if !h.Got? then Failure(h)
    else
      var code := LoadCode(h.rest, h.v.instrs);
      if !code.Got? then Failure(code)
      else
        var cs := LoadConsts(code.rest, h.v.consts);
        if !cs.Got? then Failure(cs) else Got(Body(h.v, code.v, cs.v), cs.rest)
  }

  /** A function from its body and its inner functions, with the properties that follow them. */
  function LoadTail(x: Body, fs: Parse<seq<Func>>): (r: Parse<Func>)
    ensures r.Got? ==> fs.Got? && |r.rest| <= |fs.rest|
  {
    if !fs.Got? then Failure(fs)
    else
      var p := LoadProps(fs.rest);
      if p.Got? then Got(Func(x.start.head, x.code, x.consts, fs.v, p.v), p.rest) else Failure(p)
  }

  function Load(b: Bytes): (r: Parse<Func>)
    ensures r.Got? ==> |r.rest| <= |b|
    decreases |b|, 0
  {
    var x := LoadBody(b);
    if x.Got? then LoadTail(x.v, LoadFuncs(x.rest, x.v.start.funcs)) else Failure(x)
  }

  function LoadFuncs(b: Bytes, n: nat): (r: Parse<seq<Func>>)
    ensures r.Got? ==> |r.rest| <= |b|
    decreases |b|, n + 1
  {
    if n == 0 then Got([], b)
    else
      var x := Load(b);
      if x.Got? then Prepend(x.v, LoadFuncs(x.rest, n - 1)) else Failure(x)
  }

  // ---------- what a round trip keeps ----------

  /** A function as it is after a dump and a load: defaults are filled in and the finalizer flag is gone. */
  function Normal(f: Func): Func
    decreases f, 0
  {
    Func(f.head.(flags := ClearFinalizer(f.head.flags)), f.code, f.consts, NormalFuncs(f, |f.funcs|), NormalProps(f.props, f.head.nargs))
  }

  function NormalProps(p: Props, nargs: U16): Props
  {
    Props(Some(Default(p.length, nargs)), Some(Default(p.name, [])), Some(Default(p.fileName, [])),
          Some(Default(p.pc2line, [])), Some(Default(p.varmap, [])), p.formals)
  }

  function NormalFuncs(f: Func, n: nat): (gs: seq<Func>)
    requires n <= |f.funcs|
    ensures |gs| == n
    decreases f, 0, n
  {
    if n == 0 then [] else [Normal(f.funcs[|f.funcs| - n])] + NormalFuncs(f, n - 1)
  }

  /** The limits that hold of every function: counts are 32-bit and a variable map has no key twice. */
  ghost predicate Limits(f: Func)
    decreases f
  {
    && |f.code| < 0x1_0000_0000 && |f.consts| < 0x1_0000_0000 && |f.funcs| < 0x1_0000_0000
    && (f.props.formals.Some? ==> |f.props.formals.value| < 0x1_0000_0000)
    && Distinct(Default(f.props.varmap, []))
    && forall i :: 0 <= i < |f.funcs| ==> Limits(f.funcs[i])
  }

  ghost predicate Distinct(vs: seq<Binding>)
  {
    forall i, j :: 0 <= i < j < |vs| ==> vs[i].name != vs[j].name
  }

  /** At every depth, no variable has a name that looks empty and the count of formals is not the marker. */
  ghost predicate Portable(f: Func)
    decreases f
  {
    && PortableProps(f.props)
    && forall i :: 0 <= i < |f.funcs| ==> Portable(f.funcs[i])
  }

  ghost predicate PortableProps(p: Props)
  {
    && (forall i :: 0 <= i < |Default(p.varmap, [])| ==> !SeemsEmpty(Default(p.varmap, [])[i].name))
    && (p.formals.Some? ==> |p.formals.value| != NO_FORMALS)
  }
}
