/** The load code: a pointer advanced through the dump while values are collected. */
module BytecodeReader {
  import opened Words
  import opened Wrappers
  import opened BytecodeFormat
  import opened BytecodeLaws
  import opened StringLength

  /** Values collected so far in front of what the rest loads to. */
  function PrependAll<T>(vs: seq<T>, r: Parse<seq<T>>): Parse<seq<T>>
  {
    if r.Got? then Got(vs + r.v, r.rest) else r
  }

  lemma PrependMore<T>(vs: seq<T>, x: T, r: Parse<seq<T>>)
    ensures PrependAll(vs, Prepend(x, r)) == PrependAll(vs + [x], r)
  {
    if r.Got? {
      assert vs + ([x] + r.v) == vs + [x] + r.v;
    }
  }

  lemma PrependNone<T>(r: Parse<seq<T>>)
    ensures PrependAll([], r) == r
  {
    if r.Got? {
      assert [] + r.v == r.v;
    }
  }

  class Cursor {
    const data: Bytes
    var p: nat

    ghost predicate Valid()
      reads this
    {
      p <= |data|
    }

    function Rest(): Bytes
      reads this
      requires Valid()
    {
      data[p..]
    }

    constructor (data: Bytes)
      ensures Valid() && Rest() == data
    {
      this.data := data;
      p := 0;
    }

    method ReadU32() returns (r: Parse<U32>)
      requires Valid()
      modifies this
      ensures Valid() && r == LoadU32(old(Rest())) && (r.Got? ==> Rest() == r.rest)
    {
      if |data| - p < 4 { return Overrun; }
      assert data[p..][..4] == data[p..p + 4];
      var n := Word(data[p..p + 4]);
      p := p + 4;
      return Got(n, data[p..]);
    }

    method ReadStr() returns (r: Parse<Str>)
      requires Valid()
      modifies this
      ensures Valid() && r == LoadStr(old(Rest())) && (r.Got? ==> Rest() == r.rest)
    {
      var b := data[p..];
      if |b| < 4 { return Overrun; }
      var len := Word(b[..4]);
      if |b| - 4 < len || len > 0x7fff_ffff { return Overrun; }
      p := p + 4;
      var s: Str := data[p..p + len];
      assert b[4..4 + len] == s;
      p := p + len;
      assert b[4 + len..] == data[p..];
      return Got(s, data[p..]);
    }

    /** A word that is known to be there. */
    method RawU32() returns (n: U32)
      requires p + 4 <= |data|
      modifies this
      ensures p == old(p) + 4 <= |data| && n == Word(data[old(p)..old(p) + 4])
    {
      n := Word(data[p..p + 4]);
      p := p + 4;
    }

    method RawU16() returns (n: U16)
      requires p + 2 <= |data|
      modifies this
      ensures p == old(p) + 2 <= |data| && n == Get16(data[old(p)..old(p) + 2])
    {
      n := Get16(data[p..p + 2]);
      p := p + 2;
    }

    method ReadStart() returns (r: Parse<Start>)
      requires Valid()
      modifies this
      ensures Valid() && r == LoadStart(old(Rest())) && (r.Got? ==> Rest() == r.rest && p > old(p))
    {
      if |data| - p < 28 { return Overrun; }
      hide Word, Get16;
      StartSlices(data, p);
      var instrs := RawU32();
      var consts := RawU32();
      var funcs := RawU32();
      var nregs := RawU16();
      var nargs := RawU16();
      var startLine := RawU32();
      var endLine := RawU32();
      var flags := RawU32();
      return Got(Start(instrs, consts, funcs, Head(nregs, nargs, startLine, endLine, flags)), data[p..]);
    }

    /** The instructions. */
    method ReadCode(count: nat) returns (r: Parse<seq<U32>>)
      requires Valid()
      modifies this
      ensures Valid() && r == LoadCode(old(Rest()), count) && (r.Got? ==> Rest() == r.rest)
    {
      var code: seq<U32> := [];
      PrependNone(LoadCode(Rest(), count));
      hide PrependAll, Prepend, LoadU32;
      for n := count downto 0
        invariant Valid() && PrependAll(code, LoadCode(Rest(), n)) == LoadCode(old(Rest()), count)
      {
        ghost var b := Rest();
        var x := ReadU32();
        if !x.Got? {
          FailMore(code, Failure(x));
          return Failure(x);
        }
        PrependMore(code, x.v, LoadCode(x.rest, n));
        code := code + [x.v];
      }
      DoneMore(code, Rest());
      return Got(code, data[p..]);
    }

    /** A constant: a string or a number by its type byte, and any other type byte is malformed. */
    method ReadConst() returns (r: Parse<Const>)
      requires Valid()
      modifies this
      ensures Valid() && r == LoadConst(old(Rest())) && (r.Got? ==> Rest() == r.rest)
    {
      if p == |data| { return Overrun; }
      var t := data[p];
      assert data[p..][1..] == data[p + 1..];
      if t == SER_STRING {
        p := p + 1;
        var s := ReadStr();
        if !s.Got? { return Failure(s); }
        return Got(Text(s.v), data[p..]);
      } else if t == SER_NUMBER {
        if |data| - p < 9 { return Overrun; }
        var bits: Octets := data[p + 1..p + 9];
        assert data[p..][1..9] == bits && data[p..][9..] == data[p + 9..];
        p := p + 9;
        return Got(Num(bits), data[p..]);
      }
      return Malformed;
    }

    method ReadConsts(count: nat) returns (r: Parse<seq<Const>>)
      requires Valid()
      modifies this
      ensures Valid() && r == LoadConsts(old(Rest()), count) && (r.Got? ==> Rest() == r.rest)
    {
      var cs: seq<Const> := [];
      ghost var all := LoadConsts(Rest(), count);
      PrependNone(all);
      hide PrependAll, Prepend, LoadConst, LoadConsts;
      for n := count downto 0
        invariant Valid() && PrependAll(cs, LoadConsts(Rest(), n)) == all
      {
        ConstsUnfold(Rest(), n);
        var x := ReadConst();
        if !x.Got? {
          FailMore(cs, Failure(x));
          return Failure(x);
        }
        PrependMore(cs, x.v, LoadConsts(x.rest, n));
        cs := cs + [x.v];
      }
      ConstsUnfold(Rest(), 0);
      DoneMore(cs, Rest());
      return Got(cs, data[p..]);
    }

    method ReadNames(count: nat) returns (r: Parse<seq<Str>>)
      requires Valid()
      modifies this
      ensures Valid() && r == LoadNames(old(Rest()), count) && (r.Got? ==> Rest() == r.rest)
    {
      var ns: seq<Str> := [];
      PrependNone(LoadNames(Rest(), count));
      hide PrependAll, Prepend, LoadStr;
      for n := count downto 0
        invariant Valid() && PrependAll(ns, LoadNames(Rest(), n)) == LoadNames(old(Rest()), count)
      {
        var x := ReadStr();
        if !x.Got? {
          FailMore(ns, Failure(x));
          return Failure(x);
        }
        PrependMore(ns, x.v, LoadNames(x.rest, n));
        ns := ns + [x.v];
      }
      DoneMore(ns, Rest());
      return Got(ns, data[p..]);
    }

    /** Bindings up to a name of length zero; a repeated name would replace the earlier value. */
    method ReadVarmap() returns (r: Parse<seq<Binding>>)
      requires Valid()
      modifies this
      ensures Valid() && r == LoadBindings(old(Rest()), []) && (r.Got? ==> Rest() == r.rest)
    {
      var vs: seq<Binding> := [];
      hide LoadStr, LoadU32, Put, Length;
      while true
        invariant Valid() && LoadBindings(Rest(), vs) == LoadBindings(old(Rest()), [])
        decreases |Rest()|
      {
        var s := ReadStr();
        if !s.Got? { return Failure(s); }
        if Length(s.v) == 0 {
          return Got(vs, data[p..]);
        }
        var x := ReadU32();
        if !x.Got? { return Failure(x); }
        vs := Put(vs, s.v, x.v);
      }
    }

    /** The formals, unless their count is the marker. */
    method ReadFormals() returns (r: Parse<Option<seq<Str>>>)
      requires Valid()
      modifies this
      ensures Valid() && r == LoadFormals(old(Rest())) && (r.Got? ==> Rest() == r.rest)
    {
      hide LoadU32, LoadNames;
      var n := ReadU32();
      if !n.Got? { return Failure(n); }
      if n.v == NO_FORMALS { return Got(None, data[p..]); }
      var ns := ReadNames(n.v);
      if !ns.Got? { return Failure(ns); }
      return Got(Some(ns.v), data[p..]);
    }

    method ReadNamed() returns (r: Parse<Props>)
      requires Valid()
      modifies this
      ensures Valid() && r == LoadNamed(old(Rest())) && (r.Got? ==> Rest() == r.rest)
    {
      hide LoadU32, LoadStr;
      var l := ReadU32();
      if !l.Got? { return Failure(l); }
      var n := ReadStr();
      if !n.Got? { return Failure(n); }
      var fn := ReadStr();
      if !fn.Got? { return Failure(fn); }
      var pc := ReadStr();
      if !pc.Got? { return Failure(pc); }
      return Got(Props(Some(l.v), Some(n.v), Some(fn.v), Some(pc.v), None, None), data[p..]);
    }

    method ReadProps() returns (r: Parse<Props>)
      requires Valid()
      modifies this
      ensures Valid() && r == LoadProps(old(Rest())) && (r.Got? ==> Rest() == r.rest)
    {
      hide LoadNamed, LoadBindings, LoadFormals;
      var q := ReadNamed();
      if !q.Got? { return q; }
      var vs := ReadVarmap();
      if !vs.Got? { return Failure(vs); }
      var ns := ReadFormals();
      if !ns.Got? { return Failure(ns); }
      return Got(q.v.(varmap := Some(vs.v), formals := ns.v), data[p..]);
    }

    method ReadBody() returns (r: Parse<Body>)
      requires Valid()
      modifies this
      ensures Valid() && r == LoadBody(old(Rest())) && (r.Got? ==> Rest() == r.rest)
    {
      hide LoadStart, LoadCode, LoadConsts;
      var h := ReadStart();
      if !h.Got? { return Failure(h); }
      var code := ReadCode(h.v.instrs);
      if !code.Got? { return Failure(code); }
      var cs := ReadConsts(h.v.consts);
      if !cs.Got? { return Failure(cs); }
      return Got(Body(h.v, code.v, cs.v), data[p..]);
    }

    /** A function, with its inner functions loaded in a loop that recurses. */
    method ReadFunc() returns (r: Parse<Func>)
      requires Valid()
      modifies this
      ensures Valid() && r == Load(old(Rest())) && (r.Got? ==> Rest() == r.rest)
      decreases |Rest()|, 1
    {
      hide LoadBody, LoadFuncs, LoadProps;
      var x := ReadBody();
      if !x.Got? { return Failure(x); }
      var fs := ReadFuncs(x.v.start.funcs);
      if !fs.Got? { return Failure(fs); }
      var q := ReadProps();
      if !q.Got? { return Failure(q); }
      return Got(Func(x.v.start.head, x.v.code, x.v.consts, fs.v, q.v), data[p..]);
    }

    method ReadFuncs(count: nat) returns (r: Parse<seq<Func>>)
      requires Valid()
      modifies this
      ensures Valid() && r == LoadFuncs(old(Rest()), count) && (r.Got? ==> Rest() == r.rest)
      decreases |Rest()|, 2
    {
      hide PrependAll, Prepend, Load, LoadFuncs;
      var fs: seq<Func> := [];
      ghost var all := LoadFuncs(Rest(), count);
      PrependNone(all);
      for n := count downto 0
        invariant Valid() && PrependAll(fs, LoadFuncs(Rest(), n)) == all
        invariant |Rest()| <= old(|Rest()|)
      {
        FuncsUnfold(Rest(), n);
        var x := ReadFunc();
        if !x.Got? {
          FailMore(fs, Failure(x));
          return Failure(x);
        }
        PrependMore(fs, x.v, LoadFuncs(x.rest, n));
        fs := fs + [x.v];
      }
      FuncsUnfold(Rest(), 0);
      DoneMore(fs, Rest());
      return Got(fs, data[p..]);
    }
  }

  lemma FuncsUnfold(b: Bytes, n: nat)
    ensures LoadFuncs(b, n + 1) == var x := Load(b); if x.Got? then Prepend(x.v, LoadFuncs(x.rest, n)) else Failure(x)
    ensures LoadFuncs(b, 0) == Got([], b)
  {
    hide Load;
  }

  lemma ConstsUnfold(b: Bytes, n: nat)
    ensures LoadConsts(b, n + 1) == var x := LoadConst(b); if x.Got? then Prepend(x.v, LoadConsts(x.rest, n)) else Failure(x)
    ensures LoadConsts(b, 0) == Got([], b)
  {
    hide LoadConst;
  }

  lemma StartSlices(data: Bytes, p: nat)
    requires p + 28 <= |data|
    ensures var b := data[p..];
            && b[0..4] == data[p..p + 4] && b[4..8] == data[p + 4..p + 8] && b[8..12] == data[p + 8..p + 12]
            && b[12..14] == data[p + 12..p + 14] && b[14..16] == data[p + 14..p + 16]
            && b[16..20] == data[p + 16..p + 20] && b[20..24] == data[p + 20..p + 24] && b[24..28] == data[p + 24..p + 28]
            && b[28..] == data[p + 28..]
  {
  }

  lemma FailMore<T>(vs: seq<T>, r: Parse<seq<T>>)
    requires !r.Got?
    ensures PrependAll(vs, r) == r
  {
  }

  lemma DoneMore<T>(vs: seq<T>, rest: Bytes)
    ensures PrependAll(vs, Got([], rest)) == Got(vs, rest)
  {
    assert vs + [] == vs;
  }

  /** Load a dump; anything without the marker is invalid bytecode. */
  method LoadFromBuffer(b: Bytes) returns (r: Parse<Func>)
    ensures r == LoadFunction(b)
  {
    if |b| < 1 || b[0] != SER_MARKER { return Malformed; }
    var c := new Cursor(b[1..]);
    r := c.ReadFunc();
  }
}
