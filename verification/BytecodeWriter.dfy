/** The dump code: a pointer advanced through a buffer that grows, with space reserved before raw writes. */
module BytecodeWriter {
  import opened Words
  import opened Wrappers
  import opened BytecodeFormat
  import opened BytecodeLaws

  const INITIAL_ALLOC := 256
  const SLACK_ADD := 64

  /** A byte buffer and the write position in it. */
  class BufWriter {
    /** The build option that picks the growth rate. */
    const preferSize: bool
    var buf: array<byte>
    var p: nat

    ghost predicate Valid()
      reads this
    {
      p <= buf.Length
    }

    /** The bytes written so far. */
    function Contents(): Bytes
      reads this, buf
      requires Valid()
    {
      buf[..p]
    }

    /** The room left for raw writes. */
    function Space(): nat
      reads this
      requires Valid()
    {
      buf.Length - p
    }

    constructor (size: nat, preferSize: bool)
      ensures Valid() && fresh(buf) && Contents() == [] && Space() == size
    {
      this.preferSize := preferSize;
      buf := new byte[size];
      p := 0;
    }

    /** Make room for 'n' bytes: a reallocation copies what was written and adds slack. */
    method Ensure(n: nat)
      requires Valid()
      modifies this`buf
      ensures Valid() && (buf == old(buf) || fresh(buf)) && p == old(p)
      ensures Contents() == old(Contents()) && Space() >= n
    {
      if buf.Length - p >= n { return; }
      var slack := p / (if preferSize then 16 else 4) + SLACK_ADD;
      var grown := new byte[p + n + slack];
      for i := 0 to p
        invariant buf == old(buf) && buf[..] == old(buf[..])
        invariant grown[..i] == buf[..i]
      {
        grown[i] := buf[i];
      }
      buf := grown;
    }

    // Raw writes: the caller has made room.

    method WriteU8(b: byte)
      requires Valid() && Space() >= 1
      modifies this`p, buf
      ensures Valid() && Contents() == old(Contents()) + [b] && Space() == old(Space()) - 1
    {
      buf[p] := b;
      p := p + 1;
    }

    method WriteBytes(s: Bytes)
      requires Valid() && Space() >= |s|
      modifies this`p, buf
      ensures Valid() && Contents() == old(Contents()) + s && Space() == old(Space()) - |s|
    {
      ghost var c := Contents();
      for i := 0 to |s|
        invariant Valid() && buf == old(buf) && p == old(p) + i
        invariant Contents() == c + s[..i]
      {
        WriteU8(s[i]);
      }
      assert s[..|s|] == s;
    }

    method WriteU16(n: U16)
      requires Valid() && Space() >= 2
      modifies this`p, buf
      ensures Valid() && Contents() == old(Contents()) + Put16(n) && Space() == old(Space()) - 2
    {
      WriteBytes(Put16(n));
    }

    method WriteU32(n: U32)
      requires Valid() && Space() >= 4
      modifies this`p, buf
      ensures Valid() && Contents() == old(Contents()) + Put32(n) && Space() == old(Space()) - 4
    {
      WriteBytes(Put32(n));
    }

    /** A length and that many bytes. */
    method WriteStrRaw(s: Str)
      requires Valid() && Space() >= 4 + |s|
      modifies this`p, buf
      ensures Valid() && Contents() == old(Contents()) + DumpStr(s) && Space() == old(Space()) - 4 - |s|
    {
      ghost var c := Contents();
      WriteU32(|s|);
      WriteBytes(s);
      hide Put32;
      assert c + Put32(|s|) + s == c + DumpStr(s);
    }

    // Writes that make their own room.

    method DumpU32(n: U32)
      requires Valid()
      modifies this, buf
      ensures Valid() && (buf == old(buf) || fresh(buf)) && Contents() == old(Contents()) + Put32(n)
    {
      Ensure(4);
      WriteU32(n);
    }

    method DumpString(s: Str)
      requires Valid()
      modifies this, buf
      ensures Valid() && (buf == old(buf) || fresh(buf)) && Contents() == old(Contents()) + DumpStr(s)
    {
      Ensure(4 + |s|);
      WriteStrRaw(s);
    }

    method DumpBufferProp(s: Option<Str>)
      requires Valid()
      modifies this, buf
      ensures Valid() && (buf == old(buf) || fresh(buf)) && Contents() == old(Contents()) + DumpStr(Default(s, []))
    {
      if s.Some? {
        DumpString(s.value);
      } else {
        DumpU32(0);
        assert DumpStr([]) == Put32(0);
      }
    }

    /** The variable map: its bindings, closed by an empty name. */
    method DumpVarmap(varmap: Option<seq<Binding>>)
      requires Valid()
      modifies this, buf
      ensures Valid() && (buf == old(buf) || fresh(buf)) && Contents() == old(Contents()) + DumpBindings(Default(varmap, []))
    {
      if varmap.Some? {
        var vs := varmap.value;
        ghost var all := Contents() + DumpBindings(vs);
        assert vs[0..] == vs;
        for i := 0 to |vs|
          invariant Valid() && (buf == old(buf) || fresh(buf))
          invariant Contents() + DumpBindings(vs[i..]) == all
        {
          hide DumpBindings, DumpStr, Put32;
          BindingsFrom(Contents(), vs, i);
          Ensure(4 + |vs[i].name| + 4);
          WriteStrRaw(vs[i].name);
          WriteU32(vs[i].reg);
        }
        assert vs[|vs|..] == [];
      }
      DumpU32(0);
    }

    /** The formals, or the marker that there are none. */
    method DumpFormalNames(formals: Option<seq<Str>>)
      requires Valid() && (formals.Some? ==> |formals.value| < 0x1_0000_0000)
      modifies this, buf
      ensures Valid() && (buf == old(buf) || fresh(buf)) && Contents() == old(Contents()) + DumpFormals(formals)
    {
      if formals.None? {
        DumpU32(NO_FORMALS);
        return;
      }
      var ns := formals.value;
      ghost var start := Contents();
      DumpU32(|ns|);
      ghost var all := Contents() + DumpNames(ns);
      assert ns[0..] == ns;
      for i := 0 to |ns|
        invariant Valid() && (buf == old(buf) || fresh(buf))
        invariant Contents() + DumpNames(ns[i..]) == all
      {
        hide DumpStr, DumpNames;
        NamesFrom(Contents(), ns, i);
        DumpString(ns[i]);
      }
      assert ns[|ns|..] == [];
      hide Put32, DumpNames;
      assert all == start + (Put32(|ns|) + DumpNames(ns));
    }

    method WriteCounts(f: Func)
      requires Valid() && Limits(f) && Space() >= 12
      modifies this`p, buf
      ensures Valid() && Contents() == old(Contents()) + (Put32(|f.code|) + Put32(|f.consts|) + Put32(|f.funcs|))
      ensures Space() == old(Space()) - 12
    {
      assert |f.code| < 0x1_0000_0000 && |f.consts| < 0x1_0000_0000 && |f.funcs| < 0x1_0000_0000;
      hide Limits, Put32;
      WriteU32(|f.code|);
      WriteU32(|f.consts|);
      WriteU32(|f.funcs|);
    }

    method WriteFields(h: Head)
      requires Valid() && Space() >= 16
      modifies this`p, buf
      ensures Valid() && Space() == old(Space()) - 16
      ensures Contents() == old(Contents()) + (Put16(h.nregs) + Put16(h.nargs) + Put32(h.startLine) + Put32(h.endLine)
                            + Put32(ClearFinalizer(h.flags)))
    {
      hide Put32, Put16, ClearFinalizer;
      WriteU16(h.nregs);
      WriteU16(h.nargs);
      WriteU32(h.startLine);
      WriteU32(h.endLine);
      WriteU32(ClearFinalizer(h.flags));
    }

    /** The fixed-size start, in room made before. */
    method WriteStart(f: Func)
      requires Valid() && Limits(f) && Space() >= 28
      modifies this`p, buf
      ensures Valid() && Contents() == old(Contents()) + DumpHead(f) && Space() == old(Space()) - 28
    {
      hide Limits, Put32, Put16, ClearFinalizer;
      ghost var start := Contents();
      WriteCounts(f);
      WriteFields(f.head);
      StartGrouped(start, f);
    }

    /** The fixed-size start and the instructions, for which room is made at once. */
    method DumpStartAndCode(f: Func)
      requires Valid() && Limits(f)
      modifies this, buf
      ensures Valid() && (buf == old(buf) || fresh(buf)) && Contents() == old(Contents()) + DumpHead(f) + DumpCode(f.code)
    {
      hide Limits, DumpHead, DumpCode, Put32;
      var count := |f.code|;
      Ensure(3 * 4 + 2 * 2 + 3 * 4 + count * 4);
      WriteStart(f);
      ghost var all := Contents() + DumpCode(f.code);
      assert f.code[0..] == f.code;
      for i := 0 to count
        invariant Valid() && (buf == old(buf) || fresh(buf)) && Space() >= 4 * (count - i)
        invariant Contents() + DumpCode(f.code[i..]) == all
      {
        CodeFrom(Contents(), f.code, i);
        WriteU32(f.code[i]);
      }
      CodeDone(Contents(), f.code);
    }

    method DumpOneConst(c: Const)
      requires Valid()
      modifies this, buf
      ensures Valid() && (buf == old(buf) || fresh(buf)) && Contents() == old(Contents()) + DumpConst(c)
    {
      ghost var start := Contents();
      match c {
        case Text(s) =>
          Ensure(1 + 4 + |s|);
          WriteU8(SER_STRING);
          WriteStrRaw(s);
          hide DumpStr;
          assert start + [SER_STRING] + DumpStr(s) == start + ([SER_STRING] + DumpStr(s));
        case Num(bits) =>
          Ensure(1 + 8);
          WriteU8(SER_NUMBER);
          WriteBytes(bits);
          assert start + [SER_NUMBER] + bits == start + ([SER_NUMBER] + bits);
      }
    }

    method DumpAllConsts(cs: seq<Const>)
      requires Valid()
      modifies this, buf
      ensures Valid() && (buf == old(buf) || fresh(buf)) && Contents() == old(Contents()) + DumpConsts(cs)
    {
      ghost var all := Contents() + DumpConsts(cs);
      assert cs[0..] == cs;
      for i := 0 to |cs|
        invariant Valid() && (buf == old(buf) || fresh(buf))
        invariant Contents() + DumpConsts(cs[i..]) == all
      {
        hide DumpConst, DumpConsts;
        ConstsFrom(Contents(), cs, i);
        DumpOneConst(cs[i]);
      }
      assert cs[|cs|..] == [];
    }

    method DumpNamed(p: Props, nargs: U16)
      requires Valid()
      modifies this, buf
      ensures Valid() && (buf == old(buf) || fresh(buf))
      ensures Contents() == old(Contents()) + (Put32(Default(p.length, nargs)) + DumpStr(Default(p.name, []))
                            + DumpStr(Default(p.fileName, [])) + DumpStr(Default(p.pc2line, [])))
    {
      hide DumpStr, Put32;
      DumpU32(Default(p.length, nargs));
      DumpString(Default(p.name, []));
      DumpString(Default(p.fileName, []));
      DumpBufferProp(p.pc2line);
    }

    method DumpAllProps(p: Props, nargs: U16)
      requires Valid() && (p.formals.Some? ==> |p.formals.value| < 0x1_0000_0000)
      modifies this, buf
      ensures Valid() && (buf == old(buf) || fresh(buf)) && Contents() == old(Contents()) + DumpProps(p, nargs)
    {
      hide DumpStr, Put32, DumpBindings, DumpFormals, Default;
      ghost var start := Contents();
      DumpNamed(p, nargs);
      DumpVarmap(p.varmap);
      DumpFormalNames(p.formals);
      PropsGrouped(start, p, nargs);
    }

    /** A function with everything inside it. */
    method DumpFunc(f: Func)
      requires Valid() && Limits(f)
      modifies this, buf
      ensures Valid() && (buf == old(buf) || fresh(buf)) && Contents() == old(Contents()) + Dump(f)
      decreases f, 1
    {
      ghost var start := Contents();
      LimitsParts(f, 0);
      hide Dump, DumpHead, DumpCode, DumpConsts, DumpFuncs, DumpProps, Limits, Distinct;
      DumpStartAndCode(f);
      DumpAllConsts(f.consts);
      DumpAllFuncs(f);
      DumpAllProps(f.props, f.head.nargs);
      DumpGrouped(start, f);
    }

    method DumpAllFuncs(f: Func)
      requires Valid() && Limits(f)
      modifies this, buf
      ensures Valid() && (buf == old(buf) || fresh(buf)) && Contents() == old(Contents()) + DumpFuncs(f, |f.funcs|)
      decreases f, 0
    {
      hide Dump, DumpFuncs, Limits, Distinct;
      var n := |f.funcs|;
      ghost var all := Contents() + DumpFuncs(f, n);
      for i := 0 to n
        invariant Valid() && (buf == old(buf) || fresh(buf))
        invariant Contents() + DumpFuncs(f, n - i) == all
      {
        LimitsParts(f, n - i);
        FuncsFrom(Contents(), f, n - i);
        DumpFunc(f.funcs[i]);
      }
      FuncsFrom(Contents(), f, 0);
    }
  }

  lemma StartGrouped(start: Bytes, f: Func)
    ensures start + (Put32(|f.code|) + Put32(|f.consts|) + Put32(|f.funcs|))
            + (Put16(f.head.nregs) + Put16(f.head.nargs) + Put32(f.head.startLine) + Put32(f.head.endLine)
               + Put32(ClearFinalizer(f.head.flags)))
            == start + DumpHead(f)
  {
    hide Put32, Put16, ClearFinalizer;
  }

  lemma PropsGrouped(start: Bytes, p: Props, nargs: U16)
    ensures start + (Put32(Default(p.length, nargs)) + DumpStr(Default(p.name, []))
                     + DumpStr(Default(p.fileName, [])) + DumpStr(Default(p.pc2line, [])))
            + DumpBindings(Default(p.varmap, [])) + DumpFormals(p.formals)
            == start + DumpProps(p, nargs)
  {
    hide DumpStr, Put32, DumpBindings, DumpFormals, Default;
  }

  // What is written next, in front of what remains to be written.

  lemma BindingsFrom(c: Bytes, vs: seq<Binding>, i: nat)
    requires i < |vs|
    ensures c + DumpBindings(vs[i..]) == c + DumpStr(vs[i].name) + Put32(vs[i].reg) + DumpBindings(vs[i + 1..])
  {
    DumpBindingsFrom(vs, i);
    hide DumpBindings, DumpStr, Put32;
  }

  lemma NamesFrom(c: Bytes, ns: seq<Str>, i: nat)
    requires i < |ns|
    ensures c + DumpNames(ns[i..]) == c + DumpStr(ns[i]) + DumpNames(ns[i + 1..])
  {
    assert ns[i..][1..] == ns[i + 1..];
    hide DumpStr;
  }

  lemma CodeFrom(c: Bytes, code: seq<U32>, i: nat)
    requires i < |code|
    ensures c + DumpCode(code[i..]) == c + Put32(code[i]) + DumpCode(code[i + 1..])
  {
    assert code[i..][1..] == code[i + 1..];
    hide Put32;
  }

  lemma CodeDone(c: Bytes, code: seq<U32>)
    ensures c + DumpCode(code[|code|..]) == c
  {
    assert code[|code|..] == [];
  }

  lemma ConstsFrom(c: Bytes, cs: seq<Const>, i: nat)
    requires i < |cs|
    ensures c + DumpConsts(cs[i..]) == c + DumpConst(cs[i]) + DumpConsts(cs[i + 1..])
  {
    assert cs[i..][1..] == cs[i + 1..];
    hide DumpConst;
  }

  lemma FuncsFrom(c: Bytes, f: Func, n: nat)
    requires n <= |f.funcs|
    ensures c + DumpFuncs(f, n) == if n == 0 then c else c + Dump(f.funcs[|f.funcs| - n]) + DumpFuncs(f, n - 1)
  {
    hide Dump;
  }

  lemma DumpGrouped(start: Bytes, f: Func)
    ensures start + DumpHead(f) + DumpCode(f.code) + DumpConsts(f.consts) + DumpFuncs(f, |f.funcs|) + DumpProps(f.props, f.head.nargs)
            == start + Dump(f)
  {
    hide DumpHead, DumpCode, DumpConsts, DumpFuncs, DumpProps;
  }

  /** Dump a function into a fresh buffer of exactly the dump's size. */
  method DumpToBuffer(f: Func, preferSize: bool) returns (out: array<byte>)
    requires Limits(f)
    ensures fresh(out) && out[..] == DumpFunction(f)
  {
    var w := new BufWriter(INITIAL_ALLOC, preferSize);
    w.WriteU8(SER_MARKER);
    w.DumpFunc(f);
    hide Dump, Limits;
    out := new byte[w.p];
    for i := 0 to w.p
      invariant fresh(w) && fresh(w.buf) && out != w.buf && w.Valid() && w.Contents() == [SER_MARKER] + Dump(f) && out.Length == w.p
      invariant out[..i] == w.buf[..i]
    {
      out[i] := w.buf[i];
    }
  }
}
