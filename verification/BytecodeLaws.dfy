/** Loading a dump: what comes back, exactly when it is the dumped function, and how many bytes are used. */
module BytecodeLaws {
  import opened Words
  import opened Wrappers
  import opened BytecodeFormat
  import opened StringLength

  // ---------- fields ----------

  lemma WordBack(n: U32)
    ensures Word(Put32(n)) == n
  {
    Word32(n);
    hide Put32, Get32;
  }

  lemma HalfBack(n: U16)
    ensures Get16(Put16(n)) == n
  {
    Word16(n);
    hide Put16, Get16;
  }

  lemma LoadU32Back(n: U32, rest: Bytes)
    ensures LoadU32(Put32(n) + rest) == Got(n, rest)
  {
    WordBack(n);
    hide Put32, Word;
    assert (Put32(n) + rest)[..4] == Put32(n);
  }

  lemma LoadStrBack(s: Str, rest: Bytes)
    ensures LoadStr(DumpStr(s) + rest) == Got(s, rest)
  {
    WordBack(|s|);
    hide Put32, Word;
    var b := DumpStr(s) + rest;
    assert b[..4] == Put32(|s|);
    assert b[4..4 + |s|] == s;
    assert b[4 + |s|..] == rest;
  }

  lemma StartFields(f: Func, rest: Bytes)
    ensures var b := DumpHead(f) + rest;
            && b[0..4] == Put32(|f.code|) && b[4..8] == Put32(|f.consts|) && b[8..12] == Put32(|f.funcs|)
            && b[12..14] == Put16(f.head.nregs) && b[14..16] == Put16(f.head.nargs)
    ensures var b := DumpHead(f) + rest;
            && b[16..20] == Put32(f.head.startLine) && b[20..24] == Put32(f.head.endLine)
            && b[24..28] == Put32(ClearFinalizer(f.head.flags)) && b[28..] == rest
  {
    hide Put32, Put16, ClearFinalizer;
  }

  lemma LoadStartBack(f: Func, rest: Bytes)
    requires Limits(f)
    ensures LoadStart(DumpHead(f) + rest) ==
            Got(Start(|f.code|, |f.consts|, |f.funcs|, f.head.(flags := ClearFinalizer(f.head.flags))), rest)
  {
    assert |f.code| < 0x1_0000_0000 && |f.consts| < 0x1_0000_0000 && |f.funcs| < 0x1_0000_0000;
    hide Limits, Put32, Put16, Get16, Word, ClearFinalizer;
    StartFields(f, rest);
    hide DumpHead;
    WordBack(|f.code|);
    WordBack(|f.consts|);
    WordBack(|f.funcs|);
    HalfBack(f.head.nregs);
    HalfBack(f.head.nargs);
    WordBack(f.head.startLine);
    WordBack(f.head.endLine);
    WordBack(ClearFinalizer(f.head.flags));
  }

  // ---------- lists ----------

  lemma CodeStep(x: U32, tail: Bytes, rest: Bytes, n: nat)
    ensures LoadCode(Put32(x) + tail + rest, n + 1) == Prepend(x, LoadCode(tail + rest, n))
  {
    hide LoadU32, Put32;
    assert Put32(x) + tail + rest == Put32(x) + (tail + rest);
    LoadU32Back(x, tail + rest);
  }

  lemma {:induction false} LoadCodeBack(code: seq<U32>, rest: Bytes)
    ensures LoadCode(DumpCode(code) + rest, |code|) == Got(code, rest)
  {
    if code == [] {
      assert [] + rest == rest;
    } else {
      CodeStep(code[0], DumpCode(code[1..]), rest, |code| - 1);
      LoadCodeBack(code[1..], rest);
      hide LoadCode, Put32;
      assert code == [code[0]] + code[1..];
    }
  }

  lemma LoadConstBack(c: Const, rest: Bytes)
    ensures LoadConst(DumpConst(c) + rest) == Got(c, rest)
  {
    match c
    case Text(s) =>
      hide LoadStr, DumpStr;
      assert ([SER_STRING] + DumpStr(s) + rest)[1..] == DumpStr(s) + rest;
      LoadStrBack(s, rest);
    case Num(bits) =>
      assert ([SER_NUMBER] + bits + rest)[1..9] == bits;
      assert ([SER_NUMBER] + bits + rest)[9..] == rest;
  }

  lemma ConstsStep(x: Const, tail: Bytes, rest: Bytes, n: nat)
    ensures LoadConsts(DumpConst(x) + tail + rest, n + 1) == Prepend(x, LoadConsts(tail + rest, n))
  {
    hide LoadConst, DumpConst;
    assert DumpConst(x) + tail + rest == DumpConst(x) + (tail + rest);
    LoadConstBack(x, tail + rest);
  }

  lemma {:induction false} LoadConstsBack(cs: seq<Const>, rest: Bytes)
    ensures LoadConsts(DumpConsts(cs) + rest, |cs|) == Got(cs, rest)
  {
    if cs == [] {
      assert [] + rest == rest;
    } else {
      ConstsStep(cs[0], DumpConsts(cs[1..]), rest, |cs| - 1);
      LoadConstsBack(cs[1..], rest);
      hide LoadConsts, DumpConst;
      assert cs == [cs[0]] + cs[1..];
    }
  }

  /** After some constants, a type byte of no constant makes the list malformed. */
  lemma {:induction false} BadTypeByte(cs: seq<Const>, t: byte, rest: Bytes, n: nat)
    requires t != 0x00 && t != 0x01 && n > |cs|
    ensures LoadConsts(DumpConsts(cs) + ([t] + rest), n) == Malformed
  {
    hide *;
    if cs == [] {
      BadFirst(t, rest, n);
    } else {
      BadTypeByte(cs[1..], t, rest, n - 1);
      ConstsStep(cs[0], DumpConsts(cs[1..]), [t] + rest, n - 1);
      BadLater(cs, t, rest, n);
    }
  }

  lemma BadFirst(t: byte, rest: Bytes, n: nat)
    requires t != 0x00 && t != 0x01 && n > 0
    ensures LoadConsts(DumpConsts([]) + ([t] + rest), n) == Malformed
  {
    assert [] + ([t] + rest) == [t] + rest;
    assert LoadConst([t] + rest) == Malformed;
  }

  lemma BadLater(cs: seq<Const>, t: byte, rest: Bytes, n: nat)
    requires cs != [] && n > |cs|
    requires LoadConsts(DumpConsts(cs[1..]) + ([t] + rest), n - 1) == Malformed
    requires LoadConsts(DumpConst(cs[0]) + DumpConsts(cs[1..]) + ([t] + rest), n)
          == Prepend(cs[0], LoadConsts(DumpConsts(cs[1..]) + ([t] + rest), n - 1))
    ensures LoadConsts(DumpConsts(cs) + ([t] + rest), n) == Malformed
  {
    assert DumpConsts(cs) == DumpConst(cs[0]) + DumpConsts(cs[1..]);
    hide DumpConst, LoadConsts;
  }

  lemma BadBody(f: Func, k: nat, t: byte, rest: Bytes)
    requires Limits(f) && k < |f.consts| && t != 0x00 && t != 0x01
    ensures LoadBody(DumpHead(f) + (DumpCode(f.code) + (DumpConsts(f.consts[..k]) + ([t] + rest)))) == Malformed
  {
    LoadStartBack(f, DumpCode(f.code) + (DumpConsts(f.consts[..k]) + ([t] + rest)));
    LoadCodeBack(f.code, DumpConsts(f.consts[..k]) + ([t] + rest));
    BadTypeByte(f.consts[..k], t, rest, |f.consts|);
    hide LoadStart, LoadCode, LoadConsts, DumpHead, DumpCode, DumpConsts, Limits;
  }

  /** A dump in which the type byte of some constant is neither of both is invalid bytecode, whatever follows it. */
  lemma BadConstant(f: Func, k: nat, t: byte, rest: Bytes)
    requires Limits(f) && k < |f.consts| && t != 0x00 && t != 0x01
    ensures LoadFunction([0xbf] + (DumpHead(f) + (DumpCode(f.code) + (DumpConsts(f.consts[..k]) + ([t] + rest))))) == Malformed
  {
    var b := DumpHead(f) + (DumpCode(f.code) + (DumpConsts(f.consts[..k]) + ([t] + rest)));
    assert ([0xbf] + b)[1..] == b;
    BadBody(f, k, t, rest);
    hide LoadBody, DumpHead, DumpCode, DumpConsts, Limits;
  }

  lemma NamesStep(x: Str, tail: Bytes, rest: Bytes, n: nat)
    ensures LoadNames(DumpStr(x) + tail + rest, n + 1) ==
            Prepend(x, LoadNames(tail + rest, n))
  {
    hide LoadStr, DumpStr;
    assert DumpStr(x) + tail + rest == DumpStr(x) + (tail + rest);
    LoadStrBack(x, tail + rest);
  }

  lemma {:induction false} LoadNamesBack(ns: seq<Str>, rest: Bytes)
    ensures LoadNames(DumpNames(ns) + rest, |ns|) == Got(ns, rest)
  {
    if ns == [] {
      assert [] + rest == rest;
    } else {
      NamesStep(ns[0], DumpNames(ns[1..]), rest, |ns| - 1);
      LoadNamesBack(ns[1..], rest);
      hide LoadNames, DumpStr;
      assert ns == [ns[0]] + ns[1..];
    }
  }

  /** Formals come back unless their number is the marker, which reads as none. */
  lemma LoadFormalsBack(formals: Option<seq<Str>>, rest: Bytes)
    requires formals.Some? ==> |formals.value| < 0x1_0000_0000
    ensures (formals.Some? ==> |formals.value| != NO_FORMALS) ==> LoadFormals(DumpFormals(formals) + rest) == Got(formals, rest)
    ensures formals.Some? && |formals.value| == NO_FORMALS ==>
              LoadFormals(DumpFormals(formals) + rest) == Got(None, DumpNames(formals.value) + rest)
  {
    hide LoadU32, Put32, LoadNames, DumpNames;
    match formals
    case None => LoadU32Back(NO_FORMALS, rest);
    case Some(ns) =>
      assert Put32(|ns|) + DumpNames(ns) + rest == Put32(|ns|) + (DumpNames(ns) + rest);
      LoadU32Back(|ns|, DumpNames(ns) + rest);
      LoadNamesBack(ns, rest);
  }

  // ---------- variable map ----------

  lemma {:induction false} PutNew(vs: seq<Binding>, name: Str, reg: U32)
    requires forall i :: 0 <= i < |vs| ==> vs[i].name != name
    ensures Put(vs, name, reg) == vs + [Binding(name, reg)]
  {
    if vs != [] {
      PutNew(vs[1..], name, reg);
      assert vs == [vs[0]] + vs[1..];
    }
  }

  /** A key put into a table names the value put, and every other key keeps its own. */
  lemma {:induction false} PutMeans(vs: seq<Binding>, name: Str, reg: U32, b: Binding)
    requires Distinct(vs)
    ensures b in Put(vs, name, reg) <==> b == Binding(name, reg) || (b in vs && b.name != name)
  {
    if vs != [] {
      var rest := vs[1..];
      assert vs == [vs[0]] + rest;
      assert forall i :: 0 <= i < |rest| ==> rest[i] == vs[i + 1];
      if vs[0].name != name {
        PutMeans(rest, name, reg, b);
      } else {
        assert b in rest ==> b.name != name;
      }
    }
  }

  lemma BindingHead(v: Binding, tail: Bytes, rest: Bytes)
    ensures var b := DumpStr(v.name) + Put32(v.reg) + tail + rest;
            && LoadStr(b) == Got(v.name, Put32(v.reg) + (tail + rest))
            && LoadU32(Put32(v.reg) + (tail + rest)) == Got(v.reg, tail + rest)
  {
    hide LoadStr, LoadU32, DumpStr, Put32;
    assert DumpStr(v.name) + Put32(v.reg) + tail + rest == DumpStr(v.name) + (Put32(v.reg) + (tail + rest));
    LoadStrBack(v.name, Put32(v.reg) + (tail + rest));
    LoadU32Back(v.reg, tail + rest);
  }

  /** Loading one binding more. */
  lemma BindingStep(v: Binding, tail: Bytes, rest: Bytes, acc: seq<Binding>)
    ensures var b := DumpStr(v.name) + Put32(v.reg) + tail + rest;
            LoadBindings(b, acc) ==
            if SeemsEmpty(v.name) then Got(acc, Put32(v.reg) + (tail + rest))
            else LoadBindings(tail + rest, Put(acc, v.name, v.reg))
  {
    hide LoadStr, LoadU32, DumpStr, Put32, Put, Length, SeemsEmpty;
    LengthZero(v.name);
    BindingHead(v, tail, rest);
  }

  lemma BindingsEnd(rest: Bytes, acc: seq<Binding>)
    ensures LoadBindings(DumpBindings([]) + rest, acc) == Got(acc, rest)
  {
    LoadStrBack([], rest);
    assert DumpStr([]) == Put32(0) && Length([]) == 0;
  }

  lemma PutPrefix(vs: seq<Binding>, k: nat)
    requires Distinct(vs) && k < |vs|
    ensures Put(vs[..k], vs[k].name, vs[k].reg) == vs[..k + 1]
  {
    PutNew(vs[..k], vs[k].name, vs[k].reg);
    hide Put;
    assert vs[..k] + [vs[k]] == vs[..k + 1];
  }

  lemma DumpBindingsFrom(vs: seq<Binding>, k: nat)
    requires k < |vs|
    ensures DumpBindings(vs[k..]) == DumpStr(vs[k].name) + Put32(vs[k].reg) + DumpBindings(vs[k + 1..])
  {
    assert vs[k..][1..] == vs[k + 1..];
    hide DumpStr, Put32;
  }

  /** Bindings come back in order when every name is new and does not look empty. */
  lemma {:induction false} LoadBindingsBack(vs: seq<Binding>, k: nat, rest: Bytes)
    requires k <= |vs| && Distinct(vs) && forall i :: 0 <= i < |vs| ==> !SeemsEmpty(vs[i].name)
    ensures LoadBindings(DumpBindings(vs[k..]) + rest, vs[..k]) == Got(vs, rest)
    decreases |vs| - k
  {
    hide LoadBindings, DumpBindings, Put, Put32, DumpStr, Distinct, SeemsEmpty;
    if k == |vs| {
      BindingsEnd(rest, vs);
      assert vs[k..] == [] && vs[..k] == vs;
    } else {
      DumpBindingsFrom(vs, k);
      BindingStep(vs[k], DumpBindings(vs[k + 1..]), rest, vs[..k]);
      PutPrefix(vs, k);
      LoadBindingsBack(vs, k + 1, rest);
    }
  }

  lemma {:induction false} PutGrows(vs: seq<Binding>, name: Str, reg: U32)
    ensures |Put(vs, name, reg)| <= |vs| + 1
  {
    if vs != [] { PutGrows(vs[1..], name, reg); }
  }

  /** A name that looks empty ends the bindings early, so that fewer come back. */
  lemma {:induction false} EmptyNameLosesBindings(vs: seq<Binding>, rest: Bytes, acc: seq<Binding>)
    requires exists i :: 0 <= i < |vs| && SeemsEmpty(vs[i].name)
    ensures var r := LoadBindings(DumpBindings(vs) + rest, acc); r.Got? ==> |r.v| < |acc| + |vs|
    decreases |vs|
  {
    var v, tail := vs[0], DumpBindings(vs[1..]);
    BindingStep(v, tail, rest, acc);
    hide LoadBindings, DumpStr, Put32, Put, SeemsEmpty;
    if !SeemsEmpty(v.name) {
      var i :| 0 <= i < |vs| && SeemsEmpty(vs[i].name);
      assert SeemsEmpty(vs[1..][i - 1].name);
      PutGrows(acc, v.name, v.reg);
      EmptyNameLosesBindings(vs[1..], rest, Put(acc, v.name, v.reg));
    }
  }

  // ---------- properties ----------

  lemma LoadNamedBack(p: Props, nargs: U16, rest: Bytes)
    ensures var q := NormalProps(p, nargs);
            LoadNamed(Put32(q.length.value) + DumpStr(q.name.value) + DumpStr(q.fileName.value) + DumpStr(q.pc2line.value) + rest) ==
            Got(Props(q.length, q.name, q.fileName, q.pc2line, None, None), rest)
  {
    var q := NormalProps(p, nargs);
    hide LoadStr, LoadU32, DumpStr, Put32;
    var a, b, c, d := Put32(q.length.value), DumpStr(q.name.value), DumpStr(q.fileName.value), DumpStr(q.pc2line.value);
    assert a + b + c + d + rest == a + (b + (c + (d + rest)));
    LoadU32Back(q.length.value, b + (c + (d + rest)));
    LoadStrBack(q.name.value, c + (d + rest));
    LoadStrBack(q.fileName.value, d + rest);
    LoadStrBack(q.pc2line.value, rest);
  }

  /** The lists come back if and only if they are portable. */
  lemma LoadListsBack(p: Props, q: Props, rest: Bytes)
    requires Distinct(Default(p.varmap, [])) && (p.formals.Some? ==> |p.formals.value| < 0x1_0000_0000)
    ensures var r := LoadLists(q, DumpBindings(Default(p.varmap, [])) + (DumpFormals(p.formals) + rest));
            var v := q.(varmap := Some(Default(p.varmap, [])), formals := p.formals);
            && (PortableProps(p) ==> r == Got(v, rest))
            && (!PortableProps(p) ==> !Yields(r, v))
  {
    var vs := Default(p.varmap, []);
    var tail := DumpFormals(p.formals) + rest;
    LoadFormalsBack(p.formals, rest);
    hide LoadFormals, DumpFormals, DumpBindings, LoadBindings, Distinct, SeemsEmpty;
    if exists i :: 0 <= i < |vs| && SeemsEmpty(vs[i].name) {
      EmptyNameLosesBindings(vs, tail, []);
    } else {
      assert vs[0..] == vs && vs[..0] == [];
      LoadBindingsBack(vs, 0, tail);
    }
  }

  /** After a name that looks empty, its register is read as the count of formals. */
  lemma RegisterIsReadAsCount(v: Binding, q: Props, tail: Bytes)
    requires SeemsEmpty(v.name)
    ensures var ns := LoadFormals(Put32(v.reg) + (DumpBindings([]) + tail));
            LoadLists(q, DumpBindings([v]) + tail) ==
            if ns.Got? then Got(q.(varmap := Some([]), formals := ns.v), ns.rest) else Failure(ns)
  {
    assert [v][1..] == [];
    BindingStep(v, DumpBindings([]), tail, []);
    hide LoadBindings, LoadFormals, DumpStr, Put32, SeemsEmpty;
    assert DumpBindings([v]) == DumpStr(v.name) + Put32(v.reg) + DumpBindings([]);
  }

  /** The properties come back if and only if they are portable, and then nothing more is used. */
  lemma LoadPropsBack(p: Props, nargs: U16, rest: Bytes)
    requires Distinct(Default(p.varmap, [])) && (p.formals.Some? ==> |p.formals.value| < 0x1_0000_0000)
    ensures var r := LoadProps(DumpProps(p, nargs) + rest);
            && (PortableProps(p) ==> r == Got(NormalProps(p, nargs), rest))
            && (!PortableProps(p) ==> !Yields(r, NormalProps(p, nargs)))
  {
    var q := NormalProps(p, nargs).(varmap := None, formals := None);
    PropsRegroup(p, nargs, rest);
    LoadNamedBack(p, nargs, DumpBindings(Default(p.varmap, [])) + (DumpFormals(p.formals) + rest));
    LoadListsBack(p, q, rest);
    hide LoadNamed, LoadLists, DumpFormals, DumpBindings, DumpStr, Put32, DumpProps, PortableProps, Yields;
  }

  lemma PropsRegroup(p: Props, nargs: U16, rest: Bytes)
    ensures var q := NormalProps(p, nargs);
            DumpProps(p, nargs) + rest ==
            Put32(q.length.value) + DumpStr(q.name.value) + DumpStr(q.fileName.value) + DumpStr(q.pc2line.value)
            + (DumpBindings(Default(p.varmap, [])) + (DumpFormals(p.formals) + rest))
  {
    hide DumpStr, Put32, DumpBindings, DumpFormals;
  }

  // ---------- functions ----------

  lemma LoadBodyBack(f: Func, rest: Bytes)
    requires Limits(f)
    ensures LoadBody(DumpHead(f) + DumpCode(f.code) + DumpConsts(f.consts) + rest) ==
            Got(Body(Start(|f.code|, |f.consts|, |f.funcs|, f.head.(flags := ClearFinalizer(f.head.flags))), f.code, f.consts), rest)
  {
    hide LoadStart, LoadCode, LoadConsts, DumpHead, DumpCode, DumpConsts, ClearFinalizer, Distinct;
    var a, b, c := DumpHead(f), DumpCode(f.code), DumpConsts(f.consts);
    assert a + b + c + rest == a + (b + (c + rest));
    LoadStartBack(f, b + (c + rest));
    LoadCodeBack(f.code, c + rest);
    LoadConstsBack(f.consts, rest);
  }

  lemma DumpRegroup(f: Func, rest: Bytes)
    ensures Dump(f) + rest == DumpHead(f) + DumpCode(f.code) + DumpConsts(f.consts)
                              + (DumpFuncs(f, |f.funcs|) + (DumpProps(f.props, f.head.nargs) + rest))
  {
    hide DumpHead, DumpCode, DumpConsts, DumpFuncs, DumpProps;
  }

  /** Loading a dump is loading its inner functions and then its properties. */
  lemma LoadSteps(f: Func, rest: Bytes)
    requires Limits(f)
    ensures var start := Start(|f.code|, |f.consts|, |f.funcs|, f.head.(flags := ClearFinalizer(f.head.flags)));
            Load(Dump(f) + rest) ==
            LoadTail(Body(start, f.code, f.consts),
                     LoadFuncs(DumpFuncs(f, |f.funcs|) + (DumpProps(f.props, f.head.nargs) + rest), |f.funcs|))
  {
    var tail := DumpFuncs(f, |f.funcs|) + (DumpProps(f.props, f.head.nargs) + rest);
    DumpRegroup(f, rest);
    LoadBodyBack(f, tail);
    assert |f.code| < 0x1_0000_0000 && |f.consts| < 0x1_0000_0000 && |f.funcs| < 0x1_0000_0000;
    hide Dump, DumpHead, DumpCode, DumpConsts, DumpFuncs, DumpProps, LoadBody, LoadFuncs, LoadTail, ClearFinalizer, Limits;
  }

  /** The last 'n' inner functions are portable. */
  ghost predicate PortableFrom(f: Func, n: nat)
    requires n <= |f.funcs|
  {
    forall i :: |f.funcs| - n <= i < |f.funcs| ==> Portable(f.funcs[i])
  }

  lemma PortableParts(f: Func)
    ensures Portable(f) <==> PortableProps(f.props) && PortableFrom(f, |f.funcs|)
  {
    hide PortableProps;
  }

  lemma PortableNext(f: Func, n: nat)
    requires 0 < n <= |f.funcs|
    ensures PortableFrom(f, n) <==> Portable(f.funcs[|f.funcs| - n]) && PortableFrom(f, n - 1)
  {
    hide Portable;
  }

  lemma LimitsParts(f: Func, n: nat)
    requires Limits(f)
    ensures Distinct(Default(f.props.varmap, [])) && (f.props.formals.Some? ==> |f.props.formals.value| < 0x1_0000_0000)
    ensures 0 < n <= |f.funcs| ==> Limits(f.funcs[|f.funcs| - n])
  {
    hide Distinct;
  }

  /** Loading the dump of a function gives it back, and leaves what follows, exactly when it is portable. */
  ghost predicate Comes(f: Func, rest: Bytes)
  {
    var r := Load(Dump(f) + rest);
    if Portable(f) then r == Got(Normal(f), rest) else !Yields(r, Normal(f))
  }

  /** The same of the last 'n' inner functions. */
  ghost predicate FuncsCome(f: Func, n: nat, rest: Bytes)
    requires n <= |f.funcs|
  {
    var r := LoadFuncs(DumpFuncs(f, n) + rest, n);
    if PortableFrom(f, n) then r == Got(NormalFuncs(f, n), rest) else !Yields(r, NormalFuncs(f, n))
  }

  lemma FuncOutcome(f: Func, rest: Bytes)
    requires Limits(f) && FuncsCome(f, |f.funcs|, DumpProps(f.props, f.head.nargs) + rest)
    ensures Comes(f, rest)
  {
    hide LoadFuncs, LoadProps, Load, DumpFuncs, DumpProps, Dump, NormalFuncs, NormalProps, Distinct, Default;
    hide ClearFinalizer, Limits, PortableProps, Portable, PortableFrom;
    LoadSteps(f, rest);
    LimitsParts(f, 0);
    LoadPropsBack(f.props, f.head.nargs, rest);
    PortableParts(f);
  }

  lemma FuncsStep(f: Func, n: nat, rest: Bytes)
    requires 0 < n <= |f.funcs|
    ensures var g := f.funcs[|f.funcs| - n];
            var x := Load(Dump(g) + (DumpFuncs(f, n - 1) + rest));
            LoadFuncs(DumpFuncs(f, n) + rest, n) == if x.Got? then Prepend(x.v, LoadFuncs(x.rest, n - 1)) else Failure(x)
  {
    hide Load, Dump;
    var g := f.funcs[|f.funcs| - n];
    assert Dump(g) + DumpFuncs(f, n - 1) + rest == Dump(g) + (DumpFuncs(f, n - 1) + rest);
  }

  lemma NormalNext(f: Func, n: nat)
    requires 0 < n <= |f.funcs|
    ensures NormalFuncs(f, n) == [Normal(f.funcs[|f.funcs| - n])] + NormalFuncs(f, n - 1)
  {
    hide Normal;
  }

  lemma PrependYields(v: Func, w: Func, r: Parse<seq<Func>>, ws: seq<Func>)
    ensures Yields(Prepend(v, r), [w] + ws) <==> v == w && Yields(r, ws)
  {
    if r.Got? {
      assert ([v] + r.v)[1..] == r.v && ([w] + ws)[1..] == ws;
      assert ([v] + r.v)[0] == v && ([w] + ws)[0] == w;
    }
  }

  /** What the first inner function and the others load to decides what all of them load to. */
  lemma FuncsOutcome(f: Func, n: nat, rest: Bytes)
    requires 0 < n <= |f.funcs|
    requires Comes(f.funcs[|f.funcs| - n], DumpFuncs(f, n - 1) + rest) && FuncsCome(f, n - 1, rest)
    ensures FuncsCome(f, n, rest)
  {
    hide Load, LoadFuncs, Dump, DumpFuncs, Normal, NormalFuncs, Portable, PortableFrom;
    var g := f.funcs[|f.funcs| - n];
    PortableNext(f, n);
    NormalNext(f, n);
    FuncsStep(f, n, rest);
    var x := Load(Dump(g) + (DumpFuncs(f, n - 1) + rest));
    if x.Got? {
      PrependYields(x.v, Normal(g), LoadFuncs(x.rest, n - 1), NormalFuncs(f, n - 1));
    }
  }

  lemma NoFuncs(f: Func, rest: Bytes)
    ensures FuncsCome(f, 0, rest)
  {
    assert [] + rest == rest;
  }

  lemma {:induction false} LoadBack(f: Func, rest: Bytes)
    requires Limits(f)
    ensures Comes(f, rest)
    decreases f, 0
  {
    hide *;
    LoadFuncsBack(f, |f.funcs|, DumpProps(f.props, f.head.nargs) + rest);
    FuncOutcome(f, rest);
  }

  lemma {:induction false} LoadFuncsBack(f: Func, n: nat, rest: Bytes)
    requires Limits(f) && n <= |f.funcs|
    ensures FuncsCome(f, n, rest)
    decreases f, 0, n
  {
    hide *;
    if n == 0 {
      NoFuncs(f, rest);
    } else {
      LimitsParts(f, n);
      LoadBack(f.funcs[|f.funcs| - n], DumpFuncs(f, n - 1) + rest);
      LoadFuncsBack(f, n - 1, rest);
      FuncsOutcome(f, n, rest);
    }
  }

  // ---------- whole dumps ----------

  /** A dump as the API produces it, with its marker. */
  function DumpFunction(f: Func): Bytes
  {
    [SER_MARKER] + Dump(f)
  }

  /** Loading as the API does it: anything without the marker is invalid bytecode. */
  function LoadFunction(b: Bytes): Parse<Func>
  {
    if b == [] || b[0] != SER_MARKER then Malformed else Load(b[1..])
  }

  /** Loading a dump, whatever follows it, gives the normal form of the function and uses exactly the dump if
      and only if, at every depth, no variable name looks empty and the count of formals is not the marker. */
  lemma {:induction false} RoundTrip(f: Func, rest: Bytes)
    requires Limits(f)
    ensures LoadFunction(DumpFunction(f) + rest) == Got(Normal(f), rest) <==> Portable(f)
  {
    hide Load, LoadFuncs, Dump, DumpFuncs, Normal, NormalFuncs, Portable, Limits;
    LoadBack(f, rest);
    assert (DumpFunction(f) + rest)[1..] == Dump(f) + rest;
  }

  /** A function with one variable and nothing else. */
  function OneVariable(name: Str): Func
  {
    Func(Head(0, 0, 0, 0, 0), [], [], [], Props(None, None, None, None, Some([Binding(name, 0)]), None))
  }

  /** Not only the empty name is lost: a symbol, or a lone continuation byte, is too. */
  lemma LostNames(name: Str, rest: Bytes)
    requires name in {[], [0xff, 0x61], [0x90]}
    ensures LoadFunction(DumpFunction(OneVariable(name)) + rest) != Got(Normal(OneVariable(name)), rest)
  {
    var f := OneVariable(name);
    assert SeemsEmpty(f.props.varmap.value[0].name);
    RoundTrip(f, rest);
    hide LoadFunction, DumpFunction, Normal, SeemsEmpty;
  }

  /** Dumping what was loaded gives the same bytes again. */
  lemma {:induction false} DumpAgain(f: Func)
    ensures Dump(Normal(f)) == Dump(f)
    decreases f, 0
  {
    hide DumpCode, DumpConsts, DumpFuncs, DumpProps, DumpHead;
    var n := |f.funcs|;
    DumpFuncsAgain(f, n);
    HeadAgain(f);
    PropsAgain(f.props, f.head.nargs);
  }

  lemma HeadAgain(f: Func)
    ensures DumpHead(Normal(f)) == DumpHead(f)
  {
    assert ClearFinalizer(ClearFinalizer(f.head.flags)) == ClearFinalizer(f.head.flags);
    hide ClearFinalizer, Put32, Put16;
  }

  lemma PropsAgain(p: Props, nargs: U16)
    ensures DumpProps(NormalProps(p, nargs), nargs) == DumpProps(p, nargs)
  {
    hide DumpStr, DumpBindings, DumpFormals, Put32;
  }

  lemma {:induction false} NormalFuncsAt(f: Func, n: nat, i: nat)
    requires i < n <= |f.funcs|
    ensures NormalFuncs(f, n)[i] == Normal(f.funcs[|f.funcs| - n + i])
  {
    hide Normal;
    if i > 0 {
      NormalFuncsAt(f, n - 1, i - 1);
    }
  }

  lemma {:induction false} DumpFuncsAgain(f: Func, n: nat)
    requires n <= |f.funcs|
    ensures |Normal(f).funcs| == |f.funcs| && DumpFuncs(Normal(f), n) == DumpFuncs(f, n)
    decreases f, 0, n
  {
    hide Dump;
    if n > 0 {
      var k := |f.funcs| - n;
      NormalFuncsAt(f, |f.funcs|, k);
      DumpAgain(f.funcs[k]);
      DumpFuncsAgain(f, n - 1);
    }
  }

  /** So a portable function survives any number of dumps and loads after the first. */
  lemma {:induction false} LoadedDumpIsStable(f: Func, g: Func, rest: Bytes, left: Bytes)
    requires Limits(f) && Portable(f)
    requires LoadFunction(DumpFunction(f) + rest) == Got(g, left)
    ensures left == rest && DumpFunction(g) == DumpFunction(f)
  {
    hide Load, LoadFuncs, Dump, DumpFuncs, Normal, NormalFuncs, Portable, Limits;
    RoundTrip(f, rest);
    DumpAgain(f);
  }

  /** A dump written out: of a function with one instruction, a constant of each type, the finalizer flag (bit 21)
      and one variable, and without inner functions and formals. */
  lemma SmallDump(f: Func)
    requires f == Func(Head(0x0102, 3, 0x0405_0607, 8, 0x20_0001), [0x090a_0b0c], [Text([0x61, 0x62]), Num([1, 2, 3, 4, 5, 6, 7, 8])], [],
                       Props(None, Some([0x66]), None, Some([0x70]), Some([Binding([0x78], 5)]), None))
    ensures DumpFunction(f) ==
            [0xbf] + ([0, 0, 0, 1, 0, 0, 0, 2, 0, 0, 0, 0, 0x01, 0x02, 0, 3, 0x04, 0x05, 0x06, 0x07, 0, 0, 0, 8, 0, 0, 0, 1]
                      + [0x09, 0x0a, 0x0b, 0x0c]
                      + [0x00, 0, 0, 0, 2, 0x61, 0x62, 0x01, 1, 2, 3, 4, 5, 6, 7, 8]
                      + ([0, 0, 0, 3] + [0, 0, 0, 1, 0x66] + [0, 0, 0, 0] + [0, 0, 0, 1, 0x70]
                         + [0, 0, 0, 1, 0x78, 0, 0, 0, 5, 0, 0, 0, 0] + [0xff, 0xff, 0xff, 0xff]))
  {
    SmallHead(f);
    SmallCode(f.code);
    SmallConsts(f.consts);
    SmallProps(f.props);
    assert DumpFuncs(f, 0) == [];
    hide DumpHead, DumpCode, DumpConsts, DumpFuncs, DumpProps;
    assert Dump(f) == DumpHead(f) + DumpCode(f.code) + DumpConsts(f.consts) + DumpProps(f.props, 3);
  }

  lemma SmallCode(code: seq<U32>)
    requires code == [0x090a_0b0c]
    ensures DumpCode(code) == [0x09, 0x0a, 0x0b, 0x0c]
  {
    assert code[1..] == [];
  }

  lemma SmallHead(f: Func)
    requires |f.code| == 1 && |f.consts| == 2 && |f.funcs| == 0 && f.head == Head(0x0102, 3, 0x0405_0607, 8, 0x20_0001)
    ensures DumpHead(f) == [0, 0, 0, 1, 0, 0, 0, 2, 0, 0, 0, 0, 0x01, 0x02, 0, 3, 0x04, 0x05, 0x06, 0x07, 0, 0, 0, 8, 0, 0, 0, 1]
  {
  }

  lemma SmallConsts(cs: seq<Const>)
    requires cs == [Text([0x61, 0x62]), Num([1, 2, 3, 4, 5, 6, 7, 8])]
    ensures DumpConsts(cs) == [0x00, 0, 0, 0, 2, 0x61, 0x62, 0x01, 1, 2, 3, 4, 5, 6, 7, 8]
  {
    assert cs[1..] == [cs[1]] && cs[1..][1..] == [];
    assert DumpConst(cs[0]) == [0x00, 0, 0, 0, 2, 0x61, 0x62];
    assert DumpConst(cs[1]) == [0x01, 1, 2, 3, 4, 5, 6, 7, 8];
    assert DumpConsts(cs[1..]) == DumpConst(cs[1]) + [];
  }

  lemma SmallProps(p: Props)
    requires p == Props(None, Some([0x66]), None, Some([0x70]), Some([Binding([0x78], 5)]), None)
    ensures DumpProps(p, 3) == [0, 0, 0, 3] + [0, 0, 0, 1, 0x66] + [0, 0, 0, 0] + [0, 0, 0, 1, 0x70]
                               + [0, 0, 0, 1, 0x78, 0, 0, 0, 5, 0, 0, 0, 0] + [0xff, 0xff, 0xff, 0xff]
  {
    SmallStrings();
    SmallBindings(p.varmap.value);
    hide DumpStr, DumpBindings;
    assert Put32(3) == [0, 0, 0, 3] && Put32(NO_FORMALS) == [0xff, 0xff, 0xff, 0xff];
  }

  lemma SmallStrings()
    ensures DumpStr([0x66]) == [0, 0, 0, 1, 0x66] && DumpStr([0x70]) == [0, 0, 0, 1, 0x70] && DumpStr([0x78]) == [0, 0, 0, 1, 0x78]
    ensures DumpStr([]) == [0, 0, 0, 0]
  {
  }

  lemma SmallBindings(vs: seq<Binding>)
    requires vs == [Binding([0x78], 5)]
    ensures DumpBindings(vs) == [0, 0, 0, 1, 0x78, 0, 0, 0, 5, 0, 0, 0, 0]
  {
    SmallStrings();
    hide DumpStr;
    assert vs[1..] == [] && vs[0] == Binding([0x78], 5);
    assert DumpBindings([]) == [0, 0, 0, 0];
    assert Put32(5) == [0, 0, 0, 5];
  }
}
