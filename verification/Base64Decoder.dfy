/**
 The two decoders of the Base64 codec, each proved against the reference decoder.  The fast one
 reads 8 characters at a time and stores speculatively; the compact one is a state machine over
 single characters.  'p' and 'q' index the source and the destination.
 */
module Base64Decoder {
  import opened Wrappers
  import opened Base64Spec
  import opened Words
  import opened Numbers

  // ---------- The group accumulator ----------

  /** The accumulator after the digits 'g': a leading 1 makes a digit counter unnecessary. */
  function Acc(g: seq<digit>): nat
    requires |g| <= 4
  {
    if |g| == 0 then 1 else Acc(g[..|g| - 1]) * 64 + g[|g| - 1]
  }

  lemma AccPush(g: seq<digit>, x: digit)
    requires |g| < 4
    ensures Acc(g + [x]) == Acc(g) * 64 + x
  {
    assert (g + [x])[..|g|] == g;
  }

  lemma AccRange(g: seq<digit>)
    requires |g| <= 4
    ensures Acc(g) >= 0x1000000 <==> |g| == 4
    ensures Acc(g) == 1 <==> |g| == 0
    ensures |g| == 0 ==> Acc(g) == 1
    ensures |g| == 1 ==> 64 <= Acc(g) < 128
    ensures |g| == 2 ==> 0x1000 <= Acc(g) < 0x2000
    ensures |g| == 3 ==> 0x40000 <= Acc(g) < 0x80000
    ensures |g| == 4 ==> 0x1000000 <= Acc(g) < 0x2000000
  {
    if |g| > 0 { AccRange(g[..|g| - 1]); }
  }

  lemma AccValue(x: digit, y: digit, z: digit, w: digit)
    ensures Acc([x, y, z, w]) == 0x1000000 + x * 0x40000 + y * 0x1000 + z * 64 + w
  {
    assert Acc([]) == 1;
    AccPush([], x);
    AccPush([x], y);
    AccPush([x, y], z);
    AccPush([x, y, z], w);
    assert [] + [x] == [x] && [x] + [y] == [x, y] && [x, y] + [z] == [x, y, z] && [x, y, z] + [w] == [x, y, z, w];
  }

  /** The three bytes stored from a word. */
  function WordBytes(t: int): (r: seq<byte>)
    ensures |r| == 3
  {
    [t / 65536 % 256, t / 256 % 256, t % 256]
  }

  lemma WordBytesOfDigits(high: nat, x: digit, y: digit, z: digit, w: digit)
    ensures WordBytes(high * 0x1000000 + x * 0x40000 + y * 0x1000 + z * 64 + w) == GroupBytes(x, y, z, w)
  {
    var t: nat := high * 0x1000000 + x * 0x40000 + y * 0x1000 + z * 64 + w;
    var a: nat, b: nat, c: nat := x * 4 + y / 16, y % 16 * 16 + z / 4, z % 4 * 64 + w;
    assert t == high * 0x1000000 + a * 65536 + b * 256 + c;
    Split(t, 65536, high * 256 + a, b * 256 + c);
    Split(t, 256, (high * 256 + a) * 256 + b, c);
    Split(high * 256 + a, 256, high, a);
    Split((high * 256 + a) * 256 + b, 256, high * 256 + a, b);
  }

  /** The digits of an incomplete group, with the digits that simulated padding shifts in. */
  function Padded(g: seq<digit>, n: nat): (h: seq<digit>)
    requires |g| + n <= 4
    ensures |h| == |g| + n
  {
    if n == 0 then g else Padded(g, n - 1) + [0]
  }

  /** Bytes emitted for a number of simulated padding characters; -1 marks an error. */
  function NEqualStep(n: nat): int
    requires n <= 4
  {
    [3, 2, 1, -1, 0][n]
  }

  lemma PaddedKeeps(g: seq<digit>, n: nat)
    requires |g| + n <= 4
    ensures forall m :: 0 <= m <= n ==> Padded(g, m)[..|g|] == g
  {
    if n > 0 { PaddedKeeps(g, n - 1); }
  }

  lemma PaddedGroup(g: seq<digit>)
    requires |g| <= 4
    ensures var h, step := Padded(g, 4 - |g|), NEqualStep(4 - |g|);
            && |h| == 4
            && (step < 0 <==> RunBytes(g).None?)
            && (step >= 0 ==> RunBytes(g) == Some(WordBytes(Acc(h))[..step]))
  {
    hide GroupBytes, WordBytes, Acc;
    var h := Padded(g, 4 - |g|);
    assert forall n :: 0 <= n <= 4 - |g| ==> Padded(g, n)[..|g|] == g by { PaddedKeeps(g, 4 - |g|); }
    assert |g| == 3 ==> h[3] == 0;
    assert |g| == 2 ==> h[3] == 0 && h[2] == Padded(g, 1)[2] == 0;
    AccValue(h[0], h[1], h[2], h[3]);
    assert h == [h[0], h[1], h[2], h[3]];
    WordBytesOfDigits(1, h[0], h[1], h[2], h[3]);
    if |g| == 4 {
      assert g[4..] == [];
      JoinEmpty(Some(GroupBytes(g[0], g[1], g[2], g[3])));
    }
  }

  method Store3(dst: array<byte>, q: nat, t: int)
    requires q + 3 <= dst.Length
    modifies dst
    ensures dst[..q + 3] == old(dst[..q]) + WordBytes(t)
  {
    dst[q] := t / 65536 % 256;
    dst[q + 1] := t / 256 % 256;
    dst[q + 2] := t % 256;
  }

  /** Fill a group up to four digits with zeros, and count them; padding in the text plays no part yet. */
  method SimulatePadding(acc: nat, ghost g: seq<digit>) returns (t: nat, nEqual: nat)
    requires |g| <= 4 && acc == Acc(g)
    ensures nEqual == 4 - |g| && t == Acc(Padded(g, 4 - |g|))
  {
    hide Acc;
    t, nEqual := acc, 0;
    AccRange(g);
    while t < 0x1000000
      invariant nEqual <= 4 - |g| && t == Acc(Padded(g, nEqual)) && (t >= 0x1000000 <==> |g| + nEqual == 4)
      decreases 4 - |g| - nEqual
    {
      AccPush(Padded(g, nEqual), 0);
      AccRange(Padded(g, nEqual + 1));
      t := t * 64 + 0;
      nEqual := nEqual + 1;
    }
  }

  /** Store 3 bytes for a full or partial group and step over those that count. */
  method StoreGroup(dst: array<byte>, q: nat, acc: nat, ghost g: seq<digit>) returns (step: int)
    requires |g| <= 4 && acc == Acc(g) && q + 3 <= dst.Length
    modifies dst
    ensures step < 0 <==> RunBytes(g).None?
    ensures step == [0, -1, 1, 2, 3][|g|]
    ensures step >= 0 ==> dst[..q + step] == old(dst[..q]) + RunBytes(g).value
  {
    hide Acc, RunBytes, WordBytes, Padded;
    var t, nEqual := SimulatePadding(acc, g);
    PaddedGroup(g);
    Store3(dst, q, t);
    step := NEqualStep(nEqual);
    if step >= 0 {
      assert dst[..q + step] == dst[..q + 3][..q + step] == old(dst[..q]) + WordBytes(t)[..step];
    }
  }

  // ---------- What is left to decode ----------

  /** The final result, given the bytes 'done' emitted for the characters before index 'p'. */
  function Left(s: seq<Symbol>, p: nat, done: seq<byte>): Option<seq<byte>>
    requires p <= |s|
  {
    Join(Some(done), Cont([], s[p..]))
  }

  /** A full group of digits moves from the text to the output. */
  lemma FullGroup(s: seq<Symbol>, p: nat, done: seq<byte>)
    requires p + 4 <= |s| && s[p].Digit? && s[p + 1].Digit? && s[p + 2].Digit? && s[p + 3].Digit?
    ensures Left(s, p, done) == Left(s, p + 4, done + GroupBytes(s[p].v, s[p + 1].v, s[p + 2].v, s[p + 3].v))
  {
    hide GroupBytes;
    var x, y, z, w := s[p].v, s[p + 1].v, s[p + 2].v, s[p + 3].v;
    assert Cont([], s[p..]) == Cont([x], s[p + 1..]) by { assert s[p..][1..] == s[p + 1..]; assert [] + [x] == [x]; }
    assert Cont([x], s[p + 1..]) == Cont([x, y], s[p + 2..]) by { assert s[p + 1..][1..] == s[p + 2..]; assert [x] + [y] == [x, y]; }
    assert Cont([x, y], s[p + 2..]) == Cont([x, y, z], s[p + 3..]) by { assert s[p + 2..][1..] == s[p + 3..]; assert [x, y] + [z] == [x, y, z]; }
    assert s[p + 3..][1..] == s[p + 4..];
    JoinAssociative(Some(done), Some(GroupBytes(x, y, z, w)), Cont([], s[p + 4..]));
  }

  /** A group ended by padding or the end of input. */
  lemma EndedGroup(g: seq<digit>, s: seq<Symbol>)
    requires |g| < 4 && (s == [] || s[0].Pad?)
    ensures Cont(g, s) == Join(RunBytes(g), Cont([], s))
  {
    if s == [] {
      JoinEmpty(RunBytes(g));
    } else {
      JoinEmpty(Cont([], s[1..]));
    }
  }

  // ---------- Fast decoder ----------

  /** Shift in a sign extended table value.  The six low bits of the shifted word are zero, and a
      negative table value has all other bits set, so the bitwise OR is the sum or the value itself. */
  function ShiftOr(t: int, x: int): int
  {
    if x < 0 then x else t * 64 + x
  }

  /** ShiftOr and the sign test of two ORed words, in terms of 32-bit words. */
  lemma ShiftOrIsBitwise(t: bv32, x: bv32, u: bv32)
    ensures x < 64 ==> (t << 6) | x == (t << 6) + x
    ensures x >= 0xffff_fffd ==> (t << 6) | x == x
    ensures (t | u) < 0x8000_0000 <==> t < 0x8000_0000 && u < 0x8000_0000
  {
  }

  function Lookup4(a: byte, b: byte, c: byte, d: byte): int
  {
    ShiftOr(ShiftOr(ShiftOr(DecTab(a), DecTab(b)), DecTab(c)), DecTab(d))
  }

  /** One sign test covers four characters. */
  lemma LookupSign(a: byte, b: byte, c: byte, d: byte)
    ensures -0x8000_0000 <= Lookup4(a, b, c, d) < 0x1000000
    ensures Lookup4(a, b, c, d) >= 0
       <==> Classify(a).Digit? && Classify(b).Digit? && Classify(c).Digit? && Classify(d).Digit?
    ensures Lookup4(a, b, c, d) >= 0
        ==> WordBytes(Lookup4(a, b, c, d)) == GroupBytes(Classify(a).v, Classify(b).v, Classify(c).v, Classify(d).v)
  {
    var x, y, z, w := DecTab(a), DecTab(b), DecTab(c), DecTab(d);
    hide DecTab, WordBytes, GroupBytes;
    if x >= 0 && y >= 0 && z >= 0 && w >= 0 {
      WordBytesOfDigits(0, x, y, z, w);
      assert Lookup4(a, b, c, d) == 0 * 0x1000000 + x * 0x40000 + y * 0x1000 + z * 64 + w;
    }
  }

  /** Output is behind input: a full group takes four characters, and a partial one takes its padding too. */
  predicate Behind(p: nat, q: nat)
  {
    && 4 * q <= 3 * p
    && (q % 3 == 1 ==> 4 * q + 5 <= 3 * p)
    && (q % 3 == 2 ==> 4 * q + 4 <= 3 * p)
  }

  /** The room that 'n' characters need.  After a partial group, a clean end of 4k + 3 characters leaves the
      scan at the end of input with one byte more out than n / 4 groups have. */
  predicate Roomy(n: nat, room: nat)
  {
    n / 4 * 3 + 3 + (if n % 4 == 3 then 1 else 0) <= room
  }

  lemma RoomForGroup(n: nat, room: nat, p: nat, q: nat)
    requires Roomy(n, room) && Behind(p, q) && p <= n
    ensures q + 3 <= room && (p + 8 <= n ==> q + 6 <= room)
  {
    var j := q / 3;
    assert q == 3 * j + q % 3;
    if q % 3 == 2 { assert p >= 4 * j + 4; } else if q % 3 == 1 { assert p >= 4 * j + 3; } else { assert p >= 4 * j; }
  }

  lemma StartBehind()
    ensures Behind(0, 0)
  {
  }

  lemma GroupStaysBehind(p: nat, q: nat)
    requires Behind(p, q)
    ensures Behind(p + 4, q + 3)
  {
  }

  /** Two groups, whichever of them count. */
  method Store6(dst: array<byte>, q: nat, t1: int, t2: int)
    requires q + 6 <= dst.Length
    modifies dst
    ensures dst[..q] == old(dst[..q]) && dst[..q + 3] == old(dst[..q]) + WordBytes(t1)
    ensures dst[..q + 6] == old(dst[..q]) + WordBytes(t1) + WordBytes(t2)
  {
    hide *;
    ghost var done := dst[..q];
    Store3(dst, q, t1);
    Store3(dst, q + 3, t2);
    assert dst[..q + 3] == dst[..q + 6][..q + 3] == done + WordBytes(t1);
    assert dst[..q] == dst[..q + 3][..q] == done;
  }

  /** A group of 'k' digits, with a padding character behind it if it is partial, keeps the output behind. */
  lemma StaysBehind(p: nat, q: nat, k: nat, p1: nat)
    requires Behind(p, q) && k <= 4 && k != 1 && p1 >= p + (if k == 4 then 4 else k + 1)
    ensures Behind(p1, q + [0, -1, 1, 2, 3][k])
  {
  }

  /** Process clean pairs of groups; stop before a group that is not clean or when 8 characters are not left. */
  method FastPath(src: array<byte>, dst: array<byte>, p0: nat, q0: nat, ghost s: seq<Symbol>) returns (p: nat, q: nat)
    requires src != dst && s == Symbols(src[..]) && Roomy(src.Length, dst.Length)
    requires p0 <= src.Length && Behind(p0, q0)
    modifies dst
    ensures p0 <= p <= src.Length && Behind(p, q) && q <= dst.Length
    ensures Left(s, p, dst[..q]) == old(Left(s, p0, dst[..q0]))
  {
    hide *;
    p, q := p0, q0;
    RoomForGroup(src.Length, dst.Length, p, q);
    while p <= src.Length - 8
      invariant p0 <= p <= src.Length && Behind(p, q) && q <= dst.Length
      invariant Left(s, p, dst[..q]) == old(Left(s, p0, dst[..q0]))
      decreases src.Length - p
    {
      // Both groups are looked up before anything is stored.
      var t1 := Lookup4(src[p], src[p + 1], src[p + 2], src[p + 3]);
      var t2 := Lookup4(src[p + 4], src[p + 5], src[p + 6], src[p + 7]);
      LookupSign(src[p], src[p + 1], src[p + 2], src[p + 3]);
      LookupSign(src[p + 4], src[p + 5], src[p + 6], src[p + 7]);
      ghost var done := dst[..q];
      RoomForGroup(src.Length, dst.Length, p, q);
      Store6(dst, q, t1, t2);
      GroupStaysBehind(p, q);
      if t1 >= 0 {
        FullGroup(s, p, done);
      }
      if t1 >= 0 && t2 >= 0 {
        FullGroup(s, p + 4, done + WordBytes(t1));
        GroupStaysBehind(p + 4, q + 3);
        p := p + 8;
        q := q + 6;
      } else if t1 >= 0 {
        p := p + 4;
        q := q + 3;
        break;
      } else {
        break;
      }
    }
  }

  /** What a table value says about a character. */
  lemma ReadByte(text: seq<byte>, p: nat)
    requires p < |text|
    ensures |Symbols(text)| == |text|
    ensures var x, c := DecTab(text[p]), Symbols(text)[p];
            if x >= 0 then c == Digit(x) else if x == -1 then c.White? else if x == -2 then c.Pad? else c.Bad?
  {
  }

  /** Collect digits one character at a time, until there are four or no more of this group can come. */
  method ScanGroup(src: array<byte>, p0: nat, ghost s: seq<Symbol>)
    returns (ok: bool, p: nat, t: nat, ghost g: seq<digit>)
    requires s == Symbols(src[..]) && p0 <= src.Length
    ensures !ok ==> Cont([], s[p0..]) == None
    ensures ok ==> |g| <= 4 && t == Acc(g) && p0 + |g| <= p <= src.Length
    ensures ok && |g| < 4 ==> (p == src.Length || s[p].Pad?) && Cont([], s[p0..]) == Cont(g, s[p..])
    ensures ok && |g| == 4 ==> Cont([], s[p0..]) == Join(RunBytes(g), Cont([], s[p..]))
  {
    hide *;
    AccRange([]);
    ok, p, t, g := true, p0, 1, [];
    while true
      invariant ok && |g| < 4 && t == Acc(g) && p0 + |g| <= p <= src.Length
      invariant Cont([], s[p0..]) == Cont(g, s[p..])
      decreases src.Length - p
    {
      if p < src.Length {
        ReadSymbol(g, s, p);
        ReadByte(src[..], p);
        var x := DecTab(src[p]);
        p := p + 1;
        if x >= 0 {
          AccPush(g, x);
          AccRange(g + [x]);
          t := t * 64 + x;
          g := g + [x];
          if t >= 0x1000000 {
            break;
          }
        } else if x == -1 {
          continue;
        } else if x == -2 {
          p := p - 1;
          break;  // the padding is left for later
        } else {
          ok := false;
          return;
        }
      } else {
        break;
      }
    }
  }

  lemma GroupStep(g: seq<digit>, x: digit, s: seq<Symbol>)
    requires |g| < 4 && s != [] && s[0] == Digit(x)
    ensures |g| < 3 ==> Cont(g, s) == Cont(g + [x], s[1..])
    ensures |g| == 3 ==> Cont(g, s) == Join(RunBytes(g + [x]), Cont([], s[1..]))
  {
    if |g| == 3 {
      var h := g + [x];
      assert h[4..] == [];
      JoinEmpty(Some(GroupBytes(h[0], h[1], h[2], h[3])));
    }
  }

  /** Padding and whitespace behind a group count for nothing; the first other character is put back. */
  method SkipPadding(src: array<byte>, p0: nat, ghost s: seq<Symbol>) returns (done: bool, p: nat)
    requires s == Symbols(src[..]) && p0 <= src.Length
    ensures p0 <= p <= src.Length && Cont([], s[p0..]) == Cont([], s[p..])
    ensures done <==> p == src.Length
    ensures p0 < src.Length && s[p0].Pad? ==> p0 < p
  {
    p := p0;
    while true
      invariant p0 <= p <= src.Length && Cont([], s[p0..]) == Cont([], s[p..])
      invariant p0 < src.Length && s[p0].Pad? && p == p0 ==> p < src.Length
      decreases src.Length - p
    {
      if p >= src.Length {
        done := true;
        return;
      }
      assert s[p..][1..] == s[p + 1..];
      var x := DecTab(src[p]);
      p := p + 1;
      if x == -1 || x == -2 {
        JoinEmpty(Cont([], s[p..]));
      } else {
        p := p - 1;
        break;
      }
    }
    done := false;
  }

  /** A scanned group, full or ended, moves from the text to the output or rejects it. */
  lemma ScannedGroup(g: seq<digit>, s: seq<Symbol>, p0: nat, p: nat, done: seq<byte>)
    requires |g| <= 4 && p0 <= p <= |s|
    requires |g| < 4 ==> (p == |s| || s[p].Pad?) && Cont([], s[p0..]) == Cont(g, s[p..])
    requires |g| == 4 ==> Cont([], s[p0..]) == Join(RunBytes(g), Cont([], s[p..]))
    ensures RunBytes(g).None? ==> Left(s, p0, done) == None
    ensures RunBytes(g).Some? ==> Left(s, p0, done) == Left(s, p, done + RunBytes(g).value)
  {
    if |g| < 4 {
      EndedGroup(g, s[p..]);
    }
    JoinAssociative(Some(done), RunBytes(g), Cont([], s[p..]));
  }

  datatype Round = More | Finished | Failed

  /** One round: the fast path, one arbitrary group, and the padding after it. */
  method DecodeRound(src: array<byte>, dst: array<byte>, p0: nat, q0: nat, ghost s: seq<Symbol>, ghost want: Option<seq<byte>>)
    returns (round: Round, p: nat, q: nat)
    requires src != dst && Roomy(src.Length, dst.Length) && s == Symbols(src[..])
    requires p0 <= src.Length && Behind(p0, q0) && Left(s, p0, dst[..q0]) == want
    modifies dst
    ensures round == More ==> p0 < p <= src.Length && Behind(p, q) && q <= dst.Length && Left(s, p, dst[..q]) == want
    ensures round == Finished ==> q <= dst.Length && want == Some(dst[..q])
    ensures round == Failed ==> want == None
  {
    hide *;
    p, q := FastPath(src, dst, p0, q0, s);
    ghost var p1, done := p, dst[..q];
    var t, valid, finished, step;
    ghost var g;
    valid, p, t, g := ScanGroup(src, p, s);
    if !valid {
      LeftNone(s, p1, done);
      return Failed, p, q;
    }
    ScannedGroup(g, s, p1, p, done);
    RoomForGroup(src.Length, dst.Length, p1, q);
    step := StoreGroup(dst, q, t, g);
    if step < 0 {
      return Failed, p, q;
    }
    q := q + step;
    ghost var p2 := p;
    finished, p := SkipPadding(src, p, s);
    LeftSame(s, p2, p, dst[..q]);
    if finished {
      LeftAll(s, dst[..q]);
      return Finished, p, q;
    }
    StaysBehind(p1, q - step, |g|, p);
    round := More;
  }

  method DecodeHelperFast(src: array<byte>, dst: array<byte>) returns (ok: bool, q: nat)
    requires src != dst && Roomy(src.Length, dst.Length)
    modifies dst
    ensures ok <==> Decode(src[..]).Some?
    ensures ok ==> q <= dst.Length && dst[..q] == Decode(src[..]).value
  {
    hide *;
    var p, round := 0, More;
    q := 0;
    StartBehind();
    ghost var s, want := Symbols(src[..]), Decode(src[..]);
    StartDecoding(src[..]);
    assert dst[..0] == [];
    // Each round takes as many clean groups as it can, and then one group of any kind.
    while true
      invariant p <= src.Length && Behind(p, q) && q <= dst.Length && Left(s, p, dst[..q]) == want
      decreases src.Length - p
    {
      round, p, q := DecodeRound(src, dst, p, q, s, want);
      if round == Failed { return false, q; }
      if round == Finished { return true, q; }
    }
  }

  lemma StartDecoding(s: seq<byte>)
    ensures Left(Symbols(s), 0, []) == Decode(s)
  {
    assert Symbols(s)[0..] == Symbols(s);
    ContIsDecode(s);
    JoinEmpty(Decode(s));
  }

  lemma LeftNone(s: seq<Symbol>, p: nat, done: seq<byte>)
    requires p <= |s| && Cont([], s[p..]) == None
    ensures Left(s, p, done) == None
  {
  }

  lemma LeftSame(s: seq<Symbol>, p: nat, p': nat, done: seq<byte>)
    requires p <= |s| && p' <= |s| && Cont([], s[p..]) == Cont([], s[p'..])
    ensures Left(s, p, done) == Left(s, p', done)
  {
  }

  lemma LeftAll(s: seq<Symbol>, done: seq<byte>)
    ensures Left(s, |s|, done) == Some(done)
  {
    assert s[|s|..] == [];
    JoinEmpty(Some(done));
  }

  // ---------- Compact decoder ----------

  /** The range tests that stand for the decode table: a digit, or -1 for whitespace, -2 for padding, -3 for an error. */
  function CompactTab(x: byte): (y: int)
    ensures y == DecTab(x)
  {
    if x >= 0x41 then
      if x >= 0x61 && x <= 0x7a then x - 0x61 + 26
      else if x <= 0x5a then x - 0x41
      else -3
    else if x >= 0x30 then
      if x <= 0x39 then x - 0x30 + 52
      else if x == 0x3d then -2
      else -3
    else if x >= 0x20 then
      if x == 0x2b then 62
      else if x == 0x2f then 63
      else if x == 0x20 then -1
      else -3
    else if x == 9 || x == 10 || x == 13 then -1
    else -3
  }

  /** The final result, given the output so far and the digits of an incomplete group. */
  function LeftWith(g: seq<digit>, s: seq<Symbol>, p: nat, done: seq<byte>): Option<seq<byte>>
    requires p <= |s| && |g| < 4
  {
    Join(Some(done), Cont(g, s[p..]))
  }

  /** A group flushed at index 'p', where what it leaves to decode is the text from 'p' on. */
  lemma FlushGroup(g: seq<digit>, s: seq<Symbol>, p: nat, done: seq<byte>, want: Option<seq<byte>>)
    requires p <= |s| && want == Join(Some(done), Join(RunBytes(g), Cont([], s[p..])))
    ensures RunBytes(g).None? ==> want == None
    ensures RunBytes(g).Some? ==> want == LeftWith([], s, p, done + RunBytes(g).value)
  {
    JoinAssociative(Some(done), RunBytes(g), Cont([], s[p..]));
  }

  /** One character when it is read at index 'p': its effect on what is left. */
  lemma ReadSymbol(g: seq<digit>, s: seq<Symbol>, p: nat)
    requires p < |s| && |g| < 4
    ensures s[p].Bad? ==> Cont(g, s[p..]) == None
    ensures s[p].White? ==> Cont(g, s[p..]) == Cont(g, s[p + 1..])
    ensures s[p].Pad? && |g| == 0 ==> Cont(g, s[p..]) == Cont(g, s[p + 1..])
    ensures s[p].Pad? ==> Cont(g, s[p..]) == Join(RunBytes(g), Cont([], s[p + 1..]))
    ensures s[p].Digit? && |g| < 3 ==> Cont(g, s[p..]) == Cont(g + [s[p].v], s[p + 1..])
    ensures s[p].Digit? && |g| == 3 ==> Cont(g, s[p..]) == Join(RunBytes(g + [s[p].v]), Cont([], s[p + 1..]))
  {
    assert s[p..][1..] == s[p + 1..];
    if s[p].Digit? { GroupStep(g, s[p].v, s[p..]); }
    JoinEmpty(Cont([], s[p + 1..]));
  }

  lemma EndOfInput(g: seq<digit>, s: seq<Symbol>, done: seq<byte>)
    requires |g| < 4
    ensures Cont(g, s[|s|..]) == Join(RunBytes(g), Cont([], s[|s|..]))
    ensures g == [] ==> LeftWith(g, s, |s|, done) == Some(done)
  {
    EndedGroup(g, s[|s|..]);
    LeftAll(s, done);
  }

  datatype Action = Again | Flush | Reject

  /** Read one character: go on reading, flush the pending group, or reject. */
  method ReadChar(src: array<byte>, p: nat, t0: nat, ghost s: seq<Symbol>, ghost g0: seq<digit>)
    returns (action: Action, t: nat, ghost g: seq<digit>)
    requires s == Symbols(src[..]) && p < src.Length && |g0| < 4 && t0 == Acc(g0)
    ensures action == Reject ==> Cont(g0, s[p..]) == None
    ensures action != Reject ==> |g0| <= |g| <= 4 && |g| <= |g0| + 1 && t == Acc(g)
    ensures action == Again ==> |g| < 4 && Cont(g0, s[p..]) == Cont(g, s[p + 1..])
    ensures action == Flush ==> |g| > 0 && (|g| == 4 || g == g0) && Cont(g0, s[p..]) == Join(RunBytes(g), Cont([], s[p + 1..]))
  {
    hide Acc, RunBytes, CompactTab;
    ReadSymbol(g0, s, p);
    AccRange(g0);
    t, g := t0, g0;
    var y := CompactTab(src[p]);
    if y == -1 || (y == -2 && t == 1) {
      action := Again;  // whitespace, or padding outside a group
    } else if y == -3 {
      action := Reject;
    } else if y == -2 {
      action := Flush;
    } else {
      AccPush(g, y);
      t, g := t * 64 + y, g + [y];
      AccRange(g);
      action := if t < 0x1000000 then Again else Flush;
    }
  }

  lemma StartCompact(s: seq<byte>)
    ensures Acc([]) == 1 && LeftWith([], Symbols(s), 0, []) == Decode(s)
  {
    StartDecoding(s);
    hide Symbols, Decode;
  }

  /** The output is behind the start of the pending group of 'k' digits, unless all input is used up. */
  predicate BehindGroup(n: nat, p: nat, q: nat, k: nat)
  {
    k <= p && (Behind(p - k, q) || (p == n && k == 0))
  }

  lemma RoomForPending(n: nat, room: nat, p: nat, q: nat, k: nat)
    requires n / 4 * 3 + 3 <= room && p <= n && k > 0 && BehindGroup(n, p, q, k)
    ensures q + 3 <= room
  {
    var j := q / 3;
    assert q == 3 * j + q % 3;
    if q % 3 != 0 { assert n >= 4 * j + 4; } else { assert n >= 4 * j; }
  }

  /** A character read into a group of 'k' digits, now 'k1'. */
  lemma ReadStaysBehind(n: nat, p: nat, q: nat, k: nat, k1: nat)
    requires p < n && BehindGroup(n, p, q, k) && k <= k1 <= k + 1
    ensures BehindGroup(n, p + 1, q, k1)
  {
  }

  /** A group that was flushed by its fourth digit, by padding, or at the end of input. */
  lemma FlushStaysBehind(n: nat, p: nat, q: nat, k: nat, k1: nat, step: nat)
    requires p < n && BehindGroup(n, p, q, k) && 0 < k1 <= 4 && (if k1 == 4 then k == 3 else k == k1)
    requires step == [0, -1, 1, 2, 3][k1]
    ensures BehindGroup(n, p + 1, q + step, 0)
  {
    StaysBehind(p - k, q, k1, p + 1);
  }

  lemma StartPending(n: nat)
    ensures BehindGroup(n, 0, 0, 0)
  {
  }

  lemma AllUsed(n: nat, q: nat)
    ensures BehindGroup(n, n, q, 0)
  {
  }

  method DecodeHelperCompact(src: array<byte>, dst: array<byte>) returns (ok: bool, q: nat)
    requires src != dst && src.Length / 4 * 3 + 3 <= dst.Length
    modifies dst
    ensures ok <==> Decode(src[..]).Some?
    ensures ok ==> q <= dst.Length && dst[..q] == Decode(src[..]).value
  {
    hide Behind, BehindGroup, Acc, Symbols, Decode, Cont, RunBytes, Left, DecTab, CompactTab, Classify;
    var p, t := 0, 1;
    q := 0;
    ghost var s, want, g: seq<digit> := Symbols(src[..]), Decode(src[..]), [];
    StartCompact(src[..]);
    assert dst[..0] == [];
    StartPending(src.Length);
    while true
      invariant p <= src.Length && |g| < 4 && t == Acc(g) && q <= dst.Length && BehindGroup(src.Length, p, q, |g|)
      invariant LeftWith(g, s, p, dst[..q]) == want
      decreases src.Length - p, |g|
    {
      ghost var done, p1, k := dst[..q], p, |g|;
      if p >= src.Length {
        EndOfInput(g, s, done);
        AccRange(g);
        if t == 1 {
          return true, q;
        }
      } else {
        var action;
        action, t, g := ReadChar(src, p, t, s, g);
        if action == Reject {
          return false, q;
        }
        ReadStaysBehind(src.Length, p, q, k, |g|);
        p := p + 1;
        if action == Again {
          continue;
        }
      }
      // The group is complete, or as complete as it gets.
      FlushGroup(g, s, p, done, want);
      RoomForPending(src.Length, dst.Length, p, q, |g|);
      var step := StoreGroup(dst, q, t, g);
      if step < 0 {
        return false, q;
      }
      if p1 < src.Length { FlushStaysBehind(src.Length, p1, q, k, |g|, step); } else { AllUsed(src.Length, q + step); }
      q := q + step;
      t, g := 1, [];
      AccRange(g);
    }
  }
}
