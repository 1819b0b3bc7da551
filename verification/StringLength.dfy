/**
 The length of a string as script code sees it: characters, not bytes, and nothing for a symbol.  The
 count of characters skips UTF-8 continuation bytes, and the fast variant tests four bytes at once.
 */
module StringLength {
  import opened Words

  predicate IsContinuation(b: byte)
  {
    0x80 <= b <= 0xbf
  }

  function Continuations(s: Bytes): (n: nat)
    ensures n <= |s|
  {
    if s == [] then 0 else Continuations(s[..|s| - 1]) + if IsContinuation(s[|s| - 1]) then 1 else 0
  }

  function CharLength(s: Bytes): nat
  {
    |s| - Continuations(s)
  }

  /** Symbols are strings whose first byte cannot begin a character. */
  predicate IsSymbol(s: Bytes)
  {
    s != [] && s[0] >= 0x80 && (s[0] <= 0x81 || s[0] == 0x82 || s[0] == 0xff)
  }

  function Length(s: Bytes): nat
  {
    if IsSymbol(s) then 0 else CharLength(s)
  }

  // ---------- what has length zero ----------

  /** No byte, a symbol's first byte, or continuation bytes only. */
  predicate SeemsEmpty(s: Bytes)
  {
    (s != [] && s[0] in {0x80, 0x81, 0x82, 0xff}) || forall k :: 0 <= k < |s| ==> 0x80 <= s[k] <= 0xbf
  }

  lemma {:induction false} AllContinuations(s: Bytes)
    ensures Continuations(s) == |s| <==> forall k :: 0 <= k < |s| ==> IsContinuation(s[k])
  {
    if s != [] {
      var n := |s| - 1;
      AllContinuations(s[..n]);
      assert forall k :: 0 <= k < n ==> s[..n][k] == s[k];
    }
  }

  /** The strings of length zero are exactly those three kinds. */
  lemma {:induction false} LengthZero(s: Bytes)
    ensures Length(s) == 0 <==> SeemsEmpty(s)
  {
    AllContinuations(s);
  }

  // ---------- counting ----------

  lemma CountNext(s: Bytes, p: nat)
    requires p < |s|
    ensures Continuations(s[..p + 1]) == Continuations(s[..p]) + if IsContinuation(s[p]) then 1 else 0
  {
    assert s[..p + 1][..p] == s[..p];
  }

  /** The small variant: byte by byte. */
  method CountChars(data: Bytes) returns (clen: nat)
    ensures clen == CharLength(data)
  {
    var p, ncont := 0, 0;
    while p != |data|
      invariant p <= |data| && ncont == Continuations(data[..p])
      decreases |data| - p
    {
      CountNext(data, p);
      var x := data[p];
      p := p + 1;
      if x >= 0x80 && x <= 0xbf { ncont := ncont + 1; }
    }
    assert data[..p] == data;
    clen := |data| - ncont;
  }

  /** A word of four bytes, the first of them highest. */
  function WordOf(a: byte, b: byte, c: byte, d: byte): bv32
  {
    (a as bv8 as bv32 << 24) | (b as bv8 as bv32 << 16) | (c as bv8 as bv32 << 8) | d as bv8 as bv32
  }

  lemma ByteTest(b: byte)
    ensures b as bv8 & 0xc0 == 0x80 <==> IsContinuation(b)
  {
  }

  /** With the highest bit of each byte flipped, a continuation byte has its two high bits clear. */
  lemma WordTests(a: bv8, b: bv8, c: bv8, d: bv8)
    ensures var x := (a as bv32 << 24) | (b as bv32 << 16) | (c as bv32 << 8) | d as bv32;
            var y := x ^ 0x8080_8080;
            && (y & 0xc000_0000 == 0 <==> a & 0xc0 == 0x80)
            && (y & 0x00c0_0000 == 0 <==> b & 0xc0 == 0x80)
            && (y & 0x0000_c000 == 0 <==> c & 0xc0 == 0x80)
            && (y & 0x0000_00c0 == 0 <==> d & 0xc0 == 0x80)
            && (x & 0x8080_8080 == 0 ==> a & 0xc0 != 0x80 && b & 0xc0 != 0x80 && c & 0xc0 != 0x80 && d & 0xc0 != 0x80)
  {
  }

  function One(b: byte): nat
  {
    if IsContinuation(b) then 1 else 0
  }

  /** The continuation bytes of one word. */
  method CountWord(a: byte, b: byte, c: byte, d: byte) returns (n: nat)
    ensures n == One(a) + One(b) + One(c) + One(d)
  {
    WordTests(a as bv8, b as bv8, c as bv8, d as bv8);
    ByteTest(a);
    ByteTest(b);
    ByteTest(c);
    ByteTest(d);
    var x := WordOf(a, b, c, d);
    n := 0;
    if x & 0x8080_8080 != 0 {
      x := x ^ 0x8080_8080;
      if x & 0xc000_0000 == 0 { n := n + 1; }
      if x & 0x00c0_0000 == 0 { n := n + 1; }
      if x & 0x0000_c000 == 0 { n := n + 1; }
      if x & 0x0000_00c0 == 0 { n := n + 1; }
    }
  }

  lemma CountFour(s: Bytes, p: nat)
    requires p + 4 <= |s|
    ensures Continuations(s[..p + 4]) == Continuations(s[..p]) + One(s[p]) + One(s[p + 1]) + One(s[p + 2]) + One(s[p + 3])
  {
    hide Continuations;
    CountNext(s, p);
    CountNext(s, p + 1);
    CountNext(s, p + 2);
    CountNext(s, p + 3);
  }

  /** The fast variant, for data at any address on a machine of either byte order: single bytes up to an
      aligned address, whole words, and single bytes again. */
  method CountCharsFast(data: Bytes, address: nat, bigEndian: bool) returns (clen: nat)
    ensures clen == CharLength(data)
  {
    hide Continuations;
    var p, ncont := 0, 0;
    NoneInNothing();
    assert data[..0] == [];
    if |data| >= 16 {
      while (address + p) % 4 != 0
        invariant p <= (4 - address % 4) % 4 && ncont == Continuations(data[..p])
        decreases 4 - p
      {
        CountNext(data, p);
        var x := data[p];
        p := p + 1;
        if x >= 0x80 && x <= 0xbf { ncont := ncont + 1; }
      }
      var end := p + (|data| - p) / 4 * 4;
      while p != end
        invariant p <= end <= |data| && (end - p) % 4 == 0 && ncont == Continuations(data[..p])
        decreases end - p
      {
        CountFour(data, p);
        var n: nat;
        if bigEndian {
          n := CountWord(data[p], data[p + 1], data[p + 2], data[p + 3]);
        } else {
          n := CountWord(data[p + 3], data[p + 2], data[p + 1], data[p]);
        }
        ncont := ncont + n;
        p := p + 4;
      }
    }
    while p != |data|
      invariant p <= |data| && ncont == Continuations(data[..p])
      decreases |data| - p
    {
      CountNext(data, p);
      var x := data[p];
      p := p + 1;
      if x >= 0x80 && x <= 0xbf { ncont := ncont + 1; }
    }
    assert data[..p] == data;
    clen := |data| - ncont;
  }

  lemma NoneInNothing()
    ensures Continuations([]) == 0
  {
  }
}
