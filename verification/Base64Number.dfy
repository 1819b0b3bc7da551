/**
 What an encoding says as a number: its digits are those of the encoded bytes in base 64, followed by
 as many zero bits as the last digit has to spare, and by the padding characters that the length asks for.
 */
module Base64Number {
  import opened Words
  import opened Wrappers
  import opened Base64Spec
  import VarintSpec

  /** Characters as a number, most significant first, by their entries in the decode table. */
  function Base64(t: seq<byte>): int
  {
    if t == [] then 0 else Base64(t[..|t| - 1]) * 64 + DecTab(t[|t| - 1])
  }

  /** The characters of an encoding that stand for no bits. */
  function PadCount(n: nat): nat
  {
    if n % 3 == 0 then 0 else 3 - n % 3
  }

  /** Four characters for every three bytes, begun groups included. */
  function TextLength(n: nat): nat
  {
    (n + 2) / 3 * 4
  }

  /** A number with the zero bits that follow it when it ends 'n' bytes. */
  function WithSpareBits(v: nat, n: nat): nat
  {
    if n % 3 == 0 then v else if n % 3 == 1 then v * 16 else v * 4
  }

  predicate AllDigits(t: seq<byte>)
  {
    forall k :: 0 <= k < |t| ==> 0 <= DecTab(t[k]) < 64
  }

  lemma Base64Push(t: seq<byte>, x: digit)
    ensures Base64(t + [EncTab(x)]) == Base64(t) * 64 + x
  {
    assert (t + [EncTab(x)])[..|t|] == t;
    EncTabIsDigit(x);
  }

  /** Whole groups are encoded on their own. */
  lemma {:induction false} EncodeConcat(a: seq<byte>, b: seq<byte>)
    requires |a| % 3 == 0
    ensures Encode(a + b) == Encode(a) + Encode(b)
    decreases |a|
  {
    hide Quad;
    if a == [] {
      assert a + b == b;
    } else {
      assert (a + b)[3..] == a[3..] + b;
      EncodeConcat(a[3..], b);
    }
  }

  /** The digits of a group behind others, as a number: all four, and fewer when the last bytes are zero. */
  lemma GroupCarries(v: int, a: byte, b: byte, c: byte)
    ensures var d := Digits(a, b, c);
            var two: int := (v * 64 + d[0]) * 64 + d[1];
            && (two * 64 + d[2]) * 64 + d[3] == ((v * 256 + a) * 256 + b) * 256 + c
            && (c == 0 ==> two * 64 + d[2] == ((v * 256 + a) * 256 + b) * 4)
            && (c == 0 && b == 0 ==> two == (v * 256 + a) * 16)
  {
  }

  /** Digits put behind others. */
  lemma DigitsPush(t: seq<byte>, ds: seq<digit>, u: seq<byte>)
    requires 2 <= |ds| <= 4 && |u| == |ds| && forall k :: 0 <= k < |u| ==> u[k] == EncTab(ds[k])
    ensures var two: int := (Base64(t) * 64 + ds[0]) * 64 + ds[1];
            Base64(t + u) == if |ds| == 2 then two else if |ds| == 3 then two * 64 + ds[2] else (two * 64 + ds[2]) * 64 + ds[3]
  {
    hide *;
    var n := |ds| - 1;
    assert u == u[..n] + [u[n]];
    assert t + u == t + u[..n] + [u[n]];
    Base64Push(t + u[..n], ds[n]);
    if n == 1 {
      Base64Push(t, ds[0]);
      assert u[..1] == [u[0]];
    } else {
      assert forall k :: 0 <= k < n ==> u[..n][k] == EncTab(ds[..n][k]);
      DigitsPush(t, ds[..n], u[..n]);
    }
  }

  lemma DigitsConcat(t: seq<byte>, ds: seq<digit>, u: seq<byte>)
    requires AllDigits(t) && |u| == |ds| && forall k :: 0 <= k < |u| ==> u[k] == EncTab(ds[k])
    ensures AllDigits(t + u)
  {
    forall k | 0 <= k < |u| ensures 0 <= DecTab(u[k]) < 64 { EncTabIsDigit(ds[k]); }
    hide EncTab, DecTab;
  }

  lemma BytesPush(s: seq<byte>, z: seq<byte>)
    requires 1 <= |z| <= 3
    ensures var one := VarintSpec.Number(s) * 256 + z[0];
            VarintSpec.Number(s + z) == if |z| == 1 then one else if |z| == 2 then one * 256 + z[1] else (one * 256 + z[1]) * 256 + z[2]
  {
    hide VarintSpec.Number;
    VarintSpec.NumberPush(s, z[0]);
    if |z| == 1 {
      assert z == [z[0]];
    } else {
      VarintSpec.NumberPush(s + [z[0]], z[1]);
      if |z| == 2 {
        assert s + z == s + [z[0]] + [z[1]];
      } else {
        VarintSpec.NumberPush(s + [z[0]] + [z[1]], z[2]);
        assert s + z == s + [z[0]] + [z[1]] + [z[2]];
      }
    }
  }

  /** The text 't' spells 's': its characters up to the padding are digits, as a number those are the bytes times
      the spare zero bits, and the padding is as long as it must be. */
  ghost predicate Spells(s: seq<byte>, t: seq<byte>)
  {
    && |t| == TextLength(|s|)
    && var n := |t| - PadCount(|s|);
       && n >= 0 && AllDigits(t[..n]) && Base64(t[..n]) == WithSpareBits(VarintSpec.Number(s), |s|)
       && forall k :: n <= k < |t| ==> t[k] == 0x3d
  }

  /** The digits of one to three bytes that are encoded last. */
  function LastGroup(z: seq<byte>): (ds: seq<digit>)
    requires 1 <= |z| <= 3
    ensures |ds| == |z| + 1
  {
    if |z| == 1 then Digits(z[0], 0, 0)[..2] else if |z| == 2 then Digits(z[0], z[1], 0)[..3] else Digits(z[0], z[1], z[2])
  }

  lemma EncodeLast(z: seq<byte>)
    requires 1 <= |z| <= 3
    ensures |Encode(z)| == 4
    ensures forall k :: 0 <= k <= |z| ==> Encode(z)[k] == EncTab(LastGroup(z)[k])
    ensures forall k :: |z| < k < 4 ==> Encode(z)[k] == 0x3d
  {
    if |z| == 3 { assert z[3..] == []; }
    hide EncTab, Digits;
  }

  lemma LastGroupCarries(v: int, z: seq<byte>)
    requires 1 <= |z| <= 3
    ensures var d := LastGroup(z);
            var one, two: int := v * 256 + z[0], (v * 64 + d[0]) * 64 + d[1];
            && (|z| == 1 ==> two == one * 16)
            && (|z| == 2 ==> two * 64 + d[2] == (one * 256 + z[1]) * 4)
            && (|z| == 3 ==> (two * 64 + d[2]) * 64 + d[3] == (one * 256 + z[1]) * 256 + z[2])
  {
    GroupCarries(v, z[0], if |z| > 1 then z[1] else 0, if |z| > 2 then z[2] else 0);
    hide Digits;
  }

  lemma SpellsWhole(s: seq<byte>, t: seq<byte>)
    requires |s| % 3 == 0
    ensures Spells(s, t) <==> |t| == TextLength(|s|) && AllDigits(t) && Base64(t) == VarintSpec.Number(s)
  {
    hide AllDigits, Base64, VarintSpec.Number;
    assert t[..|t|] == t;
  }

  lemma MakeSpells(s: seq<byte>, t: seq<byte>, n: nat)
    requires |t| == TextLength(|s|) && n + PadCount(|s|) == |t|
    requires AllDigits(t[..n]) && Base64(t[..n]) == WithSpareBits(VarintSpec.Number(s), |s|)
    requires forall k :: n <= k < |t| ==> t[k] == 0x3d
    ensures Spells(s, t)
  {
    hide AllDigits, Base64, VarintSpec.Number, WithSpareBits, PadCount, TextLength;
  }

  lemma SpellsLast(s: seq<byte>, z: seq<byte>, t: seq<byte>, u: seq<byte>)
    requires |s| % 3 == 0 && 1 <= |z| <= 3 && |t| == TextLength(|s|) && |u| == 4
    requires AllDigits(t + u[..|z| + 1]) && Base64(t + u[..|z| + 1]) == WithSpareBits(VarintSpec.Number(s + z), |z|)
    requires forall k :: |z| < k < 4 ==> u[k] == 0x3d
    ensures Spells(s + z, t + u)
  {
    hide *;
    LengthsFit(|s|, |z|);
    SameSpareBits(VarintSpec.Number(s + z), |s|, |z|);
    var n := |t| + |z| + 1;
    assert (t + u)[..n] == t + u[..|z| + 1];
    MakeSpells(s + z, t + u, n);
  }

  lemma LengthsFit(n: nat, k: nat)
    requires n % 3 == 0 && 1 <= k <= 3
    ensures TextLength(n + k) == TextLength(n) + 4 && PadCount(n + k) == 3 - k
  {
  }

  lemma SameSpareBits(v: nat, n: nat, k: nat)
    requires n % 3 == 0
    ensures WithSpareBits(v, n + k) == WithSpareBits(v, k)
  {
  }

  lemma GroupSpells(s: seq<byte>, z: seq<byte>, t: seq<byte>)
    requires Spells(s, t) && |s| % 3 == 0 && 1 <= |z| <= 3
    ensures Spells(s + z, t + Encode(z))
  {
    hide *;
    SpellsWhole(s, t);
    EncodeLast(z);
    LastGroupCarries(Base64(t), z);
    DigitsPush(t, LastGroup(z), Encode(z)[..|z| + 1]);
    DigitsConcat(t, LastGroup(z), Encode(z)[..|z| + 1]);
    BytesPush(s, z);
    SpareBitsOf(VarintSpec.Number(s + z));
    SpellsLast(s, z, t, Encode(z));
  }

  lemma SpareBitsOf(v: nat)
    ensures WithSpareBits(v, 1) == v * 16 && WithSpareBits(v, 2) == v * 4 && WithSpareBits(v, 3) == v
  {
  }

  lemma NothingSpells()
    ensures Spells([], Encode([]))
  {
  }

  /** The law that fixes every character of an encoding: in base 64 its digits are the bytes in base 256,
      times 1, 16 or 4, and exactly the last 0, 2 or 1 characters are '='. */
  lemma {:induction false} EncodeIsNumber(s: seq<byte>)
    ensures Spells(s, Encode(s))
    decreases |s|
  {
    hide *;
    if s == [] {
      NothingSpells();
    } else {
      var r := if |s| % 3 == 0 then 3 else |s| % 3;
      var a, z := s[..|s| - r], s[|s| - r..];
      assert s == a + z && |a| % 3 == 0;
      EncodeConcat(a, z);
      EncodeIsNumber(a);
      GroupSpells(a, z, Encode(a));
    }
  }

  // ---------- Decoding ----------

  /** Digits as a number, most significant first. */
  function DigitNumber(g: seq<digit>): nat
  {
    if g == [] then 0 else DigitNumber(g[..|g| - 1]) * 64 + g[|g| - 1]
  }

  lemma {:induction false} RunConcat(a: seq<digit>, b: seq<digit>)
    requires |a| % 4 == 0
    ensures RunBytes(a + b) == Join(RunBytes(a), RunBytes(b))
    decreases |a|
  {
    hide GroupBytes;
    if a == [] {
      assert a + b == b;
      JoinEmpty(RunBytes(b));
    } else {
      assert (a + b)[4..] == a[4..] + b;
      RunConcat(a[4..], b);
      JoinAssociative(Some(GroupBytes(a[0], a[1], a[2], a[3])), RunBytes(a[4..]), RunBytes(b));
    }
  }

  lemma DigitNumberPush(g: seq<digit>, x: digit)
    ensures DigitNumber(g + [x]) == DigitNumber(g) * 64 + x
  {
    assert (g + [x])[..|g|] == g;
  }

  lemma {:induction false} DigitNumberTail(g: seq<digit>, h: seq<digit>)
    requires 2 <= |h| <= 4
    ensures var two: int := (DigitNumber(g) * 64 + h[0]) * 64 + h[1];
            DigitNumber(g + h) == if |h| == 2 then two else if |h| == 3 then two * 64 + h[2] else (two * 64 + h[2]) * 64 + h[3]
    decreases |h|
  {
    hide *;
    var n := |h| - 1;
    assert g + h == g + h[..n] + [h[n]];
    DigitNumberPush(g + h[..n], h[n]);
    if n == 1 {
      DigitNumberPush(g, h[0]);
      assert h[..1] == [h[0]];
    } else {
      DigitNumberTail(g, h[..n]);
    }
  }

  /** The bytes of the last digits of a run, as a number behind 'v'. */
  lemma LastBytes(v: nat, h: seq<digit>)
    requires 2 <= |h| <= 4
    ensures RunBytes(h).Some? && |RunBytes(h).value| == |h| - 1
    ensures var z := RunBytes(h).value;
            var two: int, one: int := (v * 64 + h[0]) * 64 + h[1], v * 256 + z[0];
            && (|h| == 2 ==> one == two / 16)
            && (|h| == 3 ==> one * 256 + z[1] == (two * 64 + h[2]) / 4)
            && (|h| == 4 ==> (one * 256 + z[1]) * 256 + z[2] == (two * 64 + h[2]) * 64 + h[3])
  {
    if |h| == 4 {
      assert h[4..] == [];
      JoinEmpty(Some(GroupBytes(h[0], h[1], h[2], h[3])));
    }
  }

  /** A number without the bits that a run of 'n' digits has to spare. */
  function WithoutSpareBits(v: nat, n: nat): nat
  {
    if n % 4 == 2 then v / 16 else if n % 4 == 3 then v / 4 else v
  }

  lemma RunTail(a: seq<digit>, h: seq<digit>)
    requires |a| % 4 == 0 && 2 <= |h| <= 4 && RunBytes(a).Some? && VarintSpec.Number(RunBytes(a).value) == DigitNumber(a)
    ensures RunBytes(a + h).Some? && VarintSpec.Number(RunBytes(a + h).value) == WithoutSpareBits(DigitNumber(a + h), |h|)
  {
    hide RunBytes, VarintSpec.Number, DigitNumber;
    RunConcat(a, h);
    LastBytes(DigitNumber(a), h);
    DigitNumberTail(a, h);
    BytesPush(RunBytes(a).value, RunBytes(h).value);
  }

  lemma RunEnds(v: nat, n: nat, k: nat)
    requires n % 4 == 0
    ensures WithoutSpareBits(v, n + k) == WithoutSpareBits(v, k) && WithoutSpareBits(v, n) == v
    ensures RunBytes([]) == Some([]) && VarintSpec.Number([]) == 0 && DigitNumber([]) == 0
    ensures forall h: seq<digit> :: |h| == 1 ==> RunBytes(h) == None
  {
  }

  lemma JoinParts(a: Option<seq<byte>>, b: Option<seq<byte>>)
    requires Join(a, b).Some?
    ensures a.Some? && b.Some?
  {
  }

  /** The bytes of a run of digits are its number in base 256, without the bits that do not fill a byte,
      whatever those bits are. */
  lemma {:induction false} RunIsNumber(g: seq<digit>)
    requires RunBytes(g).Some?
    ensures VarintSpec.Number(RunBytes(g).value) == WithoutSpareBits(DigitNumber(g), |g|)
    decreases |g|
  {
    hide *;
    if g == [] {
      RunEnds(0, 0, 0);
    } else {
      var r := if |g| % 4 == 0 then 4 else |g| % 4;
      var a, h := g[..|g| - r], g[|g| - r..];
      assert g == a + h && |a| % 4 == 0;
      RunConcat(a, h);
      JoinParts(RunBytes(a), RunBytes(h));
      RunIsNumber(a);
      RunEnds(DigitNumber(a), |a|, 0);
      RunEnds(DigitNumber(g), |a|, r);
      RunTail(a, h);
    }
  }
}
