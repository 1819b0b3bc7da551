/** Bytes, and big-endian words of two and four bytes. */
module Words {
  type byte = x: int | 0 <= x < 256
  type Bytes = seq<byte>

  /** The bytes of an IEEE double. */
  type Octets = s: Bytes | |s| == 8 witness [0, 0, 0, 0, 0, 0, 0, 0]

  function Low(n: int): byte
  {
    n % 256
  }

  function Put16(n: int): (w: Bytes)
    ensures |w| == 2
  {
    [Low(n / 0x100), Low(n)]
  }

  function Put32(n: int): (w: Bytes)
    ensures |w| == 4
  {
    [Low(n / 0x100_0000), Low(n / 0x1_0000), Low(n / 0x100), Low(n)]
  }

  function Append8(hi: nat, lo: nat): nat
  {
    hi * 0x100 + lo
  }

  function Get16(w: Bytes): nat
    requires |w| == 2
  {
    Append8(w[0], w[1])
  }

  function Get32(w: Bytes): nat
    requires |w| == 4
  {
    Append8(Append8(Append8(w[0], w[1]), w[2]), w[3])
  }

  /** A word keeps a number up to its width. */
  lemma Word16(n: int)
    ensures Get16(Put16(n)) == n % 0x1_0000
  {
    var q := n / 0x100;
    assert n == q / 0x100 * 0x1_0000 + Low(q) * 0x100 + Low(n);
  }

  lemma Word32(n: int)
    ensures Get32(Put32(n)) == n % 0x1_0000_0000
  {
    var q := n / 0x100;
    var r := q / 0x100;
    var s := r / 0x100;
    assert n / 0x1_0000 == r && n / 0x100_0000 == s;
    assert n == s / 0x100 * 0x1_0000_0000 + Low(s) * 0x100_0000 + Low(r) * 0x1_0000 + Low(q) * 0x100 + Low(n);
  }
}
