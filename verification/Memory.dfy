/** Moving stretches of memory. */
module Memory {
  /** A sequence with the elements from 'offset' on replaced. */
  function Patched<T>(b: seq<T>, offset: nat, p: seq<T>): (r: seq<T>)
    requires offset + |p| <= |b|
    ensures |r| == |b|
  {
    b[..offset] + p + b[offset + |p|..]
  }

  /** memmove(): the direction of the copy depends on which area starts first. */
  method MemMove<T>(mem: array<T>, d: nat, s: nat, n: nat)
    requires d + n <= mem.Length && s + n <= mem.Length
    modifies mem
    ensures mem[..] == Patched(old(mem[..]), d, old(mem[s..s + n]))
  {
    ghost var m := mem[..];
    if d <= s {
      for i := 0 to n
        invariant forall k {:trigger mem[k]} :: 0 <= k < mem.Length ==> mem[k] == if d <= k < d + i then m[s + (k - d)] else m[k]
      {
        mem[d + i] := mem[s + i];
      }
    } else {
      for i := n downto 0
        invariant forall k {:trigger mem[k]} :: 0 <= k < mem.Length ==> mem[k] == if d + i <= k < d + n then m[s + (k - d)] else m[k]
      {
        mem[d + i] := mem[s + i];
      }
    }
    Moved(m, mem[..], d, s, n);
  }

  lemma Moved<T>(m: seq<T>, r: seq<T>, d: nat, s: nat, n: nat)
    requires |r| == |m| && d + n <= |m| && s + n <= |m|
    requires forall k {:trigger r[k]} :: 0 <= k < |m| ==> r[k] == if d <= k < d + n then m[s + (k - d)] else m[k]
    ensures r == Patched(m, d, m[s..s + n])
  {
    var t := Patched(m, d, m[s..s + n]);
    assert forall k {:trigger r[k]} :: 0 <= k < |m| ==> t[k] == r[k];
  }
}
