/**
 The codec as callers see it: output buffers sized as the API functions size them, both build
 variants side by side, and errors as None.
 */
module Base64Api {
  import opened Wrappers
  import opened Base64Spec
  import opened Words
  import opened Base64Laws
  import opened Base64Codec
  import opened Base64Decoder

  const ENCODE_LIMIT: nat := 3221225469

  /** The input limit is exact: it is the largest length whose encoded length fits 32 bits. */
  lemma EncodeLimitIsExact(n: nat)
    ensures n <= ENCODE_LIMIT <==> EncodedLength(n) < 0x1_0000_0000
    ensures n <= ENCODE_LIMIT ==> n + 2 < 0x1_0000_0000
  {
    var k := (n + 2) / 3;
    assert 3 * k <= n + 2 < 3 * k + 3;
  }

  /** Both encoders into buffers of the exact output length. */
  method EncodeBoth(src: array<byte>) returns (fast: Option<seq<byte>>, compact: Option<seq<byte>>)
    ensures fast == compact == if src.Length > ENCODE_LIMIT then None else Some(Encode(src[..]))
  {
    if src.Length > ENCODE_LIMIT { return None, None; }
    var dst := new byte[EncodedLength(src.Length)];
    EncodeHelperFast(src, dst);
    fast := Some(dst[..]);
    EncodeHelperCompact(src, dst);
    compact := Some(dst[..]);
  }

  /** Both decoders into buffers of the size the API allocates: no store falls outside, and on every
      input both reject, or both accept with the same output. */
  method DecodeBoth(src: array<byte>) returns (fast: Option<seq<byte>>, compact: Option<seq<byte>>)
    ensures fast == compact == Decode(src[..])
  {
    var dst := new byte[src.Length / 4 * 3 + 6];
    var ok, n := DecodeHelperFast(src, dst);
    fast := if ok then Some(dst[..n]) else None;
    ok, n := DecodeHelperCompact(src, dst);
    compact := if ok then Some(dst[..n]) else None;
  }

  /** Encoding followed by decoding, in any combination of the variants. */
  method EncodeThenDecode(src: array<byte>) returns (a: Option<seq<byte>>, b: Option<seq<byte>>)
    requires src.Length <= ENCODE_LIMIT
    ensures a == b == Some(src[..])
  {
    var text, _ := EncodeBoth(src);
    var buf := new byte[|text.value|](i requires 0 <= i < |text.value| => text.value[i]);
    assert buf[..] == text.value;
    RoundTrip(src[..]);
    a, b := DecodeBoth(buf);
  }
}
