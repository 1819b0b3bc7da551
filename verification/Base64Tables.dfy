/**
 The two lookup tables of the fast codec, entry by entry, in rows of 16, and their agreement with the
 ranges that the reference definitions use.
 */
module Base64Tables {
  import opened Words
  import opened Base64Spec

  const ENCODE_ROWS: seq<seq<int>> := [
    [0x41, 0x42, 0x43, 0x44, 0x45, 0x46, 0x47, 0x48, 0x49, 0x4a, 0x4b, 0x4c, 0x4d, 0x4e, 0x4f, 0x50],
    [0x51, 0x52, 0x53, 0x54, 0x55, 0x56, 0x57, 0x58, 0x59, 0x5a, 0x61, 0x62, 0x63, 0x64, 0x65, 0x66],
    [0x67, 0x68, 0x69, 0x6a, 0x6b, 0x6c, 0x6d, 0x6e, 0x6f, 0x70, 0x71, 0x72, 0x73, 0x74, 0x75, 0x76],
    [0x77, 0x78, 0x79, 0x7a, 0x30, 0x31, 0x32, 0x33, 0x34, 0x35, 0x36, 0x37, 0x38, 0x39, 0x2b, 0x2f]
  ]

  const DECODE_ROWS: seq<seq<int>> := [
    [-3, -3, -3, -3, -3, -3, -3, -3, -3, -1, -1, -3, -3, -1, -3, -3],
    [-3, -3, -3, -3, -3, -3, -3, -3, -3, -3, -3, -3, -3, -3, -3, -3],
    [-1, -3, -3, -3, -3, -3, -3, -3, -3, -3, -3, 62, -3, -3, -3, 63],
    [52, 53, 54, 55, 56, 57, 58, 59, 60, 61, -3, -3, -3, -2, -3, -3],
    [-3,  0,  1,  2,  3,  4,  5,  6,  7,  8,  9, 10, 11, 12, 13, 14],
    [15, 16, 17, 18, 19, 20, 21, 22, 23, 24, 25, -3, -3, -3, -3, -3],
    [-3, 26, 27, 28, 29, 30, 31, 32, 33, 34, 35, 36, 37, 38, 39, 40],
    [41, 42, 43, 44, 45, 46, 47, 48, 49, 50, 51, -3, -3, -3, -3, -3],
    [-3, -3, -3, -3, -3, -3, -3, -3, -3, -3, -3, -3, -3, -3, -3, -3],
    [-3, -3, -3, -3, -3, -3, -3, -3, -3, -3, -3, -3, -3, -3, -3, -3],
    [-3, -3, -3, -3, -3, -3, -3, -3, -3, -3, -3, -3, -3, -3, -3, -3],
    [-3, -3, -3, -3, -3, -3, -3, -3, -3, -3, -3, -3, -3, -3, -3, -3],
    [-3, -3, -3, -3, -3, -3, -3, -3, -3, -3, -3, -3, -3, -3, -3, -3],
    [-3, -3, -3, -3, -3, -3, -3, -3, -3, -3, -3, -3, -3, -3, -3, -3],
    [-3, -3, -3, -3, -3, -3, -3, -3, -3, -3, -3, -3, -3, -3, -3, -3],
    [-3, -3, -3, -3, -3, -3, -3, -3, -3, -3, -3, -3, -3, -3, -3, -3]
  ]

  /** The encode table holds for each digit the character that encodes it. */
  lemma EncTabIsTable(x: digit)
    ensures |ENCODE_ROWS| == 4 && |ENCODE_ROWS[x / 16]| == 16 && EncTab(x) == ENCODE_ROWS[x / 16][x % 16]
  {
  }

  /** The decode table holds for each byte its digit, or the mark of whitespace, padding or an error. */
  lemma DecTabIsTable(c: byte)
    ensures |DECODE_ROWS| == 16 && |DECODE_ROWS[c / 16]| == 16 && DecTab(c) == DECODE_ROWS[c / 16][c % 16]
  {
    if c < 128 {
      DecRowsOfAscii(c);
    } else {
      assert DECODE_ROWS[c / 16] == DECODE_ROWS[15];
    }
  }

  lemma DecRowsOfAscii(c: byte)
    requires c < 128
    ensures |DECODE_ROWS[c / 16]| == 16 && DecTab(c) == DECODE_ROWS[c / 16][c % 16]
  {
  }
}
