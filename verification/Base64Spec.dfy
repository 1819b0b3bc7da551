/**
 Reference definitions for the Base64 codec: what an encoding is, and what a decoder must
 accept and produce, following section 4 of RFC 4648 with the liberties the codec documents
 (whitespace anywhere, missing, partial or extra padding, concatenated documents).
 */
module Base64Spec {
  import opened Words
  import opened Wrappers

  type digit = x: int | 0 <= x < 64

  // ---------- Characters ----------

  /** The decode table by ranges: -1 is whitespace, -2 is padding, -3 is an error.  `Base64Tables` has the entries. */
  function DecTab(c: byte): (x: int)
    ensures -3 <= x < 64
  {
    if 0x41 <= c <= 0x5a then c - 0x41
    else if 0x61 <= c <= 0x7a then c - 0x61 + 26
    else if 0x30 <= c <= 0x39 then c - 0x30 + 52
    else if c == 0x2b then 62
    else if c == 0x2f then 63
    else if c == 0x09 || c == 0x0a || c == 0x0d || c == 0x20 then -1
    else if c == 0x3d then -2
    else -3
  }

  /** The encode table by ranges. */
  function EncTab(x: digit): byte
  {
    if x <= 25 then x + 0x41
    else if x <= 51 then x - 26 + 0x61
    else if x <= 61 then x - 52 + 0x30
    else if x == 62 then 0x2b
    else 0x2f
  }

  const EQUALS: byte := 0x3d

  datatype Symbol = Digit(v: digit) | White | Pad | Bad

  function Classify(c: byte): Symbol
  {
    var x := DecTab(c);
    if x >= 0 then Digit(x)
    else if x == -1 then White
    else if x == -2 then Pad
    else Bad
  }

  lemma EncTabIsDigit(x: digit)
    ensures Classify(EncTab(x)) == Digit(x)
  {
  }

  function Symbols(s: seq<byte>): (r: seq<Symbol>)
    ensures |r| == |s| && forall k :: 0 <= k < |s| ==> r[k] == Classify(s[k])
  {
    seq(|s|, k requires 0 <= k < |s| => Classify(s[k]))
  }

  // ---------- Groups ----------

  /** Four digits carry three bytes: xxxxxxyy yyyyzzzz zzwwwwww. */
  function GroupBytes(x: digit, y: digit, z: digit, w: digit): (r: seq<byte>)
    ensures |r| == 3
  {
    [x * 4 + y / 16, y % 16 * 16 + z / 4, z % 4 * 64 + w]
  }

  /** The bytes of a run of digits: whole groups, then a partial group of 0, 2 or 3 digits. */
  function RunBytes(g: seq<digit>): Option<seq<byte>>
  {
    if |g| == 0 then Some([])
    else if |g| == 1 then None
    else if |g| == 2 then Some(GroupBytes(g[0], g[1], 0, 0)[..1])
    else if |g| == 3 then Some(GroupBytes(g[0], g[1], g[2], 0)[..2])
    else Join(Some(GroupBytes(g[0], g[1], g[2], g[3])), RunBytes(g[4..]))
  }

  /** Concatenate two results; a rejection on either side rejects. */
  function Join(a: Option<seq<byte>>, b: Option<seq<byte>>): Option<seq<byte>>
  {
    if a.Some? && b.Some? then Some(a.value + b.value) else None
  }

  // ---------- The reference decoder ----------

  /** The digits of a text, whitespace skipped, up to its first padding (or bad) character. */
  function FirstRun(s: seq<Symbol>): seq<digit>
  {
    if s == [] then []
    else match s[0]
      case Digit(x) => [x] + FirstRun(s[1..])
      case White => FirstRun(s[1..])
      case _ => []
  }

  /** What follows the first padding character. */
  function AfterRun(s: seq<Symbol>): (r: seq<Symbol>)
    ensures |r| <= |s|
    ensures s != [] ==> |r| < |s|
  {
    if s == [] then []
    else if s[0].Pad? then s[1..]
    else AfterRun(s[1..])
  }

  /** Decode run by run; padding only ends a run. */
  function DecodeRuns(s: seq<Symbol>): Option<seq<byte>>
    decreases |s|
  {
    if s == [] then Some([])
    else Join(RunBytes(FirstRun(s)), DecodeRuns(AfterRun(s)))
  }

  /** Reject a text with a bad character, decode any other run by run. */
  function Decode(s: seq<byte>): Option<seq<byte>>
  {
    if Bad in Symbols(s) then None else DecodeRuns(Symbols(s))
  }

  // ---------- The same, one character at a time with a pending group ----------

  /** Decode the rest 's' of a text when the digits 'g' of an incomplete group were already read. */
  function Cont(g: seq<digit>, s: seq<Symbol>): Option<seq<byte>>
    requires |g| < 4
    decreases |s|
  {
    if s == [] then RunBytes(g)
    else match s[0]
      case Bad => None
      case White => Cont(g, s[1..])
      case Pad => Join(RunBytes(g), Cont([], s[1..]))
      case Digit(x) =>
        if |g| == 3 then Join(Some(GroupBytes(g[0], g[1], g[2], x)), Cont([], s[1..]))
        else Cont(g + [x], s[1..])
  }

  lemma JoinAssociative(a: Option<seq<byte>>, b: Option<seq<byte>>, c: Option<seq<byte>>)
    ensures Join(a, Join(b, c)) == Join(Join(a, b), c)
  {
    if a.Some? && b.Some? && c.Some? { assert a.value + (b.value + c.value) == (a.value + b.value) + c.value; }
  }

  lemma JoinEmpty(a: Option<seq<byte>>)
    ensures Join(a, Some([])) == a == Join(Some([]), a)
  {
    if a.Some? { assert a.value + [] == a.value == [] + a.value; }
  }

  /** The run-wise reading of a text whose first run is preceded by the digits 'g'. */
  function RunsFrom(g: seq<digit>, s: seq<Symbol>): Option<seq<byte>>
  {
    Join(RunBytes(g + FirstRun(s)), DecodeRuns(AfterRun(s)))
  }

  lemma RunsFromNothing(s: seq<Symbol>)
    ensures RunsFrom([], s) == DecodeRuns(s)
  {
    assert [] + FirstRun(s) == FirstRun(s);
  }

  lemma RunsFromFullGroup(g: seq<digit>, s: seq<Symbol>)
    requires |g| == 3 && s != [] && s[0].Digit?
    ensures RunsFrom(g, s) == Join(Some(GroupBytes(g[0], g[1], g[2], s[0].v)), DecodeRuns(s[1..]))
  {
    var run, rest := g + FirstRun(s), s[1..];
    assert run[4..] == FirstRun(rest);
    JoinAssociative(Some(GroupBytes(run[0], run[1], run[2], run[3])), RunBytes(FirstRun(rest)), DecodeRuns(AfterRun(rest)));
    RunsFromNothing(rest);
    assert [] + FirstRun(rest) == FirstRun(rest);
  }

  lemma RunsFromPad(g: seq<digit>, s: seq<Symbol>)
    requires s != [] && s[0].Pad?
    ensures RunsFrom(g, s) == Join(RunBytes(g), DecodeRuns(s[1..]))
  {
    assert g + FirstRun(s) == g;
  }

  lemma RunsFromDigit(g: seq<digit>, s: seq<Symbol>)
    requires s != [] && s[0].Digit?
    ensures RunsFrom(g, s) == RunsFrom(g + [s[0].v], s[1..])
  {
    assert g + FirstRun(s) == g + [s[0].v] + FirstRun(s[1..]);
  }

  lemma {:induction false} ContIsRuns(g: seq<digit>, s: seq<Symbol>)
    requires |g| < 4
    ensures Cont(g, s) == if Bad in s then None else RunsFrom(g, s)
    decreases |s|
  {
    if s == [] {
      assert g + FirstRun(s) == g;
      JoinEmpty(RunBytes(g));
    } else {
      var rest := s[1..];
      assert s == [s[0]] + rest;
      match s[0]
      case Bad =>
      case White =>
        ContIsRuns(g, rest);
      case Pad =>
        ContIsRuns([], rest);
        RunsFromNothing(rest);
        RunsFromPad(g, s);
      case Digit(x) =>
        if |g| == 3 {
          ContIsRuns([], rest);
          RunsFromNothing(rest);
          RunsFromFullGroup(g, s);
        } else {
          ContIsRuns(g + [x], rest);
          RunsFromDigit(g, s);
        }
    }
  }

  /** The character-wise and the run-wise readings of any text agree. */
  lemma ContIsDecode(s: seq<byte>)
    ensures Cont([], Symbols(s)) == Decode(s)
  {
    ContIsRuns([], Symbols(s));
    RunsFromNothing(Symbols(s));
  }

  // ---------- Encoding ----------

  function EncodedLength(n: nat): nat
  {
    (n + 2) / 3 * 4
  }

  /** Section 4 of RFC 4648: 24-bit groups, the last one padded with zero bits and '='. */
  function Encode(s: seq<byte>): (r: seq<byte>)
    ensures |r| == EncodedLength(|s|)
  {
    if |s| == 0 then []
    else if |s| == 1 then Quad(s[0], 0, 0)[..2] + [EQUALS, EQUALS]
    else if |s| == 2 then Quad(s[0], s[1], 0)[..3] + [EQUALS]
    else Quad(s[0], s[1], s[2]) + Encode(s[3..])
  }

  function Digits(a: byte, b: byte, c: byte): (r: seq<digit>)
    ensures |r| == 4
  {
    [a / 4, a % 4 * 16 + b / 16, b % 16 * 4 + c / 64, c % 64]
  }

  function Pads(n: nat): (r: seq<byte>)
    ensures |r| == n && forall k :: 0 <= k < n ==> r[k] == EQUALS
  {
    if n == 0 then [] else [EQUALS] + Pads(n - 1)
  }

  /** The four characters of three bytes. */
  function Quad(a: byte, b: byte, c: byte): (r: seq<byte>)
    ensures |r| == 4
  {
    var d := Digits(a, b, c);
    [EncTab(d[0]), EncTab(d[1]), EncTab(d[2]), EncTab(d[3])]
  }
}
