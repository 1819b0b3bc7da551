/** The incremental parser of the debugger protocol, for any division of the byte stream into chunks. */
module DebugStream {
  import opened Words
  import opened Wrappers
  import opened DebugValues

  // ---------- what a byte stream means ----------

  /** The complete values at the front of a byte sequence, the bytes left over, and whether they start with a
      bad initial byte. */
  datatype Scan = Scan(vals: seq<Dval>, rest: Bytes, bad: bool)

  function ScanAll(b: Bytes): Scan
    decreases |b|
  {
    match TryParse(b)
    case NeedMore => Scan([], b, false)
    case Bad => Scan([], b, true)
    case Parsed(v, n) => var r := ScanAll(b[n..]); Scan([v] + r.vals, r.rest, r.bad)
  }

  /** Values cut into messages at their end markers, and the values of the message still open. */
  datatype Cut = Cut(done: seq<seq<Dval>>, open: seq<Dval>)

  function CutAll(open: seq<Dval>, vals: seq<Dval>): Cut
    decreases |vals|
  {
    if vals == [] then Cut([], open)
    else if vals[0] == Eom then
      var r := CutAll([], vals[1..]);
      Cut([open + [Eom]] + r.done, r.open)
    else CutAll(open + [vals[0]], vals[1..])
  }

  /** Scanning may stop and go on when more bytes come. */
  lemma {:induction false} ScanAppend(b: Bytes, c: Bytes)
    ensures var r := ScanAll(b);
            var q := ScanAll(r.rest + c);
            ScanAll(b + c) == Scan(r.vals + q.vals, q.rest, q.bad)
    decreases |b|
  {
    hide TryParse;
    match TryParse(b)
    case NeedMore =>
    case Bad =>
    case Parsed(v, n) =>
      PrefixCode(b, c);
      assert (b + c)[n..] == b[n..] + c;
      ScanAppend(b[n..], c);
      var r := ScanAll(b[n..]);
      var q := ScanAll(r.rest + c);
      assert [v] + (r.vals + q.vals) == ([v] + r.vals) + q.vals;
  }

  lemma {:induction false} CutAppend(open: seq<Dval>, a: seq<Dval>, b: seq<Dval>)
    ensures var r := CutAll(open, a);
            var q := CutAll(r.open, b);
            CutAll(open, a + b) == Cut(r.done + q.done, q.open)
    decreases |a|
  {
    if a == [] {
      assert a + b == b;
    } else {
      assert (a + b)[1..] == a[1..] + b;
      if a[0] == Eom {
        CutAppend([], a[1..], b);
        var r := CutAll([], a[1..]);
        var q := CutAll(r.open, b);
        assert [open + [Eom]] + (r.done + q.done) == ([open + [Eom]] + r.done) + q.done;
      } else {
        CutAppend(open + [a[0]], a[1..], b);
      }
    }
  }

  // ---------- the parser's state ----------

  datatype State = State(buf: Bytes, msg: seq<Dval>, messages: seq<seq<Dval>>, errors: nat, dvalues: nat, closed: bool)

  const START := State([], [], [], 0, 0, false)

  /** The state after one chunk; a closed parser ignores its input. */
  function Fed(s: State, chunk: Bytes): State
  {
    if s.closed then s
    else
      var r := ScanAll(s.buf + chunk);
      var q := CutAll(s.msg, r.vals);
      State(r.rest, q.open, s.messages + q.done, s.errors + (if r.bad then 1 else 0), s.dvalues + |r.vals|, r.bad)
  }

  function FedAll(s: State, chunks: seq<Bytes>): State
  {
    if chunks == [] then s else Fed(FedAll(s, chunks[..|chunks| - 1]), chunks[|chunks| - 1])
  }

  function Flatten(chunks: seq<Bytes>): Bytes
  {
    if chunks == [] then [] else Flatten(chunks[..|chunks| - 1]) + chunks[|chunks| - 1]
  }

  lemma {:induction false} RestIsStuck(b: Bytes)
    ensures TryParse(ScanAll(b).rest) == if ScanAll(b).bad then Bad else NeedMore
    decreases |b|
  {
    hide TryParse;
    match TryParse(b)
    case NeedMore =>
    case Bad =>
    case Parsed(v, n) => RestIsStuck(b[n..]);
  }

  /** After a bad initial byte nothing is parsed any more, whatever follows. */
  lemma BadStays(b: Bytes, c: Bytes)
    requires ScanAll(b).bad
    ensures ScanAll(b + c) == Scan(ScanAll(b).vals, ScanAll(b).rest + c, true)
  {
    var r := ScanAll(b);
    ScanAppend(b, c);
    RestIsStuck(b);
    PrefixCode(r.rest, c);
    hide TryParse;
    assert ScanAll(r.rest + c) == Scan([], r.rest + c, true);
    assert r.vals + [] == r.vals;
  }

  /** What the parser has emitted and holds after receiving the bytes 'b': every complete message before a bad
      initial byte, the values of the open message, and one error event if there was such a byte.  Bytes that
      come in later chunks than the bad one are not kept. */
  ghost predicate Received(s: State, b: Bytes)
  {
    var r := ScanAll(b);
    var q := CutAll([], r.vals);
    && s.msg == q.open && s.messages == q.done && s.dvalues == |r.vals|
    && s.closed == r.bad && s.errors == (if r.bad then 1 else 0)
    && s.buf <= r.rest && (!r.bad ==> s.buf == r.rest)
  }

  /** What the parser emits depends only on the bytes received, not on how they were divided. */
  lemma {:induction false} ChunkingIsIrrelevant(chunks: seq<Bytes>)
    ensures Received(FedAll(START, chunks), Flatten(chunks))
  {
    if chunks != [] {
      var front, last := chunks[..|chunks| - 1], chunks[|chunks| - 1];
      ChunkingIsIrrelevant(front);
      var b := Flatten(front);
      hide FedAll, Fed, Received;
      FedOne(b, last, FedAll(START, front));
      FedAllStep(chunks);
    } else {
      assert Flatten(chunks) == [];
    }
  }

  lemma FedAllStep(chunks: seq<Bytes>)
    requires chunks != []
    ensures FedAll(START, chunks) == Fed(FedAll(START, chunks[..|chunks| - 1]), chunks[|chunks| - 1])
  {
  }

  lemma FedOne(b: Bytes, last: Bytes, s: State)
    requires Received(s, b)
    ensures Received(Fed(s, last), b + last)
  {
    if s.closed {
      BadStays(b, last);
    } else {
      ScanAppend(b, last);
      CutAppend([], ScanAll(b).vals, ScanAll(ScanAll(b).rest + last).vals);
    }
    hide ScanAll, CutAll;
  }

  // ---------- round trip ----------

  /** The bytes of a list of values. */
  function FormatAll(vals: seq<Dval>, ieee: int -> Octets): Bytes
    requires forall i :: 0 <= i < |vals| ==> Format(vals[i], ieee).Some?
  {
    if vals == [] then []
    else var x := Format(vals[0], ieee).value; x.h + x.p + FormatAll(vals[1..], ieee)
  }

  /** A message ends with the end marker and has no other. */
  ghost predicate IsMessage(m: seq<Dval>)
  {
    m != [] && m[|m| - 1] == Eom && forall i :: 0 <= i < |m| - 1 ==> m[i] != Eom
  }

  function Concat(msgs: seq<seq<Dval>>): seq<Dval>
  {
    if msgs == [] then [] else msgs[0] + Concat(msgs[1..])
  }

  ghost predicate AllEncodable(vals: seq<Dval>)
  {
    forall i :: 0 <= i < |vals| ==> Encodable(vals[i])
  }

  lemma EncodableFormats(vals: seq<Dval>, ieee: int -> Octets)
    requires AllEncodable(vals)
    ensures forall i :: 0 <= i < |vals| ==> Format(vals[i], ieee).Some?
  {
    forall i | 0 <= i < |vals| ensures Format(vals[i], ieee).Some? {
      ParseFormatted(vals[i], ieee, []);
    }
  }

  lemma {:induction false} ScanFormatted(vals: seq<Dval>, ieee: int -> Octets)
    requires AllEncodable(vals)
    ensures forall i :: 0 <= i < |vals| ==> Format(vals[i], ieee).Some?
    ensures ScanAll(FormatAll(vals, ieee)) == Scan(vals, [], false)
  {
    EncodableFormats(vals, ieee);
    hide Format, Encodable;
    if vals != [] {
      var x := Format(vals[0], ieee).value;
      var f, rest := x.h + x.p, FormatAll(vals[1..], ieee);
      ParseFormatted(vals[0], ieee, rest);
      hide TryParse;
      assert (f + rest)[|f|..] == rest;
      ScanFormatted(vals[1..], ieee);
      assert vals == [vals[0]] + vals[1..];
    }
  }

  lemma {:induction false} CutOne(open: seq<Dval>, m: seq<Dval>)
    requires IsMessage(m)
    ensures CutAll(open, m) == Cut([open + m], [])
    decreases |m|
  {
    if |m| == 1 {
      assert m == [Eom];
      assert CutAll([], m[1..]) == Cut([], []);
    } else {
      CutOne(open + [m[0]], m[1..]);
      assert open + [m[0]] + m[1..] == open + m;
    }
  }

  lemma {:induction false} CutMessages(msgs: seq<seq<Dval>>)
    requires forall i :: 0 <= i < |msgs| ==> IsMessage(msgs[i])
    ensures CutAll([], Concat(msgs)) == Cut(msgs, [])
  {
    if msgs != [] {
      CutMessages(msgs[1..]);
      CutOne([], msgs[0]);
      CutAppend([], msgs[0], Concat(msgs[1..]));
      assert [] + msgs[0] == msgs[0];
      assert [msgs[0]] + msgs[1..] == msgs;
    }
  }

  /** Formatted messages arrive as they were, in order and with nothing left over, in any chunks. */
  lemma {:induction false} MessagesArrive(msgs: seq<seq<Dval>>, ieee: int -> Octets, chunks: seq<Bytes>)
    requires forall i :: 0 <= i < |msgs| ==> IsMessage(msgs[i])
    requires AllEncodable(Concat(msgs))
    requires (forall i :: 0 <= i < |Concat(msgs)| ==> Format(Concat(msgs)[i], ieee).Some?) &&
             Flatten(chunks) == FormatAll(Concat(msgs), ieee)
    ensures FedAll(START, chunks) == State([], [], msgs, 0, |Concat(msgs)|, false)
  {
    ScanFormatted(Concat(msgs), ieee);
    CutMessages(msgs);
    ChunkingIsIrrelevant(chunks);
    hide ScanAll, CutAll, FedAll, FormatAll, Concat;
  }
}
