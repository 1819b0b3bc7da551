/** The data handler of the protocol parser, as an object that keeps its buffer and its open message. */
module DebugParser {
  import opened Words
  import opened Wrappers
  import opened DebugValues
  import opened DebugStream

  /** A payload of 'len' bytes after 'head' header bytes, when it is all there. */
  method Take(b: Bytes, head: nat, len: nat) returns (p: Option<Bytes>)
    ensures p == if |b| >= head + len then Some(b[head..head + len]) else None
  {
    if |b| >= head + len { return Some(b[head..head + len]); }
    return None;
  }

  /** A string or buffer with a four-byte length. */
  method TakeLong(b: Bytes, isStr: bool) returns (t: Trial)
    requires b != [] && b[0] == (if isStr then 0x11 else 0x13)
    ensures t == TryParse(b)
  {
    if |b| < 5 { return NeedMore; }
    var len := Get32(b[1..5]);
    assert b[..5][1..] == b[1..5];
    var p := Take(b, 5, len);
    if p.None? { return NeedMore; }
    return Parsed(if isStr then Str(Chars(p.value)) else Buf(p.value), 5 + len);
  }

  /** A string or buffer with a two-byte length. */
  method TakeShort(b: Bytes, isStr: bool) returns (t: Trial)
    requires b != [] && b[0] == (if isStr then 0x12 else 0x14)
    ensures t == TryParse(b)
  {
    if |b| < 3 { return NeedMore; }
    var len := Get16(b[1..3]);
    assert b[..3][1..] == b[1..3];
    var p := Take(b, 3, len);
    if p.None? { return NeedMore; }
    return Parsed(if isStr then Str(Chars(p.value)) else Buf(p.value), 3 + len);
  }

  /** An object, pointer, lightfunc or heap pointer, whose length byte ends the header. */
  method TakePointer(b: Bytes) returns (t: Trial)
    requires b != [] && 0x1b <= b[0] <= 0x1e
    ensures t == TryParse(b)
  {
    var head := if b[0] == 0x1b then 3 else if b[0] == 0x1d then 4 else 2;
    if |b| < head { return NeedMore; }
    var len: nat := b[head - 1];
    var p := Take(b, head, len);
    if p.None? { return NeedMore; }
    var v;
    if b[0] == 0x1b {
      v := Object(b[1], p.value);
    } else if b[0] == 0x1c {
      v := Pointer(p.value);
    } else if b[0] == 0x1d {
      assert b[..4][1..3] == b[1..3];
      v := Lightfunc(Get16(b[1..3]), p.value);
    } else {
      v := Heapptr(p.value);
    }
    return Parsed(v, head + len);
  }

  /** A number or a four-byte integer. */
  method TakeNumber(b: Bytes) returns (t: Trial)
    requires b != [] && (b[0] == 0x10 || b[0] == 0x1a)
    ensures t == TryParse(b)
  {
    if b[0] == 0x10 {
      if |b| < 5 { return NeedMore; }
      assert b[..5][1..] == b[1..5];
      return Parsed(Int(Signed32(Get32(b[1..5]))), 5);
    }
    if |b| < 9 { return NeedMore; }
    return Parsed(Number(b[1..9]), 9);
  }

  /** An initial byte below 0x60. */
  method ParseTagged(b: Bytes) returns (t: Trial)
    requires b != [] && b[0] < 0x60
    ensures t == TryParse(b)
  {
    var x := b[0];
    if x == 0x10 || x == 0x1a { t := TakeNumber(b); return; }
    if x == 0x11 || x == 0x13 { t := TakeLong(b, x == 0x11); return; }
    if x == 0x12 || x == 0x14 { t := TakeShort(b, x == 0x12); return; }
    if 0x1b <= x <= 0x1e { t := TakePointer(b); return; }
    match x {
      case 0x00 => return Parsed(Eom, 1);
      case 0x01 => return Parsed(Req, 1);
      case 0x02 => return Parsed(Rep, 1);
      case 0x03 => return Parsed(Err, 1);
      case 0x04 => return Parsed(Nfy, 1);
      case 0x15 => return Parsed(Unused, 1);
      case 0x16 => return Parsed(Undefined, 1);
      case 0x17 => return Parsed(Null, 1);
      case 0x18 => return Parsed(Bool(true), 1);
      case 0x19 => return Parsed(Bool(false), 1);
      case _ => return Bad;
    }
  }

  /** Trial parse of one value. */
  method ParseOne(b: Bytes) returns (t: Trial)
    requires b != []
    ensures t == TryParse(b)
  {
    var x: int := b[0];
    if x >= 0xc0 {
      if |b| < 2 { return NeedMore; }
      return Parsed(Int(Append8(x - 0xc0, b[1])), 2);
    } else if x >= 0x80 {
      return Parsed(Int(x - 0x80), 1);
    } else if x >= 0x60 {
      var len := x - 0x60;
      var p := Take(b, 1, len);
      if p.None? { return NeedMore; }
      return Parsed(Str(Chars(p.value)), 1 + len);
    }
    t := ParseTagged(b);
  }

  class Parser {
    var buf: Bytes
    var msg: seq<Dval>
    var closed: bool
    var dvalues: nat
    /** The 'debug-message' events emitted so far, and the number of 'transport-error' events. */
    var messages: seq<seq<Dval>>
    var errors: nat

    function Now(): State
      reads this
    {
      State(buf, msg, messages, errors, dvalues, closed)
    }

    constructor ()
      ensures Now() == START
    {
      buf, msg, closed, dvalues, messages, errors := [], [], false, 0, [], 0;
    }

    /** Handle one chunk of input, after the protocol version is known; a closed parser ignores it. */
    method OnData(data: Bytes)
      modifies this
      ensures Now() == Fed(old(Now()), data)
    {
      if closed { return; }
      buf := buf + data;
      ghost var s := old(Now());
      ghost var vals: seq<Dval> := [];
      ProgressStart(s, data);
      while buf != []
        invariant Progress(s, data, vals, Now())
        decreases |buf|
      {
        hide Progress, Fed, TryParse;
        var t := ParseOne(buf);
        if t.Bad? {
          ProgressEnd(s, data, vals, Now());
          errors := errors + 1;
          closed := true;
          return;
        }
        if t.NeedMore? { break; }
        ProgressNext(s, data, vals, Now(), t.v, t.size);
        buf := buf[t.size..];
        vals := vals + [t.v];
        msg := msg + [t.v];
        dvalues := dvalues + 1;
        if t.v == Eom {
          messages := messages + [msg];
          msg := [];
        }
      }
      ProgressEnd(s, data, vals, Now());
    }
  }

  /** The handler has consumed the values 'vals' of what it held and the chunk. */
  ghost predicate Progress(s: State, chunk: Bytes, vals: seq<Dval>, now: State)
  {
    var r := ScanAll(now.buf);
    var q := CutAll(s.msg, vals);
    && now.errors == s.errors && now.closed == s.closed && now.dvalues == s.dvalues + |vals|
    && ScanAll(s.buf + chunk) == Scan(vals + r.vals, r.rest, r.bad)
    && now.msg == q.open && now.messages == s.messages + q.done
  }

  lemma ProgressStart(s: State, chunk: Bytes)
    ensures Progress(s, chunk, [], s.(buf := s.buf + chunk))
  {
    var r := ScanAll(s.buf + chunk);
    assert [] + r.vals == r.vals;
    CutNothing(s.msg);
    assert s.messages + [] == s.messages;
  }

  /** The state after one more value. */
  function Consumed(now: State, v: Dval, n: nat): State
    requires n <= |now.buf|
  {
    var m := now.msg + [v];
    State(now.buf[n..], if v == Eom then [] else m, if v == Eom then now.messages + [m] else now.messages,
          now.errors, now.dvalues + 1, now.closed)
  }

  lemma ProgressNext(s: State, chunk: Bytes, vals: seq<Dval>, now: State, v: Dval, n: nat)
    requires Progress(s, chunk, vals, now) && n <= |now.buf| && TryParse(now.buf) == Parsed(v, n)
    ensures Progress(s, chunk, vals + [v], Consumed(now, v, n))
  {
    hide TryParse;
    var r := ScanAll(now.buf[n..]);
    assert ScanAll(now.buf) == Scan([v] + r.vals, r.rest, r.bad);
    assert vals + ([v] + r.vals) == (vals + [v]) + r.vals;
    hide ScanAll;
    CutAppend(s.msg, vals, [v]);
    CutNext(now.msg, v);
    hide CutAll;
    var q := CutAll(s.msg, vals);
    assert s.messages + (q.done + [now.msg + [v]]) == s.messages + q.done + [now.msg + [v]];
    assert s.messages + (q.done + []) == s.messages + q.done;
  }

  lemma ProgressEnd(s: State, chunk: Bytes, vals: seq<Dval>, now: State)
    requires Progress(s, chunk, vals, now) && !TryParse(now.buf).Parsed? && !s.closed
    ensures var bad := TryParse(now.buf).Bad?;
            Fed(s, chunk) == State(now.buf, now.msg, now.messages, now.errors + (if bad then 1 else 0), now.dvalues, bad)
  {
    hide TryParse;
    var r := ScanAll(now.buf);
    assert r.vals == [] && r.rest == now.buf;
    assert vals + [] == vals;
    hide ScanAll, CutAll;
  }

  lemma CutNothing(open: seq<Dval>)
    ensures CutAll(open, []) == Cut([], open)
  {
  }

  lemma CutNext(open: seq<Dval>, v: Dval)
    ensures CutAll(open, [v]) == if v == Eom then Cut([open + [v]], []) else Cut([], open + [v])
  {
    assert [v][1..] == [];
  }

  /** Feed a parser chunk by chunk. */
  method FeedChunks(chunks: seq<Bytes>) returns (p: Parser)
    ensures fresh(p) && Received(p.Now(), Flatten(chunks))
  {
    p := new Parser();
    for i := 0 to |chunks|
      invariant fresh(p) && p.Now() == FedAll(START, chunks[..i])
    {
      assert chunks[..i + 1][..i] == chunks[..i];
      hide Fed;
      p.OnData(chunks[i]);
    }
    assert chunks[..|chunks|] == chunks;
    ChunkingIsIrrelevant(chunks);
  }
}
