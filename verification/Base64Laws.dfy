/**
 The laws of the Base64 codec: decoding undoes encoding, for any number of concatenated
 documents, whatever padding stands between them and wherever whitespace is inserted.
 */
module Base64Laws {
  import opened Wrappers
  import opened Base64Spec
  import opened Words

  /** The digits of three bytes carry exactly those bytes. */
  lemma DigitsRoundTrip(a: byte, b: byte, c: byte)
    ensures var d := Digits(a, b, c); GroupBytes(d[0], d[1], d[2], d[3]) == [a, b, c]
  {
  }

  lemma DigitsPadded(a: byte, b: byte)
    ensures RunBytes(Digits(a, b, 0)[..3]) == Some([a, b])
    ensures RunBytes(Digits(a, 0, 0)[..2]) == Some([a])
  {
    var d, e := Digits(a, b, 0), Digits(a, 0, 0);
    DigitsRoundTrip(a, b, 0);
    DigitsRoundTrip(a, 0, 0);
    assert d[3] == 0 && e[2] == 0 && e[3] == 0;
    assert d[..3][0] == d[0] && d[..3][1] == d[1] && d[..3][2] == d[2];
    assert GroupBytes(d[0], d[1], d[2], 0)[..2] == [a, b];
    assert GroupBytes(e[0], e[1], 0, 0)[..1] == [a];
  }

  lemma {:induction false} QuadSymbols(a: byte, b: byte, c: byte)
    ensures var d := Digits(a, b, c); Symbols(Quad(a, b, c)) == [Digit(d[0]), Digit(d[1]), Digit(d[2]), Digit(d[3])]
  {
    var d := Digits(a, b, c);
    EncTabIsDigit(d[0]);
    EncTabIsDigit(d[1]);
    EncTabIsDigit(d[2]);
    EncTabIsDigit(d[3]);
  }

  lemma ContDigit(g: seq<digit>, x: digit, s: seq<Symbol>)
    requires |g| < 3
    ensures Cont(g, [Digit(x)] + s) == Cont(g + [x], s)
  {
    assert ([Digit(x)] + s)[1..] == s;
  }

  lemma ContTwoDigits(x: digit, y: digit, s: seq<Symbol>)
    ensures Cont([], [Digit(x), Digit(y)] + s) == Cont([x, y], s)
  {
    ContDigit([], x, [Digit(y)] + s);
    ContDigit([x], y, s);
    assert [] + [x] == [x] && [x] + [y] == [x, y];
    assert [Digit(x), Digit(y)] + s == [Digit(x)] + ([Digit(y)] + s);
  }

  lemma ContThreeDigits(x: digit, y: digit, z: digit, s: seq<Symbol>)
    ensures Cont([], [Digit(x), Digit(y), Digit(z)] + s) == Cont([x, y, z], s)
  {
    ContTwoDigits(x, y, [Digit(z)] + s);
    ContDigit([x, y], z, s);
    assert [x, y] + [z] == [x, y, z];
    assert [Digit(x), Digit(y), Digit(z)] + s == [Digit(x), Digit(y)] + ([Digit(z)] + s);
  }

  lemma ContFourDigits(x: digit, y: digit, z: digit, w: digit, s: seq<Symbol>)
    ensures Cont([], [Digit(x), Digit(y), Digit(z), Digit(w)] + s) == Join(Some(GroupBytes(x, y, z, w)), Cont([], s))
  {
    ContThreeDigits(x, y, z, [Digit(w)] + s);
    assert ([Digit(w)] + s)[1..] == s;
    assert [Digit(x), Digit(y), Digit(z), Digit(w)] + s == [Digit(x), Digit(y), Digit(z)] + ([Digit(w)] + s);
  }

  lemma ContPad(g: seq<digit>, s: seq<Symbol>)
    requires |g| < 4
    ensures Cont(g, [Pad] + s) == Join(RunBytes(g), Cont([], s))
  {
    assert ([Pad] + s)[1..] == s;
  }

  lemma ContQuad(a: byte, b: byte, c: byte, s: seq<Symbol>)
    ensures Cont([], Symbols(Quad(a, b, c)) + s) == Join(Some([a, b, c]), Cont([], s))
  {
    var d := Digits(a, b, c);
    QuadSymbols(a, b, c);
    DigitsRoundTrip(a, b, c);
    ContFourDigits(d[0], d[1], d[2], d[3], s);
  }

  lemma ContQuad2(a: byte, b: byte, s: seq<Symbol>)
    ensures Cont([], Symbols(Encode([a, b])) + s) == Join(Some([a, b]), Cont([], s))
  {
    var d := Digits(a, b, 0);
    QuadSymbols(a, b, 0);
    DigitsPadded(a, b);
    ContThreeDigits(d[0], d[1], d[2], [Pad] + s);
    ContPad([d[0], d[1], d[2]], s);
    assert d[..3] == [d[0], d[1], d[2]];
    assert Symbols(Encode([a, b])) + s == [Digit(d[0]), Digit(d[1]), Digit(d[2])] + ([Pad] + s) by {
      assert Encode([a, b]) == Quad(a, b, 0)[..3] + [EQUALS];
      assert forall k :: 0 <= k < 3 ==> Symbols(Encode([a, b]))[k] == Symbols(Quad(a, b, 0))[k];
    }
  }

  lemma ContQuad1(a: byte, s: seq<Symbol>)
    ensures Cont([], Symbols(Encode([a])) + s) == Join(Some([a]), Cont([], s))
  {
    var d := Digits(a, 0, 0);
    QuadSymbols(a, 0, 0);
    DigitsPadded(a, 0);
    ContTwoDigits(d[0], d[1], [Pad] + ([Pad] + s));
    ContPad([d[0], d[1]], [Pad] + s);
    ContPad([], s);
    JoinEmpty(Cont([], s));
    assert d[..2] == [d[0], d[1]];
    assert Symbols(Encode([a])) + s == [Digit(d[0]), Digit(d[1])] + ([Pad] + ([Pad] + s)) by {
      assert Encode([a]) == Quad(a, 0, 0)[..2] + [EQUALS, EQUALS];
      assert forall k :: 0 <= k < 2 ==> Symbols(Encode([a]))[k] == Symbols(Quad(a, 0, 0))[k];
    }
  }

  lemma SymbolsConcat(a: seq<byte>, b: seq<byte>)
    ensures Symbols(a + b) == Symbols(a) + Symbols(b)
  {
  }

  lemma Regroup(a: seq<Symbol>, b: seq<Symbol>, c: seq<Symbol>)
    ensures (a + b) + c == a + (b + c)
  {
  }

  lemma {:induction false} EncodeSymbols(a: seq<byte>, s: seq<Symbol>)
    requires |a| >= 3
    ensures Symbols(Encode(a)) + s == Symbols(Quad(a[0], a[1], a[2])) + (Symbols(Encode(a[3..])) + s)
  {
    var q, tail := Quad(a[0], a[1], a[2]), Encode(a[3..]);
    SymbolsConcat(q, tail);
    Regroup(Symbols(q), Symbols(tail), s);
  }

  /** An encoded document in front of any text decodes to its bytes, and the text decodes as if alone. */
  lemma {:induction false} EncodedPrefix(a: seq<byte>, s: seq<Symbol>)
    ensures Cont([], Symbols(Encode(a)) + s) == Join(Some(a), Cont([], s))
  {
    if |a| == 0 {
      assert Symbols(Encode(a)) + s == s;
      JoinEmpty(Cont([], s));
    } else if |a| == 1 {
      assert a == [a[0]];
      ContQuad1(a[0], s);
    } else if |a| == 2 {
      assert a == [a[0], a[1]];
      ContQuad2(a[0], a[1], s);
    } else {
      EncodedPrefix(a[3..], s);
      var tail := Encode(a[3..]);
      EncodeSymbols(a, s);
      ContQuad(a[0], a[1], a[2], Symbols(tail) + s);
      assert a == [a[0], a[1], a[2]] + a[3..];
      JoinAssociative(Some([a[0], a[1], a[2]]), Some(a[3..]), Cont([], s));
    }
  }

  /** Decoding undoes encoding. */
  lemma {:induction false} RoundTrip(a: seq<byte>)
    ensures Decode(Encode(a)) == Some(a)
  {
    EncodedPrefix(a, []);
    assert Symbols(Encode(a)) + [] == Symbols(Encode(a));
    JoinEmpty(Some(a));
    ContIsDecode(Encode(a));
  }

  // ---------- Concatenated documents, extra padding, whitespace ----------

  lemma {:induction false} ContPads(n: nat, s: seq<Symbol>)
    ensures Cont([], Symbols(Pads(n)) + s) == Cont([], s)
  {
    if n == 0 {
      assert Symbols(Pads(0)) + s == s;
    } else {
      ContPads(n - 1, s);
      ContPad([], Symbols(Pads(n - 1)) + s);
      JoinEmpty(Cont([], s));
      assert Symbols(Pads(n)) + s == [Pad] + (Symbols(Pads(n - 1)) + s);
    }
  }

  /** The text without its whitespace. */
  function Strip(s: seq<Symbol>): seq<Symbol>
  {
    if s == [] then []
    else if s[0].White? then Strip(s[1..])
    else [s[0]] + Strip(s[1..])
  }

  lemma {:induction false} WhitespaceIsIgnored(g: seq<digit>, s: seq<Symbol>)
    requires |g| < 4
    ensures Cont(g, s) == Cont(g, Strip(s))
    decreases |s|
  {
    if s != [] {
      assert !s[0].White? ==> Strip(s)[0] == s[0] && Strip(s)[1..] == Strip(s[1..]);
      match s[0]
      case Bad =>
      case White => WhitespaceIsIgnored(g, s[1..]);
      case Pad => WhitespaceIsIgnored([], s[1..]);
      case Digit(x) => WhitespaceIsIgnored(if |g| == 3 then [] else g + [x], s[1..]);
    }
  }

  /** A document and the number of extra padding characters after its encoding. */
  datatype Document = Document(bytes: seq<byte>, extraPads: nat)

  function Text(docs: seq<Document>): seq<byte>
  {
    if docs == [] then [] else Encode(docs[0].bytes) + Pads(docs[0].extraPads) + Text(docs[1..])
  }

  function AllBytes(docs: seq<Document>): seq<byte>
  {
    if docs == [] then [] else docs[0].bytes + AllBytes(docs[1..])
  }

  lemma SymbolsThree(a: seq<byte>, b: seq<byte>, c: seq<byte>)
    ensures Symbols(a + b + c) == Symbols(a) + (Symbols(b) + Symbols(c))
  {
    hide Symbols;
    SymbolsConcat(a + b, c);
    SymbolsConcat(a, b);
  }

  lemma TextSymbols(docs: seq<Document>)
    requires docs != []
    ensures Symbols(Text(docs))
         == Symbols(Encode(docs[0].bytes)) + (Symbols(Pads(docs[0].extraPads)) + Symbols(Text(docs[1..])))
  {
    hide Symbols, Encode, Pads;
    SymbolsThree(Encode(docs[0].bytes), Pads(docs[0].extraPads), Text(docs[1..]));
  }

  lemma {:induction false} ContDocuments(docs: seq<Document>)
    ensures Cont([], Symbols(Text(docs))) == Some(AllBytes(docs))
  {
    if docs != [] {
      var d, rest := docs[0], Symbols(Text(docs[1..]));
      TextSymbols(docs);
      EncodedPrefix(d.bytes, Symbols(Pads(d.extraPads)) + rest);
      ContPads(d.extraPads, rest);
      ContDocuments(docs[1..]);
    }
  }

  /** Decoding the encodings of any documents, with any padding after each and whitespace inserted
      anywhere, gives their bytes one after the other.  (Padding in front of the first document is
      the extra padding of an empty document.) */
  lemma {:induction false} DecodeDocuments(s: seq<byte>, docs: seq<Document>)
    requires Strip(Symbols(s)) == Symbols(Text(docs))
    ensures Decode(s) == Some(AllBytes(docs))
  {
    ContIsDecode(s);
    WhitespaceIsIgnored([], Symbols(s));
    ContDocuments(docs);
  }

  // ---------- What is accepted ----------

  /** Every run of digits between padding has a length that is not 1 modulo 4. */
  predicate NoLoneDigit(s: seq<Symbol>)
    decreases |s|
  {
    |FirstRun(s)| % 4 != 1 && (s == [] || NoLoneDigit(AfterRun(s)))
  }

  lemma FourLess(n: nat)
    requires n >= 4
    ensures n % 4 == (n - 4) % 4 && n * 3 / 4 == (n - 4) * 3 / 4 + 3
  {
  }

  lemma {:induction false} RunLength(g: seq<digit>)
    ensures RunBytes(g).Some? <==> |g| % 4 != 1
    ensures RunBytes(g).Some? ==> |RunBytes(g).value| == |g| * 3 / 4
  {
    hide GroupBytes;
    if |g| >= 4 {
      RunLength(g[4..]);
      FourLess(|g|);
    }
  }

  lemma {:induction false} AcceptedRuns(s: seq<Symbol>)
    ensures DecodeRuns(s).Some? <==> NoLoneDigit(s)
    decreases |s|
  {
    if s != [] {
      RunLength(FirstRun(s));
      AcceptedRuns(AfterRun(s));
    }
  }

  /** A text is accepted exactly when it has no bad character and no run of 4k+1 digits. */
  lemma AcceptedTexts(s: seq<byte>)
    ensures Decode(s).Some? <==> Bad !in Symbols(s) && NoLoneDigit(Symbols(s))
  {
    AcceptedRuns(Symbols(s));
  }

  lemma {:induction false} ContLength(g: seq<digit>, s: seq<Symbol>)
    requires |g| < 4
    ensures Cont(g, s).Some? ==> 4 * |Cont(g, s).value| <= 3 * (|g| + |s|)
    decreases |s|
  {
    RunLength(g);
    hide RunBytes;
    if s != [] {
      match s[0]
      case Bad =>
      case White => ContLength(g, s[1..]);
      case Pad => ContLength([], s[1..]);
      case Digit(x) => if |g| == 3 { ContLength([], s[1..]); } else { ContLength(g + [x], s[1..]); }
    }
  }

  /** No text decodes to more than three bytes for four characters, and texts without padding reach that. */
  lemma DecodedLength(s: seq<byte>)
    ensures Decode(s).Some? ==> 4 * |Decode(s).value| <= 3 * |s|
    ensures |s| % 3 == 0 ==> Decode(Encode(s)).Some? && 4 * |Decode(Encode(s)).value| == 3 * |Encode(s)|
  {
    hide Decode, Encode, Cont;
    ContLength([], Symbols(s));
    ContIsDecode(s);
    RoundTrip(s);
  }
}
