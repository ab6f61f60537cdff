/**
 The trace header: version 00, a 32-digit trace identifier, a 16-digit span
 identifier and two digits of flags, separated by dashes (W3C Trace Context
 Level 1, section 3.2.2), and the request identifier that stands in for it.
 */
module TraceContext {
  import opened Common
  import opened Hex

  const TRACE_ID_LENGTH := 32
  const SPAN_ID_LENGTH := 16
  const HEADER_LENGTH := 55

  const VERSION: Bytes := [ZERO, ZERO]

  datatype Trace = Trace(traceID: Bytes, spanID: Bytes, sampled: bool)

  datatype Flaw = SegmentCount | UnsupportedVersion | BadTraceID | ZeroTraceID | BadSpanID | ZeroSpanID | BadFlags

  /** What the fields of a trace promise: non-zero lower-case identifiers. */
  ghost predicate WellFormed(t: Trace) {
    IsId(t.traceID, TRACE_ID_LENGTH) && IsId(t.spanID, SPAN_ID_LENGTH)
  }

  /******* Parsing and printing *******/

  function Flags(sampled: bool): (r: Bytes)
    ensures |r| == 2
  {
    [ZERO, if sampled then 0x31 else ZERO]
  }

  function Print(t: Trace): Bytes {
    Join([VERSION, t.traceID, t.spanID, Flags(t.sampled)])
  }

  /** Bit 0 of the flag byte. */
  predicate SampledBit(flags: Bytes)
    requires |flags| == 2
  {
    Unpair(flags[0], flags[1]) & 0x01 != 0
  }

  function ParseFields(version: Bytes, traceID: Bytes, spanID: Bytes, flags: Bytes): Result<Trace, Flaw> {
    if version != VERSION then Err(UnsupportedVersion)
    else if |traceID| != TRACE_ID_LENGTH || !HexText(traceID) then Err(BadTraceID)
    else if Zeros(traceID) then Err(ZeroTraceID)
    else if |spanID| != SPAN_ID_LENGTH || !HexText(spanID) then Err(BadSpanID)
    else if Zeros(spanID) then Err(ZeroSpanID)
    else if |flags| != 2 || !HexText(flags) then Err(BadFlags)
    else Ok(Trace(Lowered(traceID), Lowered(spanID), SampledBit(flags)))
  }

  function Parse(header: Bytes): Result<Trace, Flaw> {
    var parts := Split(header);
    if |parts| != 4 then Err(SegmentCount)
    else ParseFields(parts[0], parts[1], parts[2], parts[3])
  }

  /******* What is accepted *******/

  /** A header by position: 00-, 32 digits, -, 16 digits, -, 2 digits; neither identifier zero. */
  ghost predicate IsHeader(h: Bytes) {
    && |h| == HEADER_LENGTH
    && h[0] == h[1] == ZERO && h[2] == h[35] == h[52] == DASH
    && AllDigits(h[3..35]) && !Zeros(h[3..35])
    && AllDigits(h[36..52]) && !Zeros(h[36..52])
    && AllDigits(h[53..])
  }

  ghost function Laid(a: Bytes, b: Bytes, c: Bytes, d: Bytes): Bytes {
    a + [DASH] + b + [DASH] + c + [DASH] + d
  }

  lemma JoinFour(a: Bytes, b: Bytes, c: Bytes, d: Bytes)
    ensures Join([a, b, c, d]) == Laid(a, b, c, d)
  {
    var all := [a, b, c, d];
    assert all[1..] == [b, c, d] && [b, c, d][1..] == [c, d] && [c, d][1..] == [d];
    assert Join([c, d]) == c + [DASH] + d;
    assert Join([b, c, d]) == b + [DASH] + Join([c, d]);
    assert Join(all) == a + [DASH] + Join([b, c, d]);
  }

  lemma DigitsHaveNoDash(s: Bytes)
    requires AllDigits(s)
    ensures DASH !in s
  {
    assert !IsDigit(DASH);
  }

  /** The positions of the fields in the laid-out text. */
  lemma LaidPositions(a: Bytes, b: Bytes, c: Bytes, d: Bytes)
    requires |a| == 2 && |b| == TRACE_ID_LENGTH && |c| == SPAN_ID_LENGTH && |d| == 2
    ensures var h := Laid(a, b, c, d);
            && |h| == HEADER_LENGTH && h[..2] == a && h[3..35] == b && h[36..52] == c && h[53..] == d
            && h[2] == h[35] == h[52] == DASH
  {
  }

  lemma LaidOut(h: Bytes)
    requires |h| == HEADER_LENGTH && h[2] == h[35] == h[52] == DASH
    ensures h == Laid(h[..2], h[3..35], h[36..52], h[53..])
  {
  }

  lemma SplitOfHeader(h: Bytes)
    requires IsHeader(h)
    ensures Split(h) == [VERSION, h[3..35], h[36..52], h[53..]]
  {
    var a, b, c, d := h[..2], h[3..35], h[36..52], h[53..];
    assert a == VERSION;
    LaidOut(h);
    JoinFour(a, b, c, d);
    DigitsHaveNoDash(b);
    DigitsHaveNoDash(c);
    DigitsHaveNoDash(d);
    JoinThenSplit([a, b, c, d]);
  }

  lemma FieldsOfHeader(a: Bytes, b: Bytes, c: Bytes, d: Bytes)
    requires ParseFields(a, b, c, d).Ok?
    ensures IsHeader(Laid(a, b, c, d))
  {
    LaidPositions(a, b, c, d);
    var h := Laid(a, b, c, d);
    assert h[0] == h[..2][0] && h[1] == h[..2][1];
  }

  lemma Accepted(h: Bytes)
    requires Parse(h).Ok?
    ensures IsHeader(h)
  {
    var parts := Split(h);
    SplitThenJoin(h);
    assert parts == [parts[0], parts[1], parts[2], parts[3]];
    JoinFour(parts[0], parts[1], parts[2], parts[3]);
    FieldsOfHeader(parts[0], parts[1], parts[2], parts[3]);
  }

  /** The parser accepts exactly the headers, and reads the fields off their positions. */
  lemma ParseAcceptsExactly(h: Bytes)
    ensures Parse(h).Ok? <==> IsHeader(h)
    ensures IsHeader(h) ==> Parse(h) == Ok(Trace(Lowered(h[3..35]), Lowered(h[36..52]), SampledBit(h[53..])))
  {
    if IsHeader(h) {
      SplitOfHeader(h);
    }
    if Parse(h).Ok? {
      Accepted(h);
    }
  }

  lemma ParsedIsWellFormed(h: Bytes)
    requires Parse(h).Ok?
    ensures WellFormed(Parse(h).value)
  {
    ParseAcceptsExactly(h);
    LoweredDigits(h[3..35]);
    LoweredDigits(h[36..52]);
  }

  /******* Round trips *******/

  lemma FlagsAreRead(sampled: bool)
    ensures HexText(Flags(sampled)) && SampledBit(Flags(sampled)) == sampled && Flags(sampled) == [0x30, if sampled then 0x31 else 0x30]
    ensures Lowered(Flags(sampled)) == Flags(sampled)
  {
    assert Unpair(ZERO, ZERO) == 0 && Unpair(ZERO, 0x31) == 1;
  }

  lemma IdIsRead(id: Bytes, n: nat)
    requires IsId(id, n) && n > 0
    ensures HexText(id) && Lowered(id) == id && DASH !in id
  {
    LoweredDigits(id);
    DigitsHaveNoDash(id);
  }

  lemma PrintThenSplit(t: Trace)
    requires WellFormed(t)
    ensures Split(Print(t)) == [VERSION, t.traceID, t.spanID, Flags(t.sampled)]
  {
    IdIsRead(t.traceID, TRACE_ID_LENGTH);
    IdIsRead(t.spanID, SPAN_ID_LENGTH);
    JoinThenSplit([VERSION, t.traceID, t.spanID, Flags(t.sampled)]);
  }

  /** Printing and parsing gives the trace back exactly when it is well formed. */
  lemma ParseUndoesPrint(t: Trace)
    ensures Parse(Print(t)) == Ok(t) <==> WellFormed(t)
  {
    if WellFormed(t) {
      PrintThenSplit(t);
      FlagsAreRead(t.sampled);
      IdIsRead(t.traceID, TRACE_ID_LENGTH);
      IdIsRead(t.spanID, SPAN_ID_LENGTH);
    }
    if Parse(Print(t)) == Ok(t) {
      ParsedIsWellFormed(Print(t));
    }
  }

  /** Parsing and printing lower-cases a header and reduces its flags to the sampled bit; so the text comes
      back unchanged exactly when it was lower-case with flags 00 or 01. */
  lemma PrintOfParse(h: Bytes)
    requires IsHeader(h)
    ensures Parse(h).Ok?
    ensures var t := Parse(h).value;
            Print(t) == Lowered(h[..53]) + Flags(t.sampled) && Parse(Print(t)) == Ok(t)
    ensures Print(Parse(h).value) == h <==> Lowered(h[..53]) == h[..53] && (h[53..] == Flags(true) || h[53..] == Flags(false))
  {
    ParseAcceptsExactly(h);
    var t := Parse(h).value;
    PrintedText(h, t.sampled);
    ParsedIsWellFormed(h);
    ParseUndoesPrint(t);
    SamePrint(h, t);
  }

  lemma PrintedText(h: Bytes, sampled: bool)
    requires IsHeader(h)
    ensures Print(Trace(Lowered(h[3..35]), Lowered(h[36..52]), sampled)) == Lowered(h[..53]) + Flags(sampled)
  {
    var b, c := Lowered(h[3..35]), Lowered(h[36..52]);
    JoinFour(VERSION, b, c, Flags(sampled));
    var l := Laid(VERSION, b, c, Flags(sampled));
    LaidPositions(VERSION, b, c, Flags(sampled));
    assert l[..53] == Lowered(h[..53]) by {
      forall i | 0 <= i < 53 ensures l[i] == LowerByte(h[i]) {
        LaidByte(h, sampled, i);
      }
    }
  }

  lemma LaidByte(h: Bytes, sampled: bool, i: nat)
    requires IsHeader(h) && i < 53
    ensures var l := Laid(VERSION, Lowered(h[3..35]), Lowered(h[36..52]), Flags(sampled));
            i < |l| && l[i] == LowerByte(h[i])
  {
    var b, c := Lowered(h[3..35]), Lowered(h[36..52]);
    LaidPositions(VERSION, b, c, Flags(sampled));
    var l := Laid(VERSION, b, c, Flags(sampled));
    if i < 2 {
      assert l[i] == l[..2][i];
    } else if 3 <= i < 35 {
      assert l[i] == l[3..35][i - 3];
    } else if 36 <= i < 52 {
      assert l[i] == l[36..52][i - 36];
    }
  }

  lemma SamePrint(h: Bytes, t: Trace)
    requires IsHeader(h) && Print(t) == Lowered(h[..53]) + Flags(t.sampled) && t.sampled == SampledBit(h[53..])
    ensures Print(t) == h <==> Lowered(h[..53]) == h[..53] && (h[53..] == Flags(true) || h[53..] == Flags(false))
  {
    FlagsAreRead(true);
    FlagsAreRead(false);
    assert h == h[..53] + h[53..];
    if Print(t) == h {
      assert h[..53] == Print(t)[..53] == Lowered(h[..53]);
      assert h[53..] == Print(t)[53..] == Flags(t.sampled);
    }
  }

  /******* Request identifiers *******/

  /** The text without its dashes. */
  function Stripped(s: Bytes): Bytes {
    if s == [] then [] else Stripped(Front(s)) + if Last(s) == DASH then [] else [Last(s)]
  }

  predicate IsPlainId(s: Bytes) {
    |s| == TRACE_ID_LENGTH && HexText(s) && !Zeros(s)
  }

  function Xor(a: bv8, b: bv8): bv8 {
    a ^ b
  }

  /** The combination by op of those of the first n elements whose positions are j modulo 16. */
  function Combined<T>(op: (T, T) -> T, zero: T, s: seq<T>, j: nat, n: nat): T
    requires n <= |s|
  {
    if n == 0 then zero
    else if (n - 1) % 16 == j then op(Combined(op, zero, s, j, n - 1), s[n - 1])
    else Combined(op, zero, s, j, n - 1)
  }

  /** The exclusive or of the first n bytes whose positions are j modulo 16. */
  function Column(id: Bytes, j: nat, n: nat): bv8
    requires n <= |id|
  {
    Combined(Xor, 0, id, j, n)
  }

  function Spread(id: Bytes): Bytes {
    seq(16, j requires 0 <= j < 16 => Column(id, j, |id|))
  }

  function NonZeroed(bs: Bytes): (r: Bytes)
    requires |bs| == 16
    ensures |r| == 16
  {
    if Zeros(Encode(bs)) then bs[15 := 1] else bs
  }

  function Normalised(id: Bytes): Bytes {
    var plain := Lowered(Stripped(id));
    if IsPlainId(plain) then plain else Encode(NonZeroed(Spread(id)))
  }

  /** The normaliser: an identifier that is 32 digits but for dashes and case is kept; anything else is
      spread over 16 bytes in place. */
  method NormaliseRequestID(id: Bytes) returns (traceID: Bytes)
    ensures traceID == Normalised(id)
  {
    var stripped := Lowered(Stripped(id));
    var hex := IsHex(stripped);
    var zeros := AllZeros(stripped);
    if |stripped| == TRACE_ID_LENGTH && hex && !zeros {
      return stripped;
    }
    var bytes := SpreadInPlace(id);
    zeros := AllZeros(Encode(bytes[..]));
    if zeros {
      bytes[15] := 0x01;
    }
    traceID := Encode(bytes[..]);
  }

  method SpreadInPlace(id: Bytes) returns (out: array<bv8>)
    ensures fresh(out) && out.Length == 16 && out[..] == Spread(id)
  {
    out := new bv8[16](_ => 0);
    for i := 0 to |id|
      invariant forall j | 0 <= j < 16 :: out[j] == Column(id, j, i)
    {
      out[i % 16] := out[i % 16] ^ id[i];
    }
  }

  lemma NonZeroedIsNonZero(bs: Bytes)
    requires |bs| == 16
    ensures !AllZeroBytes(NonZeroed(bs))
  {
    EncodeGivesDigits(bs);
    assert AllZeroBytes(bs) ==> bs[15 := 1][15] == 1;
  }

  /** Every text, the empty one included, normalises to a trace identifier. */
  lemma NormalisedIsId(id: Bytes)
    ensures IsId(Normalised(id), TRACE_ID_LENGTH)
  {
    var plain := Lowered(Stripped(id));
    if IsPlainId(plain) {
      LoweredDigits(Stripped(id));
    } else {
      NonZeroedIsNonZero(Spread(id));
      EncodeGivesDigits(NonZeroed(Spread(id)));
    }
  }

  lemma {:induction false} StrippedKeeps(s: Bytes)
    requires DASH !in s
    ensures Stripped(s) == s
  {
    if s != [] {
      assert s == Front(s) + [Last(s)];
      StrippedKeeps(Front(s));
    }
  }

  /** Identifiers are fixed points, so normalising twice is normalising once. */
  lemma NormalisedIsFixed(id: Bytes)
    ensures IsId(id, TRACE_ID_LENGTH) <==> Normalised(id) == id
    ensures Normalised(Normalised(id)) == Normalised(id)
  {
    NormalisedIsId(id);
    IdIsFixed(Normalised(id));
    if IsId(id, TRACE_ID_LENGTH) {
      IdIsFixed(id);
    }
  }

  lemma IdIsFixed(id: Bytes)
    requires IsId(id, TRACE_ID_LENGTH)
    ensures Normalised(id) == id
  {
    IdIsRead(id, TRACE_ID_LENGTH);
    StrippedKeeps(id);
  }

  /** The segments one after the other. */
  function Concat(parts: seq<Bytes>): Bytes {
    if parts == [] then [] else parts[0] + Concat(parts[1..])
  }

  lemma {:induction false} StrippedCons(c: bv8, s: Bytes)
    ensures Stripped([c] + s) == (if c == DASH then [] else [c]) + Stripped(s)
  {
    if s == [] {
      assert [c] + s == [c] && Front([c]) == [] && Last([c]) == c;
    } else {
      assert Front([c] + s) == [c] + Front(s) && Last([c] + s) == Last(s);
      StrippedCons(c, Front(s));
    }
  }

  /** Leaving out the dashes is putting the segments together. */
  lemma {:induction false} StrippedIsConcat(s: Bytes)
    ensures Stripped(s) == Concat(Split(s))
  {
    if s != [] {
      var rest := Split(s[1..]);
      assert s == [s[0]] + s[1..];
      StrippedCons(s[0], s[1..]);
      StrippedIsConcat(s[1..]);
      if s[0] == DASH {
        assert Split(s)[1..] == rest;
      } else {
        assert Split(s)[1..] == rest[1..];
        assert [s[0]] + (rest[0] + Concat(rest[1..])) == ([s[0]] + rest[0]) + Concat(rest[1..]);
      }
    }
  }

  /** A request identifier that is 32 digits, not all zero, once its dashes are left out, however it is cut into
      segments, is kept: those digits in lower case. */
  lemma DigitsAreKept(parts: seq<Bytes>)
    requires parts != [] && Undashed(parts) && IsPlainId(Concat(parts))
    ensures Normalised(Join(parts)) == Lowered(Concat(parts))
  {
    JoinThenSplit(parts);
    StrippedIsConcat(Join(parts));
    LoweredDigits(Concat(parts));
  }

  ghost predicate HasUnit<T(!new)>(op: (T, T) -> T, zero: T) {
    forall x :: op(zero, x) == x && op(x, zero) == x
  }

  ghost predicate Associates<T(!new)>(op: (T, T) -> T) {
    forall x, y, z :: op(op(x, y), z) == op(x, op(y, z))
  }

  lemma XorHasUnit()
    ensures HasUnit(Xor, 0)
  {
  }

  lemma XorAssociates()
    ensures Associates(Xor)
  {
  }

  lemma {:induction false} CombinedShort<T(!new)>(op: (T, T) -> T, zero: T, s: seq<T>, j: nat, n: nat)
    requires HasUnit(op, zero) && n <= |s| <= 16
    ensures Combined(op, zero, s, j, n) == if j < n then s[j] else zero
  {
    if n > 0 {
      CombinedShort(op, zero, s, j, n - 1);
    }
  }

  lemma SamePlace(k: nat, n: nat)
    requires k % 16 == 0
    ensures (k + n) % 16 == n % 16
  {
  }

  lemma {:induction false} CombinedPrefix<T>(op: (T, T) -> T, zero: T, a: seq<T>, b: seq<T>, j: nat, n: nat)
    requires n <= |a|
    ensures Combined(op, zero, a + b, j, n) == Combined(op, zero, a, j, n)
  {
    if n > 0 {
      CombinedPrefix(op, zero, a, b, j, n - 1);
    }
  }

  lemma {:induction false} CombinedAppend<T(!new)>(op: (T, T) -> T, zero: T, a: seq<T>, b: seq<T>, j: nat, n: nat)
    requires HasUnit(op, zero) && Associates(op) && |a| % 16 == 0 && n <= |b|
    ensures Combined(op, zero, a + b, j, |a| + n) == op(Combined(op, zero, a, j, |a|), Combined(op, zero, b, j, n))
  {
    if n == 0 {
      CombinedPrefix(op, zero, a, b, j, |a|);
    } else {
      CombinedAppend(op, zero, a, b, j, n - 1);
      SamePlace(|a|, n - 1);
      assert (a + b)[|a| + n - 1] == b[n - 1];
    }
  }

  lemma ColumnShort(id: Bytes, j: nat)
    requires |id| <= 16
    ensures Column(id, j, |id|) == if j < |id| then id[j] else 0
  {
    XorHasUnit();
    CombinedShort(Xor, 0, id, j, |id|);
  }

  lemma ColumnAppend(a: Bytes, b: Bytes, j: nat)
    requires |a| % 16 == 0
    ensures Column(a + b, j, |a + b|) == Xor(Column(a, j, |a|), Column(b, j, |b|))
  {
    XorHasUnit();
    XorAssociates();
    CombinedAppend(Xor, 0, a, b, j, |b|);
  }

  /** What the sixteen bytes hold: a text of up to sixteen bytes is itself, filled up with zeros; and a text in
      front of which whole blocks of sixteen stand is combined with them byte by byte by exclusive or. */
  lemma SpreadOfBlocks(blocks: Bytes, rest: Bytes, j: nat)
    requires |blocks| % 16 == 0 && j < 16
    ensures |rest| <= 16 ==> Spread(rest)[j] == if j < |rest| then rest[j] else 0
    ensures Spread(blocks + rest)[j] == Xor(Spread(blocks)[j], Spread(rest)[j])
  {
    if |rest| <= 16 {
      ColumnShort(rest, j);
    }
    ColumnAppend(blocks, rest, j);
  }

  /** Any other identifier is spread; if nothing but zeros comes of it, the last digit is one. */
  lemma OthersAreSpread(id: Bytes)
    requires !IsPlainId(Lowered(Stripped(id)))
    ensures !AllZeroBytes(Spread(id)) ==> Decode(Normalised(id)) == Spread(id)
    ensures AllZeroBytes(Spread(id)) ==> Decode(Normalised(id)) == Spread(id)[15 := 1]
  {
    EncodeGivesDigits(Spread(id));
    EncodeThenDecode(NonZeroed(Spread(id)));
  }

  /******* Fresh traces *******/

  /** io.ReadFull: the first n bytes of the reader and the rest, or an error when it is shorter. */
  function ReadFull(reader: Bytes, n: nat): Option<(Bytes, Bytes)> {
    if |reader| < n then None else Some((reader[..n], reader[n..]))
  }

  function New(reader: Bytes): Option<Trace> {
    match ReadFull(reader, 16)
    case None => None
    case Some((id, rest)) =>
      match ReadFull(rest, 8)
      case None => None
      case Some((span, _)) => Some(Trace(Encode(id), Encode(span), true))
  }

  function WithNewSpan(t: Trace, reader: Bytes): Option<Trace> {
    match ReadFull(reader, 8)
    case None => None
    case Some((span, _)) => Some(Trace(t.traceID, Encode(span), t.sampled))
  }

  lemma EncodedIsId(bs: Bytes)
    ensures IsId(Encode(bs), 2 * |bs|) <==> !AllZeroBytes(bs)
  {
    EncodeGivesDigits(bs);
  }

  /** The text is lower-case digits that decode to the bytes. */
  ghost predicate Spells(s: Bytes, bs: Bytes) {
    |s| == 2 * |bs| && AllLowerDigits(s) && Decode(s) == bs
  }

  lemma EncodedSpells(bs: Bytes)
    ensures Spells(Encode(bs), bs)
  {
    EncodeThenDecode(bs);
    EncodeGivesDigits(bs);
  }

  /** A trace is generated exactly from twenty-four bytes: its identifiers spell the first sixteen and the next
      eight. It survives its own header exactly when neither stretch is all zero: a printed zero identifier is
      refused. */
  lemma NewSurvives(reader: Bytes)
    ensures New(reader).Some? <==> |reader| >= 24
    ensures |reader| >= 24 ==>
              var t := New(reader).value;
              && Spells(t.traceID, reader[..16]) && Spells(t.spanID, reader[16..24]) && t.sampled
              && (Parse(Print(t)) == Ok(t) <==> !AllZeroBytes(reader[..16]) && !AllZeroBytes(reader[16..24]))
  {
    if |reader| >= 24 {
      assert reader[16..][..8] == reader[16..24];
      EncodedIsId(reader[..16]);
      EncodedIsId(reader[16..24]);
      EncodedSpells(reader[..16]);
      EncodedSpells(reader[16..24]);
      ParseUndoesPrint(New(reader).value);
    }
  }

  /** A child span keeps the trace it belongs to and spells its own eight bytes; it survives its own header
      exactly when the trace identifier would and the bytes are not all zero. */
  lemma ChildSpanSurvives(t: Trace, reader: Bytes)
    ensures WithNewSpan(t, reader).Some? <==> |reader| >= 8
    ensures |reader| >= 8 ==>
              var child := WithNewSpan(t, reader).value;
              && child.traceID == t.traceID && child.sampled == t.sampled && Spells(child.spanID, reader[..8])
              && (Parse(Print(child)) == Ok(child) <==> IsId(t.traceID, TRACE_ID_LENGTH) && !AllZeroBytes(reader[..8]))
  {
    if |reader| >= 8 {
      EncodedIsId(reader[..8]);
      EncodedSpells(reader[..8]);
      ParseUndoesPrint(WithNewSpan(t, reader).value);
    }
  }

  /** A trace made from any request identifier survives exactly when the random bytes are not all zero. */
  lemma RequestTraceSurvives(id: Bytes, span: Bytes)
    requires |span| == 8
    ensures var t := Trace(Normalised(id), Encode(span), true);
            Parse(Print(t)) == Ok(t) <==> !AllZeroBytes(span)
  {
    NormalisedIsId(id);
    EncodedIsId(span);
    ParseUndoesPrint(Trace(Normalised(id), Encode(span), true));
  }

  /** A trace for a request identifier: it needs eight random bytes, its trace identifier depends on the
      request identifier alone, its span identifier spells the bytes, and it survives its own header exactly
      when they are not all zero. */
  method FromRequestID(id: Bytes, reader: Bytes) returns (t: Option<Trace>)
    ensures t.Some? <==> |reader| >= 8
    ensures t.Some? ==>
              && t.value.traceID == Normalised(id) && IsId(t.value.traceID, TRACE_ID_LENGTH)
              && Spells(t.value.spanID, reader[..8]) && t.value.sampled
              && (Parse(Print(t.value)) == Ok(t.value) <==> !AllZeroBytes(reader[..8]))
  {
    var traceID := NormaliseRequestID(id);
    match ReadFull(reader, 8)
    case None => t := None;
    case Some((span, _)) =>
      t := Some(Trace(traceID, Encode(span), true));
      EncodeThenDecode(span);
      EncodeGivesDigits(span);
      NormalisedIsId(id);
      RequestTraceSurvives(id, span);
  }
}
