/** Bytes, hexadecimal text and dash-separated segments. Texts are sequences of bytes, as Go strings are. */
module Hex {
  import opened Common

  type Bytes = seq<bv8>

  const DASH: bv8 := 0x2D
  const ZERO: bv8 := 0x30

  /******* Digits *******/

  predicate IsLowerDigit(c: bv8) {
    0x30 <= c <= 0x39 || 0x61 <= c <= 0x66
  }

  /** [0-9a-fA-F] */
  predicate IsDigit(c: bv8) {
    IsLowerDigit(c) || 0x41 <= c <= 0x46
  }

  /** ASCII lower-casing of one byte. */
  function LowerByte(c: bv8): bv8 {
    if 0x41 <= c <= 0x5A then c + 0x20 else c
  }

  /** The digit for a value below 16, from the lower-case table. */
  function Digit(v: bv8): bv8 {
    if v < 10 then ZERO + v else 0x57 + v
  }

  function Value(c: bv8): bv8 {
    if c <= 0x39 then c - ZERO else if c <= 0x46 then c - 0x37 else c - 0x57
  }

  lemma DigitValue(v: bv8)
    requires v < 16
    ensures IsLowerDigit(Digit(v)) && Value(Digit(v)) == v && (Digit(v) == ZERO <==> v == 0)
  {
  }

  lemma LowerDigit(c: bv8)
    ensures IsDigit(LowerByte(c)) == IsDigit(c)
    ensures IsDigit(c) ==> IsLowerDigit(LowerByte(c)) && c != DASH && Value(LowerByte(c)) == Value(c)
    ensures LowerByte(c) == ZERO <==> c == ZERO
    ensures LowerByte(c) == DASH <==> c == DASH
    ensures IsLowerDigit(c) ==> LowerByte(c) == c
  {
  }

  /******* Texts of digits *******/

  function Lowered(s: Bytes): (r: Bytes)
    ensures |r| == |s| && forall i | 0 <= i < |s| :: r[i] == LowerByte(s[i])
  {
    seq(|s|, i requires 0 <= i < |s| => LowerByte(s[i]))
  }

  ghost predicate AllDigits(s: Bytes) {
    forall i | 0 <= i < |s| :: IsDigit(s[i])
  }

  ghost predicate AllLowerDigits(s: Bytes) {
    forall i | 0 <= i < |s| :: IsLowerDigit(s[i])
  }

  predicate Zeros(s: Bytes) {
    forall i | 0 <= i < |s| :: s[i] == ZERO
  }

  /** At least one digit, and nothing else. */
  predicate HexText(s: Bytes) {
    s != [] && forall i | 0 <= i < |s| :: IsDigit(s[i])
  }

  method IsHex(s: Bytes) returns (b: bool)
    ensures b == HexText(s)
  {
    for i := 0 to |s|
      invariant forall j | 0 <= j < i :: IsDigit(s[j])
    {
      if !IsDigit(s[i]) {
        return false;
      }
    }
    return |s| > 0;
  }

  method AllZeros(s: Bytes) returns (b: bool)
    ensures b == Zeros(s)
  {
    for i := 0 to |s|
      invariant forall j | 0 <= j < i :: s[j] == ZERO
    {
      if s[i] != ZERO {
        return false;
      }
    }
    return true;
  }

  /** A non-zero identifier of n lower-case digits. */
  ghost predicate IsId(s: Bytes, n: nat) {
    |s| == n && AllLowerDigits(s) && !Zeros(s)
  }

  /** Lower-casing keeps the digits and what they encode, and does nothing to lower-case digits. */
  lemma LoweredDigits(s: Bytes)
    ensures AllDigits(Lowered(s)) <==> AllDigits(s)
    ensures AllDigits(s) ==> AllLowerDigits(Lowered(s))
    ensures AllLowerDigits(s) ==> Lowered(s) == s
    ensures Zeros(Lowered(s)) <==> Zeros(s)
  {
    forall i | 0 <= i < |s| ensures IsDigit(Lowered(s)[i]) == IsDigit(s[i])
                            ensures IsDigit(s[i]) ==> IsLowerDigit(Lowered(s)[i])
                            ensures Lowered(s)[i] == ZERO <==> s[i] == ZERO
                            ensures IsLowerDigit(s[i]) ==> Lowered(s)[i] == s[i] {
      LowerDigit(s[i]);
    }
  }

  /******* Encoding bytes *******/

  /** The two digits of a byte, high half first. */
  function Pair(b: bv8): (r: Bytes)
    ensures |r| == 2
  {
    [Digit(b >> 4), Digit(b & 0x0F)]
  }

  function Unpair(high: bv8, low: bv8): bv8 {
    (Value(high) << 4) | Value(low)
  }

  lemma Nibbles(b: bv8)
    ensures b >> 4 < 16 && b & 0x0F < 16 && ((b >> 4) << 4) | (b & 0x0F) == b
    ensures b == 0 <==> b >> 4 == 0 && b & 0x0F == 0
  {
  }

  lemma PairThenUnpair(b: bv8)
    ensures IsLowerDigit(Pair(b)[0]) && IsLowerDigit(Pair(b)[1]) && Unpair(Pair(b)[0], Pair(b)[1]) == b
    ensures b == 0 <==> Pair(b)[0] == ZERO && Pair(b)[1] == ZERO
  {
    Nibbles(b);
    DigitValue(b >> 4);
    DigitValue(b & 0x0F);
  }

  /** Two digits for each byte. */
  function Encode(bs: Bytes): (s: Bytes)
    ensures |s| == 2 * |bs|
  {
    if bs == [] then [] else Encode(Front(bs)) + Pair(Last(bs))
  }

  function Decode(s: Bytes): Bytes {
    seq(|s| / 2, i requires 0 <= i < |s| / 2 => Unpair(s[2 * i], s[2 * i + 1]))
  }

  lemma {:induction false} EncodeAt(bs: Bytes, i: nat)
    requires i < |bs|
    ensures Encode(bs)[2 * i] == Pair(bs[i])[0] && Encode(bs)[2 * i + 1] == Pair(bs[i])[1]
  {
    var init := Encode(Front(bs));
    assert Encode(bs) == init + Pair(Last(bs));
    if i < |bs| - 1 {
      EncodeAt(Front(bs), i);
    }
  }

  /** The digits decode to the bytes. */
  lemma EncodeThenDecode(bs: Bytes)
    ensures Decode(Encode(bs)) == bs
  {
    forall i | 0 <= i < |bs| ensures Decode(Encode(bs))[i] == bs[i] {
      EncodeAt(bs, i);
      PairThenUnpair(bs[i]);
    }
  }

  /** The digits are lower-case, and all zero exactly when the bytes are. */
  lemma EncodeGivesDigits(bs: Bytes)
    ensures AllLowerDigits(Encode(bs))
    ensures Zeros(Encode(bs)) <==> AllZeroBytes(bs)
  {
    var s := Encode(bs);
    forall k | 0 <= k < |s| ensures IsLowerDigit(s[k]) && (bs[k / 2] == 0 ==> s[k] == ZERO) {
      EncodeAt(bs, k / 2);
      PairThenUnpair(bs[k / 2]);
    }
    forall i | 0 <= i < |bs| && Zeros(s) ensures bs[i] == 0 {
      EncodeAt(bs, i);
      PairThenUnpair(bs[i]);
    }
  }

  ghost predicate AllZeroBytes(bs: Bytes) {
    forall i | 0 <= i < |bs| :: bs[i] == 0
  }

  /******* Segments *******/

  /** The segments between the dashes; a text without a dash is one segment. */
  function Split(s: Bytes): (parts: seq<Bytes>)
    ensures parts != []
  {
    if s == [] then [[]]
    else
      var rest := Split(s[1..]);
      if s[0] == DASH then [[]] + rest else [[s[0]] + rest[0]] + rest[1..]
  }

  function Join(parts: seq<Bytes>): Bytes
    requires parts != []
  {
    if |parts| == 1 then parts[0] else parts[0] + [DASH] + Join(parts[1..])
  }

  ghost predicate Undashed(parts: seq<Bytes>) {
    forall i | 0 <= i < |parts| :: DASH !in parts[i]
  }

  /** Splitting gives segments without dashes, and joining them gives the text back. */
  lemma {:induction false} SplitThenJoin(s: Bytes)
    ensures Undashed(Split(s)) && Join(Split(s)) == s
  {
    if s != [] {
      SplitThenJoin(s[1..]);
      var rest := Split(s[1..]);
      if s[0] == DASH {
        assert Split(s)[1..] == rest;
        assert s == [DASH] + s[1..];
      } else {
        assert Split(s)[1..] == rest[1..];
        JoinFront(s[0], rest);
        assert s == [s[0]] + s[1..];
      }
    }
  }

  lemma JoinFront(c: bv8, parts: seq<Bytes>)
    requires parts != []
    ensures Join([[c] + parts[0]] + parts[1..]) == [c] + Join(parts)
  {
    var longer := [[c] + parts[0]] + parts[1..];
    assert longer[1..] == parts[1..];
    if |parts| > 1 {
      assert [c] + parts[0] + [DASH] + Join(parts[1..]) == [c] + (parts[0] + [DASH] + Join(parts[1..]));
    }
  }

  /** Segments without dashes are what splitting their join gives, so the split is unique. */
  lemma {:induction false} JoinThenSplit(parts: seq<Bytes>)
    requires parts != [] && Undashed(parts)
    ensures Split(Join(parts)) == parts
    decreases |parts|, |parts[0]|
  {
    var s := Join(parts);
    if parts[0] != [] {
      var c, shorter := parts[0][0], [parts[0][1..]] + parts[1..];
      assert [c] + shorter[0] == parts[0] && shorter[1..] == parts[1..];
      assert parts == [parts[0]] + parts[1..];
      JoinFront(c, shorter);
      assert s[1..] == Join(shorter) && s[0] == c;
      JoinThenSplit(shorter);
    } else if |parts| > 1 {
      assert s == [DASH] + Join(parts[1..]);
      assert s[1..] == Join(parts[1..]);
      JoinThenSplit(parts[1..]);
      assert parts == [[]] + parts[1..];
    }
  }
}
