/**
 The "base64url" encoding of section 5 of RFC 4648 (URL- and filename-safe alphabet,
 with `=` padding), as Go's `base64.URLEncoding` implements it. `Encode` is the
 reference definition, `Decode` its inverse (rejecting non-canonical input, section 3.5),
 and `EncodeToString` the quantum-by-quantum encoder loop.
 */
module Base64Url {
  import opened Common

  /** The pad character of section 3.2 of RFC 4648. */
  const Pad: char := '='

  /** Membership in the alphabet of Table 2 of RFC 4648. */
  predicate IsUrlSafe(c: char) {
    ('A' <= c <= 'Z') || ('a' <= c <= 'z') || ('0' <= c <= '9') || c == '-' || c == '_'
  }

  /** The character Table 2 of RFC 4648 assigns to the 6-bit value `v`. */
  function Sextet(v: int): (c: char)
    requires 0 <= v < 64
    ensures IsUrlSafe(c)
  {
    if v < 26 then ('A' as int + v) as char
    else if v < 52 then ('a' as int + (v - 26)) as char
    else if v < 62 then ('0' as int + (v - 52)) as char
    else if v == 62 then '-'
    else '_'
  }

  /** The 6-bit value of an alphabet character; `None` for anything outside Table 2. */
  function ValueOf(c: char): (r: Option<int>)
    ensures r.Some? <==> IsUrlSafe(c)
    ensures r.Some? ==> 0 <= r.value < 64 && Sextet(r.value) == c
  {
    if 'A' <= c <= 'Z' then Some(c as int - 'A' as int)
    else if 'a' <= c <= 'z' then Some(c as int - 'a' as int + 26)
    else if '0' <= c <= '9' then Some(c as int - '0' as int + 52)
    else if c == '-' then Some(62)
    else if c == '_' then Some(63)
    else None
  }

  /** Table 2 is a bijection: reading back an encoded value gives the value. */
  lemma ValueOfSextet(v: int)
    requires 0 <= v < 64
    ensures ValueOf(Sextet(v)) == Some(v)
  {
  }

  /** Three bytes become four characters (section 4 of RFC 4648, Figure 1). */
  function EncodeQuantum(b0: byte, b1: byte, b2: byte): string {
    [Sextet(b0 / 4), Sextet(b0 % 4 * 16 + b1 / 16), Sextet(b1 % 16 * 4 + b2 / 64), Sextet(b2 % 64)]
  }

  /** The final, short quantum: zero bits fill the last character and `=` the rest. */
  function EncodeFinal(tail: seq<byte>): string
    requires |tail| < 3
  {
    if |tail| == 0 then ""
    else if |tail| == 1 then [Sextet(tail[0] / 4), Sextet(tail[0] % 4 * 16), Pad, Pad]
    else [Sextet(tail[0] / 4), Sextet(tail[0] % 4 * 16 + tail[1] / 16), Sextet(tail[1] % 16 * 4), Pad]
  }

  /** The padded base64url encoding of `b`. */
  function Encode(b: seq<byte>): (s: string)
    ensures |s| == 4 * ((|b| + 2) / 3)
    decreases |b|
  {
    if |b| < 3 then EncodeFinal(b)
    else EncodeQuantum(b[0], b[1], b[2]) + Encode(b[3..])
  }

  /** Every character of an encoding is from Table 2 of RFC 4648 or is padding, and
      padding appears only in the last two positions. */
  lemma {:induction false} EncodeAlphabet(b: seq<byte>)
    ensures forall i :: 0 <= i < |Encode(b)| ==> IsUrlSafe(Encode(b)[i]) || Encode(b)[i] == Pad
    ensures forall i :: 0 <= i < |Encode(b)| && Encode(b)[i] == Pad ==> |Encode(b)| - 2 <= i
    decreases |b|
  {
    if |b| >= 3 {
      EncodeAlphabet(b[3..]);
      var q := EncodeQuantum(b[0], b[1], b[2]);
      var t := Encode(b[3..]);
      assert Encode(b) == q + t;
      forall i | 0 <= i < |q + t|
        ensures IsUrlSafe((q + t)[i]) || (q + t)[i] == Pad
        ensures (q + t)[i] == Pad ==> |q + t| - 2 <= i
      {
        if i >= 4 {
          assert (q + t)[i] == t[i - 4];
        }
      }
    }
  }

  /** Decodes one four-character quantum; padding is accepted only in the `last` one and
      the bits it discards must be zero. */
  function DecodeQuantum(q: string, last: bool): (r: Option<seq<byte>>)
    requires |q| == 4
    ensures r.Some? ==> 1 <= |r.value| <= 3
    ensures r.Some? && |r.value| < 3 ==> last
  {
    var v0 := ValueOf(q[0]);
    var v1 := ValueOf(q[1]);
    if v0.None? || v1.None? then None
    else if q[2] == Pad then
      if last && q[3] == Pad && v1.value % 16 == 0 then Some([v0.value * 4 + v1.value / 16])
      else None
    else
      var v2 := ValueOf(q[2]);
      if v2.None? then None
      else if q[3] == Pad then
        if last && v2.value % 4 == 0 then
          Some([v0.value * 4 + v1.value / 16, v1.value % 16 * 16 + v2.value / 4])
        else None
      else
        var v3 := ValueOf(q[3]);
        if v3.None? then None
        else Some([v0.value * 4 + v1.value / 16, v1.value % 16 * 16 + v2.value / 4, v2.value % 4 * 64 + v3.value])
  }

  /** The bytes a canonical padded base64url string stands for; `None` for any other string. */
  function Decode(s: string): (r: Option<seq<byte>>)
    decreases |s|
  {
    if |s| == 0 then Some([])
    else if |s| < 4 then None
    else
      match DecodeQuantum(s[..4], |s| == 4)
      case None => None
      case Some(head) =>
        match Decode(s[4..])
        case None => None
        case Some(rest) => Some(head + rest)
  }

  /** Splitting a number below `hi * k` into its quotient and remainder by `k` is undone
      by multiplying back; stated for the three bit-field widths the quanta use. */
  lemma Recombine(q: int, r: int)
    requires 0 <= q && 0 <= r
    ensures r < 4 ==> (q * 4 + r) / 4 == q && (q * 4 + r) % 4 == r
    ensures r < 16 ==> (q * 16 + r) / 16 == q && (q * 16 + r) % 16 == r
    ensures r < 64 ==> (q * 64 + r) / 64 == q && (q * 64 + r) % 64 == r
  {
  }

  lemma QuantumRoundTrip(b0: byte, b1: byte, b2: byte, last: bool)
    ensures DecodeQuantum(EncodeQuantum(b0, b1, b2), last) == Some([b0, b1, b2])
  {
    var x0, x1, x2, x3 := b0 / 4, b0 % 4 * 16 + b1 / 16, b1 % 16 * 4 + b2 / 64, b2 % 64;
    var q := EncodeQuantum(b0, b1, b2);
    assert q == [Sextet(x0), Sextet(x1), Sextet(x2), Sextet(x3)];
    ValueOfSextet(x0);
    ValueOfSextet(x1);
    ValueOfSextet(x2);
    ValueOfSextet(x3);
    Recombine(b0 % 4, b1 / 16);
    Recombine(b1 % 16, b2 / 64);
    assert x0 * 4 + x1 / 16 == b0;
    assert x1 % 16 * 16 + x2 / 4 == b1;
    assert x2 % 4 * 64 + x3 == b2;
  }

  lemma FinalRoundTrip(tail: seq<byte>)
    requires 0 < |tail| < 3
    ensures DecodeQuantum(EncodeFinal(tail), true) == Some(tail)
  {
    if |tail| == 1 {
      FinalRoundTripOne(tail[0]);
      assert [tail[0]] == tail;
    } else {
      FinalRoundTripTwo(tail[0], tail[1]);
      assert [tail[0], tail[1]] == tail;
    }
  }

  lemma FinalRoundTripOne(b0: byte)
    ensures DecodeQuantum(EncodeFinal([b0]), true) == Some([b0])
  {
    var x0, x1 := b0 / 4, b0 % 4 * 16;
    ValueOfSextet(x0);
    ValueOfSextet(x1);
    Recombine(b0 % 4, 0);
    assert x0 * 4 + x1 / 16 == b0;
  }

  lemma FinalRoundTripTwo(b0: byte, b1: byte)
    ensures DecodeQuantum(EncodeFinal([b0, b1]), true) == Some([b0, b1])
  {
    var x0, x1, x2 := b0 / 4, b0 % 4 * 16 + b1 / 16, b1 % 16 * 4;
    ValueOfSextet(x0);
    ValueOfSextet(x1);
    ValueOfSextet(x2);
    Recombine(b0 % 4, b1 / 16);
    Recombine(b1 % 16, 0);
    assert x0 * 4 + x1 / 16 == b0;
    assert x1 % 16 * 16 + x2 / 4 == b1;
  }

  /** Decoding a quantum followed by more text decodes the quantum, then the rest. */
  lemma DecodeCons(q: string, t: string)
    requires |q| == 4 && DecodeQuantum(q, |t| == 0).Some? && Decode(t).Some?
    ensures Decode(q + t) == Some(DecodeQuantum(q, |t| == 0).value + Decode(t).value)
  {
    var s := q + t;
    assert s[..4] == q && s[4..] == t;
  }

  /** Decoding undoes the encoding of a final, short quantum. */
  lemma DecodeEncodeFinal(b: seq<byte>)
    requires 0 < |b| < 3
    ensures Decode(EncodeFinal(b)) == Some(b)
  {
    FinalRoundTrip(b);
    DecodeCons(EncodeFinal(b), "");
    assert EncodeFinal(b) + "" == EncodeFinal(b);
    assert b + [] == b;
  }

  lemma FirstThree(b: seq<byte>)
    requires |b| >= 3
    ensures [b[0], b[1], b[2]] + b[3..] == b
  {
  }

  /** One whole quantum in front of an encoding that decodes still decodes. */
  lemma DecodeEncodeStep(b: seq<byte>)
    requires |b| >= 3 && Decode(Encode(b[3..])) == Some(b[3..])
    ensures Decode(Encode(b)) == Some(b)
  {
    var t := Encode(b[3..]);
    var q := EncodeQuantum(b[0], b[1], b[2]);
    assert Encode(b) == q + t;
    QuantumRoundTrip(b[0], b[1], b[2], |t| == 0);
    assert DecodeQuantum(q, |t| == 0) == Some([b[0], b[1], b[2]]);
    DecodeCons(q, t);
    FirstThree(b);
  }

  /** Decoding undoes encoding. */
  lemma {:induction false} DecodeEncode(b: seq<byte>)
    ensures Decode(Encode(b)) == Some(b)
    decreases |b|
  {
    if |b| == 0 {
    } else if |b| < 3 {
      DecodeEncodeFinal(b);
    } else {
      DecodeEncode(b[3..]);
      DecodeEncodeStep(b);
    }
  }

  /** A quantum that decodes is the encoding of the bytes it decodes to. */
  lemma QuantumCanonical(q: string, last: bool)
    requires |q| == 4 && DecodeQuantum(q, last).Some?
    ensures var h := DecodeQuantum(q, last).value;
      if |h| == 3 then q == EncodeQuantum(h[0], h[1], h[2]) else q == EncodeFinal(h)
  {
    var v0 := ValueOf(q[0]).value;
    var v1 := ValueOf(q[1]).value;
    var h := DecodeQuantum(q, last).value;
    assert h[0] / 4 == v0 && h[0] % 4 == v1 / 16;
    if |h| >= 2 {
      var v2 := ValueOf(q[2]).value;
      assert h[1] / 16 == v1 % 16 && h[1] % 16 == v2 / 4;
      if |h| == 3 {
        var v3 := ValueOf(q[3]).value;
        assert h[2] / 64 == v2 % 4 && h[2] % 64 == v3;
      }
    }
  }

  /** Only canonical encodings decode: whatever decodes re-encodes to the same string. */
  lemma {:induction false} EncodeDecode(s: string)
    requires Decode(s).Some?
    ensures Encode(Decode(s).value) == s
    decreases |s|
  {
    if |s| != 0 {
      var last := |s| == 4;
      var head := DecodeQuantum(s[..4], last).value;
      var rest := Decode(s[4..]).value;
      var b := Decode(s).value;
      assert b == head + rest;
      QuantumCanonical(s[..4], last);
      EncodeDecode(s[4..]);
      if |head| == 3 {
        assert b[..3] == head && b[3..] == rest;
        assert s == s[..4] + s[4..];
      } else {
        assert |s[4..]| == 0;
        assert rest == [] && b == head;
        assert s == s[..4];
      }
    }
  }

  /** Encoding from position `i` on emits the quantum at `i` and then encodes from `i + 3`. */
  lemma EncodeSuffix(b: seq<byte>, i: nat)
    requires i + 3 <= |b|
    ensures Encode(b[i..]) == EncodeQuantum(b[i], b[i + 1], b[i + 2]) + Encode(b[i + 3..])
  {
    assert b[i..][3..] == b[i + 3..];
  }

  /** The encoder loop: whole three-byte quanta first, then the padded final quantum. */
  method EncodeToString(b: seq<byte>) returns (s: string)
    ensures s == Encode(b)
  {
    s := "";
    var i := 0;
    while |b| - i >= 3
      invariant 0 <= i <= |b|
      invariant s + Encode(b[i..]) == Encode(b)
    {
      EncodeSuffix(b, i);
      s := s + EncodeQuantum(b[i], b[i + 1], b[i + 2]);
      i := i + 3;
    }
    s := s + EncodeFinal(b[i..]);
  }
}
