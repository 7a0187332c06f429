/**
  Hex strings as the EdDSA handlers use them: Node's `Buffer.from(s, 'hex')`, which stops at
  the first pair that is not hex, `toString('hex')`, which writes lower case, and slices at 64.
 */
module Hex {
  import opened Prelude

  type Byte = b: int | 0 <= b < 256

  function Digit(c: char): Option<int> {
    if '0' <= c <= '9' then Some(c as int - '0' as int)
    else if 'a' <= c <= 'f' then Some(c as int - 'a' as int + 10)
    else if 'A' <= c <= 'F' then Some(c as int - 'A' as int + 10)
    else None
  }

  function ToDigit(d: int): (c: char)
    requires 0 <= d < 16
    ensures Digit(c) == Some(d) && LowerHex(c)
  {
    if d < 10 then '0' + d as char else 'a' + (d - 10) as char
  }

  predicate LowerHex(c: char) {
    '0' <= c <= '9' || 'a' <= c <= 'f'
  }

  function Decode(s: string): seq<Byte> {
    if |s| < 2 || Digit(s[0]).None? || Digit(s[1]).None? then []
    else [Digit(s[0]).value * 16 + Digit(s[1]).value] + Decode(s[2..])
  }

  function Encode(bs: seq<Byte>): string {
    if bs == [] then "" else [ToDigit(bs[0] / 16), ToDigit(bs[0] % 16)] + Encode(bs[1..])
  }

  /** What `toString('hex')` can produce: an even number of lower-case hex digits. */
  predicate Canonical(s: string) {
    |s| % 2 == 0 && forall i | 0 <= i < |s| :: LowerHex(s[i])
  }

  lemma {:induction false} EncodeCanonical(bs: seq<Byte>)
    ensures Canonical(Encode(bs)) && |Encode(bs)| == 2 * |bs|
  {
    if bs != [] {
      EncodeCanonical(bs[1..]);
    }
  }

  lemma {:induction false} EncodeConcat(a: seq<Byte>, b: seq<Byte>)
    ensures Encode(a + b) == Encode(a) + Encode(b)
  {
    if a == [] {
      assert a + b == b;
    } else {
      assert (a + b)[1..] == a[1..] + b;
      EncodeConcat(a[1..], b);
    }
  }

  /** A canonical pair is what encoding its byte gives. */
  lemma PairRoundTrip(a: char, b: char)
    requires LowerHex(a) && LowerHex(b)
    ensures Digit(a).Some? && Digit(b).Some?
    ensures var byte := Digit(a).value * 16 + Digit(b).value;
            0 <= byte < 256 && ToDigit(byte / 16) == a && ToDigit(byte % 16) == b
  {
  }

  lemma CanonicalTail(s: string)
    requires Canonical(s) && s != ""
    ensures |s| >= 2 && LowerHex(s[0]) && LowerHex(s[1]) && Canonical(s[2..])
  {
    assert forall i | 0 <= i < |s[2..]| :: s[2..][i] == s[i + 2];
  }

  /** Encoding what was decoded gives the string back exactly when the string is canonical. */
  lemma {:induction false} EncodeDecode(s: string)
    ensures Encode(Decode(s)) == s <==> Canonical(s)
  {
    if Canonical(s) && s != "" {
      hide Digit, ToDigit, Canonical, LowerHex;
      CanonicalTail(s);
      PairRoundTrip(s[0], s[1]);
      var t := s[2..];
      EncodeDecode(t);
      assert Decode(s)[1..] == Decode(t);
      assert s == [s[0], s[1]] + t;
    } else if !Canonical(s) {
      EncodeCanonical(Decode(s));
    }
  }

  /** Two hex strings as one, joined as bytes. */
  function Pack(a: string, b: string): string {
    Encode(Decode(a) + Decode(b))
  }

  /** `s.slice(0, 64)` and `s.slice(64)`. */
  function Head64(s: string): string {
    if |s| <= 64 then s else s[..64]
  }

  function Tail64(s: string): string {
    if |s| <= 64 then "" else s[64..]
  }

  /**
    Packing two strings and slicing at 64 gives both back exactly when both are canonical
    and the first fills its 64 digits, or ends early with nothing after it.
   */
  lemma PackSlices(a: string, b: string)
    ensures Head64(Pack(a, b)) == a && Tail64(Pack(a, b)) == b <==>
              Canonical(a) && Canonical(b) && (|a| == 64 || (|a| < 64 && b == ""))
  {
    var p := Pack(a, b);
    EncodeConcat(Decode(a), Decode(b));
    EncodeCanonical(Decode(a) + Decode(b));
    EncodeDecode(a);
    EncodeDecode(b);
    if Head64(p) == a && Tail64(p) == b {
      assert p == a + b;
      assert forall i | 0 <= i < |a| :: a[i] == p[i];
      assert forall i | 0 <= i < |b| :: b[i] == p[|a| + i];
      if |p| > 64 {
        assert |a| == 64;
      } else {
        assert |b| == 0 && |a| == |p|;
      }
    }
  }

  /** Every byte string survives being written as hex and read again. */
  lemma {:induction false} DecodeEncode(bs: seq<Byte>)
    ensures Decode(Encode(bs)) == bs
  {
    if bs != [] {
      var s := Encode(bs);
      assert s[2..] == Encode(bs[1..]);
      DecodeEncode(bs[1..]);
    }
  }

  function Lower(c: char): char {
    if 'A' <= c <= 'F' then c + ('a' - 'A') else c
  }

  /** The case of the digits makes no difference to what is read. */
  lemma {:induction false} CaseInsensitive(s: string, t: string)
    requires |s| == |t| && forall i | 0 <= i < |s| :: Lower(s[i]) == Lower(t[i])
    ensures Decode(s) == Decode(t)
  {
    if |s| >= 2 {
      SameDigit(s[0], t[0]);
      SameDigit(s[1], t[1]);
      CaseInsensitive(s[2..], t[2..]);
    }
  }

  lemma SameDigit(c: char, d: char)
    requires Lower(c) == Lower(d)
    ensures Digit(c) == Digit(d)
  {
  }
}
