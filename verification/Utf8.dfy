/** validateSingleLine: valid UTF-8 without line breaks or control characters. */
module Utf8 {
  import opened Prelude

  predicate Scalar(r: int) {
    0 <= r <= 0xD7FF || 0xE000 <= r <= 0x10FFFF
  }

  /** The bytes of one code point. */
  function Bytes(r: int): (b: seq<int>)
    requires Scalar(r)
    ensures forall i :: 0 <= i < |b| ==> 0 <= b[i] < 0x100
  {
    if r < 0x80 then [r]
    else if r < 0x800 then [0xC0 + r / 64, 0x80 + r % 64]
    else if r < 0x10000 then [0xE0 + r / 4096, 0x80 + r / 64 % 64, 0x80 + r % 64]
    else [0xF0 + r / 262144, 0x80 + r / 4096 % 64, 0x80 + r / 64 % 64, 0x80 + r % 64]
  }

  /** Each byte as one char. */
  function Encode(r: int): string
    requires Scalar(r)
  {
    seq(|Bytes(r)|, i requires 0 <= i < |Bytes(r)| => Bytes(r)[i] as char)
  }

  function EncodeAll(rs: seq<int>): string
    requires forall i :: 0 <= i < |rs| ==> Scalar(rs[i])
  {
    if rs == [] then "" else Encode(rs[0]) + EncodeAll(rs[1..])
  }

  /** The byte at position `i`, or 0 past the end, which continues nothing. */
  function Byte(s: string, i: nat): int {
    if i < |s| then s[i] as int else 0
  }

  predicate Cont(b: int) {
    0x80 <= b <= 0xBF
  }

  /** Decode a code point from up to four bytes: its value and how many bytes it took. */
  function DecodeBytes(a: int, b: int, c: int, d: int): Option<(int, nat)> {
    if a < 0x80 then Some((a, 1))
    else if 0xC2 <= a <= 0xDF && Cont(b) then Some(((a - 0xC0) * 64 + (b - 0x80), 2))
    else if 0xE0 <= a <= 0xEF && Cont(b) && Cont(c) && (a == 0xE0 ==> b >= 0xA0) && (a == 0xED ==> b <= 0x9F) then
      Some(((a - 0xE0) * 4096 + (b - 0x80) * 64 + (c - 0x80), 3))
    else if 0xF0 <= a <= 0xF4 && Cont(b) && Cont(c) && Cont(d) && (a == 0xF0 ==> b >= 0x90)
            && (a == 0xF4 ==> b <= 0x8F) then
      Some(((a - 0xF0) * 262144 + (b - 0x80) * 4096 + (c - 0x80) * 64 + (d - 0x80), 4))
    else None
  }

  function Decode(s: string): (d: Option<(int, nat)>)
    requires s != ""
    ensures d.Some? ==> 1 <= d.value.1 <= |s|
  {
    DecodeBytes(Byte(s, 0), Byte(s, 1), Byte(s, 2), Byte(s, 3))
  }

  /** The code points of a text, if it is valid UTF-8. */
  function Runes(s: string): Option<seq<int>>
    decreases |s|
  {
    if s == "" then Some([])
    else
      var d := Decode(s);
      if d.None? then None
      else
        var rest := Runes(s[d.value.1..]);
        if rest.None? then None else Some([d.value.0] + rest.value)
  }

  lemma TwoBytes(r: int, c: int, d: int)
    requires 0x80 <= r < 0x800
    ensures DecodeBytes(0xC0 + r / 64, 0x80 + r % 64, c, d) == Some((r, 2))
  {
  }

  lemma ThreeBytes(r: int, d: int)
    requires 0x800 <= r < 0x10000 && Scalar(r)
    ensures DecodeBytes(0xE0 + r / 4096, 0x80 + r / 64 % 64, 0x80 + r % 64, d) == Some((r, 3))
  {
    assert r / 64 == r / 4096 * 64 + r / 64 % 64;
  }

  lemma FourBytes(r: int)
    requires 0x10000 <= r && Scalar(r)
    ensures DecodeBytes(0xF0 + r / 262144, 0x80 + r / 4096 % 64, 0x80 + r / 64 % 64, 0x80 + r % 64) == Some((r, 4))
  {
    assert r / 4096 == r / 262144 * 64 + r / 4096 % 64;
    assert r / 64 == r / 4096 * 64 + r / 64 % 64;
  }

  /** Decoding inverts encoding. */
  lemma DecodeEncode(r: int, rest: string)
    requires Scalar(r)
    ensures Decode(Encode(r) + rest) == Some((r, |Encode(r)|))
  {
    var s, n := Encode(r) + rest, |Bytes(r)|;
    assert forall i :: 0 <= i < n ==> Byte(s, i) == Bytes(r)[i];
    if 0x80 <= r < 0x800 {
      TwoBytes(r, Byte(s, 2), Byte(s, 3));
    } else if 0x800 <= r < 0x10000 {
      ThreeBytes(r, Byte(s, 3));
    } else if 0x10000 <= r {
      FourBytes(r);
    }
  }

  lemma DecodedTwo(a: int, b: int)
    requires 0xC2 <= a <= 0xDF && Cont(b)
    ensures var r := (a - 0xC0) * 64 + (b - 0x80); 0x80 <= r < 0x800 && Bytes(r) == [a, b]
  {
  }

  lemma DecodedThree(a: int, b: int, c: int)
    requires 0xE0 <= a <= 0xEF && Cont(b) && Cont(c) && (a == 0xE0 ==> b >= 0xA0) && (a == 0xED ==> b <= 0x9F)
    ensures var r := (a - 0xE0) * 4096 + (b - 0x80) * 64 + (c - 0x80);
            0x800 <= r < 0x10000 && Scalar(r) && Bytes(r) == [a, b, c]
  {
    var r := (a - 0xE0) * 4096 + (b - 0x80) * 64 + (c - 0x80);
    assert r / 64 == (a - 0xE0) * 64 + (b - 0x80);
    assert r / 4096 == a - 0xE0;
  }

  lemma DecodedFour(a: int, b: int, c: int, d: int)
    requires 0xF0 <= a <= 0xF4 && Cont(b) && Cont(c) && Cont(d) && (a == 0xF0 ==> b >= 0x90)
             && (a == 0xF4 ==> b <= 0x8F)
    ensures var r := (a - 0xF0) * 262144 + (b - 0x80) * 4096 + (c - 0x80) * 64 + (d - 0x80);
            0x10000 <= r && Scalar(r) && Bytes(r) == [a, b, c, d]
  {
    var r := (a - 0xF0) * 262144 + (b - 0x80) * 4096 + (c - 0x80) * 64 + (d - 0x80);
    assert r / 64 == (a - 0xF0) * 4096 + (b - 0x80) * 64 + (c - 0x80);
    assert r / 4096 == (a - 0xF0) * 64 + (b - 0x80);
    assert r / 262144 == a - 0xF0;
  }

  /** Encoding inverts decoding: no code point has a second, overlong form. */
  lemma BytesOfDecoded(a: int, b: int, c: int, d: int)
    requires 0 <= a < 0x100 && DecodeBytes(a, b, c, d).Some?
    ensures var (r, n) := DecodeBytes(a, b, c, d).value;
            Scalar(r) && Bytes(r) == [a, b, c, d][..n]
  {
    if 0xC2 <= a <= 0xDF {
      DecodedTwo(a, b);
    } else if 0xE0 <= a <= 0xEF {
      DecodedThree(a, b, c);
    } else if 0xF0 <= a {
      DecodedFour(a, b, c, d);
    }
  }

  lemma EncodeDecode(s: string)
    requires s != "" && Decode(s).Some? && s[0] as int < 0x100
    ensures Scalar(Decode(s).value.0) && Encode(Decode(s).value.0) == s[..Decode(s).value.1]
  {
    BytesOfDecoded(Byte(s, 0), Byte(s, 1), Byte(s, 2), Byte(s, 3));
    var (r, n) := Decode(s).value;
    assert forall i :: 0 <= i < n ==> Bytes(r)[i] == Byte(s, i);
  }

  lemma {:induction false} RunesOfEncoding(rs: seq<int>)
    requires forall i :: 0 <= i < |rs| ==> Scalar(rs[i])
    ensures Runes(EncodeAll(rs)) == Some(rs)
  {
    if rs != [] {
      var e, rest := Encode(rs[0]), EncodeAll(rs[1..]);
      DecodeEncode(rs[0], rest);
      assert (e + rest)[|e|..] == rest;
      RunesOfEncoding(rs[1..]);
      assert [rs[0]] + rs[1..] == rs;
    }
  }

  /** A text is valid exactly when it encodes its code points, all of them Unicode scalar values. */
  lemma {:induction false} EncodingOfRunes(s: string)
    requires Runes(s).Some?
    ensures forall i :: 0 <= i < |Runes(s).value| ==> Scalar(Runes(s).value[i])
    ensures EncodeAll(Runes(s).value) == s
    decreases |s|
  {
    if s != "" {
      var d := Decode(s).value;
      assert s[0] as int < 0x100;
      EncodeDecode(s);
      EncodingOfRunes(s[d.1..]);
      assert s == s[..d.1] + s[d.1..];
      assert Runes(s).value[1..] == Runes(s[d.1..]).value;
    }
  }

  predicate Disallowed(r: int) {
    || (r < 0x20 && r != 9) || r == 0x7F || 0x80 <= r <= 0x9F
    || r == 0x2028 || r == 0x2029 || r == 0xFFFE || r == 0xFFFF
  }

  ghost predicate SingleLine(s: string) {
    Runes(s).Some? && forall i :: 0 <= i < |Runes(s).value| ==> !Disallowed(Runes(s).value[i])
  }

  method ValidateSingleLine(s: string) returns (ok: bool)
    ensures ok <==> SingleLine(s)
  {
    var runes := Runes(s);
    if runes.None? {
      return false;
    }
    var i := 0;
    while i < |runes.value|
      invariant 0 <= i <= |runes.value|
      invariant forall j :: 0 <= j < i ==> !Disallowed(runes.value[j])
    {
      var r := runes.value[i];
      if (r < 0x20 && r != 9) || r == 0x7F || (r >= 0x80 && r <= 0x9F) || r == 0x2028 || r == 0x2029 || r == 0xFFFE
         || r == 0xFFFF {
        return false;
      }
      i := i + 1;
    }
    ok := true;
  }

  /** What is accepted is exactly what encodes allowed code points. */
  lemma SingleLineExactly(s: string)
    ensures SingleLine(s) <==> exists rs: seq<int> ::
              && (forall i :: 0 <= i < |rs| ==> Scalar(rs[i]))
              && (forall i :: 0 <= i < |rs| ==>
                    || rs[i] == 9
                    || (&& 0x20 <= rs[i] && !(0x7F <= rs[i] <= 0x9F)
                        && rs[i] !in {0x2028, 0x2029, 0xFFFE, 0xFFFF}))
              && s == EncodeAll(rs)
  {
    if SingleLine(s) {
      EncodingOfRunes(s);
    }
    forall rs: seq<int> | (forall i :: 0 <= i < |rs| ==> Scalar(rs[i])) && s == EncodeAll(rs)
      ensures Runes(s) == Some(rs)
    {
      RunesOfEncoding(rs);
    }
  }

  /** A byte below 0x80 in valid UTF-8 is a code point of its own, so no such control byte gets through. */
  lemma {:induction false} AsciiBytesAreRunes(s: string, k: nat)
    requires Runes(s).Some? && k < |s| && s[k] as int < 0x80
    ensures s[k] as int in Runes(s).value
    decreases |s|
  {
    var d := Decode(s).value;
    if k < d.1 {
      assert k == 0;
    } else {
      AsciiBytesAreRunes(s[d.1..], k - d.1);
      assert Runes(s).value == [d.0] + Runes(s[d.1..]).value;
    }
  }

  lemma SingleLineHasNoLineBreak(s: string)
    requires SingleLine(s)
    ensures '\n' !in s && '\r' !in s && '\0' !in s
  {
    forall k | 0 <= k < |s|
      ensures s[k] != '\n' && s[k] != '\r' && s[k] != '\0'
    {
      if s[k] as int < 0x80 {
        AsciiBytesAreRunes(s, k);
      }
    }
  }
}
