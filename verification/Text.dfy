/** The check that a text is UTF-8, byte by byte as a parser makes it, and what it means: the
    text is the encoding of a sequence of Unicode scalar values. */
module Texts {
  import opened Wire

  predicate Follows(s: seq<Byte>, k: nat, low: nat, high: nat) {
    k < |s| && low <= s[k] <= high
  }

  predicate Continues(s: seq<Byte>, k: nat) {
    Follows(s, k, 0x80, 0xBF)
  }

  /** The length of the well-formed UTF-8 character at the front; 0 if there is none. */
  function CharLength(s: seq<Byte>): (n: nat)
    ensures n <= |s|
  {
    if s == [] then 0
    else if s[0] <= 0x7F then 1
    else if 0xC2 <= s[0] <= 0xDF && Continues(s, 1) then 2
    else if s[0] == 0xE0 && Follows(s, 1, 0xA0, 0xBF) && Continues(s, 2) then 3
    else if s[0] == 0xED && Follows(s, 1, 0x80, 0x9F) && Continues(s, 2) then 3
    else if 0xE1 <= s[0] <= 0xEF && s[0] != 0xED && Continues(s, 1) && Continues(s, 2) then 3
    else if s[0] == 0xF0 && Follows(s, 1, 0x90, 0xBF) && Continues(s, 2) && Continues(s, 3) then 4
    else if s[0] == 0xF4 && Follows(s, 1, 0x80, 0x8F) && Continues(s, 2) && Continues(s, 3) then 4
    else if 0xF1 <= s[0] <= 0xF3 && Continues(s, 1) && Continues(s, 2) && Continues(s, 3) then 4
    else 0
  }

  predicate Utf8(s: seq<Byte>) {
    s == [] || (CharLength(s) > 0 && Utf8(s[CharLength(s)..]))
  }

  // ---------- What it means ----------

  /** Code points without the surrogates. */
  predicate Scalar(cp: nat) {
    cp < 0xD800 || 0xE000 <= cp <= 0x10FFFF
  }

  function EncodeChar(cp: nat): (r: seq<Byte>)
    requires Scalar(cp)
    ensures 1 <= |r| <= 4
  {
    if cp < 0x80 then [cp]
    else if cp < 0x800 then [0xC0 + cp / 64, 0x80 + cp % 64]
    else if cp < 0x1_0000 then [0xE0 + cp / 64 / 64, 0x80 + cp / 64 % 64, 0x80 + cp % 64]
    else [0xF0 + cp / 64 / 64 / 64, 0x80 + cp / 64 / 64 % 64, 0x80 + cp / 64 % 64, 0x80 + cp % 64]
  }

  predicate Scalars(cps: seq<nat>) {
    forall i :: 0 <= i < |cps| ==> Scalar(cps[i])
  }

  function EncodeText(cps: seq<nat>): seq<Byte>
    requires Scalars(cps)
  {
    if cps == [] then [] else EncodeChar(cps[0]) + EncodeText(cps[1..])
  }

  lemma CharIsWellFormed(cp: nat, t: seq<Byte>)
    requires Scalar(cp)
    ensures CharLength(EncodeChar(cp) + t) == |EncodeChar(cp)|
  {}

  /** Six more bits. */
  function More(high: nat, b: Byte): nat
    requires b >= 0x80
  {
    64 * high + (b as nat - 0x80)
  }

  /** The scalar value of the well-formed character at the front. */
  function DecodeChar(s: seq<Byte>): nat
    requires CharLength(s) > 0
  {
    match CharLength(s)
    case 1 => s[0]
    case 2 => More(s[0] as nat - 0xC0, s[1])
    case 3 => More(More(s[0] as nat - 0xE0, s[1]), s[2])
    case _ => More(More(More(s[0] as nat - 0xF0, s[1]), s[2]), s[3])
  }

  lemma Undone(high: nat, b: Byte)
    requires 0x80 <= b <= 0xBF
    ensures More(high, b) / 64 == high && 0x80 + More(high, b) % 64 == b as nat
  {}

  lemma ThreeBytes(s: seq<Byte>)
    requires CharLength(s) == 3
    ensures Scalar(DecodeChar(s)) && EncodeChar(DecodeChar(s)) == s[..3]
  {
    var a := s[0] as nat - 0xE0;
    Undone(a, s[1]);
    Undone(More(a, s[1]), s[2]);
  }

  lemma FourBytes(s: seq<Byte>)
    requires CharLength(s) == 4
    ensures Scalar(DecodeChar(s)) && EncodeChar(DecodeChar(s)) == s[..4]
  {
    var a := s[0] as nat - 0xF0;
    var b := More(a, s[1]);
    var c := More(b, s[2]);
    var d := More(c, s[3]);
    Undone(a, s[1]);
    Undone(b, s[2]);
    Undone(c, s[3]);
    assert d / 64 == c && d / 64 / 64 == b && d / 64 / 64 / 64 == a;
    assert DecodeChar(s) == d && 0x1_0000 <= d <= 0x10FFFF;
  }

  lemma DecodedIsScalar(s: seq<Byte>)
    requires CharLength(s) > 0
    ensures Scalar(DecodeChar(s)) && EncodeChar(DecodeChar(s)) == s[..CharLength(s)]
  {
    match CharLength(s)
    case 1 =>
    case 2 => Undone(s[0] as nat - 0xC0, s[1]);
    case 3 => ThreeBytes(s);
    case _ => FourBytes(s);
  }

  lemma {:induction false} EncodedIsUtf8(cps: seq<nat>)
    requires Scalars(cps)
    ensures Utf8(EncodeText(cps))
  {
    if cps != [] {
      var c, t := EncodeChar(cps[0]), EncodeText(cps[1..]);
      CharIsWellFormed(cps[0], t);
      assert (c + t)[|c|..] == t;
      EncodedIsUtf8(cps[1..]);
    }
  }

  lemma {:induction false} Utf8IsEncoded(s: seq<Byte>) returns (cps: seq<nat>)
    requires Utf8(s)
    ensures Scalars(cps) && EncodeText(cps) == s
    decreases |s|
  {
    if s == [] {
      cps := [];
    } else {
      var n := CharLength(s);
      DecodedIsScalar(s);
      var rest := Utf8IsEncoded(s[n..]);
      cps := [DecodeChar(s)] + rest;
      assert cps[1..] == rest && s == s[..n] + s[n..];
    }
  }

  /** The texts that pass the check are exactly the encodings of scalar values: no overlong
      forms, no surrogates, nothing beyond the last code point. */
  lemma Utf8Exactly(s: seq<Byte>)
    ensures Utf8(s) <==> exists cps: seq<nat> :: Scalars(cps) && EncodeText(cps) == s
  {
    if Utf8(s) {
      var cps := Utf8IsEncoded(s);
    }
    forall cps: seq<nat> | Scalars(cps) && EncodeText(cps) == s ensures Utf8(s) {
      EncodedIsUtf8(cps);
    }
  }
}
