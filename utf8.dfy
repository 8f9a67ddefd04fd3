/**
 * UTF-8 as Node.js uses it for `buf.toString()` and `new Buffer(str, 'utf-8')`:
 * the encoding of Unicode scalar values defined in section 3 of RFC 3629, and a
 * decoder that accepts exactly the well-formed byte sequences.
 */
module Utf8 {
  import opened Wrappers

  /** One byte of a Node.js Buffer. */
  type Byte = b: int | 0 <= b < 256

  /** A continuation byte, 10xxxxxx. */
  predicate IsContinuation(b: Byte) {
    0x80 <= b < 0xC0
  }

  /** The one to four bytes that encode one scalar value. */
  function EncodeChar(c: char): (r: seq<Byte>)
    ensures 1 <= |r| <= 4
    ensures (|r| == 1) == (c as int < 0x80)
    ensures forall k :: 1 <= k < |r| ==> IsContinuation(r[k])
  {
    var n := c as int;
    if n < 0x80 then [n]
    else if n < 0x800 then [0xC0 + n / 64, 0x80 + n % 64]
    else if n < 0x1_0000 then [0xE0 + n / 4096, 0x80 + n / 64 % 64, 0x80 + n % 64]
    else [0xF0 + n / 262144, 0x80 + n / 4096 % 64, 0x80 + n / 64 % 64, 0x80 + n % 64]
  }

  /** `new Buffer(s, 'utf-8')`: the characters' encodings, one after the other. */
  function Encode(s: string): (r: seq<Byte>)
    ensures |s| <= |r| <= 4 * |s|
  {
    if s == [] then [] else EncodeChar(s[0]) + Encode(s[1..])
  }

  /**
   * The scalar value that the bytes start with and how many bytes it takes, or
   * None when they do not start with a well-formed sequence (a stray
   * continuation byte, a truncated sequence, an overlong form, a surrogate or a
   * value above U+10FFFF).
   */
  function DecodeFirst(b: seq<Byte>): (r: Option<(char, nat)>)
    requires |b| > 0
    ensures r.Some? ==> 1 <= r.value.1 <= |b| && r.value.1 <= 4
    ensures r.Some? && r.value.1 == 1 <==> b[0] < 0x80
    ensures 0x80 <= b[0] < 0xC0 ==> r.None?
  {
    var b0: int := b[0];
    if b0 < 0x80 then
      Some((b0 as char, 1))
    else if 0xC0 <= b0 < 0xE0 then
      if |b| < 2 || !IsContinuation(b[1]) then None
      else
        var n := (b0 - 0xC0) * 64 + (b[1] as int - 0x80);
        if n < 0x80 then None else Some((n as char, 2))
    else if 0xE0 <= b0 < 0xF0 then
      if |b| < 3 || !IsContinuation(b[1]) || !IsContinuation(b[2]) then None
      else
        var n := (b0 - 0xE0) * 4096 + (b[1] as int - 0x80) * 64 + (b[2] as int - 0x80);
        if n < 0x800 || 0xD800 <= n < 0xE000 then None else Some((n as char, 3))
    else if 0xF0 <= b0 < 0xF8 then
      if |b| < 4 || !IsContinuation(b[1]) || !IsContinuation(b[2]) || !IsContinuation(b[3]) then None
      else
        var n := (b0 - 0xF0) * 262144 + (b[1] as int - 0x80) * 4096 + (b[2] as int - 0x80) * 64 + (b[3] as int - 0x80);
        if n < 0x1_0000 || 0x11_0000 <= n then None else Some((n as char, 4))
    else
      None
  }

  /** A decoded first character is exactly what its bytes encode. */
  lemma DecodeFirstSound(b: seq<Byte>)
    requires |b| > 0 && DecodeFirst(b).Some?
    ensures b[..DecodeFirst(b).value.1] == EncodeChar(DecodeFirst(b).value.0)
  {
    if b[0] >= 0x80 {
      var (c, k) := DecodeFirst(b).value;
      if k == 2 {
        SoundTwo(b[..2], c as int);
      } else if k == 3 {
        SoundThree(b[..3], c as int);
      } else {
        SoundFour(b[..4], c as int);
      }
    }
  }

  lemma SoundTwo(b: seq<Byte>, n: int)
    requires |b| == 2 && 0xC0 <= b[0] < 0xE0 && IsContinuation(b[1])
    requires n == (b[0] as int - 0xC0) * 64 + (b[1] as int - 0x80) && 0x80 <= n
    ensures 0 <= n < 0x800 && b == EncodeChar(n as char)
  {
    SplitTwo(b[0] as int - 0xC0, b[1] as int - 0x80);
  }

  lemma SoundThree(b: seq<Byte>, n: int)
    requires |b| == 3 && 0xE0 <= b[0] < 0xF0 && IsContinuation(b[1]) && IsContinuation(b[2])
    requires n == (b[0] as int - 0xE0) * 4096 + (b[1] as int - 0x80) * 64 + (b[2] as int - 0x80)
    requires 0x800 <= n && !(0xD800 <= n < 0xE000)
    ensures 0 <= n < 0x1_0000 && b == EncodeChar(n as char)
  {
    SplitThree(b[0] as int - 0xE0, b[1] as int - 0x80, b[2] as int - 0x80);
  }

  lemma SoundFour(b: seq<Byte>, n: int)
    requires |b| == 4 && 0xF0 <= b[0] < 0xF8 && IsContinuation(b[1]) && IsContinuation(b[2]) && IsContinuation(b[3])
    requires n == (b[0] as int - 0xF0) * 262144 + (b[1] as int - 0x80) * 4096 + (b[2] as int - 0x80) * 64 + (b[3] as int - 0x80)
    requires 0x1_0000 <= n < 0x11_0000
    ensures b == EncodeChar(n as char)
  {
    SplitFour(b[0] as int - 0xF0, b[1] as int - 0x80, b[2] as int - 0x80, b[3] as int - 0x80);
  }

  lemma SplitTwo(x: int, y: int)
    requires 0 <= y < 64
    ensures (x * 64 + y) / 64 == x && (x * 64 + y) % 64 == y
  {
  }

  lemma SplitThree(x: int, y: int, z: int)
    requires 0 <= y < 64 && 0 <= z < 64
    ensures (x * 4096 + y * 64 + z) / 4096 == x
    ensures (x * 4096 + y * 64 + z) / 64 % 64 == y
    ensures (x * 4096 + y * 64 + z) % 64 == z
  {
    SplitTwo(x * 64 + y, z);
    SplitTwo(x, y);
  }

  lemma SplitFour(w: int, x: int, y: int, z: int)
    requires 0 <= x < 64 && 0 <= y < 64 && 0 <= z < 64
    ensures (w * 262144 + x * 4096 + y * 64 + z) / 262144 == w
    ensures (w * 262144 + x * 4096 + y * 64 + z) / 4096 % 64 == x
    ensures (w * 262144 + x * 4096 + y * 64 + z) / 64 % 64 == y
    ensures (w * 262144 + x * 4096 + y * 64 + z) % 64 == z
  {
    SplitThree(w * 64 + x, y, z);
    SplitTwo(w, x);
  }

  /** `buf.toString()` on well-formed input; None when the bytes are not UTF-8. */
  function Decode(b: seq<Byte>): (r: Option<string>)
    ensures r.Some? ==> |r.value| <= |b|
    decreases |b|
  {
    if b == [] then Some([])
    else match DecodeFirst(b)
      case None => None
      case Some((c, k)) =>
        match Decode(b[k..])
        case None => None
        case Some(s) => Some([c] + s)
  }

  /** Whatever decodes is the encoding of the text it decodes to. */
  lemma {:induction false} DecodeSound(b: seq<Byte>)
    ensures Decode(b).Some? ==> Encode(Decode(b).value) == b
    decreases |b|
  {
    if b != [] && Decode(b).Some? {
      var (c, k) := DecodeFirst(b).value;
      var s := Decode(b[k..]).value;
      assert Decode(b).value == [c] + s;
      calc {
        Encode([c] + s);
        == { EncodeCons(c, s); }
        EncodeChar(c) + Encode(s);
        == { DecodeFirstSound(b); DecodeSound(b[k..]); }
        b[..k] + b[k..];
        == 
        b;
      }
    }
  }

  lemma EncodeCons(c: char, s: string)
    ensures Encode([c] + s) == EncodeChar(c) + Encode(s)
  {
    assert ([c] + s)[1..] == s;
  }

  predicate IsValid(b: seq<Byte>) {
    Decode(b).Some?
  }

  lemma {:induction false} EncodeAppend(s: string, t: string)
    ensures Encode(s + t) == Encode(s) + Encode(t)
    decreases |s|
  {
    if s == [] {
      assert s + t == t;
    } else {
      assert (s + t)[1..] == s[1..] + t;
      EncodeAppend(s[1..], t);
    }
  }

  lemma DecodeTwo(n: int, rest: seq<Byte>)
    requires 0x80 <= n < 0x800
    ensures var e := [0xC0 + n / 64, 0x80 + n % 64] + rest;
      |e| >= 2 && e[0] == 0xC0 + n / 64 && (e[0] - 0xC0) * 64 + (e[1] - 0x80) == n
  {
  }

  lemma DecodeThree(n: int)
    requires 0 <= n
    ensures (n / 4096) * 4096 + (n / 64 % 64) * 64 + n % 64 == n
  {
    assert n / 64 == (n / 4096) * 64 + n / 64 % 64;
  }

  lemma DecodeFour(n: int)
    requires 0 <= n
    ensures (n / 262144) * 262144 + (n / 4096 % 64) * 4096 + (n / 64 % 64) * 64 + n % 64 == n
  {
    assert n / 4096 == (n / 262144) * 64 + n / 4096 % 64;
    DecodeThree(n);
  }

  /** Decoding the first character of an encoding gives that character back. */
  lemma DecodeFirstOfEncoding(c: char, rest: seq<Byte>)
    ensures DecodeFirst(EncodeChar(c) + rest) == Some((c, |EncodeChar(c)|))
  {
    var n := c as int;
    if n < 0x80 {
    } else if n < 0x800 {
      DecodeTwo(n, rest);
    } else if n < 0x1_0000 {
      DecodeThree(n);
    } else {
      DecodeFour(n);
    }
  }

  /** The round trip `Buffer(s).toString() == s`. */
  lemma {:induction false} DecodeEncode(s: string)
    ensures Decode(Encode(s)) == Some(s)
    decreases |s|
  {
    if s != [] {
      var e := Encode(s);
      DecodeFirstOfEncoding(s[0], Encode(s[1..]));
      assert e[|EncodeChar(s[0])|..] == Encode(s[1..]);
      DecodeEncode(s[1..]);
      assert [s[0]] + s[1..] == s;
    }
  }

  /** The encoding of a string is well-formed. */
  lemma EncodingIsValid(s: string)
    ensures IsValid(Encode(s))
  {
    DecodeEncode(s);
  }

  /** Two valid byte strings that decode to the same text are the same bytes. */
  lemma DecodeInjective(b1: seq<Byte>, b2: seq<Byte>)
    requires IsValid(b1) && Decode(b1) == Decode(b2)
    ensures b1 == b2
  {
    DecodeSound(b1);
    DecodeSound(b2);
  }
}
