/** UTF-8, the byte form of a Go string: `[]byte(s)` yields these bytes.
    A Dafny `char` is a Unicode scalar value (0 to 0x10FFFF, surrogates excluded). */
module Utf8 {
  import opened Wrappers

  newtype byte = x: int | 0 <= x < 256

  predicate IsContinuation(b: byte) {
    0x80 <= b < 0xC0
  }

  /** The bytes of one character: 1 to 4 bytes, the count fixed by the code point. */
  function EncodeChar(c: char): (bs: seq<byte>)
    ensures |bs| == EncodedLength(c)
    ensures c as int < 0x80 ==> bs == [c as int as byte]
    ensures forall i :: 1 <= i < |bs| ==> IsContinuation(bs[i])
  {
    var n := c as int;
    if n < 0x80 then
      [n as byte]
    else if n < 0x800 then
      [(0xC0 + n / 0x40) as byte, (0x80 + n % 0x40) as byte]
    else if n < 0x1_0000 then
      [(0xE0 + n / 0x1000) as byte, (0x80 + (n / 0x40) % 0x40) as byte, (0x80 + n % 0x40) as byte]
    else
      [(0xF0 + n / 0x4_0000) as byte, (0x80 + (n / 0x1000) % 0x40) as byte,
       (0x80 + (n / 0x40) % 0x40) as byte, (0x80 + n % 0x40) as byte]
  }

  function EncodedLength(c: char): nat {
    var n := c as int;
    if n < 0x80 then 1 else if n < 0x800 then 2 else if n < 0x1_0000 then 3 else 4
  }

  function Encode(s: string): (bs: seq<byte>)
    ensures |s| <= |bs| <= 4 * |s|
  {
    if s == [] then [] else EncodeChar(s[0]) + Encode(s[1..])
  }

  /** The number of bytes a sequence announces by its lead byte, or 0 if it is not a lead byte. */
  function LeadLength(b: byte): nat {
    if b < 0x80 then 1
    else if 0xC0 <= b < 0xE0 then 2
    else if 0xE0 <= b < 0xF0 then 3
    else if 0xF0 <= b < 0xF8 then 4
    else 0
  }

  predicate IsScalar(n: int) {
    0 <= n < 0xD800 || 0xE000 <= n < 0x11_0000
  }

  /** The smallest code point that needs k bytes: a smaller one spelled with k bytes is overlong. */
  function MinCodePoint(k: nat): int {
    if k == 2 then 0x80 else if k == 3 then 0x800 else if k == 4 then 0x1_0000 else 0
  }

  /** The code point the first `LeadLength(bs[0])` bytes spell, if they are well formed:
      continuation bytes where expected, not overlong, and a scalar value. */
  function DecodeFirst(bs: seq<byte>): (r: Option<char>)
    requires |bs| > 0
  {
    var k := LeadLength(bs[0]);
    if k == 0 || |bs| < k || exists i :: 1 <= i < k && !IsContinuation(bs[i]) then None
    else
      var n :=
        if k == 1 then bs[0] as int
        else if k == 2 then (bs[0] as int - 0xC0) * 0x40 + (bs[1] as int - 0x80)
        else if k == 3 then
          (bs[0] as int - 0xE0) * 0x1000 + (bs[1] as int - 0x80) * 0x40 + (bs[2] as int - 0x80)
        else
          (bs[0] as int - 0xF0) * 0x4_0000 + (bs[1] as int - 0x80) * 0x1000
          + (bs[2] as int - 0x80) * 0x40 + (bs[3] as int - 0x80);
      if n < MinCodePoint(k) || !IsScalar(n) then None else Some(n as char)
  }

  function Decode(bs: seq<byte>): Option<string>
    decreases |bs|
  {
    if bs == [] then Some("")
    else match DecodeFirst(bs)
      case None => None
      case Some(c) =>
        match Decode(bs[LeadLength(bs[0])..])
        case None => None
        case Some(rest) => Some([c] + rest)
  }

  /** A two-byte sequence spelling n decodes to n. */
  lemma DecodeTwo(bs: seq<byte>, n: int)
    requires 0x80 <= n < 0x800 && |bs| >= 2
    requires bs[0] as int == 0xC0 + n / 0x40 && bs[1] as int == 0x80 + n % 0x40
    ensures LeadLength(bs[0]) == 2 && DecodeFirst(bs) == Some(n as char)
  {
    assert (bs[0] as int - 0xC0) * 0x40 + (bs[1] as int - 0x80) == n;
  }

  /** A three-byte sequence spelling n decodes to n. */
  lemma DecodeThree(bs: seq<byte>, n: int)
    requires 0x800 <= n < 0x1_0000 && IsScalar(n) && |bs| >= 3
    requires bs[0] as int == 0xE0 + n / 0x1000 && bs[1] as int == 0x80 + (n / 0x40) % 0x40
    requires bs[2] as int == 0x80 + n % 0x40
    ensures LeadLength(bs[0]) == 3 && DecodeFirst(bs) == Some(n as char)
  {
    assert n / 0x40 == (n / 0x1000) * 0x40 + (n / 0x40) % 0x40;
    assert (bs[0] as int - 0xE0) * 0x1000 + (bs[1] as int - 0x80) * 0x40 + (bs[2] as int - 0x80) == n;
  }

  /** A four-byte sequence spelling n decodes to n. */
  lemma DecodeFour(bs: seq<byte>, n: int)
    requires 0x1_0000 <= n < 0x11_0000 && |bs| >= 4
    requires bs[0] as int == 0xF0 + n / 0x4_0000 && bs[1] as int == 0x80 + (n / 0x1000) % 0x40
    requires bs[2] as int == 0x80 + (n / 0x40) % 0x40 && bs[3] as int == 0x80 + n % 0x40
    ensures LeadLength(bs[0]) == 4 && DecodeFirst(bs) == Some(n as char)
  {
    assert n / 0x1000 == (n / 0x4_0000) * 0x40 + (n / 0x1000) % 0x40;
    assert n / 0x40 == (n / 0x1000) * 0x40 + (n / 0x40) % 0x40;
    assert (bs[0] as int - 0xF0) * 0x4_0000 + (bs[1] as int - 0x80) * 0x1000
      + (bs[2] as int - 0x80) * 0x40 + (bs[3] as int - 0x80) == n;
  }

  lemma DecodeEncodedChar(c: char, rest: seq<byte>)
    ensures var bs := EncodeChar(c) + rest;
      LeadLength(bs[0]) == |EncodeChar(c)| && DecodeFirst(bs) == Some(c)
  {
    var n := c as int;
    var enc := EncodeChar(c);
    var bs := enc + rest;
    assert forall i :: 0 <= i < |enc| ==> bs[i] == enc[i];
    if n < 0x80 {
      assert bs[0] as int == n;
    } else if n < 0x800 {
      DecodeTwo(bs, n);
    } else if n < 0x1_0000 {
      DecodeThree(bs, n);
    } else {
      DecodeFour(bs, n);
    }
  }

  /** Decoding undoes encoding: the bytes determine the string. */
  lemma {:induction false} DecodeEncode(s: string)
    ensures Decode(Encode(s)) == Some(s)
  {
    if s != [] {
      var head := EncodeChar(s[0]);
      var bs := Encode(s);
      assert bs == head + Encode(s[1..]);
      DecodeEncodedChar(s[0], Encode(s[1..]));
      assert bs[|head|..] == Encode(s[1..]);
      DecodeEncode(s[1..]);
      assert [s[0]] + s[1..] == s;
    }
  }

  /** Six payload bits appended to q split back into q and those bits. */
  lemma DivMod(q: int, r: int)
    requires 0 <= r < 0x40
    ensures (q * 0x40 + r) / 0x40 == q && (q * 0x40 + r) % 0x40 == r
  {
  }

  /** The payload bits of a two-byte sequence, re-encoded, give back its bytes. */
  lemma EncodeTwo(a: int, b: int)
    requires 0 <= a < 0x20 && 0 <= b < 0x40 && 0x80 <= a * 0x40 + b
    ensures EncodeChar((a * 0x40 + b) as char) == [(0xC0 + a) as byte, (0x80 + b) as byte]
  {
    DivMod(a, b);
  }

  /** The payload bits of a three-byte sequence, re-encoded, give back its bytes. */
  lemma EncodeThree(a: int, b: int, d: int)
    requires 0 <= a < 0x10 && 0 <= b < 0x40 && 0 <= d < 0x40
    requires 0x800 <= (a * 0x40 + b) * 0x40 + d && IsScalar((a * 0x40 + b) * 0x40 + d)
    ensures EncodeChar(((a * 0x40 + b) * 0x40 + d) as char)
         == [(0xE0 + a) as byte, (0x80 + b) as byte, (0x80 + d) as byte]
  {
    var n := (a * 0x40 + b) * 0x40 + d;
    DivMod(a * 0x40 + b, d);
    DivMod(a, b);
    assert n / 0x1000 == (n / 0x40) / 0x40;
  }

  /** The payload bits of a four-byte sequence, re-encoded, give back its bytes. */
  lemma EncodeFour(a: int, b: int, d: int, e: int)
    requires 0 <= a < 0x08 && 0 <= b < 0x40 && 0 <= d < 0x40 && 0 <= e < 0x40
    requires 0x1_0000 <= ((a * 0x40 + b) * 0x40 + d) * 0x40 + e < 0x11_0000
    ensures EncodeChar((((a * 0x40 + b) * 0x40 + d) * 0x40 + e) as char)
         == [(0xF0 + a) as byte, (0x80 + b) as byte, (0x80 + d) as byte, (0x80 + e) as byte]
  {
    var n := ((a * 0x40 + b) * 0x40 + d) * 0x40 + e;
    DivMod((a * 0x40 + b) * 0x40 + d, e);
    DivMod(a * 0x40 + b, d);
    DivMod(a, b);
    assert n / 0x1000 == (n / 0x40) / 0x40;
    assert n / 0x4_0000 == (n / 0x1000) / 0x40;
  }

  /** A well-formed first sequence is exactly the encoding of the character it decodes to. */
  lemma DecodedFirstIsEncoding(bs: seq<byte>)
    requires |bs| > 0 && DecodeFirst(bs).Some?
    ensures LeadLength(bs[0]) == |EncodeChar(DecodeFirst(bs).value)|
    ensures bs[..LeadLength(bs[0])] == EncodeChar(DecodeFirst(bs).value)
  {
    var k := LeadLength(bs[0]);
    var n := DecodeFirst(bs).value as int;
    if k == 2 {
      assert IsContinuation(bs[1]);
      var a, b := bs[0] as int - 0xC0, bs[1] as int - 0x80;
      assert n == a * 0x40 + b;
      EncodeTwo(a, b);
      assert bs[..k] == [bs[0], bs[1]];
    } else if k == 3 {
      assert IsContinuation(bs[1]) && IsContinuation(bs[2]);
      var a, b, d := bs[0] as int - 0xE0, bs[1] as int - 0x80, bs[2] as int - 0x80;
      assert n == (a * 0x40 + b) * 0x40 + d;
      EncodeThree(a, b, d);
      assert bs[..k] == [bs[0], bs[1], bs[2]];
    } else if k == 4 {
      assert IsContinuation(bs[1]) && IsContinuation(bs[2]) && IsContinuation(bs[3]);
      var a, b, d, e := bs[0] as int - 0xF0, bs[1] as int - 0x80, bs[2] as int - 0x80, bs[3] as int - 0x80;
      assert n == ((a * 0x40 + b) * 0x40 + d) * 0x40 + e;
      EncodeFour(a, b, d, e);
      assert bs[..k] == [bs[0], bs[1], bs[2], bs[3]];
    }
  }

  /** Encoding undoes decoding: only the encoding of a string decodes to it, so there is
      one byte form per string (no overlong or surrogate forms are accepted). */
  lemma {:induction false} EncodeDecode(bs: seq<byte>, s: string)
    requires Decode(bs) == Some(s)
    ensures bs == Encode(s)
    decreases |bs|
  {
    if bs != [] {
      var k := LeadLength(bs[0]);
      DecodeStep(bs);
      var c, rest := DecodeFirst(bs).value, Decode(bs[k..]).value;
      DecodedFirstIsEncoding(bs);
      EncodeDecode(bs[k..], rest);
      EncodeCons(c, rest);
      assert s == [c] + rest;
      calc {
        Encode(s);
        EncodeChar(c) + Encode(rest);
        bs[..k] + bs[k..];
        { SplitAt(bs, k); }
        bs;
      }
    }
  }

  /** A byte string is its prefix followed by its suffix. */
  lemma SplitAt(bs: seq<byte>, k: nat)
    requires k <= |bs|
    ensures bs[..k] + bs[k..] == bs
  {
  }

  /** One step of Decode: the first character, then the decoding of the rest. */
  lemma DecodeStep(bs: seq<byte>)
    requires bs != [] && Decode(bs).Some?
    ensures DecodeFirst(bs).Some? && Decode(bs[LeadLength(bs[0])..]).Some?
    ensures Decode(bs).value == [DecodeFirst(bs).value] + Decode(bs[LeadLength(bs[0])..]).value
  {
  }

  /** Encoding a string that starts with c: the bytes of c, then the rest. */
  lemma EncodeCons(c: char, rest: string)
    ensures Encode([c] + rest) == EncodeChar(c) + Encode(rest)
  {
    assert ([c] + rest)[1..] == rest;
  }

  /** The two-byte overlong spelling of "A" is refused. */
  lemma OverlongRejected()
    ensures Decode([0xC1, 0x81]) == None
  {
    assert DecodeFirst([0xC1, 0x81]) == None;
  }

  /** An ASCII string is its own byte string. */
  lemma {:induction false} EncodeAscii(s: string)
    requires forall i :: 0 <= i < |s| ==> s[i] as int < 0x80
    ensures |Encode(s)| == |s|
    ensures forall i :: 0 <= i < |s| ==> Encode(s)[i] as int == s[i] as int
  {
    if s != [] {
      EncodeAscii(s[1..]);
    }
  }
}
