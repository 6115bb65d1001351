/** UTF-8: encoding, strict decoding, and decoding that replaces what is malformed, as in
    Rust's standard library. */
module Utf8 {
  import opened Sequences
  import opened Wrappers

  type Byte = b: nat | b < 256

  const REPLACEMENT: char := '\U{FFFD}'

  predicate Continues(b: Byte) { 0x80 <= b < 0xC0 }

  /** The second bytes that may follow a three-byte or four-byte lead: they leave out
      overlong forms, surrogates and values past U+10FFFF. */
  predicate Second(lead: Byte, b: Byte) {
    if lead == 0xE0 then 0xA0 <= b < 0xC0
    else if lead == 0xED then 0x80 <= b < 0xA0
    else if lead == 0xF0 then 0x90 <= b < 0xC0
    else if lead == 0xF4 then 0x80 <= b < 0x90
    else Continues(b)
  }

  function At(s: seq<Byte>, i: nat): Byte { if i < |s| then s[i] else 0 }

  /** One character, or the length of one malformed piece. */
  datatype Piece = Good(value: char, size: nat) | Bad(size: nat)

  function DecodeOne(s: seq<Byte>): (p: Piece)
    requires s != []
    ensures 0 < p.size <= |s|
  {
    var a, b, c, d := s[0], At(s, 1), At(s, 2), At(s, 3);
    if a < 0x80 then Good(a as char, 1)
    else if 0xC2 <= a < 0xE0 then
      if !Continues(b) then Bad(1) else Good(((a - 0xC0) * 64 + (b - 0x80)) as char, 2)
    else if 0xE0 <= a < 0xF0 then
      if !Second(a, b) then Bad(1)
      else if !Continues(c) then Bad(2)
      else Good(((a - 0xE0) * 4096 + (b - 0x80) * 64 + (c - 0x80)) as char, 3)
    else if 0xF0 <= a < 0xF5 then
      if !Second(a, b) then Bad(1)
      else if !Continues(c) then Bad(2)
      else if !Continues(d) then Bad(3)
      else Good(((a - 0xF0) * 262144 + (b - 0x80) * 4096 + (c - 0x80) * 64 + (d - 0x80)) as char, 4)
    else Bad(1)
  }

  /** String::from_utf8_lossy(). */
  function Lossy(s: seq<Byte>): string {
    if s == [] then ""
    else
      var p := DecodeOne(s);
      [if p.Good? then p.value else REPLACEMENT] + Lossy(s[p.size..])
  }

  /** str::from_utf8(). */
  function Strict(s: seq<Byte>): Option<string> {
    if s == [] then Some("")
    else
      var p := DecodeOne(s);
      if p.Bad? then None
      else
        var rest := Strict(s[p.size..]);
        if rest.None? then None else Some([p.value] + rest.value)
  }

  function EncodeChar(ch: char): seq<Byte> {
    var c := ch as int;
    var low, high := 0x80 + c % 64, c / 64;
    if c < 0x80 then [c]
    else if c < 0x800 then [0xC0 + high, low]
    else if c < 0x10000 then [0xE0 + high / 64, 0x80 + high % 64, low]
    else [0xF0 + high / 64 / 64, 0x80 + high / 64 % 64, 0x80 + high % 64, low]
  }

  function Encode(s: string): seq<Byte> {
    if s == "" then [] else EncodeChar(s[0]) + Encode(s[1..])
  }

  predicate IsAscii(s: string) { forall i :: 0 <= i < |s| ==> s[i] as int < 0x80 }

  // --------------------------------------------------------------- round trip

  lemma DecodeThree(ch: char, high: nat, low: nat, rest: seq<Byte>)
    requires 0x800 <= ch as int < 0x10000 && ch as int == high * 64 + low && low < 64
    ensures DecodeOne([0xE0 + high / 64, 0x80 + high % 64, 0x80 + low] + rest) == Good(ch, 3)
  {
    var s := [0xE0 + high / 64, 0x80 + high % 64, 0x80 + low] + rest;
    assert s[0] == 0xE0 + high / 64 && s[1] == 0x80 + high % 64 && s[2] == 0x80 + low;
    assert Second(s[0], s[1]) && Continues(s[2]);
  }

  lemma DecodeFour(ch: char, top: nat, mid: nat, low: nat, rest: seq<Byte>)
    requires 0x10000 <= ch as int && ch as int == top * 4096 + mid * 64 + low && mid < 64 && low < 64
    ensures top / 64 < 5
    ensures DecodeOne([0xF0 + top / 64, 0x80 + top % 64, 0x80 + mid, 0x80 + low] + rest) == Good(ch, 4)
  {
    var s := [0xF0 + top / 64, 0x80 + top % 64, 0x80 + mid, 0x80 + low] + rest;
    assert s[0] == 0xF0 + top / 64 && s[1] == 0x80 + top % 64 && s[2] == 0x80 + mid && s[3] == 0x80 + low;
    assert Second(s[0], s[1]) && Continues(s[2]) && Continues(s[3]);
  }

  lemma DecodeEncodedChar(ch: char, rest: seq<Byte>)
    ensures DecodeOne(EncodeChar(ch) + rest) == Good(ch, |EncodeChar(ch)|)
  {
    var c := ch as int;
    if c < 0x80 {
    } else if c < 0x800 {
      assert c == c / 64 * 64 + c % 64;
    } else if c < 0x10000 {
      DecodeThree(ch, c / 64, c % 64, rest);
    } else {
      DecodeFour(ch, c / 64 / 64, c / 64 % 64, c % 64, rest);
    }
  }

  lemma LossyStep(ch: char, rest: seq<Byte>)
    ensures Lossy(EncodeChar(ch) + rest) == [ch] + Lossy(rest)
    ensures Strict(EncodeChar(ch) + rest) == (if Strict(rest).None? then None else Some([ch] + Strict(rest).value))
  {
    DecodeEncodedChar(ch, rest);
    assert (EncodeChar(ch) + rest)[|EncodeChar(ch)|..] == rest;
  }

  /** Decoding what was encoded gives it back, whatever follows. */
  lemma {:induction false} LossyOfEncode(s: string, rest: seq<Byte>)
    ensures Lossy(Encode(s) + rest) == s + Lossy(rest)
    decreases |s|
  {
    if s == "" {
      assert Encode(s) + rest == rest;
    } else {
      LossyOfEncode(s[1..], rest);
      LossyStep(s[0], Encode(s[1..]) + rest);
      Reassociate(EncodeChar(s[0]), Encode(s[1..]), rest);
      Reassociate([s[0]], s[1..], Lossy(rest));
      assert [s[0]] + s[1..] == s;
    }
  }

  lemma {:induction false} StrictOfEncode(s: string)
    ensures Strict(Encode(s)) == Some(s)
    decreases |s|
  {
    if s != "" {
      StrictOfEncode(s[1..]);
      LossyStep(s[0], Encode(s[1..]));
      assert [s[0]] + s[1..] == s;
    }
  }

  lemma DecodedTwo(a: nat, b: nat)
    requires 2 <= a < 32 && b < 64
    ensures (a * 64 + b) / 64 == a && (a * 64 + b) % 64 == b
  {
  }

  lemma DecodedThree(a: nat, b: nat, c: nat)
    requires a < 16 && b < 64 && c < 64
    ensures var v := a * 4096 + b * 64 + c; v % 64 == c && v / 64 == a * 64 + b && v / 64 / 64 == a && v / 64 % 64 == b
  {
    var v := a * 4096 + b * 64 + c;
    assert v == (a * 64 + b) * 64 + c;
  }

  lemma DecodedFour(a: nat, b: nat, c: nat, d: nat)
    requires a < 5 && b < 64 && c < 64 && d < 64
    ensures var v := a * 262144 + b * 4096 + c * 64 + d;
            v % 64 == d && v / 64 % 64 == c && v / 64 / 64 % 64 == b && v / 64 / 64 / 64 == a
  {
    var v := a * 262144 + b * 4096 + c * 64 + d;
    var top := a * 4096 + b * 64 + c;
    assert v == top * 64 + d;
    DecodedThree(a, b, c);
  }

  /** A character is decoded only from its own encoding. */
  lemma DecodedIsEncoded(s: seq<Byte>)
    requires s != [] && DecodeOne(s).Good?
    ensures EncodeChar(DecodeOne(s).value) == s[..DecodeOne(s).size]
  {
    var a, b, c, d := s[0], At(s, 1), At(s, 2), At(s, 3);
    if a < 0x80 {
    } else if a < 0xE0 {
      DecodedTwo(a - 0xC0, b - 0x80);
    } else if a < 0xF0 {
      DecodedThree(a - 0xE0, b - 0x80, c - 0x80);
    } else {
      DecodedFour(a - 0xF0, b - 0x80, c - 0x80, d - 0x80);
    }
  }

  lemma PrefixBytes(s: seq<Byte>, n: nat, e: seq<Byte>)
    requires n <= |s|
    ensures s[..n] <= e <==> n <= |e| && forall i :: 0 <= i < n ==> s[i] == e[i]
  {
    if s[..n] <= e {
      assert forall i :: 0 <= i < n ==> s[i] == s[..n][i];
    }
  }

  lemma OtherPiece(s: seq<Byte>, e: seq<Byte>)
    requires s != [] && DecodeOne(s).Bad? && DecodeOne(s).size < |s| && e != [] && DecodeOne(e).Good?
    ensures !(s[..DecodeOne(s).size + 1] <= e)
  {
    PrefixBytes(s, DecodeOne(s).size + 1, e);
  }

  lemma BeginningOf(s: seq<Byte>) returns (ch: char)
    requires s != [] && DecodeOne(s).Bad? && DecodeOne(s).size > 1
    ensures s[..DecodeOne(s).size] <= EncodeChar(ch)
  {
    var a: int, b: int, c: int := s[0], s[1], At(s, 2);
    if a < 0xF0 {
      ch := ((a - 0xE0) * 4096 + (b - 0x80) * 64) as char;
      DecodedThree(a - 0xE0, b - 0x80, 0);
    } else if DecodeOne(s).size == 2 {
      ch := ((a - 0xF0) * 262144 + (b - 0x80) * 4096) as char;
      DecodedFour(a - 0xF0, b - 0x80, 0, 0);
    } else {
      ch := ((a - 0xF0) * 262144 + (b - 0x80) * 4096 + (c - 0x80) * 64) as char;
      DecodedFour(a - 0xF0, b - 0x80, c - 0x80, 0);
    }
  }

  /** A malformed piece is one byte or as much of a character as is there: it begins the encoding of
      one, and with the byte after it, it does not. */
  lemma MalformedIsMaximal(s: seq<Byte>)
    requires s != [] && DecodeOne(s).Bad?
    ensures DecodeOne(s).size > 1 ==> exists ch :: s[..DecodeOne(s).size] <= EncodeChar(ch)
    ensures DecodeOne(s).size < |s| ==> forall ch :: !(s[..DecodeOne(s).size + 1] <= EncodeChar(ch))
  {
    if DecodeOne(s).size > 1 {
      var ch := BeginningOf(s);
    }
    if DecodeOne(s).size < |s| {
      forall ch ensures !(s[..DecodeOne(s).size + 1] <= EncodeChar(ch)) {
        DecodeEncodedChar(ch, []);
        assert EncodeChar(ch) + [] == EncodeChar(ch);
        OtherPiece(s, EncodeChar(ch));
      }
    }
  }

  /** Strict decoding accepts exactly what encodes some text, and gives that text. */
  lemma {:induction false} StrictIff(s: seq<Byte>, text: string)
    ensures Strict(s) == Some(text) <==> s == Encode(text)
    decreases |s|
  {
    StrictOfEncode(text);
    if s != [] && Strict(s) == Some(text) {
      var p := DecodeOne(s);
      DecodedIsEncoded(s);
      StrictIff(s[p.size..], text[1..]);
      assert s == s[..p.size] + s[p.size..];
    }
  }

  lemma {:induction false} EncodeAppend(a: string, b: string)
    ensures Encode(a + b) == Encode(a) + Encode(b)
    decreases |a|
  {
    if a == "" {
      assert a + b == b;
    } else {
      assert (a + b)[1..] == a[1..] + b;
      EncodeAppend(a[1..], b);
    }
  }

  /** A decoded character is ASCII exactly when it is the one byte read. */
  lemma DecodeAscii(s: seq<Byte>, ch: char)
    requires s != [] && ch as int < 0x80
    ensures DecodeOne(s) == Good(ch, 1) <==> s[0] == ch as int
    ensures DecodeOne(s).Good? && DecodeOne(s).value == ch ==> DecodeOne(s).size == 1
  {
  }

  lemma LossyPrefixStep(ch: char, prefix: string, s: seq<Byte>)
    requires s != [] && ch as int < 0x80
    ensures [ch] + prefix <= Lossy(s) <==> s[0] == ch as int && prefix <= Lossy(s[1..])
    ensures s[0] == ch as int ==> Lossy(s) == [ch] + Lossy(s[1..])
  {
    DecodeAscii(s, ch);
    if s[0] == ch as int {
      assert Lossy(s)[1..] == Lossy(s[1..]);
      assert [ch] + prefix <= Lossy(s) ==> ([ch] + prefix)[1..] <= Lossy(s)[1..];
    } else {
      assert Lossy(s)[0] != ch;
    }
  }

  /** A decoded text starts with an ASCII text exactly when its bytes do, and the remainders
      correspond. */
  lemma {:induction false} LossyPrefix(prefix: string, s: seq<Byte>)
    requires IsAscii(prefix)
    ensures prefix <= Lossy(s) <==> Encode(prefix) <= s
    ensures |Encode(prefix)| == |prefix|
    ensures Encode(prefix) <= s ==> |prefix| <= |Lossy(s)| && Lossy(s)[|prefix|..] == Lossy(s[|prefix|..])
    decreases |prefix|
  {
    if prefix != "" {
      var ch, more := prefix[0], prefix[1..];
      assert prefix == [ch] + more;
      var code: Byte := ch as int;
      assert EncodeChar(ch) == [code];
      if s == [] {
        LossyPrefix(more, s);
      } else {
        LossyPrefix(more, s[1..]);
        LossyPrefixStep(ch, more, s);
        PrefixStep(code, Encode(more), s);
        if Encode(prefix) <= s {
          assert s[1..][|more|..] == s[|prefix|..];
        }
      }
    }
  }

  lemma PrefixStep(b: Byte, more: seq<Byte>, s: seq<Byte>)
    requires s != []
    ensures [b] + more <= s <==> s[0] == b && more <= s[1..]
    ensures |more| < |s| ==> s[1..][|more|..] == s[|more| + 1..]
  {
    assert [b] + more <= s ==> ([b] + more)[1..] <= s[1..];
  }

  /** An ASCII character that does not occur leaves no such byte. */
  lemma {:induction false} AbsentByte(s: string, ch: char)
    requires ch as int < 0x80 && ch !in s
    ensures forall i :: 0 <= i < |Encode(s)| ==> Encode(s)[i] != ch as int
    decreases |s|
  {
    if s != "" {
      AbsentByte(s[1..], ch);
      assert s[0] in s;
    }
  }
}
