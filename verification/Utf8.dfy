/** UTF-8, by its syntax (section 4 of RFC 3629) and by its encoding of characters (section 3). */
module Utf8 {
  type Byte = b: nat | b < 0x100

  predicate IsTail(b: Byte) {
    0x80 <= b < 0xC0
  }

  /** The length of the character `s` starts with, by the syntax of section 4 of RFC 3629, or 0. */
  function CharLength(s: seq<Byte>): (n: nat)
    ensures n <= 4 && n <= |s|
    ensures forall i | 0 < i < n :: IsTail(s[i])
    ensures n > 0 ==> !IsTail(s[0])
  {
    if s == [] then 0
    else if s[0] < 0x80 then 1
    else if |s| >= 2 && 0xC2 <= s[0] <= 0xDF && IsTail(s[1]) then 2
    else if |s| >= 3 && IsTail(s[1]) && IsTail(s[2])
            && (if s[0] == 0xE0 then s[1] >= 0xA0
                else if s[0] == 0xED then s[1] <= 0x9F
                else 0xE1 <= s[0] <= 0xEF) then 3
    else if |s| >= 4 && IsTail(s[1]) && IsTail(s[2]) && IsTail(s[3])
            && (if s[0] == 0xF0 then s[1] >= 0x90
                else if s[0] == 0xF4 then s[1] <= 0x8F
                else 0xF1 <= s[0] <= 0xF3) then 4
    else 0
  }

  predicate ValidUtf8(s: seq<Byte>) {
    s == [] || (CharLength(s) > 0 && ValidUtf8(s[CharLength(s)..]))
  }

  // ----- Encoding

  /** The length of a character in UTF-8. */
  function Width(c: char): nat {
    if c as int < 0x80 then 1 else if c as int < 0x800 then 2 else if c as int < 0x1_0000 then 3 else 4
  }

  function Encode(c: char): (r: seq<Byte>) {
    var n := c as int;
    if n < 0x80 then [n]
    else if n < 0x800 then [0xC0 + n / 64, 0x80 + n % 64]
    else if n < 0x1_0000 then [0xE0 + n / 4096, 0x80 + n / 64 % 64, 0x80 + n % 64]
    else [0xF0 + n / 0x4_0000, 0x80 + n / 4096 % 64, 0x80 + n / 64 % 64, 0x80 + n % 64]
  }

  function EncodeAll(text: string): seq<Byte> {
    if text == [] then [] else Encode(text[0]) + EncodeAll(text[1..])
  }

  /** The number that a character's bytes spell. */
  function Number(s: seq<Byte>): int
    requires CharLength(s) > 0
  {
    match CharLength(s)
    case 1 => s[0]
    case 2 => Digit(s[0], 0xC0) * 64 + Digit(s[1], 0x80)
    case 3 => Digit(s[0], 0xE0) * 4096 + Digit(s[1], 0x80) * 64 + Digit(s[2], 0x80)
    case _ =>
      Digit(s[0], 0xF0) * 0x4_0000 + Digit(s[1], 0x80) * 4096 + Digit(s[2], 0x80) * 64 + Digit(s[3], 0x80)
  }

  /** What a byte adds to the mark that tells its place. */
  function Digit(b: Byte, mark: int): int {
    b - mark
  }

  /** An encoded character is one character of its width, and spells its number. */
  lemma {:induction false} EncodedIsOneCharacter(c: char, rest: seq<Byte>)
    ensures |Encode(c)| == Width(c) == CharLength(Encode(c) + rest)
    ensures Number(Encode(c) + rest) == c as int
  {
    var n, s := c as int, Encode(c) + rest;
    assert forall i | 0 <= i < |Encode(c)| :: s[i] == Encode(c)[i];
    if 0x800 <= n < 0x1_0000 {
      ThreeDigits(n);
    } else if 0x1_0000 <= n {
      FourDigits(n);
    }
  }

  lemma {:induction false} ThreeDigits(n: int)
    requires 0x800 <= n < 0x1_0000
    ensures n == n / 4096 * 4096 + n / 64 % 64 * 64 + n % 64
    ensures n / 4096 == 0 ==> n / 64 % 64 >= 0x20
    ensures n / 4096 == 0xD && n < 0xD800 ==> n / 64 % 64 <= 0x1F
    ensures n / 4096 == 0xD ==> n < 0xE000
  {
  }

  lemma {:induction false} FourDigits(n: int)
    requires 0x1_0000 <= n < 0x11_0000
    ensures n == n / 0x4_0000 * 0x4_0000 + n / 4096 % 64 * 4096 + n / 64 % 64 * 64 + n % 64
    ensures n / 0x4_0000 == 0 ==> n / 4096 % 64 >= 0x10
    ensures n / 0x4_0000 == 4 ==> n / 4096 % 64 <= 0xF
    ensures n / 0x4_0000 <= 4
  {
    var m := n / 4096;
    assert n / 0x4_0000 == m / 64 && 0x10 <= m < 0x110;
    assert m == m / 64 * 64 + m % 64;
    assert n == n / 64 * 64 + n % 64 && n / 64 == m * 64 + n / 64 % 64;
  }

  /** Conversely, every character found by the syntax encodes some character. */
  lemma {:induction false} CharacterIsEncoded(s: seq<Byte>) returns (c: char)
    requires CharLength(s) > 0
    ensures Encode(c) == s[..CharLength(s)]
  {
    match CharLength(s) {
      case 1 =>
        c := s[0] as char;
      case 2 =>
        c := Spelled2(Digit(s[0], 0xC0), Digit(s[1], 0x80));
      case 3 =>
        c := Spelled3(Digit(s[0], 0xE0), Digit(s[1], 0x80), Digit(s[2], 0x80));
      case _ =>
        c := Spelled4(Digit(s[0], 0xF0), Digit(s[1], 0x80), Digit(s[2], 0x80), Digit(s[3], 0x80));
    }
  }

  lemma {:induction false} Spelled2(a: nat, b: nat) returns (c: char)
    requires 2 <= a < 32 && b < 64
    ensures Encode(c) == [0xC0 + a, 0x80 + b]
  {
    Digits2(a, b);
    c := (a * 64 + b) as char;
  }

  lemma {:induction false} Spelled3(a: nat, b: nat, d: nat) returns (c: char)
    requires a < 16 && b < 64 && d < 64 && (a == 0 ==> b >= 0x20) && (a == 0xD ==> b < 0x20)
    ensures Encode(c) == [0xE0 + a, 0x80 + b, 0x80 + d]
  {
    Digits3(a, b, d);
    var n := a * 4096 + b * 64 + d;
    assert 0x800 <= n < 0xD800 || 0xE000 <= n < 0x1_0000;
    c := n as char;
  }

  lemma {:induction false} Spelled4(a: nat, b: nat, d: nat, e: nat) returns (c: char)
    requires a < 5 && b < 64 && d < 64 && e < 64 && (a == 0 ==> b >= 0x10) && (a == 4 ==> b < 0x10)
    ensures Encode(c) == [0xF0 + a, 0x80 + b, 0x80 + d, 0x80 + e]
  {
    Digits4(a, b, d, e);
    var n := a * 0x4_0000 + b * 4096 + d * 64 + e;
    assert 0x1_0000 <= n < 0x11_0000;
    c := n as char;
  }

  lemma {:induction false} Digits2(a: nat, b: nat)
    requires b < 64
    ensures (a * 64 + b) / 64 == a && (a * 64 + b) % 64 == b
  {
  }

  lemma {:induction false} Digits3(a: nat, b: nat, c: nat)
    requires b < 64 && c < 64
    ensures var n := a * 4096 + b * 64 + c; n / 4096 == a && n / 64 % 64 == b && n % 64 == c
  {
    Digits2(a * 64 + b, c);
    Digits2(a, b);
  }

  lemma {:induction false} Digits4(a: nat, b: nat, c: nat, d: nat)
    requires b < 64 && c < 64 && d < 64
    ensures var n := a * 0x4_0000 + b * 4096 + c * 64 + d;
            n / 0x4_0000 == a && n / 4096 % 64 == b && n / 64 % 64 == c && n % 64 == d
  {
    Digits2(a * 4096 + b * 64 + c, d);
    Digits3(a, b, c);
  }

  /** Main result: bytes are valid by the syntax exactly if they encode some text. */
  lemma {:induction false} ValidIffEncoded(s: seq<Byte>)
    ensures ValidUtf8(s) <==> exists text :: EncodeAll(text) == s
  {
    if ValidUtf8(s) {
      var text := TextOf(s);
      assert EncodeAll(text) == s;
    }
    if text :| EncodeAll(text) == s {
      EncodedIsValid(text);
    }
  }

  lemma {:induction false} TextOf(s: seq<Byte>) returns (text: string)
    requires ValidUtf8(s)
    ensures EncodeAll(text) == s
    decreases |s|
  {
    if s == [] {
      text := "";
    } else {
      var k := CharLength(s);
      var c := CharacterIsEncoded(s);
      var rest := TextOf(s[k..]);
      text := [c] + rest;
      EncodeCons(c, rest);
      CutAt(s, k);
    }
  }

  lemma CutAt(s: seq<Byte>, k: nat)
    requires k <= |s|
    ensures s[..k] + s[k..] == s
  {
  }

  lemma {:induction false} EncodeCons(c: char, rest: string)
    ensures EncodeAll([c] + rest) == Encode(c) + EncodeAll(rest)
  {
    assert ([c] + rest)[1..] == rest;
  }

  lemma {:induction false} EncodedIsValid(text: string)
    ensures ValidUtf8(EncodeAll(text))
  {
    if text != [] {
      var rest := EncodeAll(text[1..]);
      EncodedIsOneCharacter(text[0], rest);
      assert (Encode(text[0]) + rest)[Width(text[0])..] == rest;
      EncodedIsValid(text[1..]);
    }
  }
}
