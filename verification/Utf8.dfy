/** UTF-8 as Go's unicode/utf8 decodes it: one rune at a time, a bad byte being a unit of its own. */
module Utf8 {
  import opened GoStrings

  function Byte(n: nat): char
    requires n < 256
  {
    n as char
  }

  /** The unit at the head of a string: a rune, or a byte that starts none. */
  datatype Unit = Rune(code: nat, size: nat) | BadByte {
    function Size(): nat {
      if Rune? then size else 1
    }
  }

  predicate IsRune(r: nat) {
    r < 0xD800 || 0xE000 <= r < 0x110000
  }

  /** Is there a byte at position i, and is it within the given bounds? */
  predicate In(s: string, i: nat, lo: nat, hi: nat) {
    i < |s| && lo <= s[i] as int <= hi
  }

  function Head(s: GoString): (u: Unit)
    requires s != ""
    ensures 1 <= u.Size() <= |s|
  {
    var b := s[0] as int;
    if b < 0x80 then Rune(b, 1)
    else if 0xC2 <= b <= 0xDF && In(s, 1, 0x80, 0xBF) then
      Rune((b - 0xC0) * 0x40 + (s[1] as int - 0x80), 2)
    else if 0xE0 <= b <= 0xEF
            && In(s, 1, if b == 0xE0 then 0xA0 else 0x80, if b == 0xED then 0x9F else 0xBF)
            && In(s, 2, 0x80, 0xBF) then
      Rune((b - 0xE0) * 0x1000 + (s[1] as int - 0x80) * 0x40 + (s[2] as int - 0x80), 3)
    else if 0xF0 <= b <= 0xF4
            && In(s, 1, if b == 0xF0 then 0x90 else 0x80, if b == 0xF4 then 0x8F else 0xBF)
            && In(s, 2, 0x80, 0xBF) && In(s, 3, 0x80, 0xBF) then
      Rune((b - 0xF0) * 0x4_0000 + (s[1] as int - 0x80) * 0x1000 + (s[2] as int - 0x80) * 0x40
           + (s[3] as int - 0x80), 4)
    else BadByte
  }

  function Encode(r: nat): string
    requires IsRune(r)
  {
    if r < 0x80 then [Byte(r)]
    else if r < 0x800 then [Byte(0xC0 + r / 0x40), Byte(0x80 + r % 0x40)]
    else if r < 0x1_0000 then
      [Byte(0xE0 + r / 0x1000), Byte(0x80 + r / 0x40 % 0x40), Byte(0x80 + r % 0x40)]
    else
      [Byte(0xF0 + r / 0x4_0000), Byte(0x80 + r / 0x1000 % 0x40), Byte(0x80 + r / 0x40 % 0x40), Byte(0x80 + r % 0x40)]
  }

  lemma TwoDigits(a: nat, b: nat)
    requires b < 0x40
    ensures (a * 0x40 + b) / 0x40 == a && (a * 0x40 + b) % 0x40 == b
  {
  }

  lemma ThreeDigits(a: nat, b: nat, c: nat)
    requires b < 0x40 && c < 0x40
    ensures var r := a * 0x1000 + b * 0x40 + c;
            r / 0x1000 == a && r / 0x40 % 0x40 == b && r % 0x40 == c && r / 0x40 == a * 0x40 + b
  {
    TwoDigits(a * 0x40 + b, c);
    TwoDigits(a, b);
  }

  lemma FourDigits(a: nat, b: nat, c: nat, d: nat)
    requires b < 0x40 && c < 0x40 && d < 0x40
    ensures var r := a * 0x4_0000 + b * 0x1000 + c * 0x40 + d;
            r / 0x4_0000 == a && r / 0x1000 % 0x40 == b && r / 0x40 % 0x40 == c && r % 0x40 == d
  {
    TwoDigits(a * 0x1000 + b * 0x40 + c, d);
    ThreeDigits(a, b, c);
    var r := a * 0x4_0000 + b * 0x1000 + c * 0x40 + d;
    assert r / 0x1000 == a * 0x40 + b;
    TwoDigits(a, b);
  }

  predicate Decodes(s: GoString)
    requires s != "" && Head(s).Rune?
  {
    var r := Head(s).code;
    IsRune(r) && Encode(r) == s[..Head(s).size] && (r < 0x80 <==> Head(s).size == 1)
  }

  lemma EncodeTwo(s: GoString)
    requires s != "" && Head(s).Rune? && Head(s).size == 2
    ensures Decodes(s)
  {
    TwoDigits(s[0] as int - 0xC0, s[1] as int - 0x80);
  }

  lemma EncodeThree(s: GoString)
    requires s != "" && Head(s).Rune? && Head(s).size == 3
    ensures Decodes(s)
  {
    ThreeDigits(s[0] as int - 0xE0, s[1] as int - 0x80, s[2] as int - 0x80);
  }

  lemma EncodeFour(s: GoString)
    requires s != "" && Head(s).Rune? && Head(s).size == 4
    ensures Decodes(s)
  {
    FourDigits(s[0] as int - 0xF0, s[1] as int - 0x80, s[2] as int - 0x80, s[3] as int - 0x80);
  }

  /** Decoding a rune loses nothing. */
  lemma EncodeHead(s: GoString)
    requires s != "" && Head(s).Rune?
    ensures IsRune(Head(s).code) && Encode(Head(s).code) == s[..Head(s).size]
    ensures Head(s).code < 0x80 <==> Head(s).size == 1
    ensures Head(s).size == 1 ==> Head(s).code == s[0] as int
    ensures Head(s).size > 1 ==> forall i :: 0 <= i < Head(s).size ==> s[i] as int >= 0x80
  {
    if Head(s).size == 2 {
      EncodeTwo(s);
    } else if Head(s).size == 3 {
      EncodeThree(s);
    } else if Head(s).size == 4 {
      EncodeFour(s);
    }
  }

  function Rest(s: GoString): (r: GoString)
    requires s != ""
    ensures |r| < |s|
  {
    s[Head(s).Size()..]
  }

  /** Every unit is a rune. */
  predicate ValidUtf8(s: GoString)
    decreases |s|
  {
    s == "" || (Head(s).Rune? && ValidUtf8(Rest(s)))
  }

  lemma SplitTwo(r: nat)
    requires 0x80 <= r < 0x800
    ensures 0xC2 <= 0xC0 + r / 0x40 <= 0xDF && r / 0x40 * 0x40 + r % 0x40 == r
  {
  }

  lemma SplitThree(r: nat)
    requires 0x800 <= r < 0x1_0000
    ensures var a, b, c := r / 0x1000, r / 0x40 % 0x40, r % 0x40;
            && a <= 0xF && a * 0x1000 + b * 0x40 + c == r && (a == 0 ==> b >= 0x20)
            && (a == 0xD && b >= 0x20 ==> 0xD800 <= r < 0xE000)
  {
    var q := r / 0x40;
    assert q / 0x40 == r / 0x1000;
    assert q == q / 0x40 * 0x40 + q % 0x40;
  }

  lemma SplitFour(r: nat)
    requires 0x1_0000 <= r < 0x11_0000
    ensures var a, b, c, d := r / 0x4_0000, r / 0x1000 % 0x40, r / 0x40 % 0x40, r % 0x40;
            && a <= 4 && a * 0x4_0000 + b * 0x1000 + c * 0x40 + d == r
            && (a == 0 ==> b >= 0x10) && (a == 4 ==> b < 0x10)
  {
    var p, q := r / 0x40, r / 0x1000;
    assert p / 0x40 == q && q / 0x40 == r / 0x4_0000;
    assert p == q * 0x40 + p % 0x40;
    assert q == q / 0x40 * 0x40 + q % 0x40;
  }

  /** Encoding a rune and then decoding loses nothing, whatever follows it. */
  lemma HeadEncode(r: nat, more: GoString)
    requires IsRune(r)
    ensures IsBytes(Encode(r)) && Head(Encode(r) + more) == Rune(r, |Encode(r)|)
  {
    if 0x80 <= r < 0x800 {
      SplitTwo(r);
    } else if 0x800 <= r < 0x1_0000 {
      SplitThree(r);
    } else if r >= 0x1_0000 {
      SplitFour(r);
    }
  }

  /** The head of a string is a rune exactly when it starts with that rune's encoding. */
  lemma HeadExactly(s: GoString, r: nat)
    requires s != "" && IsRune(r)
    ensures Head(s) == Rune(r, |Encode(r)|) <==> Encode(r) <= s
  {
    if Encode(r) <= s {
      HeadEncode(r, s[|Encode(r)|..]);
      assert Encode(r) + s[|Encode(r)|..] == s;
    }
    if Head(s) == Rune(r, |Encode(r)|) {
      EncodeHead(s);
    }
  }
}
