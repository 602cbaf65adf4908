/** strconv.Quote, and the two ways its output can be read: as a Go string literal, and as an HCL
    quoted template. */
module Quoting {
  import opened Options
  import opened GoStrings
  import opened Utf8

  // ---------- Hexadecimal ----------

  function Pow16(n: nat): nat {
    if n == 0 then 1 else 16 * Pow16(n - 1)
  }

  function HexDigit(d: nat): char
    requires d < 16
  {
    if d < 10 then '0' + d as char else 'a' + (d - 10) as char
  }

  function Hex(n: nat, width: nat): (h: string)
    ensures |h| == width
  {
    if width == 0 then "" else Hex(n / 16, width - 1) + [HexDigit(n % 16)]
  }

  function DigitValue(c: char): Option<nat> {
    if '0' <= c <= '9' then Some(c as int - '0' as int)
    else if 'a' <= c <= 'f' then Some(c as int - 'a' as int + 10)
    else if 'A' <= c <= 'F' then Some(c as int - 'A' as int + 10)
    else None
  }

  function ReadHex(h: string): Option<nat> {
    if h == "" then Some(0)
    else
      var hi, lo := ReadHex(h[..|h| - 1]), DigitValue(h[|h| - 1]);
      if hi.Some? && lo.Some? then Some(16 * hi.value + lo.value) else None
  }

  lemma {:induction false} HexReads(n: nat, width: nat)
    requires n < Pow16(width)
    ensures ReadHex(Hex(n, width)) == Some(n)
  {
    if width > 0 {
      HexReads(n / 16, width - 1);
      var h := Hex(n, width);
      assert h[..|h| - 1] == Hex(n / 16, width - 1);
      assert DigitValue(HexDigit(n % 16)) == Some(n % 16);
    }
  }

  // ---------- strconv.Quote ----------

  /** Which code points above 0xFF count as printable. */
  type PrintTable = nat -> bool

  predicate IsPrint(t: PrintTable, r: nat) {
    if r <= 0xFF then 0x20 <= r < 0x7F || (0xA1 <= r && r != 0xAD) else t(r)
  }

  function QuoteRune(t: PrintTable, r: nat): string
    requires IsRune(r)
  {
    if r == '"' as int || r == '\\' as int then ['\\', r as char]
    else if IsPrint(t, r) then Encode(r)
    else if r == 7 then "\\a"
    else if r == 8 then "\\b"
    else if r == 12 then "\\f"
    else if r == 10 then "\\n"
    else if r == 13 then "\\r"
    else if r == 9 then "\\t"
    else if r == 11 then "\\v"
    else if r < 0x20 || r == 0x7F then "\\x" + Hex(r, 2)
    else if r < 0x1_0000 then "\\u" + Hex(r, 4)
    else "\\U" + Hex(r, 8)
  }

  function QuoteHead(t: PrintTable, s: GoString): string
    requires s != ""
  {
    if Head(s).BadByte? then "\\x" + Hex(s[0] as int, 2)
    else (EncodeHead(s); QuoteRune(t, Head(s).code))
  }

  function QuoteBody(t: PrintTable, s: GoString): string
    decreases |s|
  {
    if s == "" then "" else QuoteHead(t, s) + QuoteBody(t, Rest(s))
  }

  function Quote(t: PrintTable, s: GoString): string {
    "\"" + QuoteBody(t, s) + "\""
  }

  // ---------- Reading ----------

  /** A Go interpreted string literal, or an HCL quoted template without interpolation. */
  datatype Dialect = GoLiteral | HclTemplate

  /** What was read, and what is left. */
  type Parsed<+T> = Option<(T, string)>

  function Escape(t: string, width: nat): Parsed<nat> {
    if |t| < 2 + width then None
    else
      var n := ReadHex(t[2..2 + width]);
      if n.Some? then Some((n.value, t[2 + width..])) else None
  }

  function EscapedRune(t: string, width: nat): (p: Parsed<string>)
    ensures p.Some? ==> |p.value.1| < |t|
  {
    var n := Escape(t, width);
    if n.Some? && IsRune(n.value.0) then Some((Encode(n.value.0), n.value.1)) else None
  }

  function EscapedByte(t: string): (p: Parsed<string>)
    ensures p.Some? ==> |p.value.1| < |t|
  {
    var n := Escape(t, 2);
    if n.Some? && n.value.0 < 256 then Some(([Byte(n.value.0)], n.value.1)) else None
  }

  /** An escape sequence.  HCL knows fewer of them. */
  function ReadEscape(d: Dialect, t: string): (p: Parsed<string>)
    requires |t| >= 2
    ensures p.Some? ==> |p.value.1| < |t|
  {
    var c, more := t[1], t[2..];
    if c == 'n' then Some(("\n", more))
    else if c == 'r' then Some(("\r", more))
    else if c == 't' then Some(("\t", more))
    else if c == '"' then Some(("\"", more))
    else if c == '\\' then Some(("\\", more))
    else if c == 'u' then EscapedRune(t, 4)
    else if c == 'U' then EscapedRune(t, 8)
    else if d.HclTemplate? then None
    else if c == 'a' then Some((['\U{0007}'], more))
    else if c == 'b' then Some((['\U{0008}'], more))
    else if c == 'f' then Some((['\U{000C}'], more))
    else if c == 'v' then Some((['\U{000B}'], more))
    else if c == 'x' then EscapedByte(t)
    else None
  }

  /** A template sequence starts here: `${` or `%{`. */
  predicate Opens(t: string) {
    |t| >= 2 && t[0] in {'$', '%'} && t[1] == '{'
  }

  /** An escaped template sequence starts here: `$${` or `%%{`. */
  predicate Doubled(t: string) {
    |t| >= 3 && t[0] in {'$', '%'} && t[1] == t[0] && t[2] == '{'
  }

  function Prepend(p: string, r: Parsed<string>): Parsed<string> {
    if r.Some? then Some((p + r.value.0, r.value.1)) else None
  }

  /** The rest of a string, up to and including the closing quote. */
  function ReadBody(d: Dialect, t: string): (p: Parsed<string>)
    ensures p.Some? ==> |p.value.1| < |t|
    decreases |t|
  {
    if t == "" || t[0] == '\n' then None
    else if t[0] == '"' then Some(("", t[1..]))
    else if t[0] == '\\' then
      if |t| < 2 then None
      else
        var e := ReadEscape(d, t);
        if e.Some? then Prepend(e.value.0, ReadBody(d, e.value.1)) else None
    else if d.HclTemplate? && Doubled(t) then Prepend(t[1..3], ReadBody(d, t[3..]))
    else if d.HclTemplate? && Opens(t) then None
    else Prepend([t[0]], ReadBody(d, t[1..]))
  }

  function ReadString(d: Dialect, t: string): (p: Parsed<string>)
    ensures p.Some? ==> |p.value.1| < |t|
  {
    if t == "" || t[0] != '"' then None else ReadBody(d, t[1..])
  }

  // ---------- Which strings survive ----------

  /** The head of the string is written raw or with an escape that HCL knows. */
  predicate PlainHead(s: GoString)
    requires s != ""
  {
    var u := Head(s);
    u.Rune? && (u.code >= 0x20 || u.code == 9 || u.code == 10 || u.code == 13) && u.code != 0x7F
  }

  /** Valid UTF-8 without `${`, without `%{`, and without control characters except tab, newline and
      carriage return. */
  predicate HclSafe(s: GoString)
    decreases |s|
  {
    s == "" || (PlainHead(s) && !Opens(s) && HclSafe(Rest(s)))
  }

  predicate Survives(d: Dialect, s: GoString) {
    d.GoLiteral? || HclSafe(s)
  }

  // ---------- One unit ----------

  /** Characters that stand for themselves. */
  predicate Inert(raw: string) {
    forall i :: 0 <= i < |raw| ==> raw[i] !in {'"', '\\', '\n', '$', '%'}
  }

  lemma PrependLaws(a: string, b: string, p: Parsed<string>)
    ensures Prepend("", p) == p
    ensures Prepend(a, Prepend(b, p)) == Prepend(a + b, p)
  {
    if p.Some? {
      assert "" + p.value.0 == p.value.0;
      assert a + (b + p.value.0) == (a + b) + p.value.0;
    }
  }

  lemma {:induction false} InertReads(d: Dialect, raw: string, more: string)
    requires Inert(raw)
    ensures ReadBody(d, raw + more) == Prepend(raw, ReadBody(d, more))
  {
    if raw == "" {
      assert raw + more == more;
      PrependLaws(raw, raw, ReadBody(d, more));
    } else {
      InertReads(d, raw[1..], more);
      assert (raw + more)[1..] == raw[1..] + more;
      PrependLaws([raw[0]], raw[1..], ReadBody(d, more));
      assert [raw[0]] + raw[1..] == raw;
    }
  }

  lemma EscapeReads(n: nat, width: nat, intro: string, more: string)
    requires n < Pow16(width) && |intro| == 2
    ensures Escape(intro + Hex(n, width) + more, width) == Some((n, more))
  {
    HexReads(n, width);
    var t := intro + Hex(n, width) + more;
    assert t[2..2 + width] == Hex(n, width) && t[2 + width..] == more;
  }

  lemma Powers()
    ensures Pow16(2) == 0x100 && Pow16(4) == 0x1_0000 && Pow16(8) == 0x1_0000_0000
  {
    assert Pow16(3) == 0x1000 && Pow16(5) == 0x10_0000 && Pow16(6) == 0x100_0000 && Pow16(7) == 0x1000_0000;
  }

  /** What is written for a unit that is not printed raw is one escape, which Go always reads back and
      HCL reads back exactly when the unit is plain. */
  lemma EscapedHead(d: Dialect, t: PrintTable, s: GoString, more: string)
    requires s != ""
    requires Head(s).Rune? ==> !IsPrint(t, Head(s).code) || s[0] == '"' || s[0] == '\\'
    ensures var q := QuoteHead(t, s) + more;
            && |q| >= 2 && q[0] == '\\'
            && ReadEscape(d, q) ==
                 if d.GoLiteral? || PlainHead(s) then Some((s[..Head(s).Size()], more)) else None
  {
    Powers();
    var q := QuoteHead(t, s) + more;
    if Head(s).BadByte? {
      EscapeReads(s[0] as int, 2, "\\x", more);
      assert q[1] == 'x';
      assert [Byte(s[0] as int)] == s[..1];
    } else {
      EncodeHead(s);
      var r := Head(s).code;
      if r == '"' as int || r == '\\' as int || r in {7, 8, 9, 10, 11, 12, 13} {
        assert q[1] == QuoteHead(t, s)[1] && q[2..] == more;
        assert s[..1] == [s[0]];
      } else if r < 0x20 || r == 0x7F {
        EscapeReads(r, 2, "\\x", more);
        assert q[1] == 'x';
        assert [Byte(r)] == s[..1];
      } else if r < 0x1_0000 {
        EscapeReads(r, 4, "\\u", more);
        assert q[1] == 'u';
      } else {
        EscapeReads(r, 8, "\\U", more);
        assert q[1] == 'U';
      }
    }
  }

  /** The first character written is a backslash or the first byte itself. */
  lemma FirstWritten(t: PrintTable, s: GoString)
    requires s != ""
    ensures var q := QuoteBody(t, s);
            && q != "" && (q[0] == '\\' || q[0] == s[0])
            && (s[0] in {'$', '%', '{'} ==> q == [s[0]] + QuoteBody(t, s[1..]))
  {
    if Head(s).Rune? {
      EncodeHead(s);
    }
  }

  /** After a dollar or percent sign that starts nothing special, the text starts nothing special. */
  lemma LoneSign(t: PrintTable, s: GoString, tail: string)
    requires s != "" && s[0] in {'$', '%'} && (tail == "" || tail[0] == '"')
    ensures var q := QuoteBody(t, s) + tail;
            (Opens(q) <==> Opens(s)) && (Doubled(q) <==> Doubled(s))
  {
    FirstWritten(t, s);
    var q := QuoteBody(t, s) + tail;
    assert q[0] == s[0];
    if |s| > 1 {
      FirstWritten(t, s[1..]);
      assert q[1] == QuoteBody(t, s[1..])[0];
      if s[1] == s[0] {
        assert QuoteBody(t, s[1..]) == [s[1]] + QuoteBody(t, s[1..][1..]);
        assert s[1..][1..] == s[2..];
        if |s| > 2 {
          FirstWritten(t, s[2..]);
          assert q[2] == QuoteBody(t, s[2..])[0];
        }
      }
    }
  }

  /** The head of a string, unless it is a template sign, is read back by Go always and by HCL exactly
      when it is plain. */
  lemma HeadReads(d: Dialect, t: PrintTable, s: GoString, more: string)
    requires s != "" && s[0] !in {'$', '%'}
    ensures ReadBody(d, QuoteHead(t, s) + more) ==
              if d.GoLiteral? || PlainHead(s) then Prepend(s[..Head(s).Size()], ReadBody(d, more)) else None
  {
    if Head(s).BadByte? || !IsPrint(t, Head(s).code) || s[0] == '"' || s[0] == '\\' {
      EscapedHead(d, t, s, more);
    } else {
      EncodeHead(s);
      InertReads(d, s[..Head(s).size], more);
    }
  }

  // ---------- Whole strings ----------

  /** What reading back gives: nothing, or a string followed by exactly the rest; and that string is
      the original if and only if it survives the dialect. */
  ghost predicate Exactly(d: Dialect, s: GoString, p: Parsed<string>, rest: string) {
    && (p.Some? ==> p.value.1 == rest && |p.value.0| <= |s|)
    && (p.Some? && p.value.0 == s <==> Survives(d, s))
    && (p.Some? && !Survives(d, s) ==> |p.value.0| < |s|)
  }

  lemma StepExactly(d: Dialect, s: GoString, n: nat, tail: GoString, p: Parsed<string>, rest: string)
    requires n <= |s| && tail == s[n..] && Exactly(d, tail, p, rest)
    requires Survives(d, s) <==> Survives(d, tail)
    ensures Exactly(d, s, Prepend(s[..n], p), rest)
  {
    assert s == s[..n] + s[n..];
  }

  /** From the tail of a string to the whole of it. */
  lemma HeadExactly(d: Dialect, s: GoString, p: Parsed<string>, q: Parsed<string>, rest: string)
    requires s != "" && s[0] !in {'$', '%'} && Exactly(d, Rest(s), p, rest)
    requires q == if d.GoLiteral? || PlainHead(s) then Prepend(s[..Head(s).Size()], p) else None
    ensures Exactly(d, s, q, rest)
  {
    if d.GoLiteral? || PlainHead(s) {
      StepExactly(d, s, Head(s).Size(), Rest(s), p, rest);
    }
  }

  lemma NothingReads(d: Dialect, rest: string)
    ensures ReadBody(d, "\"" + rest) == Some(("", rest))
  {
    assert ("\"" + rest)[1..] == rest;
  }

  lemma {:induction false} BodyReads(d: Dialect, t: PrintTable, s: GoString, rest: string)
    ensures Exactly(d, s, ReadBody(d, QuoteBody(t, s) + ("\"" + rest)), rest)
    decreases |s|, 1
  {
    var tail := "\"" + rest;
    if s == "" {
      assert QuoteBody(t, s) + tail == tail;
      NothingReads(d, rest);
    } else if s[0] in {'$', '%'} {
      SignReads(d, t, s, rest);
    } else {
      var more := QuoteBody(t, Rest(s)) + tail;
      assert QuoteBody(t, s) + tail == QuoteHead(t, s) + more;
      BodyReads(d, t, Rest(s), rest);
      HeadReads(d, t, s, more);
      HeadExactly(d, s, ReadBody(d, more), ReadBody(d, QuoteHead(t, s) + more), rest);
    }
  }

  /** How a text that starts with a template sign reads. */
  lemma SignBody(d: Dialect, q: string)
    requires q != "" && q[0] in {'$', '%'}
    ensures ReadBody(d, q) ==
              if d.HclTemplate? && Doubled(q) then Prepend(q[1..3], ReadBody(d, q[3..]))
              else if d.HclTemplate? && Opens(q) then None
              else Prepend([q[0]], ReadBody(d, q[1..]))
  {
  }

  lemma DropFirst(q: string, c: char, x: string, tail: string)
    requires q == [c] + x
    ensures q + tail != "" && (q + tail)[1..] == x + tail
  {
  }

  lemma DropWritten(t: PrintTable, s: GoString, tail: string)
    requires s != "" && s[0] in {'$', '%', '{'}
    ensures var q := QuoteBody(t, s) + tail; q != "" && q[1..] == QuoteBody(t, s[1..]) + tail
  {
    FirstWritten(t, s);
    DropFirst(QuoteBody(t, s), s[0], QuoteBody(t, s[1..]), tail);
  }

  lemma DoubledText(t: PrintTable, s: GoString, tail: string)
    requires Doubled(s)
    ensures var q := QuoteBody(t, s) + tail; |q| >= 3 && q[3..] == QuoteBody(t, s[3..]) + tail
  {
    DropWritten(t, s, tail);
    DropWritten(t, s[1..], tail);
    DropWritten(t, s[2..], tail);
    var q := QuoteBody(t, s) + tail;
    assert s[1..][1..] == s[2..] && s[2..][1..] == s[3..];
    assert q[3..] == q[1..][1..][1..];
  }

  lemma SignSurvives(s: GoString)
    requires s != "" && s[0] in {'$', '%'}
    ensures Rest(s) == s[1..] && (HclSafe(s) <==> !Opens(s) && HclSafe(s[1..]))
  {
  }

  lemma {:induction false} SignReads(d: Dialect, t: PrintTable, s: GoString, rest: string)
    requires s != "" && s[0] in {'$', '%'}
    ensures Exactly(d, s, ReadBody(d, QuoteBody(t, s) + ("\"" + rest)), rest)
    decreases |s|, 0
  {
    var tail := "\"" + rest;
    var q := QuoteBody(t, s) + tail;
    SignWritten(t, s, tail);
    SignBody(d, q);
    if d.HclTemplate? && Doubled(s) {
      DoubledText(t, s, tail);
      BodyReads(d, t, s[3..], rest);
      DoubledSign(s, q, ReadBody(d, q[3..]), rest);
    } else if d.HclTemplate? && Opens(s) {
      OpeningSign(s, rest);
    } else {
      BodyReads(d, t, s[1..], rest);
      PlainSign(d, s, ReadBody(d, q[1..]), rest);
    }
  }

  lemma SignWritten(t: PrintTable, s: GoString, tail: string)
    requires s != "" && s[0] in {'$', '%'} && tail != "" && tail[0] == '"'
    ensures var q := QuoteBody(t, s) + tail;
            && q != "" && q[0] == s[0] && q[1..] == QuoteBody(t, s[1..]) + tail
            && (Opens(q) <==> Opens(s)) && (Doubled(q) <==> Doubled(s))
  {
    FirstWritten(t, s);
    LoneSign(t, s, tail);
    DropWritten(t, s, tail);
  }

  /** A doubled sign is read as a single one, so the string comes back shorter. */
  lemma DoubledSign(s: GoString, q: string, p: Parsed<string>, rest: string)
    requires Doubled(s) && Doubled(q) && Exactly(HclTemplate, s[3..], p, rest)
    ensures Exactly(HclTemplate, s, Prepend(q[1..3], p), rest)
  {
    SignSurvives(s);
    SignSurvives(s[1..]);
  }

  /** An opening sign cannot be read. */
  lemma OpeningSign(s: GoString, rest: string)
    requires Opens(s)
    ensures Exactly(HclTemplate, s, None, rest)
  {
    SignSurvives(s);
  }

  /** Any other sign stands for itself. */
  lemma PlainSign(d: Dialect, s: GoString, p: Parsed<string>, rest: string)
    requires s != "" && s[0] in {'$', '%'} && (d.GoLiteral? || !Opens(s)) && Exactly(d, s[1..], p, rest)
    ensures Exactly(d, s, Prepend([s[0]], p), rest)
  {
    SignSurvives(s);
    assert s[..1] == [s[0]];
    StepExactly(d, s, 1, s[1..], p, rest);
  }

  /** Reading a quoted string: Go's reader returns it always, HCL's exactly when it is HclSafe. */
  lemma StringReads(d: Dialect, t: PrintTable, s: GoString, rest: string)
    ensures Exactly(d, s, ReadString(d, Quote(t, s) + rest), rest)
  {
    var q := Quote(t, s) + rest;
    assert q[1..] == QuoteBody(t, s) + ("\"" + rest);
    BodyReads(d, t, s, rest);
  }

  // ---------- The writing spelled out ----------

  /** The unit at the head of the string is a rune that is written as it is: neither quote nor backslash,
      printable ASCII, printable Latin-1, or above that in the table. */
  predicate RawHead(t: PrintTable, s: GoString)
    requires s != ""
  {
    var u := Head(s);
    && u.Rune? && u.code != 0x22 && u.code != 0x5C
    && (|| 0x20 <= u.code <= 0x7E
        || (0xA1 <= u.code <= 0xFF && u.code != 0xAD)
        || (0xFF < u.code && t(u.code)))
  }

  predicate AllRaw(t: PrintTable, s: GoString)
    decreases |s|
  {
    s == "" || (RawHead(t, s) && AllRaw(t, Rest(s)))
  }

  /** A string of such runes only is written as it is. */
  lemma RawQuoted(t: PrintTable, s: GoString)
    requires AllRaw(t, s)
    ensures Quote(t, s) == "\"" + s + "\""
  {
    RawBody(t, s);
  }

  lemma {:induction false} RawBody(t: PrintTable, s: GoString)
    requires AllRaw(t, s)
    ensures QuoteBody(t, s) == s
    decreases |s|
  {
    if s != "" {
      RawBody(t, Rest(s));
      FirstRaw(t, s);
    }
  }

  lemma FirstRaw(t: PrintTable, s: GoString)
    requires s != "" && RawHead(t, s) && QuoteBody(t, Rest(s)) == Rest(s)
    ensures QuoteBody(t, s) == s
  {
    UnitRaw(t, s);
    Rejoin(s, Head(s).Size());
  }

  lemma Rejoin(s: string, n: nat)
    requires n <= |s|
    ensures s[..n] + s[n..] == s
  {
  }

  lemma UnitRaw(t: PrintTable, s: GoString)
    requires s != "" && RawHead(t, s)
    ensures QuoteHead(t, s) == s[..Head(s).Size()]
  {
    EncodeHead(s);
  }

  const DIGITS: string := "0123456789abcdef"

  lemma DigitIs(d: nat)
    requires d < 16
    ensures |DIGITS| == 16 && HexDigit(d) == DIGITS[d]
  {
    assert d == 0 || d == 1 || d == 2 || d == 3 || d == 4 || d == 5 || d == 6 || d == 7
        || d == 8 || d == 9 || d == 10 || d == 11 || d == 12 || d == 13 || d == 14 || d == 15;
  }

  lemma HexTwo(n: nat)
    ensures Hex(n, 2) == [HexDigit(n / 16 % 16), HexDigit(n % 16)]
  {
    assert Hex(n / 16 / 16, 0) == "";
    assert Hex(n / 16, 1) == "" + [HexDigit(n / 16 % 16)];
  }

  lemma HexMore(n: nat, w: nat)
    ensures Hex(n, w + 2) == Hex(n / 256, w) + [HexDigit(n / 16 % 16), HexDigit(n % 16)]
  {
    assert n / 16 / 16 == n / 256;
    assert Hex(n, w + 2) == Hex(n / 16, w + 1) + [HexDigit(n % 16)];
    assert Hex(n / 16, w + 1) == Hex(n / 256, w) + [HexDigit(n / 16 % 16)];
  }

  lemma HexFour(n: nat)
    ensures Hex(n, 4) == [HexDigit(n / 4096 % 16), HexDigit(n / 256 % 16), HexDigit(n / 16 % 16), HexDigit(n % 16)]
  {
    HexMore(n, 2);
    HexTwo(n / 256);
    assert n / 256 / 16 == n / 4096;
  }

  lemma Divisions(n: nat)
    ensures n / 256 / 16 == n / 4096 && n / 256 / 256 == n / 0x1_0000 && n / 0x1_0000 / 16 == n / 0x100000
    ensures n < 0x110000 ==> n / 0x1_0000 / 4096 == 0 && n / 0x1_0000 / 256 == 0
  {
  }

  lemma HexHigh(m: nat)
    requires m / 4096 == 0 && m / 256 == 0
    ensures Hex(m, 4) == "00" + [HexDigit(m / 16 % 16), HexDigit(m % 16)]
  {
    HexFour(m);
    assert HexDigit(0) == '0';
  }

  lemma HexEight(n: nat)
    requires n < 0x110000
    ensures Hex(n, 8) == "00" + ([HexDigit(n / 0x100000 % 16), HexDigit(n / 0x1_0000 % 16)]
                                 + [HexDigit(n / 4096 % 16), HexDigit(n / 256 % 16),
                                    HexDigit(n / 16 % 16), HexDigit(n % 16)])
  {
    Divisions(n);
    HexMore(n, 6);
    HexMore(n / 256, 4);
    HexHigh(n / 0x1_0000);
    Grouped(Hex(n / 0x1_0000, 4), "00", HexDigit(n / 0x100000 % 16), HexDigit(n / 0x1_0000 % 16),
            HexDigit(n / 4096 % 16), HexDigit(n / 256 % 16), HexDigit(n / 16 % 16), HexDigit(n % 16));
  }

  lemma Grouped(h: string, z: string, a: char, b: char, c: char, d: char, e: char, f: char)
    requires h == z + [a, b]
    ensures (h + [c, d]) + [e, f] == z + ([a, b] + [c, d, e, f])
  {
  }

  /** What is written for the unit at the head of a string that is not written as it is. */
  lemma UnitEscaped(t: PrintTable, s: GoString)
    requires s != "" && !RawHead(t, s)
    ensures |DIGITS| == 16
    ensures var u, q := Head(s), QuoteHead(t, s);
            if u.BadByte? then
              q == "\\x" + [DIGITS[s[0] as int / 16 % 16], DIGITS[s[0] as int % 16]]
            else if u.code == 0x22 then q == "\\\""
            else if u.code == 0x5C then q == "\\\\"
            else if u.code == 7 then q == "\\a"
            else if u.code == 8 then q == "\\b"
            else if u.code == 9 then q == "\\t"
            else if u.code == 10 then q == "\\n"
            else if u.code == 11 then q == "\\v"
            else if u.code == 12 then q == "\\f"
            else if u.code == 13 then q == "\\r"
            else if u.code < 0x20 || u.code == 0x7F then
              q == "\\x" + [DIGITS[u.code / 16 % 16], DIGITS[u.code % 16]]
            else if u.code < 0x1_0000 then
              q == "\\u" + [DIGITS[u.code / 4096 % 16], DIGITS[u.code / 256 % 16],
                            DIGITS[u.code / 16 % 16], DIGITS[u.code % 16]]
            else
              q == "\\U" + ("00" + ([DIGITS[u.code / 0x100000 % 16], DIGITS[u.code / 0x1_0000 % 16]]
                                    + [DIGITS[u.code / 4096 % 16], DIGITS[u.code / 256 % 16],
                                       DIGITS[u.code / 16 % 16], DIGITS[u.code % 16]]))
  {
    forall d: nat | d < 16
      ensures |DIGITS| == 16 && HexDigit(d) == DIGITS[d]
    {
      DigitIs(d);
    }
    DigitIs(0);
    if Head(s).BadByte? {
      HexTwo(s[0] as int);
    } else {
      EncodeHead(s);
      HexTwo(Head(s).code);
      HexFour(Head(s).code);
      HexEight(Head(s).code);
    }
  }

  /** A quoted string is its units as they are written, one after the other. */
  lemma UnitByUnit(t: PrintTable, s: GoString)
    requires s != ""
    ensures Quote(t, "") == "\"\""
    ensures exists rest: string ::
              && Quote(t, s) == "\"" + (QuoteHead(t, s) + rest)
              && Quote(t, s[Head(s).Size()..]) == "\"" + rest
  {
    var rest := QuoteBody(t, Rest(s)) + "\"";
    assert Quote(t, s) == "\"" + (QuoteHead(t, s) + rest);
    assert Quote(t, Rest(s)) == "\"" + rest;
    assert "\"" + "" + "\"" == "\"\"";
  }
}
