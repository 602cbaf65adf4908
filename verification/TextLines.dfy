/** Texts and their lines. */
module TextLines {
  predicate OneLine(s: string) {
    forall i :: 0 <= i < |s| ==> s[i] != '\n'
  }

  predicate AllOneLine(ls: seq<string>) {
    forall i :: 0 <= i < |ls| ==> OneLine(ls[i])
  }

  /** The text up to the first line break. */
  function FirstLine(t: string): (r: string)
    ensures |r| <= |t|
  {
    if t == "" || t[0] == '\n' then "" else [t[0]] + FirstLine(t[1..])
  }

  /** The text after the first line break. */
  function SkipLine(t: string): (r: string)
    ensures |r| <= |t| && (t != "" ==> |r| < |t|)
  {
    if t == "" then "" else if t[0] == '\n' then t[1..] else SkipLine(t[1..])
  }

  function Newlines(t: string): nat {
    if t == "" then 0 else (if t[0] == '\n' then 1 else 0) + Newlines(t[1..])
  }

  function Concat(ss: seq<string>): string {
    if ss == [] then "" else ss[0] + Concat(ss[1..])
  }

  lemma {:induction false} CutLine(line: string, more: string)
    requires OneLine(line)
    ensures FirstLine(line + ("\n" + more)) == line && SkipLine(line + ("\n" + more)) == more
    ensures FirstLine(line) == line && SkipLine(line) == ""
    ensures Newlines(line + ("\n" + more)) == 1 + Newlines(more)
  {
    if line == "" {
      assert line + ("\n" + more) == "\n" + more;
      assert ("\n" + more)[1..] == more;
    } else {
      CutLine(line[1..], more);
      assert (line + ("\n" + more))[1..] == line[1..] + ("\n" + more);
    }
  }

  lemma {:induction false} ConcatAppend(a: seq<string>, b: seq<string>)
    ensures Concat(a + b) == Concat(a) + Concat(b)
  {
    if a == [] {
      assert a + b == b;
    } else {
      ConcatAppend(a[1..], b);
      assert (a + b)[0] == a[0] && (a + b)[1..] == a[1..] + b;
      Associate(a[0], Concat(a[1..]), Concat(b));
    }
  }

  lemma Associate(a: string, b: string, c: string)
    ensures (a + b) + c == a + (b + c)
  {
  }
}
