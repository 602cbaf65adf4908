/** UncommentCode and GetNonEmptyLines of the test utilities. */
module Uncomment {
  import opened Options
  import opened TextLines

  // ---------- Strings as the Go library sees them ----------

  predicate OccursAt(s: string, t: string, i: nat) {
    i + |t| <= |s| && s[i..i + |t|] == t
  }

  /** strings.Index. */
  function IndexFrom(s: string, t: string, i: nat): (r: Option<nat>)
    requires i <= |s|
    ensures r.Some? ==> i <= r.value && OccursAt(s, t, r.value) && forall j :: i <= j < r.value ==> !OccursAt(s, t, j)
    ensures r.None? ==> forall j :: i <= j <= |s| ==> !OccursAt(s, t, j)
    decreases |s| - i
  {
    if OccursAt(s, t, i) then Some(i) else if i == |s| then None else IndexFrom(s, t, i + 1)
  }

  function Index(s: string, t: string): Option<nat> {
    IndexFrom(s, t, 0)
  }

  predicate EndsCR(s: string) {
    s != "" && s[|s| - 1] == '\r'
  }

  function DropCR(s: string): string {
    if EndsCR(s) then s[..|s| - 1] else s
  }

  /** The tokens of a line scanner: no final empty line, and one carriage return dropped from each. */
  function Tokens(t: string): seq<string>
    decreases |t|
  {
    if t == "" then [] else [DropCR(FirstLine(t))] + Tokens(SkipLine(t))
  }

  function TrimPrefix(s: string, p: string): string {
    if p <= s then s[|p|..] else s
  }

  /** Lines with line breaks between them. */
  function Join(ls: seq<string>): string {
    if ls == [] then "" else if |ls| == 1 then ls[0] else ls[0] + ("\n" + Join(ls[1..]))
  }

  function TrimAll(ls: seq<string>, p: string): (r: seq<string>)
    ensures |r| == |ls| && forall i :: 0 <= i < |ls| ==> r[i] == TrimPrefix(ls[i], p)
  {
    if ls == [] then [] else [TrimPrefix(ls[0], p)] + TrimAll(ls[1..], p)
  }

  // ---------- UncommentCode ----------

  /** The lines of a text without the prefix, joined again. */
  function Stripped(target: string, prefix: string): string {
    Join(TrimAll(Tokens(target), prefix))
  }

  /** The new content of a file; nothing if the target is not in it. */
  function Uncommented(content: string, target: string, prefix: string): Option<string> {
    var i := Index(content, target);
    if i.None? then None
    else if target == "" then Some(content)
    else Some(content[..i.value] + Stripped(target, prefix) + content[i.value + |target|..])
  }

  /** What the scanner's current token and the text after it still add to the output. */
  function Remaining(token: string, rest: string, prefix: string): string {
    Join(TrimAll([token] + Tokens(rest), prefix))
  }

  lemma FirstToken(target: string, prefix: string)
    requires target != ""
    ensures Stripped(target, prefix) == Remaining(DropCR(FirstLine(target)), SkipLine(target), prefix)
  {
  }

  lemma NextToken(out: string, token: string, rest: string, prefix: string)
    ensures rest == "" ==> Remaining(token, rest, prefix) == TrimPrefix(token, prefix)
    ensures rest != "" ==>
              out + Remaining(token, rest, prefix)
              == ((out + TrimPrefix(token, prefix)) + "\n") + Remaining(DropCR(FirstLine(rest)), SkipLine(rest), prefix)
  {
    var ts := [token] + Tokens(rest);
    assert ts[0] == token && ts[1..] == Tokens(rest);
    if rest != "" {
      var tail := TrimAll(Tokens(rest), prefix);
      assert TrimAll(ts, prefix)[1..] == tail;
      Regroup(out, TrimPrefix(token, prefix), "\n", Join(tail));
    }
  }

  lemma Regroup(a: string, b: string, c: string, d: string)
    ensures a + (b + (c + d)) == ((a + b) + c) + d
  {
  }

  /** The scanner's loop: each token is written without the prefix, a line break between two. */
  method Strip(before: string, target: string, prefix: string) returns (out: string)
    requires target != ""
    ensures out == before + Stripped(target, prefix)
  {
    out := before;
    var token, rest := DropCR(FirstLine(target)), SkipLine(target);
    FirstToken(target, prefix);
    while true
      invariant before + Stripped(target, prefix) == out + Remaining(token, rest, prefix)
      decreases |rest|
    {
      NextToken(out, token, rest, prefix);
      out := out + TrimPrefix(token, prefix);
      if rest == "" {
        break;
      }
      out := out + "\n";
      token, rest := DropCR(FirstLine(rest)), SkipLine(rest);
    }
  }

  class File {
    var content: string

    constructor (content: string)
      ensures this.content == content
    {
      this.content := content;
    }
  }

  /** UncommentCode; a file that cannot be read is null. */
  method UncommentCode(file: File?, target: string, prefix: string) returns (ok: bool)
    modifies file
    ensures ok <==> file != null && Index(old(file.content), target).Some?
    ensures file != null && !ok ==> file.content == old(file.content)
    ensures ok ==> Uncommented(old(file.content), target, prefix) == Some(file.content)
  {
    if file == null {
      return false;
    }
    var content := file.content;
    var idx := Index(content, target);
    if idx.None? {
      return false;
    }
    var out := content[..idx.value];
    if target == "" {
      return true;
    }
    out := Strip(out, target, prefix);
    out := out + content[idx.value + |target|..];
    file.content := out;
    return true;
  }

  // ---------- Commenting and back ----------

  function CommentAll(ls: seq<string>, prefix: string): (r: seq<string>)
    ensures |r| == |ls| && forall i :: 0 <= i < |ls| ==> r[i] == prefix + ls[i]
  {
    if ls == [] then [] else [prefix + ls[0]] + CommentAll(ls[1..], prefix)
  }

  /** The line comes back: it does not end in a carriage return, and it is not an empty line behind a
      longer prefix that does. */
  predicate ComesBack(prefix: string, l: string) {
    !EndsCR(l) && !(l == "" && EndsCR(prefix) && prefix != "\r")
  }

  lemma ComesBackExactly(prefix: string, l: string)
    requires prefix != ""
    ensures TrimPrefix(DropCR(prefix + l), prefix) == l <==> ComesBack(prefix, l)
  {
    if l == "" {
      assert prefix + l == prefix;
    } else {
      assert (prefix + l)[|prefix + l| - 1] == l[|l| - 1];
      if EndsCR(l) {
        assert DropCR(prefix + l) == prefix + l[..|l| - 1];
      }
    }
  }

  function DropAll(ls: seq<string>): (r: seq<string>)
    ensures |r| == |ls| && forall i :: 0 <= i < |ls| ==> r[i] == DropCR(ls[i])
  {
    if ls == [] then [] else [DropCR(ls[0])] + DropAll(ls[1..])
  }

  /** Scanning joined lines gives them back, but for a carriage return at the end of each. */
  lemma {:induction false} TokensOfJoin(ls: seq<string>)
    requires AllOneLine(ls) && forall i :: 0 <= i < |ls| ==> ls[i] != ""
    ensures Tokens(Join(ls)) == DropAll(ls)
  {
    if |ls| == 1 {
      CutLine(ls[0], "");
      assert Tokens("") == [];
      assert ls[1..] == [];
    } else if |ls| > 1 {
      CutLine(ls[0], Join(ls[1..]));
      TokensOfJoin(ls[1..]);
    }
  }

  /** As many lines, joined to the same text, are the same lines. */
  lemma {:induction false} JoinInjective(a: seq<string>, b: seq<string>)
    requires |a| == |b| && AllOneLine(a) && AllOneLine(b) && Join(a) == Join(b)
    ensures a == b
  {
    if |a| == 1 {
      assert a == [a[0]] && b == [b[0]];
    } else if |a| > 1 {
      CutLine(a[0], Join(a[1..]));
      CutLine(b[0], Join(b[1..]));
      JoinInjective(a[1..], b[1..]);
      assert a == [a[0]] + a[1..] && b == [b[0]] + b[1..];
    }
  }

  lemma TrimmedOneLine(ls: seq<string>, prefix: string)
    requires AllOneLine(ls) && OneLine(prefix)
    ensures AllOneLine(TrimAll(DropAll(CommentAll(ls, prefix)), prefix))
  {
  }

  /** The block's lines are all restored: by a prefix on one line when each of them comes back, by any
      other prefix only when the block is one empty line behind a bare line break. */
  predicate Restores(prefix: string, ls: seq<string>) {
    if OneLine(prefix) then forall i :: 0 <= i < |ls| ==> ComesBack(prefix, ls[i])
    else ls == [""] && (prefix == "\n" || prefix == "\r\n")
  }

  /** Uncommenting undoes commenting.  If the first occurrence of the commented block is where it was
      put, everything before and after it stays, and the block's lines are restored exactly when the
      prefix and the lines allow it. */
  lemma UncommentUndoes(before: string, ls: seq<string>, after: string, prefix: string)
    requires prefix != "" && ls != [] && AllOneLine(ls)
    requires var block := Join(CommentAll(ls, prefix)); Index(before + block + after, block) == Some(|before|)
    ensures var block := Join(CommentAll(ls, prefix));
            var r := Uncommented(before + block + after, block, prefix);
            && (exists middle :: r == Some(before + middle + after))
            && (r == Some(before + Join(ls) + after) <==> Restores(prefix, ls))
  {
    var block := Join(CommentAll(ls, prefix));
    JoinNotEmpty(CommentAll(ls, prefix));
    Splice(before, block, after);
    var middle := Stripped(block, prefix);
    assert Uncommented(before + block + after, block, prefix) == Some(before + middle + after);
    if before + middle + after == before + Join(ls) + after {
      SameMiddle(before, middle, Join(ls), after);
    }
    StripUndoes(ls, prefix);
  }

  lemma StripUndoes(ls: seq<string>, prefix: string)
    requires prefix != "" && ls != [] && AllOneLine(ls)
    ensures Stripped(Join(CommentAll(ls, prefix)), prefix) == Join(ls) <==> Restores(prefix, ls)
  {
    if OneLine(prefix) {
      StripOneLine(ls, prefix);
    } else {
      StripBroken(ls, prefix);
    }
  }

  lemma StripOneLine(ls: seq<string>, prefix: string)
    requires prefix != "" && OneLine(prefix) && ls != [] && AllOneLine(ls)
    ensures Stripped(Join(CommentAll(ls, prefix)), prefix) == Join(ls)
       <==> forall i :: 0 <= i < |ls| ==> ComesBack(prefix, ls[i])
  {
    var commented := CommentAll(ls, prefix);
    var back := TrimAll(DropAll(commented), prefix);
    TokensOfJoin(commented);
    TrimmedOneLine(ls, prefix);
    forall i | 0 <= i < |ls|
      ensures back[i] == ls[i] <==> ComesBack(prefix, ls[i])
    {
      ComesBackExactly(prefix, ls[i]);
    }
    if Join(back) == Join(ls) {
      JoinInjective(back, ls);
    }
    if forall i :: 0 <= i < |ls| ==> ComesBack(prefix, ls[i]) {
      assert back == ls;
    }
  }

  // A prefix that holds a line break.

  lemma {:induction false} BreaksAdd(a: string, b: string)
    ensures Newlines(a + b) == Newlines(a) + Newlines(b)
  {
    if a == "" {
      assert a + b == b;
    } else {
      BreaksAdd(a[1..], b);
      assert (a + b)[1..] == a[1..] + b;
    }
  }

  lemma {:induction false} BreaksOneLine(t: string)
    ensures Newlines(t) == 0 <==> OneLine(t)
  {
    if t != "" {
      BreaksOneLine(t[1..]);
      assert forall i :: 0 <= i < |t| - 1 ==> t[1..][i] == t[i + 1];
      assert OneLine(t) <==> t[0] != '\n' && OneLine(t[1..]);
    }
  }

  lemma {:induction false} BreaksInLine(t: string)
    ensures OneLine(FirstLine(t)) && Newlines(t) <= 1 + Newlines(SkipLine(t))
  {
    if t != "" && t[0] != '\n' {
      BreaksInLine(t[1..]);
    }
  }

  /** Tokens hold no line break, and there is one at least for each break of the text. */
  lemma {:induction false} TokensOneLine(t: string)
    ensures AllOneLine(Tokens(t)) && Newlines(t) <= |Tokens(t)|
    decreases |t|
  {
    if t != "" {
      BreaksInLine(t);
      TokensOneLine(SkipLine(t));
      assert OneLine(DropCR(FirstLine(t)));
    }
  }

  lemma {:induction false} BreaksOfJoin(ls: seq<string>)
    requires ls != [] && AllOneLine(ls)
    ensures Newlines(Join(ls)) == |ls| - 1
  {
    BreaksOneLine(ls[0]);
    if |ls| > 1 {
      BreaksOfJoin(ls[1..]);
      BreaksAdd(ls[0], "\n" + Join(ls[1..]));
      assert ("\n" + Join(ls[1..]))[1..] == Join(ls[1..]);
    }
  }

  lemma {:induction false} BreaksOfBlock(ls: seq<string>, prefix: string)
    requires ls != [] && !OneLine(prefix)
    ensures Newlines(Join(CommentAll(ls, prefix))) >= 2 * |ls| - 1
  {
    BreaksOneLine(prefix);
    BreaksAdd(prefix, ls[0]);
    if |ls| > 1 {
      var c := CommentAll(ls, prefix);
      BreaksOfBlock(ls[1..], prefix);
      assert c[0] == prefix + ls[0] && c[1..] == CommentAll(ls[1..], prefix);
      BreaksAdd(c[0], "\n" + Join(c[1..]));
      assert ("\n" + Join(c[1..]))[1..] == Join(c[1..]);
    }
  }

  lemma NothingTrimmed(t: string, prefix: string)
    requires !OneLine(prefix)
    ensures TrimAll(Tokens(t), prefix) == Tokens(t)
  {
    TokensOneLine(t);
    forall k | 0 <= k < |Tokens(t)|
      ensures !(prefix <= Tokens(t)[k])
    {
      NotPrefix(prefix, Tokens(t)[k]);
    }
  }

  lemma NotPrefix(p: string, s: string)
    requires !OneLine(p) && OneLine(s)
    ensures !(p <= s)
  {
    var i :| 0 <= i < |p| && p[i] == '\n';
  }

  lemma StripBroken(ls: seq<string>, prefix: string)
    requires !OneLine(prefix) && ls != [] && AllOneLine(ls)
    ensures Stripped(Join(CommentAll(ls, prefix)), prefix) == Join(ls)
       <==> ls == [""] && (prefix == "\n" || prefix == "\r\n")
  {
    var block := Join(CommentAll(ls, prefix));
    NothingTrimmed(block, prefix);
    if |ls| > 1 {
      TokensOneLine(block);
      BreaksOfBlock(ls, prefix);
      BreaksOfJoin(Tokens(block));
      BreaksOfJoin(ls);
    } else {
      assert ls == [ls[0]];
      StripOneBroken(ls[0], prefix);
      assert CommentAll(ls, prefix) == [prefix + ls[0]];
    }
  }

  lemma StripOneBroken(l: string, prefix: string)
    requires !OneLine(prefix) && OneLine(l)
    ensures Join(Tokens(prefix + l)) == l <==> l == "" && (prefix == "\n" || prefix == "\r\n")
  {
    var block := prefix + l;
    BrokenApart(l, prefix);
    TokensOneLine(block);
    BreaksOfJoin(Tokens(block));
    BreaksOneLine(l);
    if SkipLine(block) != "" {
      assert |Tokens(SkipLine(block))| >= 1;
      BrokenEnds(prefix);
    } else {
      assert block == FirstLine(block) + "\n";
      assert Tokens(block) == [DropCR(FirstLine(block))];
      BareBreak(prefix, FirstLine(block));
    }
  }

  lemma BrokenApart(l: string, prefix: string)
    requires !OneLine(prefix)
    ensures prefix + l == FirstLine(prefix + l) + ("\n" + SkipLine(prefix + l))
  {
    var i :| 0 <= i < |prefix| && prefix[i] == '\n';
    assert (prefix + l)[i] == '\n';
    Shorter(prefix + l);
  }

  lemma BrokenEnds(prefix: string)
    ensures prefix == "\n" || prefix == "\r\n" ==> SkipLine(prefix) == ""
  {
    if prefix == "\r\n" {
      CutLine("\r", "");
    }
  }

  lemma BareBreak(prefix: string, first: string)
    ensures prefix == first + "\n" ==>
              (DropCR(first) == "" <==> prefix == "\n" || prefix == "\r\n")
  {
    if prefix == first + "\n" {
      assert |prefix| == |first| + 1;
      if |first| == 1 {
        assert first == [first[0]] && prefix == [first[0], '\n'];
      }
    }
  }

  lemma JoinNotEmpty(ls: seq<string>)
    requires ls != [] && ls[0] != ""
    ensures Join(ls) != ""
  {
  }

  lemma Splice(before: string, block: string, after: string)
    ensures var c := before + block + after; c[..|before|] == before && c[|before| + |block|..] == after
  {
  }

  lemma SameMiddle(before: string, a: string, b: string, after: string)
    requires before + a + after == before + b + after
    ensures a == b
  {
    var l, r := before + a + after, before + b + after;
    assert |a| == |b|;
    assert a == l[|before|..|before| + |a|] && b == r[|before|..|before| + |b|];
  }

  // ---------- GetNonEmptyLines ----------

  /** The pieces between line breaks, empty ones included. */
  function Split(t: string): (r: seq<string>)
    ensures r != []
    decreases |t|
  {
    if OneLine(t) then [t] else (Shorter(t); [FirstLine(t)] + Split(SkipLine(t)))
  }

  lemma {:induction false} Shorter(t: string)
    requires !OneLine(t)
    ensures |SkipLine(t)| < |t| && t == FirstLine(t) + ("\n" + SkipLine(t)) && OneLine(FirstLine(t))
  {
    if t[0] != '\n' {
      Shorter(t[1..]);
    }
  }

  function NonEmpty(ls: seq<string>): seq<string> {
    if ls == [] then [] else (if ls[0] != "" then [ls[0]] else []) + NonEmpty(ls[1..])
  }

  function WithoutBreaks(t: string): string {
    if t == "" then "" else (if t[0] == '\n' then "" else [t[0]]) + WithoutBreaks(t[1..])
  }

  lemma {:induction false} BreaksApart(a: string, b: string)
    ensures WithoutBreaks(a + b) == WithoutBreaks(a) + WithoutBreaks(b)
  {
    if a == "" {
      assert a + b == b;
    } else {
      BreaksApart(a[1..], b);
      assert (a + b)[1..] == a[1..] + b;
      Associate(if a[0] == '\n' then "" else [a[0]], WithoutBreaks(a[1..]), WithoutBreaks(b));
    }
  }

  lemma {:induction false} NoBreaks(a: string)
    requires OneLine(a)
    ensures WithoutBreaks(a) == a
  {
    if a != "" {
      NoBreaks(a[1..]);
    }
  }

  lemma WithoutBreak(first: string, more: string)
    requires OneLine(first)
    ensures WithoutBreaks(first + ("\n" + more)) == first + WithoutBreaks(more)
  {
    NoBreaks(first);
    BreaksApart(first, "\n" + more);
    assert ("\n" + more)[1..] == more;
    assert "" + WithoutBreaks(more) == WithoutBreaks(more);
  }

  lemma SplitOnce(t: string)
    requires !OneLine(t)
    ensures Split(t)[0] == FirstLine(t) && Split(t)[1..] == Split(SkipLine(t)) && |Split(t)| > 1
  {
    Shorter(t);
  }

  /** Splitting keeps every character but the breaks, in order, and joining undoes it. */
  lemma {:induction false} SplitKeepsText(t: string)
    ensures Concat(Split(t)) == WithoutBreaks(t) && AllOneLine(Split(t)) && Join(Split(t)) == t
    decreases |t|
  {
    if OneLine(t) {
      NoBreaks(t);
      assert [t][1..] == [];
      assert t + "" == t;
    } else {
      Shorter(t);
      SplitKeepsText(SkipLine(t));
      SplitOnce(t);
      WithoutBreak(FirstLine(t), SkipLine(t));
    }
  }

  lemma {:induction false} NonEmptyKeepsText(ls: seq<string>)
    ensures Concat(NonEmpty(ls)) == Concat(ls)
    ensures forall l :: l in NonEmpty(ls) ==> l in ls && l != ""
  {
    if ls != [] {
      NonEmptyKeepsText(ls[1..]);
      if ls[0] != "" {
        assert ([ls[0]] + NonEmpty(ls[1..]))[1..] == NonEmpty(ls[1..]);
      } else {
        assert [] + NonEmpty(ls[1..]) == NonEmpty(ls[1..]);
        assert "" + Concat(ls[1..]) == Concat(ls[1..]);
      }
    }
  }

  /** Keeping the lines that are not empty, piece by piece. */
  lemma {:induction false} NonEmptyMeans(a: seq<string>, b: seq<string>)
    ensures NonEmpty(a + b) == NonEmpty(a) + NonEmpty(b)
  {
    if a == [] {
      assert a + b == b;
    } else {
      NonEmptyMeans(a[1..], b);
      NonEmptyFirst(a);
      NonEmptyFirst(a + b);
      assert (a + b)[0] == a[0] && (a + b)[1..] == a[1..] + b;
      Joined(NonEmpty([a[0]]), NonEmpty(a[1..]), NonEmpty(b));
    }
  }

  lemma NonEmptyFirst(a: seq<string>)
    requires a != []
    ensures NonEmpty(a) == NonEmpty([a[0]]) + NonEmpty(a[1..])
  {
    NonEmptyOne(a[0]);
  }

  /** A line is kept unless it is empty. */
  lemma NonEmptyOne(l: string)
    ensures NonEmpty([l]) == if l == "" then [] else [l]
  {
    assert [l][1..] == [] && NonEmpty([]) == [];
  }

  lemma Joined(a: seq<string>, b: seq<string>, c: seq<string>)
    ensures (a + b) + c == a + (b + c)
  {
  }

  lemma NonEmptySnoc(ls: seq<string>, l: string)
    ensures NonEmpty(ls + [l]) == NonEmpty(ls) + if l != "" then [l] else []
  {
    NonEmptyMeans(ls, [l]);
    NonEmptyOne(l);
  }

  /** The lines of the output that are not empty, in order, with nothing lost but the breaks. */
  method GetNonEmptyLines(output: string) returns (res: seq<string>)
    ensures res == NonEmpty(Split(output))
    ensures Concat(res) == WithoutBreaks(output)
    ensures forall i :: 0 <= i < |res| ==> res[i] != "" && OneLine(res[i])
  {
    var elements := Split(output);
    res := [];
    assert elements[..0] == [];
    for i := 0 to |elements|
      invariant res == NonEmpty(elements[..i])
    {
      assert elements[..i + 1] == elements[..i] + [elements[i]];
      NonEmptySnoc(elements[..i], elements[i]);
      if elements[i] != "" {
        res := res + [elements[i]];
      }
    }
    assert elements[..|elements|] == elements;
    SplitKeepsText(output);
    NonEmptyKeepsText(elements);
    assert forall i :: 0 <= i < |res| ==> res[i] in NonEmpty(elements);
  }

  // ---------- The parts spelled out ----------

  /** The pieces of a text as a scanner counts lines: without an empty last one. */
  function LinesOf(pieces: seq<string>): seq<string>
    requires pieces != []
  {
    if pieces[|pieces| - 1] == "" then pieces[..|pieces| - 1] else pieces
  }

  /** The tokens of a text are its pieces between line breaks, but for an empty last one, and without a
      carriage return at the end of each. */
  lemma {:induction false} TokensAreSplit(t: string)
    ensures Tokens(t) == DropAll(LinesOf(Split(t)))
    decreases |t|
  {
    if OneLine(t) {
      CutLine(t, "");
      assert Tokens("") == [];
    } else {
      Shorter(t);
      SplitOnce(t);
      TokensAreSplit(SkipLine(t));
      FirstToDrop(Split(t));
    }
  }

  lemma FirstToDrop(pieces: seq<string>)
    requires |pieces| > 1
    ensures DropAll(LinesOf(pieces)) == [DropCR(pieces[0])] + DropAll(LinesOf(pieces[1..]))
  {
    var rest := pieces[1..];
    assert rest[|rest| - 1] == pieces[|pieces| - 1];
    assert LinesOf(pieces) == [pieces[0]] + LinesOf(rest);
    assert LinesOf(pieces)[1..] == LinesOf(rest);
  }

  lemma DropMeans(l: string, r: string)
    ensures DropCR(l) == r <==> l == r + "\r" || (l == r && !(exists k: string :: l == k + "\r"))
  {
    if EndsCR(l) {
      assert l == l[..|l| - 1] + "\r";
      assert (r + "\r")[..|r|] == r;
    } else {
      forall k: string
        ensures l != k + "\r"
      {
        assert (k + "\r")[|k + "\r"| - 1] == '\r';
      }
    }
  }

  /** Any block of lines, commented or not: a line that starts with the prefix loses it, once, and any other
      line stays.  These are the only lines that the block can become. */
  lemma UncommentLines(before: string, ls: seq<string>, after: string, prefix: string, rs: seq<string>)
    requires ls != [] && AllOneLine(ls) && AllOneLine(rs) && |rs| == |ls|
    requires forall i :: 0 <= i < |ls| ==> ls[i] != "" && ls[i][|ls[i]| - 1] != '\r'
    requires Index(before + Join(ls) + after, Join(ls)) == Some(|before|)
    ensures Uncommented(before + Join(ls) + after, Join(ls), prefix) == Some(before + Join(rs) + after) <==>
            forall i :: 0 <= i < |ls| ==> ls[i] == prefix + rs[i] || (!(prefix <= ls[i]) && rs[i] == ls[i])
  {
    var block, content := Join(ls), before + Join(ls) + after;
    JoinNotEmpty(ls);
    Splice(before, block, after);
    TokensOfJoin(ls);
    assert DropAll(ls) == ls;
    var trimmed := TrimAll(ls, prefix);
    assert Uncommented(content, block, prefix) == Some(before + Join(trimmed) + after);
    if before + Join(trimmed) + after == before + Join(rs) + after {
      SameMiddle(before, Join(trimmed), Join(rs), after);
      TrimmedLines(ls, prefix);
      JoinInjective(trimmed, rs);
    }
    forall i | 0 <= i < |ls|
      ensures trimmed[i] == rs[i] <==> ls[i] == prefix + rs[i] || (!(prefix <= ls[i]) && rs[i] == ls[i])
    {
      TrimMeans(ls[i], prefix, rs[i]);
    }
    if forall i :: 0 <= i < |ls| ==> trimmed[i] == rs[i] {
      assert trimmed == rs;
    }
  }

  lemma TrimMeans(l: string, prefix: string, r: string)
    ensures TrimPrefix(l, prefix) == r <==> l == prefix + r || (!(prefix <= l) && r == l)
  {
    if prefix <= l {
      assert l == prefix + l[|prefix|..];
      assert (prefix + r)[|prefix|..] == r;
    } else {
      assert prefix <= prefix + r;
    }
  }

  lemma TrimmedLines(ls: seq<string>, prefix: string)
    requires AllOneLine(ls)
    ensures AllOneLine(TrimAll(ls, prefix))
  {
  }
}
