/** The line structure of the variables file, and renderPkrvars itself. */
module PkrvarsText {
  import opened Options
  import opened GoStrings
  import opened NodeImages
  import opened Utf8
  import opened Quoting
  import opened Pkrvars
  import opened TextLines

  // ---------- Lines ----------

  function Unlines(ls: seq<string>): string {
    if ls == [] then "" else ls[0] + ("\n" + Unlines(ls[1..]))
  }

  /** A text cut at its line breaks. */
  function Lines(t: string): seq<string>
    decreases |t|
  {
    if t == "" then [] else [FirstLine(t)] + Lines(SkipLine(t))
  }

  /** Cutting undoes joining. */
  lemma {:induction false} LinesUnlines(ls: seq<string>)
    requires AllOneLine(ls)
    ensures Lines(Unlines(ls)) == ls && Newlines(Unlines(ls)) == |ls|
  {
    if ls != [] {
      LinesUnlines(ls[1..]);
      CutLine(ls[0], Unlines(ls[1..]));
      assert ls == [ls[0]] + ls[1..];
    }
  }

  lemma {:induction false} UnlinesAppend(a: seq<string>, b: seq<string>)
    ensures Unlines(a + b) == Unlines(a) + Unlines(b)
  {
    if a == [] {
      assert a + b == b;
    } else {
      UnlinesAppend(a[1..], b);
      assert (a + b)[0] == a[0] && (a + b)[1..] == a[1..] + b;
      Associate("\n", Unlines(a[1..]), Unlines(b));
      Associate(a[0], "\n" + Unlines(a[1..]), Unlines(b));
    }
  }

  /** One line for every list item, in order. */
  function ItemLines(t: PrintTable, l: seq<GoString>): (r: seq<string>)
    ensures |r| == |l| && forall i :: 0 <= i < |l| ==> r[i] == "  " + (Quote(t, l[i]) + ",")
  {
    if l == [] then [] else ["  " + (Quote(t, l[0]) + ",")] + ItemLines(t, l[1..])
  }

  function ValueLines(t: PrintTable, a: Assignment): seq<string> {
    match a.value
    case Texts(l) =>
      if l == [] then [a.key + (" = " + "[]")]
      else [a.key + (" = " + "[")] + ItemLines(t, l) + ["]"]
    case _ => [a.key + (" = " + RenderValue(t, a.value))]
  }

  function BindingLines(t: PrintTable, a: seq<Assignment>): seq<string> {
    if a == [] then [] else ValueLines(t, a[0]) + BindingLines(t, a[1..])
  }

  /** The lines of the file: title, an empty line, and those of the fifteen assignments. */
  function FileLines(t: PrintTable, x: Input): seq<string> {
    [TITLE, ""] + BindingLines(t, Assignments(x))
  }

  /** How many lines a list takes. */
  function ListHeight(n: nat): nat {
    if n == 0 then 1 else n + 2
  }

  lemma {:induction false} ItemsAreLines(t: PrintTable, l: seq<GoString>)
    ensures RenderItems(t, l) == Unlines(ItemLines(t, l))
  {
    if l != [] {
      ItemsAreLines(t, l[1..]);
      var ls := ItemLines(t, l);
      assert ls[1..] == ItemLines(t, l[1..]);
      assert RenderItem(t, l[0]) == ls[0] + "\n";
    }
  }

  lemma UnlinesOne(line: string)
    ensures Unlines([line]) == line + "\n"
  {
    assert [line][1..] == [];
    assert "\n" + "" == "\n";
  }

  /** A bracketed block of lines, as one text. */
  lemma BracketLines(open: string, items: seq<string>, body: string)
    requires body == Unlines(items)
    ensures Unlines([open] + items + ["]"]) == ((open + "\n") + body) + ("]" + "\n")
  {
    UnlinesAppend([open] + items, ["]"]);
    UnlinesAppend([open], items);
    UnlinesOne(open);
    UnlinesOne("]");
  }

  lemma BracketText(key: string, body: string, open: string, end: string, sep: string)
    ensures key + (sep + ((open + (body + end)) + "\n")) == ((key + (sep + open)) + body) + (end + "\n")
  {
    Associate(open, body + end, "\n");
    Associate(body, end, "\n");
    Associate(sep, open, body + (end + "\n"));
    Associate(key, sep + open, body + (end + "\n"));
    Associate(key + (sep + open), body, end + "\n");
  }

  lemma OpenLine(key: string, sep: string, open: string)
    ensures key + (sep + (open + "\n")) == (key + (sep + open)) + "\n"
  {
    Associate(sep, open, "\n");
    Associate(key, sep + open, "\n");
  }

  lemma ListIsLines(t: PrintTable, key: string, l: seq<GoString>)
    requires l != []
    ensures RenderOne(t, Assignment(key, Texts(l))) == Unlines(ValueLines(t, Assignment(key, Texts(l))))
  {
    var body := RenderItems(t, l);
    ItemsAreLines(t, l);
    BracketLines(key + (" = " + "["), ItemLines(t, l), body);
    BracketText(key, body, "[" + "\n", "]", " = ");
    OpenLine(key, " = ", "[");
    assert "[\n" == "[" + "\n";
  }

  lemma ValueIsLines(t: PrintTable, a: Assignment)
    ensures RenderOne(t, a) == Unlines(ValueLines(t, a))
  {
    if a.value.Texts? && a.value.texts != [] {
      ListIsLines(t, a.key, a.value.texts);
    } else {
      UnlinesOne(a.key + (" = " + RenderValue(t, a.value)));
    }
  }

  lemma {:induction false} BindingsAreLines(t: PrintTable, a: seq<Assignment>)
    ensures RenderAll(t, a) == Unlines(BindingLines(t, a))
  {
    if a != [] {
      BindingsAreLines(t, a[1..]);
      ValueIsLines(t, a[0]);
      UnlinesAppend(ValueLines(t, a[0]), BindingLines(t, a[1..]));
    }
  }

  // ---------- No value breaks a line ----------

  lemma {:induction false} HexOneLine(n: nat, width: nat)
    ensures OneLine(Hex(n, width))
  {
    if width > 0 {
      HexOneLine(n / 16, width - 1);
    }
  }

  lemma RuneOneLine(t: PrintTable, r: nat)
    requires IsRune(r)
    ensures OneLine(QuoteRune(t, r))
  {
    HexOneLine(r, 2);
    HexOneLine(r, 4);
    HexOneLine(r, 8);
  }

  lemma {:induction false} QuoteOneLine(t: PrintTable, s: GoString)
    ensures OneLine(QuoteBody(t, s)) && OneLine(Quote(t, s))
    decreases |s|
  {
    if s != "" {
      QuoteOneLine(t, Rest(s));
      if Head(s).BadByte? {
        HexOneLine(s[0] as int, 2);
      } else {
        EncodeHead(s);
        RuneOneLine(t, Head(s).code);
      }
    }
  }

  lemma {:induction false} DigitsOneLine(n: nat)
    ensures OneLine(Digits(n))
  {
    if n >= 10 {
      DigitsOneLine(n / 10);
    }
  }

  lemma ValueOneLine(t: PrintTable, a: Assignment)
    requires IsKey(a.key)
    ensures AllOneLine(ValueLines(t, a))
    ensures |ValueLines(t, a)| == if a.value.Texts? then ListHeight(|a.value.texts|) else 1
  {
    assert OneLine(a.key);
    match a.value
    case Text(s) => QuoteOneLine(t, s);
    case Number(n) => DigitsOneLine(if n < 0 then 0 - n else n);
    case Texts(l) =>
      forall i | 0 <= i < |l|
        ensures OneLine(ItemLines(t, l)[i])
      {
        QuoteOneLine(t, l[i]);
      }
  }

  function Height(a: seq<Assignment>): nat {
    if a == [] then 0 else (if a[0].value.Texts? then ListHeight(|a[0].value.texts|) else 1) + Height(a[1..])
  }

  lemma {:induction false} BindingsOneLine(t: PrintTable, a: seq<Assignment>)
    requires forall i :: 0 <= i < |a| ==> IsKey(a[i].key)
    ensures AllOneLine(BindingLines(t, a)) && |BindingLines(t, a)| == Height(a)
  {
    if a != [] {
      ValueOneLine(t, a[0]);
      BindingsOneLine(t, a[1..]);
    }
  }

  lemma {:induction false} HeightOfTexts(a: seq<Assignment>)
    ensures (forall i :: 0 <= i < |a| ==> !a[i].value.Texts?) ==> Height(a) == |a|
  {
    if a != [] {
      HeightOfTexts(a[1..]);
    }
  }

  lemma {:induction false} HeightAppend(a: seq<Assignment>, b: seq<Assignment>)
    ensures Height(a + b) == Height(a) + Height(b)
  {
    if a == [] {
      assert a + b == b;
    } else {
      HeightAppend(a[1..], b);
      assert (a + b)[1..] == a[1..] + b;
    }
  }

  lemma ContentHeight(x: Input)
    ensures Height(Content(x)) == 3 + ListHeight(|Items(x.extraPackages)|) + ListHeight(|Items(x.sshAuthorizedKeys)|)
  {
    var a := Content(x);
    assert a == [a[0]] + ([a[1]] + a[2..]);
    HeightAppend([a[0]], [a[1]] + a[2..]);
    HeightAppend([a[1]], a[2..]);
    HeightOfTexts(a[2..]);
    assert [a[0]][1..] == [] && [a[1]][1..] == [];
  }

  lemma InputHeight(x: Input)
    ensures Height(Assignments(x)) ==
              13 + ListHeight(|Items(x.extraPackages)|) + ListHeight(|Items(x.sshAuthorizedKeys)|)
  {
    HeightAppend(Placement(x) + Identity(x), Content(x));
    HeightAppend(Placement(x), Identity(x));
    HeightOfTexts(Placement(x));
    HeightOfTexts(Identity(x));
    ContentHeight(x);
  }

  lemma FileIsLines(t: PrintTable, x: Input)
    ensures Render(t, x) == Unlines(FileLines(t, x))
  {
    KeysAreIdentifiers(x);
    BindingsAreLines(t, Assignments(x));
    var head := [TITLE, ""];
    UnlinesAppend(head, BindingLines(t, Assignments(x)));
    assert head[1..] == [""] && [""][1..] == [];
    assert Unlines([""]) == "\n";
    assert Unlines(head) == HEADER;
  }

  /** Line structure.  The rendered text has exactly the expected lines, whatever the values hold;
      in particular each list item has a line of its own, in order, and the number of line breaks is
      2 + 13 plus the heights of the two lists. */
  lemma LineStructure(t: PrintTable, x: Input)
    ensures Lines(Render(t, x)) == FileLines(t, x)
    ensures Newlines(Render(t, x)) ==
              2 + 13 + ListHeight(|Items(x.extraPackages)|) + ListHeight(|Items(x.sshAuthorizedKeys)|)
  {
    KeysAreIdentifiers(x);
    BindingsOneLine(t, Assignments(x));
    InputHeight(x);
    TitleIsOneLine();
    FileIsLines(t, x);
    LinesUnlines(FileLines(t, x));
  }

  // ---------- renderPkrvars ----------

  /** strings.Builder. */
  class Builder {
    var text: string

    constructor ()
      ensures text == ""
    {
      text := "";
    }

    method WriteString(s: string)
      modifies this
      ensures text == old(text) + s
    {
      text := text + s;
    }
  }

  /** The closures that write one assignment each. */
  method WriteText(b: Builder, t: PrintTable, key: string, value: GoString)
    modifies b
    ensures b.text == old(b.text) + RenderOne(t, Assignment(key, Text(value)))
  {
    b.WriteString(key + (" = " + (Quote(t, value) + "\n")));
  }

  method WriteNumber(b: Builder, t: PrintTable, key: string, value: int32)
    modifies b
    ensures b.text == old(b.text) + RenderOne(t, Assignment(key, Number(value)))
  {
    b.WriteString(key + (" = " + (Decimal(value) + "\n")));
  }

  /** The loop over the list items. */
  method WriteItems(b: Builder, t: PrintTable, values: seq<GoString>)
    modifies b
    ensures b.text == old(b.text) + RenderItems(t, values)
  {
    for i := 0 to |values|
      invariant b.text == old(b.text) + RenderItems(t, values[..i])
    {
      b.WriteString("  " + (Quote(t, values[i]) + ",\n"));
      NextItem(t, values, i, old(b.text));
    }
    assert values[..|values|] == values;
  }

  method WriteTexts(b: Builder, t: PrintTable, key: string, values: seq<GoString>)
    modifies b
    ensures b.text == old(b.text) + RenderOne(t, Assignment(key, Texts(values)))
  {
    if |values| == 0 {
      b.WriteString(key + (" = " + ("[]" + "\n")));
      return;
    }
    b.WriteString(key + (" = " + "[\n"));
    WriteItems(b, t, values);
    b.WriteString("]\n");
    ListText(old(b.text), key, RenderItems(t, values));
  }

  lemma ListText(before: string, key: string, items: string)
    ensures ((before + (key + (" = " + "[\n"))) + items) + "]\n" ==
              before + (key + (" = " + (("[\n" + (items + "]")) + "\n")))
  {
    assert ("[\n" + (items + "]")) + "\n" == "[\n" + (items + "]\n");
    Regroup(key, " = ", "[\n", items + "]\n");
  }

  lemma {:induction false} ItemsAppend(t: PrintTable, l: seq<GoString>, v: GoString)
    ensures RenderItems(t, l + [v]) == RenderItems(t, l) + RenderItem(t, v)
  {
    if l == [] {
      assert l + [v] == [v] && [v][1..] == [];
    } else {
      ItemsAppend(t, l[1..], v);
      assert (l + [v])[1..] == l[1..] + [v];
    }
  }

  lemma NextItem(t: PrintTable, l: seq<GoString>, i: nat, before: string)
    requires i < |l|
    ensures (before + RenderItems(t, l[..i])) + RenderItem(t, l[i]) == before + RenderItems(t, l[..i + 1])
  {
    assert l[..i + 1] == l[..i] + [l[i]];
    ItemsAppend(t, l[..i], l[i]);
    Associate(before, RenderItems(t, l[..i]), RenderItem(t, l[i]));
  }

  lemma Unfold(t: PrintTable, a: seq<Assignment>)
    requires a != []
    ensures RenderAll(t, a) == RenderOne(t, a[0]) + RenderAll(t, a[1..])
  {
  }

  /** Five assignments in a row. */
  lemma Five(t: PrintTable, a: seq<Assignment>)
    requires |a| == 5
    ensures RenderAll(t, a) == RenderOne(t, a[0]) + (RenderOne(t, a[1]) + (RenderOne(t, a[2]) +
                               (RenderOne(t, a[3]) + (RenderOne(t, a[4]) + ""))))
  {
    assert a[1..][1..] == a[2..] && a[2..][1..] == a[3..] && a[3..][1..] == a[4..] && a[4..][1..] == [];
    Unfold(t, a);
    Unfold(t, a[1..]);
    Unfold(t, a[2..]);
    Unfold(t, a[3..]);
    Unfold(t, a[4..]);
  }

  lemma Collect(s: string, a: string, b: string, c: string, d: string, e: string)
    ensures s + a + b + c + d + e == s + (a + (b + (c + (d + (e + "")))))
  {
  }

  function Each(t: PrintTable, a: seq<Assignment>): (r: seq<string>)
    ensures |r| == |a| && forall i :: 0 <= i < |a| ==> r[i] == RenderOne(t, a[i])
  {
    if a == [] then [] else [RenderOne(t, a[0])] + Each(t, a[1..])
  }

  lemma {:induction false} AllIsConcat(t: PrintTable, a: seq<Assignment>)
    ensures RenderAll(t, a) == Concat(Each(t, a))
  {
    if a != [] {
      AllIsConcat(t, a[1..]);
      assert Each(t, a)[1..] == Each(t, a[1..]);
    }
  }

  lemma EachAppend(t: PrintTable, a: seq<Assignment>, b: seq<Assignment>)
    ensures Each(t, a + b) == Each(t, a) + Each(t, b)
  {
    var l, r := Each(t, a + b), Each(t, a) + Each(t, b);
    forall i | 0 <= i < |l|
      ensures l[i] == r[i]
    {
      assert (a + b)[i] == if i < |a| then a[i] else b[i - |a|];
    }
  }

  lemma AllAppend(t: PrintTable, a: seq<Assignment>, b: seq<Assignment>)
    ensures RenderAll(t, a + b) == RenderAll(t, a) + RenderAll(t, b)
  {
    AllIsConcat(t, a);
    AllIsConcat(t, b);
    AllIsConcat(t, a + b);
    EachAppend(t, a, b);
    ConcatAppend(Each(t, a), Each(t, b));
  }

  method WritePlacement(b: Builder, t: PrintTable, x: Input)
    modifies b
    ensures b.text == old(b.text) + RenderAll(t, Placement(x))
  {
    WriteText(b, t, "proxmox_node", x.proxmoxNode);
    WriteText(b, t, "storage_pool", x.storagePool);
    WriteText(b, t, "iso_storage_pool", x.isoStoragePool);
    WriteText(b, t, "network_bridge", x.networkBridge);
    WriteNumber(b, t, "vm_id", x.vmid);
    Written(b.text, old(b.text), t, Placement(x));
  }

  method WriteIdentity(b: Builder, t: PrintTable, x: Input)
    modifies b
    ensures b.text == old(b.text) + RenderAll(t, Identity(x))
  {
    WriteText(b, t, "template_name", x.templateName);
    WriteText(b, t, "template_description", x.templateDescription);
    WriteText(b, t, "distribution_type", x.distributionType);
    WriteText(b, t, "distribution_version", x.distributionVersion);
    WriteText(b, t, "timezone", x.timezone);
    Written(b.text, old(b.text), t, Identity(x));
  }

  method WriteContent(b: Builder, t: PrintTable, x: Input)
    modifies b
    ensures b.text == old(b.text) + RenderAll(t, Content(x))
  {
    WriteTexts(b, t, "extra_packages", Items(x.extraPackages));
    WriteTexts(b, t, "ssh_authorized_keys", Items(x.sshAuthorizedKeys));
    WriteText(b, t, "iso_url", x.isoURL);
    WriteText(b, t, "iso_checksum", x.isoChecksum);
    WriteText(b, t, "iso_file", x.isoFile);
    Written(b.text, old(b.text), t, Content(x));
  }

  /** What five writes in a row have written. */
  lemma Written(text: string, before: string, t: PrintTable, a: seq<Assignment>)
    requires |a| == 5
    requires text == before + RenderOne(t, a[0]) + RenderOne(t, a[1]) + RenderOne(t, a[2]) + RenderOne(t, a[3])
                       + RenderOne(t, a[4])
    ensures text == before + RenderAll(t, a)
  {
    Five(t, a);
    Collect(before, RenderOne(t, a[0]), RenderOne(t, a[1]), RenderOne(t, a[2]), RenderOne(t, a[3]), RenderOne(t, a[4]));
  }

  /** renderPkrvars.  The text means exactly the input's assignments. */
  method RenderPkrvars(t: PrintTable, x: Input) returns (text: string)
    ensures text == Render(t, x)
    ensures ReadFile(GoLiteral, text) == Some(MeantAll(Assignments(x)))
  {
    var b := new Builder();
    b.WriteString(HEADER);
    WritePlacement(b, t, x);
    WriteIdentity(b, t, x);
    WriteContent(b, t, x);
    text := b.text;
    WholeFile(text, HEADER, t, x);
    RoundTrip(GoLiteral, t, x);
  }

  lemma WholeFile(text: string, head: string, t: PrintTable, x: Input)
    requires text == "" + head + RenderAll(t, Placement(x)) + RenderAll(t, Identity(x)) + RenderAll(t, Content(x))
    ensures text == head + RenderAll(t, Assignments(x))
  {
    AllAppend(t, Placement(x) + Identity(x), Content(x));
    AllAppend(t, Placement(x), Identity(x));
    Parts(head, RenderAll(t, Placement(x)), RenderAll(t, Identity(x)), RenderAll(t, Content(x)));
  }

  lemma Parts(head: string, a: string, b: string, c: string)
    ensures "" + head + a + b + c == head + ((a + b) + c)
  {
  }

  // ---------- The lines spelled out ----------

  lemma FirstLines(t: PrintTable, first: Assignment, more: seq<Assignment>)
    ensures BindingLines(t, [first] + more) == ValueLines(t, first) + BindingLines(t, more)
  {
    assert ([first] + more)[1..] == more;
  }

  lemma {:induction false} BindingLinesAppend(t: PrintTable, a: seq<Assignment>, b: seq<Assignment>)
    ensures BindingLines(t, a + b) == BindingLines(t, a) + BindingLines(t, b)
  {
    if a == [] {
      assert a + b == b;
      EmptyLines(t, b);
    } else {
      BindingLinesAppend(t, a[1..], b);
      FirstThenAppend(t, a[0], a[1..], b);
      assert a == [a[0]] + a[1..];
    }
  }

  lemma EmptyLines(t: PrintTable, b: seq<Assignment>)
    ensures BindingLines(t, b) == BindingLines(t, []) + BindingLines(t, b)
  {
  }

  lemma FirstThenAppend(t: PrintTable, first: Assignment, a: seq<Assignment>, b: seq<Assignment>)
    requires BindingLines(t, a + b) == BindingLines(t, a) + BindingLines(t, b)
    ensures BindingLines(t, ([first] + a) + b) == BindingLines(t, [first] + a) + BindingLines(t, b)
  {
    SameList(first, a, b);
    FirstLines(t, first, a);
    FirstLines(t, first, a + b);
    ChainLines(ValueLines(t, first), BindingLines(t, a), BindingLines(t, b), BindingLines(t, a + b),
               BindingLines(t, [first] + a), BindingLines(t, [first] + (a + b)));
  }

  lemma SameList(first: Assignment, a: seq<Assignment>, b: seq<Assignment>)
    ensures ([first] + a) + b == [first] + (a + b)
  {
  }

  lemma ChainLines(
    v: seq<string>, a: seq<string>, b: seq<string>, ab: seq<string>, va: seq<string>, vab: seq<string>)
    requires ab == a + b && va == v + a && vab == v + ab
    ensures vab == va + b
  {
  }

  lemma LineTail(t: PrintTable, a: seq<Assignment>)
    requires a != []
    ensures BindingLines(t, a) == ValueLines(t, a[0]) + BindingLines(t, a[1..])
  {
  }

  lemma FiveLines(t: PrintTable, a: seq<Assignment>)
    requires |a| == 5
    ensures BindingLines(t, a) == ValueLines(t, a[0]) + (ValueLines(t, a[1]) + (ValueLines(t, a[2]) +
                                  (ValueLines(t, a[3]) + ValueLines(t, a[4]))))
  {
    LineTail(t, a);
    LineTail(t, a[1..]);
    LineTail(t, a[2..]);
    LineTail(t, a[3..]);
    LineTail(t, a[4..]);
    assert a[1..][1..] == a[2..] && a[2..][1..] == a[3..] && a[3..][1..] == a[4..] && a[4..][1..] == [];
    assert ValueLines(t, a[4]) + [] == ValueLines(t, a[4]);
  }

  lemma PlacementLines(t: PrintTable, x: Input)
    ensures BindingLines(t, Placement(x)) ==
              [ "proxmox_node" + (" = " + Quote(t, x.proxmoxNode)),
                "storage_pool" + (" = " + Quote(t, x.storagePool)),
                "iso_storage_pool" + (" = " + Quote(t, x.isoStoragePool)),
                "network_bridge" + (" = " + Quote(t, x.networkBridge)),
                "vm_id" + (" = " + Decimal(x.vmid as int)) ]
  {
    FiveLines(t, Placement(x));
  }

  lemma IdentityLines(t: PrintTable, x: Input)
    ensures BindingLines(t, Identity(x)) ==
              [ "template_name" + (" = " + Quote(t, x.templateName)),
                "template_description" + (" = " + Quote(t, x.templateDescription)),
                "distribution_type" + (" = " + Quote(t, x.distributionType)),
                "distribution_version" + (" = " + Quote(t, x.distributionVersion)),
                "timezone" + (" = " + Quote(t, x.timezone)) ]
  {
    FiveLines(t, Identity(x));
  }

  /** A list is one line if it is empty, and else one line for each item between two brackets. */
  lemma ListLines(t: PrintTable, key: string, l: seq<GoString>)
    ensures var r := ValueLines(t, Assignment(key, Texts(l)));
            && (|l| == 0 ==> r == [key + (" = " + "[]")])
            && (|l| > 0 ==>
                  && |r| == |l| + 2 && r[0] == key + (" = " + "[") && r[|l| + 1] == "]"
                  && forall i :: 0 <= i < |l| ==> r[i + 1] == "  " + (Quote(t, l[i]) + ","))
  {
  }

  lemma ContentLines(t: PrintTable, x: Input)
    ensures BindingLines(t, Content(x)) ==
              ValueLines(t, Assignment("extra_packages", Texts(Items(x.extraPackages))))
              + (ValueLines(t, Assignment("ssh_authorized_keys", Texts(Items(x.sshAuthorizedKeys))))
                 + [ "iso_url" + (" = " + Quote(t, x.isoURL)),
                     "iso_checksum" + (" = " + Quote(t, x.isoChecksum)),
                     "iso_file" + (" = " + Quote(t, x.isoFile)) ])
  {
    FiveLines(t, Content(x));
  }

  lemma TitleMeans()
    ensures TITLE == "# Generated by karpenter-provider-pve. Do not edit."
  {
  }

  /** The lines of the file, spelled out but for those of the two lists. */
  lemma FileLinesMean(t: PrintTable, x: Input)
    ensures Lines(Render(t, x)) ==
              ["# Generated by karpenter-provider-pve. Do not edit.", ""]
              + [ "proxmox_node" + (" = " + Quote(t, x.proxmoxNode)),
                  "storage_pool" + (" = " + Quote(t, x.storagePool)),
                  "iso_storage_pool" + (" = " + Quote(t, x.isoStoragePool)),
                  "network_bridge" + (" = " + Quote(t, x.networkBridge)),
                  "vm_id" + (" = " + Decimal(x.vmid as int)) ]
              + [ "template_name" + (" = " + Quote(t, x.templateName)),
                  "template_description" + (" = " + Quote(t, x.templateDescription)),
                  "distribution_type" + (" = " + Quote(t, x.distributionType)),
                  "distribution_version" + (" = " + Quote(t, x.distributionVersion)),
                  "timezone" + (" = " + Quote(t, x.timezone)) ]
              + (ValueLines(t, Assignment("extra_packages", Texts(
                               if x.extraPackages.Some? then x.extraPackages.value else [])))
                 + (ValueLines(t, Assignment("ssh_authorized_keys", Texts(
                                 if x.sshAuthorizedKeys.Some? then x.sshAuthorizedKeys.value else [])))
                    + [ "iso_url" + (" = " + Quote(t, x.isoURL)),
                        "iso_checksum" + (" = " + Quote(t, x.isoChecksum)),
                        "iso_file" + (" = " + Quote(t, x.isoFile)) ]))
    ensures Unlines(Lines(Render(t, x))) == Render(t, x)
  {
    LineStructure(t, x);
    BindingLinesAppend(t, Placement(x) + Identity(x), Content(x));
    BindingLinesAppend(t, Placement(x), Identity(x));
    PlacementLines(t, x);
    IdentityLines(t, x);
    ContentLines(t, x);
    TitleMeans();
    FourParts([TITLE, ""], BindingLines(t, Placement(x)), BindingLines(t, Identity(x)), BindingLines(t, Content(x)));
    FileIsLines(t, x);
  }

  lemma FourParts(a: seq<string>, b: seq<string>, c: seq<string>, d: seq<string>)
    ensures a + ((b + c) + d) == a + b + c + d
  {
  }
}
