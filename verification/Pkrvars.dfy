/** The Packer variables file of a build: its printer, a reader for it, and what the two say about
    each other. */
module Pkrvars {
  import opened Options
  import opened GoStrings
  import opened NodeImages
  import opened Quoting
  import opened TextLines

  /** pkrvarsInput.  A nil list and an empty one are different values of this type. */
  datatype Input = Input(
    proxmoxNode: GoString,
    storagePool: GoString,
    isoStoragePool: GoString,
    networkBridge: GoString,
    vmid: int32,
    templateName: GoString,
    templateDescription: GoString,
    distributionType: GoString,
    distributionVersion: GoString,
    timezone: GoString,
    extraPackages: Option<seq<GoString>>,
    sshAuthorizedKeys: Option<seq<GoString>>,
    isoURL: GoString,
    isoChecksum: GoString,
    isoFile: GoString)

  function Items(l: Option<seq<GoString>>): seq<GoString> {
    if l.Some? then l.value else []
  }

  // ---------- The meaning of the text: a list of assignments ----------

  datatype Value = Text(text: GoString) | Number(number: int32) | Texts(texts: seq<GoString>)

  datatype Assignment = Assignment(key: string, value: Value)

  /** Where the build runs. */
  function Placement(x: Input): seq<Assignment> {
    [ Assignment("proxmox_node", Text(x.proxmoxNode)),
      Assignment("storage_pool", Text(x.storagePool)),
      Assignment("iso_storage_pool", Text(x.isoStoragePool)),
      Assignment("network_bridge", Text(x.networkBridge)),
      Assignment("vm_id", Number(x.vmid)) ]
  }

  /** What is built. */
  function Identity(x: Input): seq<Assignment> {
    [ Assignment("template_name", Text(x.templateName)),
      Assignment("template_description", Text(x.templateDescription)),
      Assignment("distribution_type", Text(x.distributionType)),
      Assignment("distribution_version", Text(x.distributionVersion)),
      Assignment("timezone", Text(x.timezone)) ]
  }

  /** What goes into it. */
  function Content(x: Input): seq<Assignment> {
    [ Assignment("extra_packages", Texts(Items(x.extraPackages))),
      Assignment("ssh_authorized_keys", Texts(Items(x.sshAuthorizedKeys))),
      Assignment("iso_url", Text(x.isoURL)),
      Assignment("iso_checksum", Text(x.isoChecksum)),
      Assignment("iso_file", Text(x.isoFile)) ]
  }

  function Assignments(x: Input): seq<Assignment> {
    Placement(x) + Identity(x) + Content(x)
  }

  /** The length and the first letter of each key. */
  const KEY_PRINTS: seq<(nat, char)> :=
    [ (12, 'p'), (12, 's'), (16, 'i'), (14, 'n'), (5, 'v'), (13, 't'), (20, 't'), (17, 'd'), (20, 'd'), (8, 't'),
      (14, 'e'), (19, 's'), (7, 'i'), (12, 'i'), (8, 'i') ]

  predicate Printed(a: seq<Assignment>, from: nat) {
    from + |a| <= |KEY_PRINTS| &&
    forall i :: 0 <= i < |a| ==> a[i].key != "" && (|a[i].key|, a[i].key[0]) == KEY_PRINTS[from + i]
  }

  lemma KeyPrints(x: Input)
    ensures Printed(Placement(x), 0) && Printed(Identity(x), 5) && Printed(Content(x), 10)
  {
  }

  /** Fifteen keys, each assigned once. */
  lemma KeysDistinct(x: Input)
    ensures |Assignments(x)| == 15
    ensures forall i, j :: 0 <= i < j < 15 ==> Assignments(x)[i].key != Assignments(x)[j].key
  {
    KeyPrints(x);
    assert Printed(Assignments(x), 0);
    assert forall i, j :: 0 <= i < j < 15 ==> KEY_PRINTS[i] != KEY_PRINTS[j];
  }

  lemma ShortKeys()
    ensures IsKey("vm_id") && IsKey("timezone") && IsKey("iso_url") && IsKey("iso_file") && IsKey("iso_checksum")
    ensures IsKey("proxmox_node") && IsKey("storage_pool")
  {
  }

  lemma LongKeys()
    ensures IsKey("iso_storage_pool") && IsKey("network_bridge") && IsKey("template_name") && IsKey("extra_packages")
  {
  }

  lemma LongerKeys()
    ensures IsKey("template_description") && IsKey("distribution_type") && IsKey("distribution_version")
    ensures IsKey("ssh_authorized_keys")
  {
  }

  predicate Named(a: seq<Assignment>) {
    forall i :: 0 <= i < |a| ==> IsKey(a[i].key)
  }

  /** All keys are identifiers. */
  lemma KeysAreIdentifiers(x: Input)
    ensures Named(Assignments(x))
  {
    ShortKeys();
    LongKeys();
    LongerKeys();
    assert Named(Placement(x)) && Named(Identity(x)) && Named(Content(x));
  }

  /** The assignments tell the input, up to nil lists. */
  function Normal(x: Input): Input {
    x.(extraPackages := Some(Items(x.extraPackages)), sshAuthorizedKeys := Some(Items(x.sshAuthorizedKeys)))
  }

  lemma AssignmentsTell(x: Input, y: Input)
    ensures Assignments(x) == Assignments(y) <==> Normal(x) == Normal(y)
  {
    var a, b := Assignments(x), Assignments(y);
    assert a[..5] == Placement(x) && a[5..10] == Identity(x) && a[10..] == Content(x);
    assert b[..5] == Placement(y) && b[5..10] == Identity(y) && b[10..] == Content(y);
    if a == b {
      PartsTell(x, y);
    }
  }

  lemma PartsTell(x: Input, y: Input)
    requires Placement(x) == Placement(y) && Identity(x) == Identity(y) && Content(x) == Content(y)
    ensures Normal(x) == Normal(y)
  {
    var p, q := Placement(x), Placement(y);
    assert p[0] == q[0] && p[1] == q[1] && p[2] == q[2] && p[3] == q[3] && p[4] == q[4];
    p, q := Identity(x), Identity(y);
    assert p[0] == q[0] && p[1] == q[1] && p[2] == q[2] && p[3] == q[3] && p[4] == q[4];
    p, q := Content(x), Content(y);
    assert p[0] == q[0] && p[1] == q[1] && p[2] == q[2] && p[3] == q[3] && p[4] == q[4];
  }

  // ---------- Printing ----------

  function Digits(n: nat): (s: string)
    ensures s != "" && IsDigit(s[0])
  {
    if n < 10 then [Digit(n)] else Digits(n / 10) + [Digit(n % 10)]
  }

  function Digit(n: nat): char
    requires n < 10
  {
    '0' + n as char
  }

  function Decimal(n: int): string {
    if n < 0 then "-" + Digits(-n) else Digits(n)
  }

  /** Numbers are decimal digits without leading zeros, behind a minus sign if negative. */
  lemma {:induction false} DigitsMean(n: nat)
    ensures forall i :: 0 <= i < |Digits(n)| ==> IsDigit(Digits(n)[i])
    ensures n > 0 ==> Digits(n)[0] != '0'
    ensures n == 0 ==> Digits(n) == "0"
    ensures n > 0 ==> Decimal(0 - n) == "-" + Digits(n) && Decimal(n) == Digits(n)
  {
    if n >= 10 {
      DigitsMean(n / 10);
    }
  }

  function RenderItem(t: PrintTable, v: GoString): string {
    "  " + (Quote(t, v) + ",\n")
  }

  function RenderItems(t: PrintTable, l: seq<GoString>): string {
    if l == [] then "" else RenderItem(t, l[0]) + RenderItems(t, l[1..])
  }

  function RenderValue(t: PrintTable, v: Value): string {
    match v
    case Text(s) => Quote(t, s)
    case Number(n) => Decimal(n)
    case Texts(l) => if l == [] then "[]" else "[\n" + (RenderItems(t, l) + "]")
  }

  function RenderOne(t: PrintTable, a: Assignment): string {
    a.key + (" = " + (RenderValue(t, a.value) + "\n"))
  }

  function RenderAll(t: PrintTable, a: seq<Assignment>): string {
    if a == [] then "" else RenderOne(t, a[0]) + RenderAll(t, a[1..])
  }

  const TITLE := "# Generated by " + ("karpenter-provider-pve." + " Do not edit.")
  const HEADER := TITLE + "\n\n"

  function Render(t: PrintTable, x: Input): string {
    HEADER + RenderAll(t, Assignments(x))
  }

  // ---------- Reading ----------

  predicate IsKeyChar(c: char) {
    'a' <= c <= 'z' || c == '_'
  }

  predicate IsKey(k: string) {
    k != "" && forall i :: 0 <= i < |k| ==> IsKeyChar(k[i])
  }

  predicate IsDigit(c: char) {
    '0' <= c <= '9'
  }

  function SkipSpaces(t: string): (r: string)
    ensures |r| <= |t|
  {
    if t != "" && t[0] == ' ' then SkipSpaces(t[1..]) else t
  }

  function SkipBlank(t: string): (r: string)
    ensures |r| <= |t|
  {
    if t != "" && (t[0] == ' ' || t[0] == '\n') then SkipBlank(t[1..]) else t
  }

  function ReadKey(t: string): (p: (string, string))
    ensures |p.0| + |p.1| == |t|
  {
    if t != "" && IsKeyChar(t[0]) then var p := ReadKey(t[1..]); ([t[0]] + p.0, p.1) else ("", t)
  }

  function ReadDigits(t: string, acc: int): (p: (int, string))
    ensures |p.1| <= |t|
  {
    if t != "" && IsDigit(t[0]) then ReadDigits(t[1..], 10 * acc + (t[0] as int - '0' as int)) else (acc, t)
  }

  function Read(n: int, rest: string): Parsed<int> {
    Some((n, rest))
  }

  function ReadNumber(t: string): (p: Parsed<int>)
    ensures p.Some? ==> |p.value.1| <= |t|
  {
    if t != "" && IsDigit(t[0]) then var p := ReadDigits(t, 0); Read(p.0, p.1)
    else if |t| >= 2 && t[0] == '-' && IsDigit(t[1]) then var p := ReadDigits(t[1..], 0); Read(-p.0, p.1)
    else None
  }

  /** What is read: strings need not come from a printer, so they are any text. */
  datatype Reading = TextRead(text: string) | NumberRead(number: int) | TextsRead(texts: seq<string>)

  /** The elements of a list, each followed by a comma unless it is the last, and the bracket. */
  function ReadItems(d: Dialect, t: string): (p: Parsed<seq<string>>)
    ensures p.Some? ==> |p.value.1| <= |t|
    decreases |t|
  {
    var u := SkipBlank(t);
    if u != "" && u[0] == ']' then Some(([], u[1..]))
    else
      var s := ReadString(d, u);
      if s.None? then None
      else
        var w := SkipBlank(s.value.1);
        if w != "" && w[0] == ',' then
          var more := ReadItems(d, w[1..]);
          if more.None? then None else Some(([s.value.0] + more.value.0, more.value.1))
        else if w != "" && w[0] == ']' then Some(([s.value.0], w[1..]))
        else None
  }

  function ReadValue(d: Dialect, t: string): (p: Parsed<Reading>)
    ensures p.Some? ==> |p.value.1| <= |t|
  {
    if t != "" && t[0] == '"' then
      var s := ReadString(d, t);
      if s.None? then None else Some((TextRead(s.value.0), s.value.1))
    else if t != "" && t[0] == '[' then
      var l := ReadItems(d, t[1..]);
      if l.None? then None else Some((TextsRead(l.value.0), l.value.1))
    else
      var n := ReadNumber(t);
      if n.None? then None else Some((NumberRead(n.value.0), n.value.1))
  }

  datatype Binding = Binding(key: string, value: Reading)

  function ReadBinding(d: Dialect, t: string): (p: Parsed<Binding>)
    ensures p.Some? ==> |p.value.1| < |t|
  {
    var k := ReadKey(t);
    var u := SkipSpaces(k.1);
    if k.0 == "" || u == "" || u[0] != '=' then None
    else
      var v := ReadValue(d, SkipSpaces(u[1..]));
      if v.None? || v.value.1 == "" || v.value.1[0] != '\n' then None
      else Some((Binding(k.0, v.value.0), v.value.1[1..]))
  }

  /** A file: comments, empty lines and bindings. */
  function ReadFile(d: Dialect, t: string): Option<seq<Binding>>
    decreases |t|
  {
    if t == "" then Some([])
    else if t[0] == '\n' then ReadFile(d, t[1..])
    else if t[0] == '#' then ReadFile(d, SkipLine(t[1..]))
    else
      var b := ReadBinding(d, t);
      if b.None? then None
      else
        var more := ReadFile(d, b.value.1);
        if more.None? then None else Some([b.value.0] + more.value)
  }

  // ---------- The round trip ----------

  function Meant(v: Value): Reading {
    match v
    case Text(s) => TextRead(s)
    case Number(n) => NumberRead(n)
    case Texts(l) => TextsRead(l)
  }

  function MeantAll(a: seq<Assignment>): (r: seq<Binding>)
    ensures |r| == |a| && forall i :: 0 <= i < |a| ==> r[i] == Binding(a[i].key, Meant(a[i].value))
  {
    if a == [] then [] else [Binding(a[0].key, Meant(a[0].value))] + MeantAll(a[1..])
  }

  lemma MeantAppend(a: seq<Assignment>, b: seq<Assignment>)
    ensures MeantAll(a + b) == MeantAll(a) + MeantAll(b)
  {
    var l, r := MeantAll(a + b), MeantAll(a) + MeantAll(b);
    forall i | 0 <= i < |a| + |b|
      ensures l[i] == r[i]
    {
      assert (a + b)[i] == if i < |a| then a[i] else b[i - |a|];
    }
  }

  lemma FiveMeant(a: seq<Assignment>)
    requires |a| == 5
    ensures MeantAll(a) == [ Binding(a[0].key, Meant(a[0].value)), Binding(a[1].key, Meant(a[1].value)),
                             Binding(a[2].key, Meant(a[2].value)), Binding(a[3].key, Meant(a[3].value)),
                             Binding(a[4].key, Meant(a[4].value)) ]
  {
  }

  lemma PlacementMeans(x: Input)
    ensures MeantAll(Placement(x)) ==
              [ Binding("proxmox_node", TextRead(x.proxmoxNode)),
                Binding("storage_pool", TextRead(x.storagePool)),
                Binding("iso_storage_pool", TextRead(x.isoStoragePool)),
                Binding("network_bridge", TextRead(x.networkBridge)),
                Binding("vm_id", NumberRead(x.vmid as int)) ]
  {
    FiveMeant(Placement(x));
  }

  lemma IdentityMeans(x: Input)
    ensures MeantAll(Identity(x)) ==
              [ Binding("template_name", TextRead(x.templateName)),
                Binding("template_description", TextRead(x.templateDescription)),
                Binding("distribution_type", TextRead(x.distributionType)),
                Binding("distribution_version", TextRead(x.distributionVersion)),
                Binding("timezone", TextRead(x.timezone)) ]
  {
    FiveMeant(Identity(x));
  }

  lemma ContentMeans(x: Input)
    ensures MeantAll(Content(x)) ==
              [ Binding("extra_packages", TextsRead(Items(x.extraPackages))),
                Binding("ssh_authorized_keys", TextsRead(Items(x.sshAuthorizedKeys))),
                Binding("iso_url", TextRead(x.isoURL)),
                Binding("iso_checksum", TextRead(x.isoChecksum)),
                Binding("iso_file", TextRead(x.isoFile)) ]
  {
    FiveMeant(Content(x));
  }

  predicate AllSurvive(d: Dialect, l: seq<GoString>) {
    forall i :: 0 <= i < |l| ==> Survives(d, l[i])
  }

  predicate ValueSurvives(d: Dialect, v: Value) {
    match v
    case Text(s) => Survives(d, s)
    case Number(_) => true
    case Texts(l) => AllSurvive(d, l)
  }

  predicate EachSurvives(d: Dialect, a: seq<Assignment>) {
    forall i :: 0 <= i < |a| ==> ValueSurvives(d, a[i].value)
  }

  /** Ten to the number of digits. */
  function Width(n: nat): nat {
    if n < 10 then 10 else 10 * Width(n / 10)
  }

  lemma {:induction false} DigitsReadOn(n: nat, acc: nat, more: string)
    ensures ReadDigits(Digits(n) + more, acc) == ReadDigits(more, acc * Width(n) + n)
  {
    if n < 10 {
      assert (Digits(n) + more)[1..] == more;
    } else {
      var last := [Digit(n % 10)];
      assert Digits(n) + more == Digits(n / 10) + (last + more);
      DigitsReadOn(n / 10, acc, last + more);
      assert (last + more)[1..] == more;
      Shift(acc, Width(n / 10), n);
    }
  }

  lemma Shift(acc: nat, w: nat, n: nat)
    ensures 10 * (acc * w + n / 10) + n % 10 == acc * (10 * w) + n
  {
    assert 10 * (acc * w) == acc * (10 * w);
  }

  lemma NumberReads(n: int, more: string)
    requires more == "" || !IsDigit(more[0])
    ensures ReadNumber(Decimal(n) + more) == Some((n, more))
  {
    if n < 0 {
      NegativeReads(0 - n, more);
    } else {
      DigitsReadOn(n, 0, more);
    }
  }

  lemma NegativeReads(m: nat, more: string)
    requires m > 0 && (more == "" || !IsDigit(more[0]))
    ensures ReadNumber(Decimal(0 - m) + more) == Some((0 - m, more))
  {
    DigitsReadOn(m, 0, more);
    MinusReads(Digits(m) + more, m, more);
    DigitsMean(m);
    MinusFirst(Digits(m), more);
  }

  lemma MinusFirst(digits: string, more: string)
    ensures ("-" + digits) + more == "-" + (digits + more)
  {
  }

  lemma MinusReads(t: string, m: int, more: string)
    requires t != "" && IsDigit(t[0]) && ReadDigits(t, 0) == (m, more)
    ensures ReadNumber("-" + t) == Some((0 - m, more))
  {
    assert ("-" + t)[1..] == t;
  }

  lemma {:induction false} KeyReads(k: string, more: string)
    requires forall i :: 0 <= i < |k| ==> IsKeyChar(k[i])
    requires more != "" && !IsKeyChar(more[0])
    ensures ReadKey(k + more) == (k, more)
  {
    if k == "" {
      assert k + more == more;
    } else {
      KeyReads(k[1..], more);
      assert (k + more)[1..] == k[1..] + more;
      assert [k[0]] + k[1..] == k;
    }
  }

  lemma BlankSkips(x: string)
    requires x == "" || (x[0] != ' ' && x[0] != '\n')
    ensures SkipBlank("\n" + x) == x && SkipBlank("\n" + ("  " + x)) == x
  {
    assert ("\n" + x)[1..] == x;
    var y := "  " + x;
    assert ("\n" + y)[1..] == y && y[1..][1..] == x;
    assert SkipBlank("\n" + y) == SkipBlank(y) == SkipBlank(y[1..]) == SkipBlank(x);
  }

  /** Reading a list whose first element reads as `s` and is followed by a comma. */
  lemma ItemStep(d: Dialect, t: string, item: string, s: Parsed<string>, next: string)
    requires SkipBlank(t) == item && item != "" && item[0] == '"' && ReadString(d, item) == s
    requires s.Some? ==> s.value.1 == "," + next
    ensures ReadItems(d, t) ==
              if s.None? then None
              else
                var more := ReadItems(d, next);
                if more.None? then None else Some(([s.value.0] + more.value.0, more.value.1))
  {
    assert ("," + next)[1..] == next;
    assert SkipBlank("," + next) == "," + next;
  }

  lemma ListEnds(d: Dialect, more: string)
    ensures ReadItems(d, "\n" + ("]" + more)) == Some(([], more))
    ensures ReadItems(d, "]" + more) == Some(([], more))
  {
    BlankSkips("]" + more);
    assert ("]" + more)[1..] == more;
  }

  /** The list read is the list written if and only if head and tail are. */
  lemma ItemsCombine(d: Dialect, l: seq<GoString>, s: Parsed<string>, rest: Parsed<seq<string>>)
    requires l != []
    requires s.Some? && s.value.0 == l[0] <==> Survives(d, l[0])
    requires rest.Some? && rest.value.0 == l[1..] <==> AllSurvive(d, l[1..])
    ensures s.Some? && rest.Some? && [s.value.0] + rest.value.0 == l <==> AllSurvive(d, l)
  {
    assert l == [l[0]] + l[1..];
    if s.Some? && rest.Some? {
      var r := [s.value.0] + rest.value.0;
      assert r[1..] == rest.value.0 && r[0] == s.value.0;
    }
    assert AllSurvive(d, l) ==> Survives(d, l[0]) && AllSurvive(d, l[1..]);
    if Survives(d, l[0]) && AllSurvive(d, l[1..]) {
      forall i | 0 <= i < |l|
        ensures Survives(d, l[i])
      {
        assert i == 0 || l[i] == l[1..][i - 1];
      }
    }
  }

  lemma ItemText(t: PrintTable, l: seq<GoString>, close: string)
    requires l != []
    ensures RenderItems(t, l) + close ==
              "  " + (Quote(t, l[0]) + ("," + ("\n" + (RenderItems(t, l[1..]) + close))))
  {
    Regroup("  ", Quote(t, l[0]), ",\n", RenderItems(t, l[1..]) + close);
    assert RenderItems(t, l) + close == RenderItem(t, l[0]) + (RenderItems(t, l[1..]) + close);
    assert ",\n" + (RenderItems(t, l[1..]) + close) == "," + ("\n" + (RenderItems(t, l[1..]) + close));
  }

  lemma Regroup(a: string, b: string, c: string, d: string)
    ensures (a + (b + c)) + d == a + (b + (c + d))
  {
  }

  lemma {:induction false} ItemsRead(d: Dialect, t: PrintTable, l: seq<GoString>, more: string)
    ensures var p := ReadItems(d, "\n" + (RenderItems(t, l) + ("]" + more)));
            && (p.Some? ==> p.value.1 == more)
            && (p.Some? && p.value.0 == l <==> AllSurvive(d, l))
  {
    var close := "]" + more;
    var body := "\n" + (RenderItems(t, l) + close);
    if l == [] {
      assert RenderItems(t, l) + close == close;
      ListEnds(d, more);
    } else {
      var next := "\n" + (RenderItems(t, l[1..]) + close);
      var item := Quote(t, l[0]) + ("," + next);
      ItemText(t, l, close);
      BlankSkips(item);
      StringReads(d, t, l[0], "," + next);
      ItemStep(d, body, item, ReadString(d, item), next);
      ItemsRead(d, t, l[1..], more);
      ItemsCombine(d, l, ReadString(d, item), ReadItems(d, next));
    }
  }

  lemma NumberValueReads(d: Dialect, n: int32, more: string)
    requires more != "" && more[0] == '\n'
    ensures ReadValue(d, Decimal(n) + more) == Some((NumberRead(n), more))
    ensures Decimal(n)[0] != ' '
  {
    NumberReads(n, more);
  }

  lemma Bracketed(items: string, more: string)
    ensures var text := ("[\n" + (items + "]")) + more;
            text[0] == '[' && text[1..] == "\n" + (items + ("]" + more))
    ensures ("[]" + more)[1..] == "]" + more
  {
  }

  lemma ListValueReads(d: Dialect, t: PrintTable, l: seq<GoString>, more: string)
    ensures var p := ReadValue(d, RenderValue(t, Texts(l)) + more);
            && (p.Some? ==> p.value.1 == more)
            && (p.Some? && p.value.0 == TextsRead(l) <==> AllSurvive(d, l))
  {
    Bracketed(RenderItems(t, l), more);
    if l == [] {
      ListEnds(d, more);
      OpenBracket(d, "[]" + more, "]" + more);
    } else {
      ItemsRead(d, t, l, more);
      OpenBracket(d, ("[\n" + (RenderItems(t, l) + "]")) + more, "\n" + (RenderItems(t, l) + ("]" + more)));
    }
  }

  lemma OpenBracket(d: Dialect, t: string, inside: string)
    requires t != "" && t[0] == '[' && t[1..] == inside
    ensures var l := ReadItems(d, inside);
            ReadValue(d, t) == if l.None? then None else Some((TextsRead(l.value.0), l.value.1))
  {
  }

  lemma ValueReads(d: Dialect, t: PrintTable, v: Value, more: string)
    requires more != "" && more[0] == '\n'
    ensures var p := ReadValue(d, RenderValue(t, v) + more);
            && (p.Some? ==> p.value.1 == more)
            && (p.Some? && p.value.0 == Meant(v) <==> ValueSurvives(d, v))
    ensures RenderValue(t, v) != "" && RenderValue(t, v)[0] != ' '
  {
    match v
    case Text(s) => StringReads(d, t, s, more);
    case Number(n) => NumberValueReads(d, n, more);
    case Texts(l) => ListValueReads(d, t, l, more);
  }

  lemma EqualsReads(text: string)
    requires text != "" && text[0] != ' '
    ensures SkipSpaces(" = " + text) == "= " + text
    ensures ("= " + text)[1..] == " " + text && SkipSpaces(" " + text) == text
  {
    SpaceSkips("= " + text);
    SpaceSkips(text);
    assert " = " + text == " " + ("= " + text);
  }

  lemma SpaceSkips(t: string)
    requires t != "" && t[0] != ' '
    ensures SkipSpaces(" " + t) == t
  {
    assert (" " + t)[1..] == t;
  }

  lemma BindingReads(d: Dialect, t: PrintTable, a: Assignment, more: string)
    requires IsKey(a.key)
    ensures var p := ReadBinding(d, a.key + (" = " + (RenderValue(t, a.value) + ("\n" + more))));
            && (p.Some? ==> p.value.1 == more)
            && (p.Some? && p.value.0 == Binding(a.key, Meant(a.value)) <==> ValueSurvives(d, a.value))
  {
    var text := RenderValue(t, a.value) + ("\n" + more);
    KeyReads(a.key, " = " + text);
    ValueReads(d, t, a.value, "\n" + more);
    assert text[0] == RenderValue(t, a.value)[0];
    EqualsReads(text);
    assert ("\n" + more)[1..] == more;
    BindingParts(d, a.key + (" = " + text), a.key, " = " + text, text, ReadValue(d, text));
  }

  lemma BindingParts(d: Dialect, t: string, key: string, rest: string, text: string, v: Parsed<Reading>)
    requires key != "" && ReadKey(t) == (key, rest) && SkipSpaces(rest) == "= " + text
    requires SkipSpaces(("= " + text)[1..]) == text && v == ReadValue(d, text)
    ensures ReadBinding(d, t) ==
              if v.None? || v.value.1 == "" || v.value.1[0] != '\n' then None
              else Some((Binding(key, v.value.0), v.value.1[1..]))
  {
  }

  lemma BindingText(t: PrintTable, a: seq<Assignment>)
    requires a != []
    ensures RenderAll(t, a) == a[0].key + (" = " + (RenderValue(t, a[0].value) + ("\n" + RenderAll(t, a[1..]))))
  {
    var v := RenderValue(t, a[0].value);
    Regroup(" = ", v, "\n", RenderAll(t, a[1..]));
    assert RenderOne(t, a[0]) + RenderAll(t, a[1..]) == a[0].key + ((" = " + (v + "\n")) + RenderAll(t, a[1..]));
  }

  lemma FileStep(d: Dialect, t: string)
    requires t != "" && t[0] != '\n' && t[0] != '#'
    ensures var b := ReadBinding(d, t);
            ReadFile(d, t) ==
              if b.None? then None
              else
                var more := ReadFile(d, b.value.1);
                if more.None? then None else Some([b.value.0] + more.value)
  {
  }

  lemma BindingsCombine(d: Dialect, a: seq<Assignment>, b: Parsed<Binding>, more: Option<seq<Binding>>)
    requires a != []
    requires b.Some? && b.value.0 == Binding(a[0].key, Meant(a[0].value)) <==> ValueSurvives(d, a[0].value)
    requires more == Some(MeantAll(a[1..])) <==> EachSurvives(d, a[1..])
    ensures b.Some? && more.Some? && [b.value.0] + more.value == MeantAll(a) <==> EachSurvives(d, a)
  {
    var all := MeantAll(a);
    assert all == [Binding(a[0].key, Meant(a[0].value))] + MeantAll(a[1..]);
    if b.Some? && more.Some? {
      var r := [b.value.0] + more.value;
      assert r[0] == b.value.0 && r[1..] == more.value && all[1..] == MeantAll(a[1..]);
    }
    EachSurvivesFirst(d, a);
  }

  lemma EachSurvivesFirst(d: Dialect, a: seq<Assignment>)
    requires a != []
    ensures EachSurvives(d, a) <==> ValueSurvives(d, a[0].value) && EachSurvives(d, a[1..])
  {
    assert forall i :: 0 <= i < |a| - 1 ==> a[1..][i] == a[i + 1];
  }

  lemma {:induction false} AllRead(d: Dialect, t: PrintTable, a: seq<Assignment>)
    requires Named(a)
    ensures ReadFile(d, RenderAll(t, a)) == Some(MeantAll(a)) <==> EachSurvives(d, a)
  {
    if a != [] {
      var text := RenderAll(t, a);
      AllRead(d, t, a[1..]);
      BindingReads(d, t, a[0], RenderAll(t, a[1..]));
      assert text[0] == a[0].key[0];
      BindingText(t, a);
      FileStep(d, text);
      BindingsCombine(d, a, ReadBinding(d, text), ReadFile(d, RenderAll(t, a[1..])));
    }
  }

  // ---------- Main results ----------

  lemma TitleIsOneLine()
    ensures OneLine(TITLE) && TITLE != "" && TITLE[0] == '#'
  {
    assert OneLine("# Generated by ") && OneLine("karpenter-provider-pve.") && OneLine(" Do not edit.");
  }

  lemma HeaderReads(d: Dialect, t: string)
    ensures ReadFile(d, HEADER + t) == ReadFile(d, t)
  {
    TitleIsOneLine();
    CommentReads(d, TITLE, "\n" + t);
    assert HEADER + t == TITLE + ("\n" + ("\n" + t));
    assert ("\n" + t)[1..] == t;
  }

  lemma CommentReads(d: Dialect, line: string, more: string)
    requires OneLine(line) && line != "" && line[0] == '#'
    ensures ReadFile(d, line + ("\n" + more)) == ReadFile(d, more)
  {
    CutLine(line[1..], more);
    assert (line + ("\n" + more))[1..] == line[1..] + ("\n" + more);
  }

  lemma MeantTells(a: seq<Assignment>, b: seq<Assignment>)
    ensures MeantAll(a) == MeantAll(b) <==> a == b
  {
    if MeantAll(a) == MeantAll(b) {
      forall i | 0 <= i < |a|
        ensures a[i] == b[i]
      {
        assert MeantAll(a)[i] == MeantAll(b)[i];
      }
    }
  }

  /** Reading the file gives back exactly the assignments: for Go's string syntax always, for HCL's
      if and only if every string is free of template sequences, of bad UTF-8 and of the control
      characters HCL has no escape for.  (HCL also puts what it has read into normal form NFC, which is
      not part of this model; a string that is not in that form is changed by it.) */
  lemma RoundTrip(d: Dialect, t: PrintTable, x: Input)
    ensures ReadFile(d, Render(t, x)) == Some(MeantAll(Assignments(x))) <==> EachSurvives(d, Assignments(x))
    ensures d.GoLiteral? ==> ReadFile(d, Render(t, x)) == Some(MeantAll(Assignments(x)))
  {
    KeysAreIdentifiers(x);
    HeaderReads(d, RenderAll(t, Assignments(x)));
    AllRead(d, t, Assignments(x));
  }

  /** The printer is injective, up to the difference between nil and empty lists. */
  lemma RenderInjective(t: PrintTable, x: Input, y: Input)
    ensures Render(t, x) == Render(t, y) <==> Normal(x) == Normal(y)
  {
    RoundTrip(GoLiteral, t, x);
    RoundTrip(GoLiteral, t, y);
    MeantTells(Assignments(x), Assignments(y));
    AssignmentsTell(x, y);
  }
}
