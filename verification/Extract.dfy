/** Extraction of embedded templates into Packer's work directory. */
module Extract {
  import opened Options

  // ---------- The embedded file system ----------

  datatype Node = File(data: string) | Dir(entries: seq<Entry>)
  datatype Entry = Entry(name: string, node: Node)

  /** The elements of a slash-separated path; the file system's own root is the empty path. */
  type Path = seq<string>

  predicate DistinctNames(es: seq<Entry>) {
    forall i, j :: 0 <= i < j < |es| ==> es[i].name != es[j].name
  }

  /** No directory lists a name twice. */
  predicate WellFormed(n: Node) {
    n.Dir? ==> DistinctNames(n.entries) && forall e :: e in n.entries ==> WellFormed(e.node)
  }

  function Child(es: seq<Entry>, name: string): (r: Option<Node>)
    ensures r.Some? ==> exists i :: 0 <= i < |es| && es[i] == Entry(name, r.value)
    ensures r.None? ==> forall i :: 0 <= i < |es| ==> es[i].name != name
  {
    if es == [] then None
    else if es[0].name == name then Some(es[0].node)
    else
      var r := Child(es[1..], name);
      assert forall i :: 0 <= i < |es| - 1 ==> es[1..][i] == es[i + 1];
      r
  }

  function Lookup(n: Node, p: Path): Option<Node>
    decreases |p|
  {
    if p == [] then Some(n)
    else if n.File? || Child(n.entries, p[0]).None? then None
    else Lookup(Child(n.entries, p[0]).value, p[1..])
  }

  lemma {:induction false} LookupStep(n: Node, p: Path, name: string)
    requires Lookup(n, p).Some?
    ensures Lookup(n, p + [name]) == (var d := Lookup(n, p).value; if d.Dir? then Child(d.entries, name) else None)
    decreases |p|
  {
    if p == [] {
      assert p + [name] == [name];
      assert [name][1..] == [];
    } else {
      LookupStep(Child(n.entries, p[0]).value, p[1..], name);
      assert (p + [name])[1..] == p[1..] + [name];
    }
  }

  lemma {:induction false} LookupWellFormed(n: Node, p: Path)
    requires WellFormed(n) && Lookup(n, p).Some?
    ensures WellFormed(Lookup(n, p).value)
    decreases |p|
  {
    if p != [] {
      var c := Child(n.entries, p[0]).value;
      assert Entry(p[0], c) in n.entries;
      LookupWellFormed(c, p[1..]);
    }
  }

  lemma ChildAt(es: seq<Entry>, i: nat)
    requires DistinctNames(es) && i < |es|
    ensures Child(es, es[i].name) == Some(es[i].node)
  {
  }

  // ---------- The work directory ----------

  datatype Item = Content(data: string) | Folder

  type Files = map<string, Item>

  class WorkDir {
    var entries: Files

    constructor ()
      ensures entries == map[]
    {
      entries := map[];
    }

    /** os.WriteFile: it creates or replaces a file, and fails on a directory. */
    method WriteFile(name: string, data: string) returns (ok: bool)
      modifies this
      ensures ok <==> !(name in old(entries) && old(entries)[name].Folder?)
      ensures entries == if ok then old(entries)[name := Content(data)] else old(entries)
    {
      ok := !(name in entries && entries[name].Folder?);
      if ok {
        entries := entries[name := Content(data)];
      }
    }

    /** os.MkdirAll of a name in the work directory. */
    method MakeFolder(name: string) returns (ok: bool)
      modifies this
      ensures ok <==> !(name in old(entries) && old(entries)[name].Content?)
      ensures entries == if ok then old(entries)[name := Folder] else old(entries)
    {
      ok := !(name in entries && entries[name].Content?);
      if ok {
        entries := entries[name := Folder];
      }
    }
  }

  datatype Named = Named(name: string, data: string)

  datatype Outcome = Outcome(ok: bool, entries: Files)

  /** Writing files one by one, stopping at the first that fails. */
  function WriteAll(m: Files, files: seq<Named>): Outcome
    decreases |files|
  {
    if files == [] then Outcome(true, m)
    else if files[0].name in m && m[files[0].name].Folder? then Outcome(false, m)
    else WriteAll(m[files[0].name := Content(files[0].data)], files[1..])
  }

  // ---------- The walk ----------

  /** path.Base of an embedded path. */
  function Base(p: Path): string {
    if p == [] then "." else p[|p| - 1]
  }

  /** The files of a directory listing, in its order. */
  function FilesOf(es: seq<Entry>): seq<Named> {
    if es == [] then []
    else (if es[0].node.File? then [Named(es[0].name, es[0].node.data)] else []) + FilesOf(es[1..])
  }

  /** What the pruned walk writes for a node. */
  function Visited(src: Path, p: Path, n: Node): seq<Named> {
    if n.File? then [Named(Base(p), n.data)]
    else if p == src then FilesOf(n.entries)
    else []
  }

  /** What the walk's callback returns: nil, fs.SkipDir, or another error. */
  datatype Verdict = Continue | SkipDir | Fail

  /** The callback of extractDir. */
  method Visit(fs: Node, src: Path, p: Path, isDir: bool, wd: WorkDir) returns (v: Verdict)
    requires Lookup(fs, p).Some? && Lookup(fs, p).value.Dir? == isDir
    modifies wd
    ensures isDir ==> v == (if p == src then Continue else SkipDir) && wd.entries == old(wd.entries)
    ensures !isDir ==>
              && v != SkipDir
              && Outcome(v == Continue, wd.entries)
                 == WriteAll(old(wd.entries), [Named(Base(p), Lookup(fs, p).value.data)])
  {
    if isDir {
      return if p == src then Continue else SkipDir;
    }
    var n := Lookup(fs, p).value;
    ghost var file := Named(Base(p), n.data);
    assert [file][1..] == [];
    var ok := wd.WriteFile(Base(p), n.data);
    return if ok then Continue else Fail;
  }

  /** fs.walkDir. */
  method Walk(fs: Node, src: Path, p: Path, n: Node, wd: WorkDir) returns (v: Verdict)
    requires WellFormed(fs) && Lookup(fs, p) == Some(n) && |src| <= |p|
    modifies wd
    ensures v != SkipDir
    ensures Outcome(v == Continue, wd.entries) == WriteAll(old(wd.entries), Visited(src, p, n))
    decreases n
  {
    v := Visit(fs, src, p, n.Dir?, wd);
    if v != Continue || n.File? {
      if v == SkipDir && n.Dir? {
        v := Continue;
      }
      return;
    }
    LookupWellFormed(fs, p);
    ghost var goal := WriteAll(wd.entries, FilesOf(n.entries));
    assert n.entries[0..] == n.entries;
    for i := 0 to |n.entries|
      invariant v == Continue
      invariant goal == WriteAll(wd.entries, FilesOf(n.entries[i..]))
    {
      var e := n.entries[i];
      LookupStep(fs, p, e.name);
      ChildAt(n.entries, i);
      NextEntry(wd.entries, src, p, n.entries, i);
      v := Walk(fs, src, p + [e.name], e.node, wd);
      if v == SkipDir {
        v := Continue;
        break;
      } else if v != Continue {
        return;
      }
    }
  }

  /** Below the walk's root only the files of the root's own listing are written. */
  lemma NextEntry(m: Files, src: Path, p: Path, es: seq<Entry>, i: nat)
    requires i < |es| && |src| <= |p|
    ensures var w := WriteAll(m, Visited(src, p + [es[i].name], es[i].node));
            WriteAll(m, FilesOf(es[i..])) == if w.ok then WriteAll(w.entries, FilesOf(es[i + 1..])) else w
  {
    var rest := es[i..];
    assert rest[0] == es[i] && rest[1..] == es[i + 1..];
    var q := p + [es[i].name];
    assert |q| == |p| + 1 && q[|q| - 1] == es[i].name;
    if es[i].node.File? {
      var file := Named(es[i].name, es[i].node.data);
      assert [file][1..] == [];
      assert ([file] + FilesOf(rest[1..]))[1..] == FilesOf(rest[1..]);
    } else {
      assert [] + FilesOf(rest[1..]) == FilesOf(rest[1..]);
    }
  }

  /** extractDir. */
  method ExtractDir(fs: Node, src: Path, wd: WorkDir) returns (ok: bool)
    requires WellFormed(fs)
    modifies wd
    ensures Outcome(ok, wd.entries) == Extracted(fs, src, old(wd.entries))
  {
    var root := Lookup(fs, src);
    if root.None? {
      return false;
    }
    var v := Walk(fs, src, src, root.value, wd);
    return v == Continue;
  }

  /** One extraction; a source that does not exist fails before anything is written. */
  function Extracted(fs: Node, src: Path, m: Files): Outcome {
    match Lookup(fs, src)
    case None => Outcome(false, m)
    case Some(n) => WriteAll(m, Visited(src, src, n))
  }

  // ---------- The walk is an overlay ----------

  /** The file that extracting `src` puts under a name: the direct child of that name, if it is a file;
      or `src` itself, if it is a file of that name. */
  function Offers(fs: Node, src: Path, name: string): Option<string> {
    match Lookup(fs, src)
    case None => None
    case Some(File(data)) => if name == Base(src) then Some(data) else None
    case Some(Dir(_)) =>
      match Lookup(fs, src + [name])
      case Some(File(data)) => Some(data)
      case _ => None
  }

  function At(m: Files, name: string): Option<Item> {
    if name in m then Some(m[name]) else None
  }

  /** The entry of a directory after files were laid over it. */
  function Over(file: Option<string>, below: Option<Item>): Option<Item> {
    if file.Some? then Some(Content(file.value)) else below
  }

  function Last(files: seq<Named>, name: string): Option<string> {
    if files == [] then None
    else if Last(files[1..], name).Some? then Last(files[1..], name)
    else if files[0].name == name then Some(files[0].data)
    else None
  }

  /** Nothing to be written is in the way of a folder. */
  predicate NoClash(m: Files, files: seq<Named>) {
    forall f :: f in files ==> At(m, f.name) != Some(Folder)
  }

  lemma {:induction false} WriteAllOverlays(m: Files, files: seq<Named>)
    ensures WriteAll(m, files).ok <==> NoClash(m, files)
    ensures WriteAll(m, files).ok ==>
              forall name :: At(WriteAll(m, files).entries, name) == Over(Last(files, name), At(m, name))
    decreases |files|
  {
    if files != [] && !(files[0].name in m && m[files[0].name].Folder?) {
      var m' := m[files[0].name := Content(files[0].data)];
      WriteAllOverlays(m', files[1..]);
      assert forall name :: name != files[0].name ==> At(m', name) == At(m, name);
      assert forall f :: f in files <==> f == files[0] || f in files[1..];
    }
  }

  lemma {:induction false} LastOfListing(es: seq<Entry>, name: string)
    requires DistinctNames(es)
    ensures Last(FilesOf(es), name)
         == (match Child(es, name) case Some(File(data)) => Some(data) case _ => None)
  {
    if es != [] {
      LastOfListing(es[1..], name);
      FilesFirst(es);
      if es[0].name == name {
        assert Child(es[1..], name).None? by {
          assert forall i :: 0 <= i < |es| - 1 ==> es[1..][i] == es[i + 1];
        }
      }
    }
  }

  lemma FilesFirst(es: seq<Entry>)
    requires es != []
    ensures es[0].node.File? ==> FilesOf(es) != [] && FilesOf(es)[0] == Named(es[0].name, es[0].node.data)
                                 && FilesOf(es)[1..] == FilesOf(es[1..])
    ensures es[0].node.Dir? ==> FilesOf(es) == FilesOf(es[1..])
  {
  }

  lemma {:induction false} LastIsIn(files: seq<Named>, name: string)
    ensures Last(files, name).Some? <==> exists f :: f in files && f.name == name
  {
    if files != [] {
      LastIsIn(files[1..], name);
      assert forall f :: f in files <==> f == files[0] || f in files[1..];
    }
  }

  lemma VisitedOffers(fs: Node, src: Path, name: string)
    requires WellFormed(fs) && Lookup(fs, src).Some?
    ensures Last(Visited(src, src, Lookup(fs, src).value), name) == Offers(fs, src, name)
  {
    var n := Lookup(fs, src).value;
    if n.File? {
      assert [Named(Base(src), n.data)][1..] == [];
    } else {
      LookupWellFormed(fs, src);
      LookupStep(fs, src, name);
      LastOfListing(n.entries, name);
    }
  }

  /** The pruned walk is an overlay.  It succeeds exactly when its source exists and offers no file
      under the name of a folder, and then each name holds what the source offers, or what it held. */
  lemma ExtractionIsOverlay(fs: Node, src: Path, m: Files)
    requires WellFormed(fs)
    ensures Extracted(fs, src, m).ok
       <==> Lookup(fs, src).Some? && forall name :: Offers(fs, src, name).Some? ==> At(m, name) != Some(Folder)
    ensures Extracted(fs, src, m).ok ==>
              forall name :: At(Extracted(fs, src, m).entries, name) == Over(Offers(fs, src, name), At(m, name))
  {
    if Lookup(fs, src).Some? {
      var files := Visited(src, src, Lookup(fs, src).value);
      WriteAllOverlays(m, files);
      forall name
        ensures Last(files, name) == Offers(fs, src, name)
        ensures Offers(fs, src, name).Some? <==> exists f :: f in files && f.name == name
      {
        VisitedOffers(fs, src, name);
        LastIsIn(files, name);
      }
    }
  }

  // ---------- RunPacker ----------

  const ROOT := "templates"
  const PLUGINS := "plugins"
  const PACKER := "packer"
  const USER_FILE := "user.auto.pkrvars.hcl"

  /** Splits at slashes. */
  function Elements(s: string): (p: Path)
    ensures p != []
  {
    if s == "" then [""]
    else
      var rest := Elements(s[1..]);
      if s[0] == '/' then [""] + rest else [[s[0]] + rest[0]] + rest[1..]
  }

  /** path.Clean of a path that does not start at a slash, on its elements. */
  function Clean(done: Path, p: Path): Path
    decreases |p|
  {
    if p == [] then done
    else if p[0] == "" || p[0] == "." then Clean(done, p[1..])
    else if p[0] == ".." && done != [] && done[|done| - 1] != ".." then Clean(done[..|done| - 1], p[1..])
    else Clean(done + [p[0]], p[1..])
  }

  function TemplateDir(templateName: string, osVersion: string): Path {
    Clean([], [ROOT] + Elements(templateName + "/" + osVersion))
  }

  predicate Plain(s: string) {
    s != "" && s != "." && s != ".." && forall i :: 0 <= i < |s| ==> s[i] != '/'
  }

  lemma {:induction false} ElementsOf(a: string, rest: string)
    requires forall i :: 0 <= i < |a| ==> a[i] != '/'
    ensures Elements(a) == [a] && Elements(a + "/" + rest) == [a] + Elements(rest)
  {
    if a == "" {
      assert "" + "/" + rest == "/" + rest;
      assert ("/" + rest)[1..] == rest;
    } else {
      ElementsOf(a[1..], rest);
      assert (a + "/" + rest)[1..] == a[1..] + "/" + rest;
      assert [a[0]] + a[1..] == a;
    }
  }

  /** For ordinary names the source is the version's directory below the template's. */
  lemma PlainTemplateDir(templateName: string, osVersion: string)
    requires Plain(templateName) && Plain(osVersion)
    ensures TemplateDir(templateName, osVersion) == ["templates", templateName, osVersion]
  {
    ElementsOf(templateName, osVersion);
    ElementsOf(osVersion, "");
    CleanPlain([ROOT, templateName, osVersion]);
    assert [ROOT] + Elements(templateName + "/" + osVersion) == [ROOT, templateName, osVersion];
  }

  /** Cleaning drops empty elements and dots, takes an element back for two dots, if there is one that is
      not two dots itself, and keeps all others. */
  lemma CleanMeans(done: Path, p: Path, name: string)
    ensures Clean(done, [""] + p) == Clean(done, p) && Clean(done, ["."] + p) == Clean(done, p)
    ensures name != ".." ==> Clean(done + [name], [".."] + p) == Clean(done, p)
    ensures Clean([], [".."] + p) == Clean([".."], p)
    ensures Clean(done + [".."], [".."] + p) == Clean(done + ["..", ".."], p)
    ensures name != "" && name != "." && name != ".." ==> Clean(done, [name] + p) == Clean(done + [name], p)
  {
    assert ([""] + p)[1..] == p && (["."] + p)[1..] == p && ([".."] + p)[1..] == p && ([name] + p)[1..] == p;
    assert (done + [name])[..|done + [name]| - 1] == done;
    assert done + [".."] + [".."] == done + ["..", ".."];
    assert [] + [".."] == [".."];
  }

  function Slashed(p: Path): string {
    if p == [] then "" else if |p| == 1 then p[0] else p[0] + ("/" + Slashed(p[1..]))
  }

  lemma SlashedFirst(c: char, first: string, rest: Path)
    ensures Slashed([[c] + first] + rest) == [c] + Slashed([first] + rest)
    ensures Slashed([""] + ([first] + rest)) == "/" + Slashed([first] + rest)
  {
    assert ([first] + rest)[1..] == rest && ([[c] + first] + rest)[1..] == rest;
    assert ([""] + ([first] + rest))[1..] == [first] + rest;
    if rest != [] {
      Regroup(c, first, "/" + Slashed(rest));
    }
  }

  lemma Regroup(c: char, first: string, more: string)
    ensures ([c] + first) + more == [c] + (first + more)
  {
  }

  /** The elements hold no slash. */
  lemma {:induction false} ElementsBare(s: string, i: nat)
    requires i < |Elements(s)|
    ensures forall j :: 0 <= j < |Elements(s)[i]| ==> Elements(s)[i][j] != '/'
  {
    if s != "" {
      ElementsBare(s[1..], if s[0] == '/' && i > 0 then i - 1 else i);
    }
  }

  /** With slashes between them the elements are the path. */
  lemma {:induction false} ElementsMean(s: string)
    ensures Slashed(Elements(s)) == s
  {
    if s != "" {
      ElementsMean(s[1..]);
      var rest := Elements(s[1..]);
      assert rest == [rest[0]] + rest[1..];
      SlashedFirst(s[0], rest[0], rest[1..]);
    }
  }

  lemma CleanPlain(p: Path)
    requires forall i :: 0 <= i < |p| ==> p[i] != "" && p[i] != "." && p[i] != ".."
    ensures Clean([], p) == p
  {
    CleanKeeps([], p);
  }

  lemma {:induction false} CleanKeeps(done: Path, p: Path)
    requires forall i :: 0 <= i < |p| ==> p[i] != "" && p[i] != "." && p[i] != ".."
    ensures Clean(done, p) == done + p
    decreases |p|
  {
    if p != [] {
      CleanKeeps(done + [p[0]], p[1..]);
      assert done + [p[0]] + p[1..] == done + p;
    }
  }

  /** The work directory before the templates: the Packer binary and the plugin folder. */
  function Bare(binary: string, name: string): Option<Item> {
    if name == PLUGINS then Some(Folder) else if name == PACKER then Some(Content(binary)) else None
  }

  /** The work directory Packer runs in, name by name: the user's file, over the shared files, over the
      template version's files, over the binary and the plugin folder. */
  function Prepared(fs: Node, dir: Path, binary: string, user: string, name: string): Option<Item> {
    var templates := Over(Offers(fs, [ROOT], name), Over(Offers(fs, dir, name), Bare(binary, name)));
    if name == USER_FILE then Some(Content(user)) else templates
  }

  /** The preparation of RunPacker succeeds. */
  predicate CanPrepare(fs: Node, dir: Path, binary: Option<string>, plugin: Option<string>, user: Option<string>) {
    && binary.Some? && plugin.Some? && user.Some?
    && Lookup(fs, dir).Some? && Lookup(fs, [ROOT]).Some?
    && Offers(fs, dir, PLUGINS).None? && Offers(fs, [ROOT], PLUGINS).None?
  }

  lemma BareAt(binary: string, m: Files)
    requires m == map[PACKER := Content(binary), PLUGINS := Folder]
    ensures OnlyPlugins(m) && forall name :: At(m, name) == Bare(binary, name)
  {
    assert PACKER[1] != PLUGINS[1];
  }

  predicate OnlyPlugins(m: Files) {
    At(m, PLUGINS) == Some(Folder) && forall name :: name in m && m[name].Folder? ==> name == PLUGINS
  }

  lemma OneFolder(fs: Node, src: Path, m: Files)
    requires WellFormed(fs) && OnlyPlugins(m)
    ensures Extracted(fs, src, m).ok <==> Lookup(fs, src).Some? && Offers(fs, src, PLUGINS).None?
    ensures Extracted(fs, src, m).ok ==> OnlyPlugins(Extracted(fs, src, m).entries)
  {
    ExtractionIsOverlay(fs, src, m);
    if Extracted(fs, src, m).ok {
      var m' := Extracted(fs, src, m).entries;
      forall name | name in m' && m'[name].Folder?
        ensures name == PLUGINS
      {
        assert At(m', name) == Over(Offers(fs, src, name), At(m, name));
      }
    }
  }

  /** What a source offers under a name, spelled out: its child, or itself if it is a file of that name. */
  lemma OffersMean(fs: Node, src: Path, name: string)
    requires fs.Dir?
    ensures Lookup(fs, src).Some? && Lookup(fs, src).value.File? ==>
              src != [] && Offers(fs, src, name)
                           == if name == src[|src| - 1] then Some(Lookup(fs, src).value.data) else None
    ensures !(Lookup(fs, src).Some? && Lookup(fs, src).value.File?) ==>
              Offers(fs, src, name) == var found := Lookup(fs, src + [name]);
                                       if found.Some? && found.value.File? then Some(found.value.data) else None
  {
    if Lookup(fs, src).None? {
      NothingBelow(fs, src, name);
    }
  }

  lemma {:induction false} NothingBelow(n: Node, p: Path, name: string)
    requires Lookup(n, p).None?
    ensures Lookup(n, p + [name]).None?
    decreases |p|
  {
    assert (p + [name])[0] == p[0] && (p + [name])[1..] == p[1..] + [name];
    if n.Dir? && Child(n.entries, p[0]).Some? {
      NothingBelow(Child(n.entries, p[0]).value, p[1..], name);
    }
  }

  /** Whether the preparation succeeds, spelled out for sources that are directories. */
  lemma PrepareMeans(
    fs: Node, dir: Path, binary: Option<string>, plugin: Option<string>, user: Option<string>)
    ensures Lookup(fs, dir).Some? && Lookup(fs, dir).value.Dir? &&
            Lookup(fs, ["templates"]).Some? && Lookup(fs, ["templates"]).value.Dir? ==>
              var shared, version := Lookup(fs, ["templates", "plugins"]), Lookup(fs, dir + ["plugins"]);
              CanPrepare(fs, dir, binary, plugin, user) <==>
                && binary.Some? && plugin.Some? && user.Some?
                && !(shared.Some? && shared.value.File?) && !(version.Some? && version.value.File?)
    ensures CanPrepare(fs, dir, binary, plugin, user) ==> Lookup(fs, dir).Some? && Lookup(fs, ["templates"]).Some?
  {
    assert [ROOT] + [PLUGINS] == ["templates", "plugins"];
  }

  /** The prepared directory, spelled out likewise. */
  lemma PreparedMeans(fs: Node, dir: Path, binary: string, user: string, m: Files)
    requires forall name :: At(m, name) == Prepared(fs, dir, binary, user, name)
    requires Lookup(fs, dir).Some? && Lookup(fs, ["templates"]).Some?
    ensures Lookup(fs, dir).value.Dir? && Lookup(fs, ["templates"]).value.Dir? ==> forall name ::
              var shared, version := Lookup(fs, ["templates", name]), Lookup(fs, dir + [name]);
              var item := if name == "user.auto.pkrvars.hcl" then Some(Content(user))
                          else if shared.Some? && shared.value.File? then Some(Content(shared.value.data))
                          else if version.Some? && version.value.File? then Some(Content(version.value.data))
                          else if name == "plugins" then Some(Folder)
                          else if name == "packer" then Some(Content(binary))
                          else None;
              if item.None? then name !in m else name in m && m[name] == item.value
  {
    if Lookup(fs, dir).value.Dir? && Lookup(fs, ["templates"]).value.Dir? {
      forall name
        ensures (
              var shared, version := Lookup(fs, ["templates", name]), Lookup(fs, dir + [name]);
              var item := if name == "user.auto.pkrvars.hcl" then Some(Content(user))
                          else if shared.Some? && shared.value.File? then Some(Content(shared.value.data))
                          else if version.Some? && version.value.File? then Some(Content(version.value.data))
                          else if name == "plugins" then Some(Folder)
                          else if name == "packer" then Some(Content(binary))
                          else None;
              if item.None? then name !in m else name in m && m[name] == item.value)
      {
        assert At(m, name) == Prepared(fs, dir, binary, user, name);
        assert [ROOT] + [name] == ["templates", name];
      }
    }
  }

  lemma UserLaid(m: Files, m': Files, user: string)
    requires m' == m[USER_FILE := Content(user)]
    ensures forall name :: At(m', name) == if name == USER_FILE then Some(Content(user)) else At(m, name)
  {
  }

  /** RunPacker up to the start of the Packer process.  `binary`, `plugin` and `user` are the files it
      reads, nothing where reading fails. */
  method RunPacker(fs: Node, templateName: string, osVersion: string,
                   binary: Option<string>, plugin: Option<string>, user: Option<string>)
    returns (ok: bool, wd: WorkDir)
    requires WellFormed(fs)
    ensures fresh(wd)
    ensures ok <==> CanPrepare(fs, TemplateDir(templateName, osVersion), binary, plugin, user)
    ensures ok ==> forall name :: At(wd.entries, name)
                               == Prepared(fs, TemplateDir(templateName, osVersion), binary.value, user.value, name)
    ensures var dir := TemplateDir(templateName, osVersion);
            Lookup(fs, dir).Some? && Lookup(fs, dir).value.Dir? &&
            Lookup(fs, ["templates"]).Some? && Lookup(fs, ["templates"]).value.Dir? ==>
              var shared, version := Lookup(fs, ["templates", "plugins"]), Lookup(fs, dir + ["plugins"]);
              ok <==> && binary.Some? && plugin.Some? && user.Some?
                      && !(shared.Some? && shared.value.File?) && !(version.Some? && version.value.File?)
    ensures var dir := TemplateDir(templateName, osVersion);
            ok && Lookup(fs, dir).value.Dir? && Lookup(fs, ["templates"]).value.Dir? ==> forall name ::
              var shared, version := Lookup(fs, ["templates", name]), Lookup(fs, dir + [name]);
              var item := if name == "user.auto.pkrvars.hcl" then Some(Content(user.value))
                          else if shared.Some? && shared.value.File? then Some(Content(shared.value.data))
                          else if version.Some? && version.value.File? then Some(Content(version.value.data))
                          else if name == "plugins" then Some(Folder)
                          else if name == "packer" then Some(Content(binary.value))
                          else None;
              if item.None? then name !in wd.entries else name in wd.entries && wd.entries[name] == item.value
  {
    PrepareMeans(fs, TemplateDir(templateName, osVersion), binary, plugin, user);
    wd := new WorkDir();
    if binary.None? {
      return false, wd;
    }
    ok := wd.WriteFile(PACKER, binary.value);
    ok := wd.MakeFolder(PLUGINS);
    if plugin.None? {
      return false, wd;
    }
    ghost var start := wd.entries;
    BareAt(binary.value, start);
    var dir := TemplateDir(templateName, osVersion);
    ok := ExtractDir(fs, dir, wd);
    ghost var first := wd.entries;
    ExtractionIsOverlay(fs, dir, start);
    OneFolder(fs, dir, start);
    if !ok {
      return;
    }
    ok := ExtractDir(fs, [ROOT], wd);
    ghost var second := wd.entries;
    ExtractionIsOverlay(fs, [ROOT], first);
    OneFolder(fs, [ROOT], first);
    if !ok {
      return;
    }
    if user.None? {
      return false, wd;
    }
    ok := wd.WriteFile(USER_FILE, user.value);
    UserLaid(second, wd.entries, user.value);
    PreparedMeans(fs, dir, binary.value, user.value, wd.entries);
  }
}
