/**
  How the API documentation generator finds the modules of a project, names
  them, groups them into packages for the index, and names their documents.
  File discovery and file writes are outside the model: the files found are
  given as relative paths, each with the summary its analysis produces.
 */
module ApiIndex {
  import opened Wrappers
  import opened Dicts
  import opened Text
  import opened ApiAnalysis
  import opened Seqs

  // ----- Scanning -----

  /** The last component of a '/'-separated path (`Path.name`). */
  function FileName(path: string): (r: string)
    ensures |r| <= |path|
    ensures forall i :: 0 <= i < |r| ==> r[i] != '/'
    ensures r == path[|path| - |r|..]
    ensures |r| < |path| ==> path[|path| - |r| - 1] == '/'
  {
    if path == [] || path[|path| - 1] == '/' then []
    else FileName(path[..|path| - 1]) + [path[|path| - 1]]
  }

  /**
    The filter `scan_project` applies to each file found under `root`: no
    "__pycache__" anywhere in its path, no "test_" in its name, and a name
    not ending in "_test.py".
   */
  predicate Kept(root: string, rel: string) {
    !Contains(root + "/" + rel, "__pycache__") && !Contains(FileName(rel), "test_") && !EndsWith(FileName(rel), "_test.py")
  }

  /** The relative path with both kinds of separator turned into dots. */
  function DottedPath(rel: string): (r: string)
    ensures |r| == |rel|
    ensures forall i :: 0 <= i < |rel| ==> r[i] == if rel[i] == '/' || rel[i] == '\\' then '.' else rel[i]
  {
    ReplaceChar(ReplaceChar(rel, '/', '.'), '\\', '.')
  }

  /** The module name as written: every occurrence of ".py" is removed, wherever it is. */
  function ModuleNameAsWritten(rel: string): string {
    RemoveAll(DottedPath(rel), ".py")
  }

  /** The module name: the dotted path without its ".py" extension. */
  function ModuleName(rel: string): string {
    var dotted := DottedPath(rel);
    if EndsWith(dotted, ".py") then dotted[..|dotted| - 3] else dotted
  }

  /** The file a dotted module name stands for. */
  function PathOf(moduleName: string): string {
    ReplaceChar(moduleName, '.', '/') + ".py"
  }

  /** Text without a dot is kept whole by the removal of ".py". */
  lemma {:induction false} RemoveAllSkips(x: string, y: string)
    requires '.' !in x
    ensures RemoveAll(x + y, ".py") == x + RemoveAll(y, ".py")
  {
    if x != [] {
      var s := x + y;
      assert s[0] == x[0] && s[1..] == x[1..] + y;
      if |s| < 3 {
        assert RemoveAll(y, ".py") == y;
      } else {
        assert s[..3] != ".py";
        RemoveAllSkips(x[1..], y);
      }
    } else {
      assert x + y == y;
    }
  }

  /** No dot and no separator of either kind. */
  predicate PlainComponent(s: string) {
    forall i :: 0 <= i < |s| ==> s[i] != '.' && s[i] != '/' && s[i] != '\\'
  }

  lemma DottedPathAppend(x: string, y: string)
    ensures DottedPath(x + y) == DottedPath(x) + DottedPath(y)
  {
    ReplaceCharAppend(x, y, '/', '.');
    ReplaceCharAppend(ReplaceChar(x, '/', '.'), ReplaceChar(y, '/', '.'), '\\', '.');
  }

  lemma RemoveAllMatch(y: string)
    ensures RemoveAll(".py" + y, ".py") == RemoveAll(y, ".py")
  {
    assert (".py" + y)[..3] == ".py" && (".py" + y)[3..] == y;
  }

  lemma DottedSeparators()
    ensures DottedPath("/py") == ".py" && DottedPath("/") == "." && DottedPath(".py") == ".py"
  {
    var r1, r2, r3 := DottedPath("/py"), DottedPath("/"), DottedPath(".py");
    assert r1[0] == '.' && r1[1] == 'p' && r1[2] == 'y';
    assert r2[0] == '.';
    assert r3[0] == '.' && r3[1] == 'p' && r3[2] == 'y';
  }

  lemma DottedPlain(s: string)
    requires PlainComponent(s)
    ensures DottedPath(s) == s
  {
  }

  /** The dotted form of `a/pyb/c.py`. */
  lemma DottedPyDirectory(a: string, b: string, c: string)
    requires PlainComponent(a) && PlainComponent(b) && PlainComponent(c)
    ensures DottedPath(a + ("/py" + (b + ("/" + (c + ".py"))))) == a + (".py" + (b + ("." + (c + ".py"))))
  {
    DottedPathAppend(a, "/py" + (b + ("/" + (c + ".py"))));
    DottedPathAppend("/py", b + ("/" + (c + ".py")));
    DottedPathAppend(b, "/" + (c + ".py"));
    DottedPathAppend("/", c + ".py");
    DottedPathAppend(c, ".py");
    DottedPlain(a);
    DottedPlain(b);
    DottedPlain(c);
    DottedSeparators();
  }

  lemma RemoveAllKeepsHead(s: string)
    requires s != [] && (|s| >= 3 ==> s[..3] != ".py")
    ensures RemoveAll(s, ".py") == [s[0]] + RemoveAll(s[1..], ".py")
  {
  }

  lemma RemoveAllOnlySuffix()
    ensures RemoveAll(".py", ".py") == []
  {
    RemoveAllMatch([]);
    assert ".py" + [] == ".py";
  }

  lemma DotTailNoSuffixPrefix(c: string)
    requires PlainComponent(c) && !(|c| >= 2 && c[0] == 'p' && c[1] == 'y')
    ensures ("." + (c + ".py"))[..3] != ".py"
  {
    var dotTail := "." + (c + ".py");
    if |c| >= 2 {
      assert dotTail[1] == c[0] && dotTail[2] == c[1];
    } else if |c| == 1 {
      assert dotTail[2] == '.';
    } else {
      assert dotTail[1] == '.';
    }
  }

  /** A dot followed by a plain component not starting with "py", then ".py", keeps the dot and the component. */
  lemma RemoveAllDotTail(c: string)
    requires PlainComponent(c) && !(|c| >= 2 && c[0] == 'p' && c[1] == 'y')
    ensures RemoveAll("." + (c + ".py"), ".py") == "." + c
  {
    var dotTail := "." + (c + ".py");
    DotTailNoSuffixPrefix(c);
    RemoveAllKeepsHead(dotTail);
    assert dotTail[0] == '.' && dotTail[1..] == c + ".py";
    RemoveAllSkips(c, ".py");
    RemoveAllOnlySuffix();
    assert c + [] == c;
  }

  lemma RemoveAllMangled(a: string, b: string, c: string)
    requires PlainComponent(a) && PlainComponent(b) && PlainComponent(c)
    requires !(|c| >= 2 && c[0] == 'p' && c[1] == 'y')
    ensures RemoveAll(a + (".py" + (b + ("." + (c + ".py")))), ".py") == a + (b + ("." + c))
  {
    var t := "." + (c + ".py");
    RemoveAllDotTail(c);
    RemoveAllSkips(b, t);
    RemoveAllMatch(b + t);
    RemoveAllSkips(a, ".py" + (b + t));
  }

  lemma StripSuffix(x: string)
    ensures EndsWith(x + ".py", ".py") && (x + ".py")[..|x|] == x
  {
    assert (x + ".py")[|x|..] == ".py";
  }

  /**
    As written, a directory whose name starts with "py" loses those letters
    and its separator: `a/pyb/c.py` is named `ab.c`, where `ModuleName`
    gives `a.pyb.c`, and the name no longer leads back to the file.
   */
  lemma PythonDirectoryMangled(a: string, b: string, c: string)
    requires PlainComponent(a) && PlainComponent(b) && PlainComponent(c)
    requires !(|c| >= 2 && c[0] == 'p' && c[1] == 'y')
    ensures ModuleNameAsWritten(a + ("/py" + (b + ("/" + (c + ".py"))))) == a + (b + ("." + c))
    ensures ModuleName(a + ("/py" + (b + ("/" + (c + ".py"))))) == a + (".py" + (b + ("." + c)))
    ensures PathOf(ModuleNameAsWritten(a + ("/py" + (b + ("/" + (c + ".py")))))) != a + ("/py" + (b + ("/" + (c + ".py"))))
  {
    DottedPyDirectory(a, b, c);
    RemoveAllMangled(a, b, c);
    var x := a + (".py" + (b + ("." + c)));
    assert a + (".py" + (b + ("." + (c + ".py")))) == x + ".py";
    StripSuffix(x);
    var rel := a + ("/py" + (b + ("/" + (c + ".py"))));
    var path := PathOf(a + (b + ("." + c)));
    assert |path| + 3 == |rel|;
  }

  /**
    For a Python file whose path has no other dot and no backslash, the module
    name leads back to the path.
   */
  lemma ModuleNameRoundTrip(rel: string)
    requires EndsWith(rel, ".py")
    requires forall i :: 0 <= i < |rel| - 3 ==> rel[i] != '.' && rel[i] != '\\'
    ensures PathOf(ModuleName(rel)) == rel
  {
    var dotted := DottedPath(rel);
    assert dotted[|rel| - 3..] == rel[|rel| - 3..];
    var name := ModuleName(rel);
    assert name == dotted[..|rel| - 3];
    assert ReplaceChar(name, '.', '/') == rel[..|rel| - 3];
    assert rel == rel[..|rel| - 3] + ".py";
  }

  /** The files that pass the filter, in the order found. */
  function KeptFiles(root: string, files: seq<(string, ModuleInfo)>): seq<(string, ModuleInfo)> {
    if files == [] then []
    else (if Kept(root, files[0].0) then [files[0]] else []) + KeptFiles(root, files[1..])
  }

  /** The kept files are exactly the files that pass the filter. */
  lemma {:induction false} KeptFilesIff(root: string, files: seq<(string, ModuleInfo)>, f: (string, ModuleInfo))
    ensures f in KeptFiles(root, files) <==> f in files && Kept(root, f.0)
  {
    if files != [] {
      KeptFilesIff(root, files[1..], f);
      assert files == [files[0]] + files[1..];
    }
  }

  /** The modules recorded from the kept files: those not under "scripts.", a later file replacing an earlier one of the same name. */
  function ModulesOf(kept: seq<(string, ModuleInfo)>): Dict<string, ModuleInfo> {
    if kept == [] then []
    else
      var prior := ModulesOf(kept[..|kept| - 1]);
      var name := ModuleName(kept[|kept| - 1].0);
      if StartsWith(name, "scripts.") then prior else Put(prior, name, kept[|kept| - 1].1)
  }

  /** One pass of the scanning loop: record the file's module unless it is under "scripts.". */
  method RecordModule(modules: Dict<string, ModuleInfo>, scanned: seq<(string, ModuleInfo)>, file: (string, ModuleInfo))
    returns (updated: Dict<string, ModuleInfo>)
    requires modules == ModulesOf(scanned)
    ensures updated == ModulesOf(scanned + [file])
  {
    var (rel, info) := file;
    var moduleName := ModuleName(rel);
    FrontOfSnoc(scanned, file);
    updated := modules;
    if !StartsWith(moduleName, "scripts.") {
      updated := Put(modules, moduleName, info);
    }
  }

  /** `scan_project`: the module summaries of a project, by module name. */
  method ScanProject(root: string, files: seq<(string, ModuleInfo)>) returns (modules: Dict<string, ModuleInfo>)
    ensures modules == ModulesOf(KeptFiles(root, files))
  {
    var kept := KeptFiles(root, files);
    modules := [];
    var i := 0;
    while i < |kept|
      invariant 0 <= i <= |kept|
      invariant modules == ModulesOf(kept[..i])
    {
      modules := RecordModule(modules, kept[..i], kept[i]);
      TakeSnoc(kept, i);
      i := i + 1;
    }
    assert kept[..i] == kept;
  }

  lemma ModulesOfSnoc(kept: seq<(string, ModuleInfo)>, name: string)
    requires kept != []
    ensures var front, last := kept[..|kept| - 1], kept[|kept| - 1];
      (name in Keys(ModulesOf(kept)) <==>
        name in Keys(ModulesOf(front)) || (ModuleName(last.0) == name && !StartsWith(name, "scripts.")))
  {
  }

  /** The module names of the kept files, in order. */
  function ModuleNames(kept: seq<(string, ModuleInfo)>): (r: seq<string>)
    ensures |r| == |kept|
    ensures forall i :: 0 <= i < |kept| ==> r[i] == ModuleName(kept[i].0)
  {
    seq(|kept|, i requires 0 <= i < |kept| => ModuleName(kept[i].0))
  }

  lemma {:induction false} ModulesOfKeys(kept: seq<(string, ModuleInfo)>, name: string)
    ensures name in Keys(ModulesOf(kept)) <==> !StartsWith(name, "scripts.") && name in ModuleNames(kept)
  {
    if kept != [] {
      var front := kept[..|kept| - 1];
      ModulesOfKeys(front, name);
      ModulesOfSnoc(kept, name);
      InSnoc(ModuleNames(kept), name);
      assert ModuleNames(kept)[..|kept| - 1] == ModuleNames(front);
    }
  }

  lemma ModuleNamesIff(kept: seq<(string, ModuleInfo)>, name: string)
    ensures name in ModuleNames(kept) <==> exists f :: f in kept && ModuleName(f.0) == name
  {
    var names := ModuleNames(kept);
    if name in names {
      var i :| 0 <= i < |names| && names[i] == name;
      assert kept[i] in kept;
    }
    if exists f :: f in kept && ModuleName(f.0) == name {
      var f :| f in kept && ModuleName(f.0) == name;
      var i :| 0 <= i < |kept| && kept[i] == f;
      assert names[i] == name;
    }
  }

  /**
    A module is documented exactly when some file that passes the filter has
    that name and the name is not under "scripts.".
   */
  lemma ScannedModulesIff(root: string, files: seq<(string, ModuleInfo)>, name: string)
    ensures name in Keys(ModulesOf(KeptFiles(root, files))) <==>
      !StartsWith(name, "scripts.") && exists f :: f in files && Kept(root, f.0) && ModuleName(f.0) == name
  {
    var kept := KeptFiles(root, files);
    ModulesOfKeys(kept, name);
    ModuleNamesIff(kept, name);
    forall f | f in files && Kept(root, f.0) && ModuleName(f.0) == name
      ensures f in kept
    {
      KeptFilesIff(root, files, f);
    }
    forall f | f in kept && ModuleName(f.0) == name
      ensures f in files && Kept(root, f.0)
    {
      KeptFilesIff(root, files, f);
    }
  }

  // ----- Packages -----

  /** The text before the first dot (`name.split(".")[0]`). */
  function FirstComponent(name: string): (r: string)
    ensures '.' !in r
    ensures '.' in name ==> StartsWith(name, r + ".")
    ensures '.' !in name ==> r == name
  {
    if name == [] then []
    else if name[0] == '.' then []
    else
      var rest := FirstComponent(name[1..]);
      assert name == [name[0]] + name[1..];
      assert ('.' in name) == ('.' in name[1..]);
      [name[0]] + rest
  }

  /** A module's package: its first component, or "root" for an undotted name. */
  function PackageOf(name: string): string {
    if '.' in name then FirstComponent(name) else "root"
  }

  /** `name` appended to its package's list, the list starting empty. */
  function AddToPackage(grouped: Dict<string, seq<string>>, name: string): Dict<string, seq<string>> {
    Put(grouped, PackageOf(name), Get(grouped, PackageOf(name)).GetOr([]) + [name])
  }

  /** The packages dictionary of `generate_index`, built in module order. */
  function Grouped(names: seq<string>): Dict<string, seq<string>> {
    if names == [] then [] else AddToPackage(Grouped(names[..|names| - 1]), names[|names| - 1])
  }

  /** One pass of the grouping loop: create the package's list if missing, then append. */
  method AddModule(packages: Dict<string, seq<string>>, name: string) returns (updated: Dict<string, seq<string>>)
    ensures updated == AddToPackage(packages, name)
  {
    var package := PackageOf(name);
    updated := packages;
    if package !in Keys(updated) {
      updated := Put(updated, package, []);
    }
    var modules := Get(updated, package).value;
    updated := Put(updated, package, modules + [name]);
    if package !in Keys(packages) {
      PutPut(packages, package, [], modules + [name]);
    }
  }

  /** `generate_index`'s loop grouping the module names by package. */
  method GroupByPackage(names: seq<string>) returns (packages: Dict<string, seq<string>>)
    ensures packages == Grouped(names)
  {
    packages := [];
    var i := 0;
    while i < |names|
      invariant 0 <= i <= |names|
      invariant packages == Grouped(names[..i])
    {
      packages := AddModule(packages, names[i]);
      assert names[..i + 1][..i] == names[..i];
      i := i + 1;
    }
    assert names[..i] == names;
  }

  lemma GroupedSnoc(names: seq<string>, package: string, name: string)
    requires names != []
    ensures var front, last := names[..|names| - 1], names[|names| - 1];
      (package in Keys(Grouped(names)) <==> package in Keys(Grouped(front)) || PackageOf(last) == package) &&
      (package in Keys(Grouped(names)) ==>
        (name in Get(Grouped(names), package).value <==>
          (package in Keys(Grouped(front)) && name in Get(Grouped(front), package).value) ||
          (name == last && PackageOf(last) == package)))
  {
  }

  /** A package is present exactly when some name belongs to it. */
  lemma {:induction false} GroupedKeysIff(names: seq<string>, package: string)
    ensures package in Keys(Grouped(names)) <==> exists m :: m in names && PackageOf(m) == package
  {
    if names != [] {
      var front, last := names[..|names| - 1], names[|names| - 1];
      GroupedKeysIff(front, package);
      GroupedSnoc(names, package, last);
      if exists m :: m in names && PackageOf(m) == package {
        var m :| m in names && PackageOf(m) == package;
        InSnoc(names, m);
      }
      if exists m :: m in front && PackageOf(m) == package {
        var m :| m in front && PackageOf(m) == package;
        InSnoc(names, m);
      }
    }
  }

  /** Each package holds exactly the names of that package. */
  lemma {:induction false} GroupedMembersIff(names: seq<string>, package: string, name: string)
    requires package in Keys(Grouped(names))
    ensures name in Get(Grouped(names), package).value <==> name in names && PackageOf(name) == package
  {
    assert names != [];
    var front, last := names[..|names| - 1], names[|names| - 1];
    GroupedSnoc(names, package, name);
    InSnoc(names, name);
    if package in Keys(Grouped(front)) {
      GroupedMembersIff(front, package, name);
    } else {
      GroupedKeysIff(front, package);
      assert !(name in front && PackageOf(name) == package);
    }
  }

  /** Each package holds exactly the names of that package; every package present has a name. */
  lemma GroupedIff(names: seq<string>, package: string, name: string)
    ensures package in Keys(Grouped(names)) <==> exists m :: m in names && PackageOf(m) == package
    ensures package in Keys(Grouped(names)) ==>
      (name in Get(Grouped(names), package).value <==> name in names && PackageOf(name) == package)
  {
    GroupedKeysIff(names, package);
    if package in Keys(Grouped(names)) {
      GroupedMembersIff(names, package, name);
    }
  }

  // ----- The index -----

  /** The index's sections for the packages `packages` of `grouped`, each with its modules sorted. */
  function Sections(grouped: Dict<string, seq<string>>, packages: seq<string>): (r: seq<(string, seq<string>)>)
    requires forall p :: p in packages ==> p in Keys(grouped)
    ensures |r| == |packages|
    ensures forall k :: 0 <= k < |r| ==>
      r[k].0 == packages[k] && SortedStrings(r[k].1) && multiset(r[k].1) == multiset(Get(grouped, packages[k]).value)
  {
    if packages == [] then []
    else [(packages[0], Sort(Get(grouped, packages[0]).value))] + Sections(grouped, packages[1..])
  }

  /** The packages of the index in sorted order, each with its modules sorted. */
  function IndexSections(names: seq<string>): seq<(string, seq<string>)> {
    var grouped := Grouped(names);
    var packages := Sort(Keys(grouped));
    assert forall p :: p in packages ==> p in Keys(grouped) by {
      forall p | p in packages ensures p in Keys(grouped) {
        assert p in multiset(packages);
      }
    }
    Sections(grouped, packages)
  }

  /** Packages come in sorted order, and so do the modules inside each. */
  lemma IndexSectionsSorted(names: seq<string>)
    ensures var sections := IndexSections(names);
      (forall k, l :: 0 <= k < l < |sections| ==> Below(sections[k].0, sections[l].0)) &&
      (forall k :: 0 <= k < |sections| ==> SortedStrings(sections[k].1))
  {
  }

  /** A name listed in a section of the index is a module name of that section's package. */
  lemma ListedModule(names: seq<string>, name: string, k: nat)
    requires k < |IndexSections(names)| && name in IndexSections(names)[k].1
    ensures name in names && IndexSections(names)[k].0 == PackageOf(name)
  {
    var grouped := Grouped(names);
    var packages := Sort(Keys(grouped));
    assert packages[k] in multiset(Keys(grouped));
    GroupedIff(names, packages[k], name);
    assert name in multiset(IndexSections(names)[k].1);
  }

  /** The section of the index that lists a module name. */
  lemma ModuleSection(names: seq<string>, name: string) returns (k: nat)
    requires name in names
    ensures k < |IndexSections(names)| && name in IndexSections(names)[k].1
  {
    var grouped := Grouped(names);
    var packages := Sort(Keys(grouped));
    GroupedIff(names, PackageOf(name), name);
    assert PackageOf(name) in packages by {
      assert PackageOf(name) in multiset(packages);
    }
    k :| 0 <= k < |packages| && packages[k] == PackageOf(name);
    assert name in IndexSections(names)[k].1 by {
      assert name in multiset(IndexSections(names)[k].1);
    }
  }

  /**
    Every module name appears in the index, in the section of its own
    package, and the index lists nothing else.
   */
  lemma IndexListsEveryModule(names: seq<string>, name: string)
    ensures (exists section :: section in IndexSections(names) && name in section.1) <==> name in names
    ensures forall section :: section in IndexSections(names) && name in section.1 ==> section.0 == PackageOf(name)
  {
    var sections := IndexSections(names);
    forall section | section in sections && name in section.1
      ensures section.0 == PackageOf(name) && name in names
    {
      var k :| 0 <= k < |sections| && sections[k] == section;
      ListedModule(names, name, k);
    }
    if name in names {
      var k := ModuleSection(names, name);
      assert sections[k] in sections;
    }
  }

  /** `module_name.replace(".", "_") + ".md"`. */
  function DocFileName(name: string): string {
    ReplaceChar(name, '.', '_') + ".md"
  }

  /**
    A document's name has no dot before its ".md" suffix, and for a module
    name without underscores the stem leads back to the module name.
   */
  lemma DocFileNameRoundTrip(name: string)
    ensures EndsWith(DocFileName(name), ".md")
    ensures forall i :: 0 <= i < |name| ==> DocFileName(name)[i] != '.'
    ensures '_' !in name ==> ReplaceChar(DocFileName(name)[..|name|], '_', '.') == name
  {
    var file := DocFileName(name);
    assert file[|file| - 3..] == ".md";
    assert file[..|name|] == ReplaceChar(name, '.', '_');
    if '_' !in name {
      var back := ReplaceChar(file[..|name|], '_', '.');
      forall i | 0 <= i < |name| ensures back[i] == name[i] {
        assert name[i] != '_';
      }
    }
  }

  /** `s.split("\n")[0]`. */
  function FirstLine(s: string): (r: string)
    ensures '\n' !in r
    ensures |r| <= |s| && r == s[..|r|]
    ensures |r| < |s| ==> s[|r|] == '\n'
  {
    if s == [] || s[0] == '\n' then [] else [s[0]] + FirstLine(s[1..])
  }

  function ClassNames(classes: seq<ClassInfo>): seq<string> {
    seq(|classes|, i requires 0 <= i < |classes| => classes[i].name)
  }

  function FunctionNames(functions: seq<FunctionInfo>): seq<string> {
    seq(|functions|, i requires 0 <= i < |functions| => functions[i].name)
  }

  /** The line linking a module to its document. */
  function LinkLine(name: string): string {
    "- [" + name + "](" + DocFileName(name) + ")"
  }

  /** A module's entry in the index: its link, the first docstring line, its classes and public functions. */
  function ModuleLines(name: string, info: ModuleInfo): seq<string> {
    var publicFunctions := PublicFunctions(info.functions);
    [LinkLine(name)]
    + (if info.docstring != "" then ["  - " + FirstLine(info.docstring)] else [])
    + (if info.classes != [] then ["  - Classes: " + Join(ClassNames(info.classes), ", ")] else [])
    + (if info.functions != [] && publicFunctions != [] then ["  - Functions: " + Join(FunctionNames(publicFunctions), ", ")] else [])
    + [""]
  }

  /** The entries of one section's modules; every listed module is a key, so the default is never taken. */
  function EntriesLines(modules: Dict<string, ModuleInfo>, names: seq<string>): seq<string> {
    if names == [] then []
    else ModuleLines(names[0], Get(modules, names[0]).GetOr(ModuleInfo("", [], [], [], [], ""))) + EntriesLines(modules, names[1..])
  }

  function SectionsLines(modules: Dict<string, ModuleInfo>, sections: seq<(string, seq<string>)>): seq<string> {
    if sections == [] then []
    else ["## " + Title(sections[0].0) + " Package", ""] + EntriesLines(modules, sections[0].1) + SectionsLines(modules, sections[1..])
  }

  const IndexHeader: seq<string> := [
    "# Golf Modeling Suite API Reference", "",
    "This is the complete API reference for the Golf Modeling Suite.", ""]

  /** `generate_index`: the lines joined with newlines. */
  function IndexLines(modules: Dict<string, ModuleInfo>): seq<string> {
    IndexHeader + SectionsLines(modules, IndexSections(Keys(modules)))
  }

  function Index(modules: Dict<string, ModuleInfo>): string {
    Join(IndexLines(modules), "\n")
  }

  lemma {:induction false} EntriesLinked(modules: Dict<string, ModuleInfo>, names: seq<string>, name: string)
    requires name in names
    ensures LinkLine(name) in EntriesLines(modules, names)
  {
    if names[0] != name {
      EntriesLinked(modules, names[1..], name);
    }
  }

  lemma {:induction false} SectionsLinked(modules: Dict<string, ModuleInfo>, sections: seq<(string, seq<string>)>, k: nat, name: string)
    requires k < |sections| && name in sections[k].1
    ensures LinkLine(name) in SectionsLines(modules, sections)
  {
    if k == 0 {
      EntriesLinked(modules, sections[0].1, name);
    } else {
      SectionsLinked(modules, sections[1..], k - 1, name);
    }
  }

  /** Every documented module is linked from the index, to the document named after it. */
  lemma IndexLinksEveryModule(modules: Dict<string, ModuleInfo>, name: string)
    requires name in Keys(modules)
    ensures LinkLine(name) in IndexLines(modules)
  {
    var k := ModuleSection(Keys(modules), name);
    SectionsLinked(modules, IndexSections(Keys(modules)), k, name);
  }
}
