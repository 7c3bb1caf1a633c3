/**
  What the API documentation generator extracts from a parsed module: method
  classification, annotation rendering, the class and module summaries, and
  which members the module documentation lists. The syntax tree is an
  abstract datatype standing for the nodes of Python's `ast` module.
 */
module ApiAnalysis {
  import opened Wrappers
  import opened Text

  // ----- Method classification -----

  datatype MethodType = Magic | Private | Public

  /** `_analyze_class`'s classification of a method by its name. */
  function MethodTypeOf(name: string): (t: MethodType)
    ensures t == Magic <==> StartsWith(name, "__") && EndsWith(name, "__")
    ensures t == Public <==> !StartsWith(name, "_")
  {
    if StartsWith(name, "__") && EndsWith(name, "__") then
      assert name[..1] == name[..2][..1];
      Magic
    else if StartsWith(name, "_") then Private
    else Public
  }

  // ----- Annotations -----

  /** The value of an `ast.Constant`. */
  datatype Constant = StrConst(s: string) | IntConst(i: int) | BoolConst(b: bool) | NoneConst

  /** An annotation expression. */
  datatype Expr =
    | Name(id: string)
    | Attribute(value: Expr, attr: string)
    | Subscript(value: Expr, slice: Expr)
    | Const(c: Constant)
    | OtherExpr

  /** `str(value)` of a constant. */
  function ConstantString(c: Constant): string {
    match c
    case StrConst(s) => s
    case IntConst(i) => if i < 0 then "-" + NatToString(-i) else NatToString(i)
    case BoolConst(b) => if b then "True" else "False"
    case NoneConst => "None"
  }

  /**
    `_get_annotation_string`: a name, a dotted name over a plain name, a
    subscript rendered recursively, a constant's `str`, and "Any" for anything else.
   */
  function AnnotationString(a: Expr): string {
    match a
    case Name(id) => id
    case Attribute(Name(id), attr) => id + "." + attr
    case Subscript(value, slice) => AnnotationString(value) + "[" + AnnotationString(slice) + "]"
    case Const(c) => ConstantString(c)
    case _ => "Any"
  }

  /** The number of occurrences of `c` in `s`. */
  function CountChar(s: string, c: char): nat {
    if s == [] then 0 else (if s[0] == c then 1 else 0) + CountChar(s[1..], c)
  }

  lemma {:induction false} CountCharAppend(a: string, b: string, c: char)
    ensures CountChar(a + b, c) == CountChar(a, c) + CountChar(b, c)
  {
    if a == [] {
      assert a + b == b;
    } else {
      assert (a + b)[0] == a[0] && (a + b)[1..] == a[1..] + b;
      CountCharAppend(a[1..], b, c);
    }
  }

  lemma {:induction false} CountCharAbsent(s: string, c: char)
    requires forall i :: 0 <= i < |s| ==> s[i] != c
    ensures CountChar(s, c) == 0
  {
    if s != [] {
      CountCharAbsent(s[1..], c);
    }
  }

  lemma {:induction false} NatToStringDigits(n: nat)
    ensures forall i :: 0 <= i < |NatToString(n)| ==> '0' <= NatToString(n)[i] <= '9'
  {
    if n >= 10 {
      NatToStringDigits(n / 10);
    }
  }

  predicate NoBrackets(s: string) {
    forall i :: 0 <= i < |s| ==> s[i] != '[' && s[i] != ']'
  }

  /** Every name, attribute and string constant the rendering copies is free of brackets. */
  predicate PlainLeaves(a: Expr) {
    match a
    case Name(id) => NoBrackets(id)
    case Attribute(Name(id), attr) => NoBrackets(id) && NoBrackets(attr)
    case Subscript(value, slice) => PlainLeaves(value) && PlainLeaves(slice)
    case Const(StrConst(s)) => NoBrackets(s)
    case _ => true
  }

  /** The subscripts the rendering reaches (those under an attribute of a non-name render as "Any"). */
  function RenderedSubscripts(a: Expr): nat {
    match a
    case Subscript(value, slice) => 1 + RenderedSubscripts(value) + RenderedSubscripts(slice)
    case _ => 0
  }

  lemma ConstantStringNoBrackets(c: Constant)
    requires c.StrConst? ==> NoBrackets(c.s)
    ensures NoBrackets(ConstantString(c))
  {
    if c.IntConst? {
      NatToStringDigits(if c.i < 0 then -c.i else c.i);
    }
  }

  /** The brackets of `v[s]`: those of `v` and `s`, plus one of each kind. */
  lemma SubscriptCounts(v: string, s: string)
    ensures CountChar(v + "[" + s + "]", '[') == CountChar(v, '[') + 1 + CountChar(s, '[')
    ensures CountChar(v + "[" + s + "]", ']') == CountChar(v, ']') + CountChar(s, ']') + 1
  {
    CountCharAppend(v + "[" + s, "]", '[');
    CountCharAppend(v + "[", s, '[');
    CountCharAppend(v, "[", '[');
    CountCharAppend(v + "[" + s, "]", ']');
    CountCharAppend(v + "[", s, ']');
    CountCharAppend(v, "[", ']');
  }

  /** `id.attr` has no brackets when neither part has. */
  lemma AttributeCounts(id: string, attr: string)
    requires NoBrackets(id) && NoBrackets(attr)
    ensures CountChar(id + "." + attr, '[') == 0 && CountChar(id + "." + attr, ']') == 0
  {
    CountCharAbsent(id, '[');
    CountCharAbsent(id, ']');
    CountCharAbsent(attr, '[');
    CountCharAbsent(attr, ']');
    CountCharAppend(id + ".", attr, '[');
    CountCharAppend(id, ".", '[');
    CountCharAppend(id + ".", attr, ']');
    CountCharAppend(id, ".", ']');
  }

  /**
    A rendered annotation has one "[" and one "]" per subscript it renders,
    so a generic type's brackets always balance.
   */
  lemma {:induction false} AnnotationBracketsBalance(a: Expr)
    requires PlainLeaves(a)
    ensures CountChar(AnnotationString(a), '[') == RenderedSubscripts(a)
    ensures CountChar(AnnotationString(a), ']') == RenderedSubscripts(a)
  {
    match a
    case Subscript(value, slice) =>
      AnnotationBracketsBalance(value);
      AnnotationBracketsBalance(slice);
      SubscriptCounts(AnnotationString(value), AnnotationString(slice));
    case Name(id) =>
      CountCharAbsent(id, '[');
      CountCharAbsent(id, ']');
    case Attribute(value, attr) =>
      if value.Name? {
        AttributeCounts(value.id, attr);
      } else {
        CountCharAbsent("Any", '[');
        CountCharAbsent("Any", ']');
      }
    case Const(c) =>
      ConstantStringNoBrackets(c);
      CountCharAbsent(ConstantString(c), '[');
      CountCharAbsent(ConstantString(c), ']');
    case OtherExpr =>
  }

  // ----- Functions and classes -----

  datatype Arg = Arg(name: string, annotation: Option<Expr>)

  /** An `ast.FunctionDef` or `ast.AsyncFunctionDef`. */
  datatype FunctionDef = FunctionDef(name: string, line: nat, docstring: Option<string>, args: seq<Arg>, returnType: Option<Expr>)

  datatype ArgInfo = ArgInfo(name: string, typ: Option<string>)

  /** The dictionary `_analyze_function` builds, with the keys `_analyze_class` adds. */
  datatype FunctionInfo = FunctionInfo(
    name: string, line: nat, docstring: string, args: seq<ArgInfo>, returnType: Option<string>,
    isAsync: bool, isMethod: bool, methodType: Option<MethodType>)

  function ArgInfoOf(a: Arg): ArgInfo {
    ArgInfo(a.name, if a.annotation.Some? then Some(AnnotationString(a.annotation.value)) else None)
  }

  /** `_analyze_function`: name, line, docstring ("" when absent), rendered argument and return types. */
  function AnalyzeFunction(f: FunctionDef, isAsync: bool): (info: FunctionInfo)
    ensures info.name == f.name && |info.args| == |f.args|
    ensures forall i :: 0 <= i < |f.args| ==> info.args[i] == ArgInfoOf(f.args[i])
    ensures info.methodType.None? && !info.isMethod
  {
    FunctionInfo(f.name, f.line, f.docstring.GetOr(""),
      seq(|f.args|, i requires 0 <= i < |f.args| => ArgInfoOf(f.args[i])),
      if f.returnType.Some? then Some(AnnotationString(f.returnType.value)) else None,
      isAsync, false, None)
  }

  /** A statement of a class body. */
  datatype ClassItem = MethodDef(f: FunctionDef) | AsyncMethodDef(f: FunctionDef) | OtherItem

  datatype ClassDef = ClassDef(name: string, line: nat, docstring: Option<string>, bases: seq<Expr>, body: seq<ClassItem>)

  datatype ClassInfo = ClassInfo(
    name: string, line: nat, docstring: string, methods: seq<FunctionInfo>, properties: seq<string>, bases: seq<string>)

  /** A base class as listed: a plain name, or a dotted name over a plain name; other bases are skipped. */
  function BaseName(e: Expr): Option<string> {
    match e
    case Name(id) => Some(id)
    case Attribute(Name(id), attr) => Some(id + "." + attr)
    case _ => None
  }

  function BasesOf(bases: seq<Expr>): seq<string> {
    if bases == [] then []
    else
      var last := BaseName(bases[|bases| - 1]);
      BasesOf(bases[..|bases| - 1]) + if last.Some? then [last.value] else []
  }

  /**
    The entry `_analyze_class` records for a class-body item, as written: an
    async method is marked async but is given no method type.
   */
  function MethodInfoAsWritten(item: ClassItem): Option<FunctionInfo> {
    match item
    case MethodDef(f) => Some(AnalyzeFunction(f, false).(isMethod := true, methodType := Some(MethodTypeOf(f.name))))
    case AsyncMethodDef(f) => Some(AnalyzeFunction(f, true).(isMethod := true, isAsync := true))
    case OtherItem => None
  }

  /** The entry for a class-body item, with async methods classified like the others. */
  function MethodInfo(item: ClassItem): Option<FunctionInfo> {
    match item
    case MethodDef(f) => Some(AnalyzeFunction(f, false).(isMethod := true, methodType := Some(MethodTypeOf(f.name))))
    case AsyncMethodDef(f) => Some(AnalyzeFunction(f, true).(isMethod := true, methodType := Some(MethodTypeOf(f.name))))
    case OtherItem => None
  }

  function MethodsOf(body: seq<ClassItem>): seq<FunctionInfo> {
    if body == [] then []
    else
      var last := MethodInfo(body[|body| - 1]);
      MethodsOf(body[..|body| - 1]) + if last.Some? then [last.value] else []
  }

  function MethodsAsWritten(body: seq<ClassItem>): seq<FunctionInfo> {
    if body == [] then []
    else
      var last := MethodInfoAsWritten(body[|body| - 1]);
      MethodsAsWritten(body[..|body| - 1]) + if last.Some? then [last.value] else []
  }

  /** The summary of a class. */
  function ClassInfoOf(c: ClassDef): ClassInfo {
    ClassInfo(c.name, c.line, c.docstring.GetOr(""), MethodsOf(c.body), [], BasesOf(c.bases))
  }

  /** `_analyze_class`: the bases, then the methods in body order. */
  method AnalyzeClass(node: ClassDef) returns (info: ClassInfo)
    ensures info == ClassInfoOf(node)
  {
    var bases: seq<string> := [];
    var i := 0;
    while i < |node.bases|
      invariant 0 <= i <= |node.bases|
      invariant bases == BasesOf(node.bases[..i])
    {
      var base := node.bases[i];
      if base.Name? {
        bases := bases + [base.id];
      } else if base.Attribute? && base.value.Name? {
        bases := bases + [base.value.id + "." + base.attr];
      }
      assert node.bases[..i + 1][..i] == node.bases[..i];
      i := i + 1;
    }
    assert node.bases[..i] == node.bases;
    var methods: seq<FunctionInfo> := [];
    i := 0;
    while i < |node.body|
      invariant 0 <= i <= |node.body|
      invariant methods == MethodsOf(node.body[..i])
    {
      var item := node.body[i];
      if item.MethodDef? {
        var methodInfo := AnalyzeFunction(item.f, false);
        methodInfo := methodInfo.(isMethod := true, methodType := Some(MethodTypeOf(item.f.name)));
        methods := methods + [methodInfo];
      } else if item.AsyncMethodDef? {
        var methodInfo := AnalyzeFunction(item.f, true);
        methodInfo := methodInfo.(isMethod := true, isAsync := true, methodType := Some(MethodTypeOf(item.f.name)));
        methods := methods + [methodInfo];
      }
      assert node.body[..i + 1][..i] == node.body[..i];
      i := i + 1;
    }
    assert node.body[..i] == node.body;
    info := ClassInfo(node.name, node.line, node.docstring.GetOr(""), methods, [], bases);
  }

  /** Each method and async method of the body is listed, and nothing else. */
  lemma {:induction false} MethodsOfIff(body: seq<ClassItem>, info: FunctionInfo)
    ensures info in MethodsOf(body) <==> exists i :: 0 <= i < |body| && MethodInfo(body[i]) == Some(info)
  {
    if body != [] {
      var front, last := body[..|body| - 1], MethodInfo(body[|body| - 1]);
      MethodsOfIff(front, info);
      assert info in MethodsOf(body) <==> info in MethodsOf(front) || last == Some(info);
      if last == Some(info) {
        assert 0 <= |body| - 1 < |body| && MethodInfo(body[|body| - 1]) == Some(info);
      }
      if info in MethodsOf(front) {
        var i :| 0 <= i < |front| && MethodInfo(front[i]) == Some(info);
        assert body[i] == front[i];
      }
      if exists i :: 0 <= i < |body| && MethodInfo(body[i]) == Some(info) {
        var i :| 0 <= i < |body| && MethodInfo(body[i]) == Some(info);
        if i < |front| {
          assert front[i] == body[i];
        }
      }
    }
  }

  /** Every listed method is marked as a method and carries the type its name gives it. */
  lemma {:induction false} MethodsClassified(body: seq<ClassItem>)
    ensures forall m :: m in MethodsOf(body) ==> m.isMethod && m.methodType == Some(MethodTypeOf(m.name))
  {
    forall m | m in MethodsOf(body)
      ensures m.isMethod && m.methodType == Some(MethodTypeOf(m.name))
    {
      MethodsOfIff(body, m);
    }
  }

  /** As written, an async method is listed without a method type. */
  lemma AsyncMethodUntyped(f: FunctionDef)
    ensures MethodsAsWritten([AsyncMethodDef(f)]) == [AnalyzeFunction(f, true).(isMethod := true)]
    ensures MethodsAsWritten([AsyncMethodDef(f)])[0].methodType.None?
  {
    assert [AsyncMethodDef(f)][..0] == [];
  }

  // ----- Module documentation -----

  /** The message of the KeyError raised by looking up a missing "method_type". */
  const MissingMethodType: string := "KeyError: 'method_type'"

  /**
    The methods `generate_module_doc` documents, as written: it reads each
    method's type, so a method without one raises.
   */
  function DocumentedMethodsAsWritten(methods: seq<FunctionInfo>): Result<seq<FunctionInfo>, string> {
    if methods == [] then Success([])
    else if methods[0].methodType.None? then Failure(MissingMethodType)
    else
      match DocumentedMethodsAsWritten(methods[1..])
      case Failure(e) => Failure(e)
      case Success(rest) => Success((if methods[0].methodType == Some(Public) then [methods[0]] else []) + rest)
  }

  /** The methods `generate_module_doc` documents: the public ones, in order. */
  function DocumentedMethods(methods: seq<FunctionInfo>): seq<FunctionInfo> {
    if methods == [] then []
    else (if methods[0].methodType == Some(Public) then [methods[0]] else []) + DocumentedMethods(methods[1..])
  }

  /** A class with an async method cannot be documented as written. */
  lemma AsyncMethodBreaksDoc(f: FunctionDef)
    ensures DocumentedMethodsAsWritten(MethodsAsWritten([AsyncMethodDef(f)])) == Failure(MissingMethodType)
    ensures DocumentedMethods(ClassInfoOf(ClassDef("C", 1, None, [], [AsyncMethodDef(f)])).methods) ==
      if StartsWith(f.name, "_") then [] else [AnalyzeFunction(f, true).(isMethod := true, methodType := Some(Public))]
  {
    AsyncMethodUntyped(f);
    var body := [AsyncMethodDef(f)];
    assert body[..0] == [] && body[0] == AsyncMethodDef(f);
    assert MethodsOf(body) == MethodsOf(body[..0]) + [MethodInfo(AsyncMethodDef(f)).value];
    var methods := MethodsOf(body);
    assert methods[1..] == [];
  }

  /** When every method has a type, the documentation lists the same methods both ways. */
  lemma {:induction false} DocumentedMethodsAgree(methods: seq<FunctionInfo>)
    requires forall m :: m in methods ==> m.methodType.Some?
    ensures DocumentedMethodsAsWritten(methods) == Success(DocumentedMethods(methods))
  {
    if methods != [] {
      assert methods[0] in methods;
      DocumentedMethodsAgree(methods[1..]);
    }
  }

  lemma {:induction false} DocumentedMethodsIff(methods: seq<FunctionInfo>, m: FunctionInfo)
    ensures m in DocumentedMethods(methods) <==> m in methods && m.methodType == Some(Public)
  {
    if methods != [] {
      DocumentedMethodsIff(methods[1..], m);
      assert methods == [methods[0]] + methods[1..];
    }
  }

  /**
    A class's documentation lists exactly its methods (async or not) whose
    names do not start with an underscore.
   */
  lemma ClassDocListsPublicMethods(c: ClassDef, m: FunctionInfo)
    ensures m in DocumentedMethods(ClassInfoOf(c).methods) <==>
      m in ClassInfoOf(c).methods && !StartsWith(m.name, "_")
  {
    DocumentedMethodsIff(ClassInfoOf(c).methods, m);
    MethodsClassified(c.body);
  }

  /** The functions a module's documentation and the index list: those not starting with an underscore. */
  function PublicFunctions(functions: seq<FunctionInfo>): (r: seq<FunctionInfo>)
    ensures forall f :: f in r <==> f in functions && !StartsWith(f.name, "_")
  {
    if functions == [] then []
    else
      assert functions == [functions[0]] + functions[1..];
      (if StartsWith(functions[0].name, "_") then [] else [functions[0]]) + PublicFunctions(functions[1..])
  }

  // ----- Modules -----

  datatype Alias = Alias(name: string, asname: Option<string>)

  /** A node of the module's tree, in `ast.walk` order. */
  datatype Node =
    | ClassNode(c: ClassDef)
    | FunctionNode(f: FunctionDef)
    | AssignNode(targets: seq<Expr>, line: nat)
    | ImportNode(names: seq<Alias>)
    | ImportFromNode(fromModule: Option<string>, names: seq<Alias>)
    | OtherNode

  datatype ConstInfo = ConstInfo(name: string, line: nat)

  datatype ImportInfo =
    | PlainImport(moduleName: string, alias: Option<string>)
    | FromImport(fromModule: Option<string>, name: string, alias: Option<string>)

  datatype ModuleInfo = ModuleInfo(
    path: string, classes: seq<ClassInfo>, functions: seq<FunctionInfo>,
    constants: seq<ConstInfo>, imports: seq<ImportInfo>, docstring: string)

  /** The constants one assignment records: its targets that are plain names written in upper case. */
  function TargetConstants(targets: seq<Expr>, line: nat): seq<ConstInfo> {
    if targets == [] then []
    else
      var t := targets[|targets| - 1];
      TargetConstants(targets[..|targets| - 1], line) + if t.Name? && IsUpper(t.id) then [ConstInfo(t.id, line)] else []
  }

  function AliasImports(node: Node, names: seq<Alias>): seq<ImportInfo> {
    if names == [] then []
    else
      var a := names[|names| - 1];
      AliasImports(node, names[..|names| - 1])
      + [if node.ImportFromNode? then FromImport(node.fromModule, a.name, a.asname) else PlainImport(a.name, a.asname)]
  }

  function NodeClasses(node: Node): seq<ClassInfo> {
    if node.ClassNode? then [ClassInfoOf(node.c)] else []
  }

  function NodeConstants(node: Node): seq<ConstInfo> {
    if node.AssignNode? then TargetConstants(node.targets, node.line) else []
  }

  function NodeImports(node: Node): seq<ImportInfo> {
    if node.ImportNode? || node.ImportFromNode? then AliasImports(node, node.names) else []
  }

  /** The entries the nodes contribute, in node order. */
  function Gather<T>(nodes: seq<Node>, part: Node -> seq<T>): seq<T> {
    if nodes == [] then [] else Gather(nodes[..|nodes| - 1], part) + part(nodes[|nodes| - 1])
  }

  /**
    The summary of a module. A function definition is recorded only when its
    parent is the module, and parsed nodes carry no parent, so no function
    is ever recorded.
   */
  function ModuleInfoOf(path: string, docstring: Option<string>, nodes: seq<Node>): ModuleInfo {
    ModuleInfo(path, Gather(nodes, NodeClasses), [], Gather(nodes, NodeConstants), Gather(nodes, NodeImports), docstring.GetOr(""))
  }

  lemma GatherSnoc<T>(nodes: seq<Node>, part: Node -> seq<T>, i: nat)
    requires i < |nodes|
    ensures Gather(nodes[..i + 1], part) == Gather(nodes[..i], part) + part(nodes[i])
  {
    assert nodes[..i + 1][..i] == nodes[..i];
  }

  /** `analyze_module` on a parsed module: its docstring and its nodes in walk order. */
  method AnalyzeModule(path: string, docstring: Option<string>, nodes: seq<Node>) returns (info: ModuleInfo)
    ensures info == ModuleInfoOf(path, docstring, nodes)
    ensures info.functions == []
  {
    var classes: seq<ClassInfo> := [];
    var constants: seq<ConstInfo> := [];
    var imports: seq<ImportInfo> := [];
    var i := 0;
    while i < |nodes|
      invariant 0 <= i <= |nodes|
      invariant classes == Gather(nodes[..i], NodeClasses)
      invariant constants == Gather(nodes[..i], NodeConstants)
      invariant imports == Gather(nodes[..i], NodeImports)
    {
      var node := nodes[i];
      if node.ClassNode? {
        var classInfo := AnalyzeClass(node.c);
        classes := classes + [classInfo];
      } else if node.AssignNode? {
        constants := AppendConstants(constants, node.targets, node.line);
      } else if node.ImportNode? || node.ImportFromNode? {
        imports := AppendImports(imports, node);
      }
      GatherSnoc(nodes, NodeClasses, i);
      GatherSnoc(nodes, NodeConstants, i);
      GatherSnoc(nodes, NodeImports, i);
      i := i + 1;
    }
    assert nodes[..i] == nodes;
    info := ModuleInfo(path, classes, [], constants, imports, docstring.GetOr(""));
  }

  /** The inner loop over an assignment's targets. */
  method AppendConstants(constants: seq<ConstInfo>, targets: seq<Expr>, line: nat) returns (r: seq<ConstInfo>)
    ensures r == constants + TargetConstants(targets, line)
  {
    r := constants;
    var j := 0;
    while j < |targets|
      invariant 0 <= j <= |targets|
      invariant r == constants + TargetConstants(targets[..j], line)
    {
      var target := targets[j];
      if target.Name? && IsUpper(target.id) {
        r := r + [ConstInfo(target.id, line)];
      }
      assert targets[..j + 1][..j] == targets[..j];
      j := j + 1;
    }
    assert targets[..j] == targets;
  }

  /** The inner loop over an import's aliases. */
  method AppendImports(imports: seq<ImportInfo>, node: Node) returns (r: seq<ImportInfo>)
    requires node.ImportNode? || node.ImportFromNode?
    ensures r == imports + AliasImports(node, node.names)
  {
    r := imports;
    var j := 0;
    while j < |node.names|
      invariant 0 <= j <= |node.names|
      invariant r == imports + AliasImports(node, node.names[..j])
    {
      var alias := node.names[j];
      if node.ImportNode? {
        r := r + [PlainImport(alias.name, alias.asname)];
      } else {
        r := r + [FromImport(node.fromModule, alias.name, alias.asname)];
      }
      assert node.names[..j + 1][..j] == node.names[..j];
      j := j + 1;
    }
    assert node.names[..j] == node.names;
  }

  lemma {:induction false} GatherIff<T>(nodes: seq<Node>, part: Node -> seq<T>, x: T)
    ensures x in Gather(nodes, part) <==> exists i :: 0 <= i < |nodes| && x in part(nodes[i])
  {
    if nodes != [] {
      var front := nodes[..|nodes| - 1];
      GatherIff(front, part, x);
      if x in Gather(front, part) {
        var i :| 0 <= i < |front| && x in part(front[i]);
        assert nodes[i] == front[i];
      }
      if exists i :: 0 <= i < |nodes| && x in part(nodes[i]) {
        var i :| 0 <= i < |nodes| && x in part(nodes[i]);
        if i < |front| {
          assert front[i] == nodes[i];
        }
      }
    }
  }

  lemma {:induction false} TargetConstantsIff(targets: seq<Expr>, line: nat, c: ConstInfo)
    ensures c in TargetConstants(targets, line) <==> c.line == line && Name(c.name) in targets && IsUpper(c.name)
  {
    if targets != [] {
      var front := targets[..|targets| - 1];
      TargetConstantsIff(front, line, c);
      assert targets == front + [targets[|targets| - 1]];
    }
  }

  /**
    A constant is recorded exactly for an upper-case plain-name target of an
    assignment, with the assignment's line.
   */
  lemma ConstantRecordedIff(path: string, docstring: Option<string>, nodes: seq<Node>, c: ConstInfo)
    ensures c in ModuleInfoOf(path, docstring, nodes).constants <==>
      IsUpper(c.name) &&
      exists i :: 0 <= i < |nodes| && nodes[i].AssignNode? && nodes[i].line == c.line && Name(c.name) in nodes[i].targets
  {
    GatherIff(nodes, NodeConstants, c);
    forall i | 0 <= i < |nodes| && nodes[i].AssignNode?
      ensures c in NodeConstants(nodes[i]) <==> c.line == nodes[i].line && Name(c.name) in nodes[i].targets && IsUpper(c.name)
    {
      TargetConstantsIff(nodes[i].targets, nodes[i].line, c);
    }
  }

  /** The classes recorded are the summaries of the class nodes, and every class node is recorded. */
  lemma ClassRecordedIff(path: string, docstring: Option<string>, nodes: seq<Node>, info: ClassInfo)
    ensures info in ModuleInfoOf(path, docstring, nodes).classes <==>
      exists i :: 0 <= i < |nodes| && nodes[i].ClassNode? && info == ClassInfoOf(nodes[i].c)
  {
    GatherIff(nodes, NodeClasses, info);
  }
}
