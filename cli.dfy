/**
 * The command-line front end: extraction of every function with its
 * qualified name (a scope-stack visitor over the tree), the second copy of
 * the complexity rule, and the threshold filter of the `analyze` command.
 */
module Cli {
  import opened Python
  import opened Ast
  import Metrics

  /** `(full_name, node)` as `list_functions` returns it. */
  datatype FunctionEntry = FunctionEntry(fullName: string, node: Node)

  predicate IsFunctionNode(n: Node) { IsFunction(n.kind) }

  /** The segment a class or function adds to the qualified names below it. */
  function OwnScope(n: Node): seq<string>
  {
    if IsScope(n.kind) then [n.kind.name] else []
  }

  /** What visiting `n` appends to `functions` while the scope stack holds `path`. */
  function Extract(n: Node, path: seq<string>): seq<FunctionEntry>
    decreases n, 1
  {
    var inner := path + OwnScope(n);
    (if IsFunction(n.kind) then [FunctionEntry(Join(inner, "."), n)] else [])
    + ExtractAll(n.children, inner)
  }

  /** What visiting the subtrees `ns` in order appends. */
  function ExtractAll(ns: seq<Node>, path: seq<string>): seq<FunctionEntry>
    decreases ns, 0
  {
    if ns == [] then [] else ExtractAll(ns[..|ns| - 1], path) + Extract(ns[|ns| - 1], path)
  }

  /** The visitor of `list_functions`. The shared `scope_stack` and `functions`
      lists it closes over are its fields here. */
  class FunctionVisitor {
    var scopeStack: seq<string>
    var functions: seq<FunctionEntry>

    constructor ()
      ensures scopeStack == [] && functions == []
    {
      scopeStack := [];
      functions := [];
    }

    /** `visit(node)`: dispatch on the node class, with `generic_visit` as the default. */
    method Visit(n: Node)
      modifies this
      ensures scopeStack == old(scopeStack)
      ensures functions == old(functions) + Extract(n, old(scopeStack))
      decreases n, 1
    {
      if n.kind.ClassDef? {
        scopeStack := scopeStack + [n.kind.name];
        GenericVisit(n);
        scopeStack := scopeStack[..|scopeStack| - 1];
      } else if n.kind.FunctionDef? || n.kind.AsyncFunctionDef? {
        scopeStack := scopeStack + [n.kind.name];
        var fullName := Join(scopeStack, ".");
        functions := functions + [FunctionEntry(fullName, n)];
        GenericVisit(n);
        scopeStack := scopeStack[..|scopeStack| - 1];
      } else {
        assert old(scopeStack) + OwnScope(n) == old(scopeStack);
        GenericVisit(n);
      }
    }

    /** `generic_visit(node)`: visits the children in order. */
    method GenericVisit(n: Node)
      modifies this
      ensures scopeStack == old(scopeStack)
      ensures functions == old(functions) + ExtractAll(n.children, old(scopeStack))
      decreases n, 0
    {
      for i := 0 to |n.children|
        invariant scopeStack == old(scopeStack)
        invariant functions == old(functions) + ExtractAll(n.children[..i], old(scopeStack))
      {
        assert n.children[..i + 1][..i] == n.children[..i];
        Visit(n.children[i]);
      }
      assert n.children[..|n.children|] == n.children;
    }
  }

  /** The nodes of a list of entries, in order. */
  function EntryNodes(es: seq<FunctionEntry>): (r: seq<Node>)
    ensures |r| == |es| && forall i :: 0 <= i < |es| ==> r[i] == es[i].node
  {
    if es == [] then [] else EntryNodes(es[..|es| - 1]) + [es[|es| - 1].node]
  }

  lemma {:induction false} EntryNodesAppend(a: seq<FunctionEntry>, b: seq<FunctionEntry>)
    ensures EntryNodes(a + b) == EntryNodes(a) + EntryNodes(b)
  {
  }

  /** The extracted nodes are exactly the functions of the subtree, in walk
      order: one entry per `def`/`async def`, none for anything else. */
  lemma {:induction false} ExtractNodes(n: Node, path: seq<string>)
    ensures EntryNodes(Extract(n, path)) == Filter(Walk(n), IsFunctionNode)
    decreases n, 1
  {
    var inner := path + OwnScope(n);
    ExtractAllNodes(n.children, inner);
    FilterAppend([n], WalkAll(n.children), IsFunctionNode);
    EntryNodesAppend(if IsFunction(n.kind) then [FunctionEntry(Join(inner, "."), n)] else [], ExtractAll(n.children, inner));
    assert [n][..0] == [];
  }

  lemma {:induction false} ExtractAllNodes(ns: seq<Node>, path: seq<string>)
    ensures EntryNodes(ExtractAll(ns, path)) == Filter(WalkAll(ns), IsFunctionNode)
    decreases ns, 0
  {
    if ns != [] {
      var init, last := ns[..|ns| - 1], ns[|ns| - 1];
      var a, b := ExtractAll(init, path), Extract(last, path);
      assert ExtractAll(ns, path) == a + b;
      assert WalkAll(ns) == WalkAll(init) + Walk(last) by {
        assert ns == init + [last];
        WalkAllAppend(init, [last]);
        WalkAllSingle(last);
      }
      calc {
        EntryNodes(a + b);
        { EntryNodesAppend(a, b); }
        EntryNodes(a) + EntryNodes(b);
        { ExtractAllNodes(init, path); ExtractNodes(last, path); }
        Filter(WalkAll(init), IsFunctionNode) + Filter(Walk(last), IsFunctionNode);
        { FilterAppend(WalkAll(init), Walk(last), IsFunctionNode); }
        Filter(WalkAll(ns), IsFunctionNode);
      }
    }
  }

  /** The names of the classes and functions on a path, the start and end nodes included. */
  ghost function ScopeNamesAlong(n: Node, p: seq<nat>): seq<string>
    requires IsPath(n, p)
    decreases p
  {
    OwnScope(n) + (if p == [] then [] else ScopeNamesAlong(n.children[p[0]], p[1..]))
  }

  /** Every entry names a function of the subtree by the stack it was found
      under followed by the classes and functions enclosing it and its own name. */
  lemma ExtractNamed(n: Node, path: seq<string>, e: FunctionEntry)
    requires e in Extract(n, path)
    ensures exists p :: (IsPath(n, p) && NodeAt(n, p) == e.node && IsFunctionNode(e.node)
      && e.fullName == Join(path + ScopeNamesAlong(n, p), "."))
  {
    var p := ExtractNamedAt(n, path, e);
  }

  /** The path to the node of an entry, found by following the recursion. */
  lemma {:induction false} ExtractNamedAt(n: Node, path: seq<string>, e: FunctionEntry) returns (p: seq<nat>)
    requires e in Extract(n, path)
    ensures IsPath(n, p) && NodeAt(n, p) == e.node && IsFunctionNode(e.node)
    ensures e.fullName == Join(path + ScopeNamesAlong(n, p), ".")
    decreases n, 1
  {
    var inner := path + OwnScope(n);
    ExtractCases(n, path, e);
    if IsFunction(n.kind) && e == FunctionEntry(Join(inner, "."), n) {
      p := [];
      assert ScopeNamesAlong(n, p) == OwnScope(n) + [];
      assert path + ScopeNamesAlong(n, p) == inner;
    } else {
      var j, q := ExtractAllNamed(n.children, inner, e);
      p := [j] + q;
      PathThroughChild(n, j, q);
      assert path + ScopeNamesAlong(n, p) == inner + ScopeNamesAlong(n.children[j], q);
    }
  }

  /** An entry of a visit is the node's own entry or comes from a child. */
  lemma ExtractCases(n: Node, path: seq<string>, e: FunctionEntry)
    requires e in Extract(n, path)
    ensures (IsFunction(n.kind) && e == FunctionEntry(Join(path + OwnScope(n), "."), n))
      || e in ExtractAll(n.children, path + OwnScope(n))
  {
  }

  /** A path into child `j` extended by the step to that child. */
  lemma PathThroughChild(n: Node, j: nat, q: seq<nat>)
    requires j < |n.children| && IsPath(n.children[j], q)
    ensures IsPath(n, [j] + q) && NodeAt(n, [j] + q) == NodeAt(n.children[j], q)
    ensures ScopeNamesAlong(n, [j] + q) == OwnScope(n) + ScopeNamesAlong(n.children[j], q)
  {
    var p := [j] + q;
    assert p[0] == j && p[1..] == q;
  }

  lemma {:induction false} ExtractAllNamed(ns: seq<Node>, path: seq<string>, e: FunctionEntry)
    returns (j: nat, q: seq<nat>)
    requires e in ExtractAll(ns, path)
    ensures j < |ns| && IsPath(ns[j], q) && NodeAt(ns[j], q) == e.node && IsFunctionNode(e.node)
    ensures e.fullName == Join(path + ScopeNamesAlong(ns[j], q), ".")
    decreases ns, 0
  {
    var init, last := ns[..|ns| - 1], ns[|ns| - 1];
    if e in ExtractAll(init, path) {
      j, q := ExtractAllNamed(init, path, e);
      assert init[j] == ns[j];
    } else {
      j := |ns| - 1;
      q := ExtractNamedAt(last, path, e);
    }
  }

  /** `list_functions`. */
  method ListFunctions(tree: Node) returns (functions: seq<FunctionEntry>)
    ensures functions == Extract(tree, [])
    ensures EntryNodes(functions) == Filter(Walk(tree), IsFunctionNode)
    ensures |functions| == CountWhere(Walk(tree), IsFunctionNode)
  {
    var visitor := new FunctionVisitor();
    visitor.Visit(tree);
    functions := visitor.functions;
    ExtractNodes(tree, []);
  }

  /** `calculate_cyclomatic_complexity`: the same rule as `calc_cc`, computed separately. */
  method CalculateCyclomaticComplexity(funcNode: Node) returns (complexity: int)
    ensures complexity == Metrics.Complexity(funcNode)
    ensures WellFormed(funcNode) ==> complexity >= 1
  {
    complexity := 1;
    var nodes := Walk(funcNode);
    for i := 0 to |nodes|
      invariant complexity == 1 + Sum(nodes[..i], Metrics.CcWeight)
    {
      assert nodes[..i + 1][..i] == nodes[..i];
      var node := nodes[i];
      if Metrics.IsDecision(node.kind) {
        complexity := complexity + 1;
      } else if node.kind.BoolOp? {
        complexity := complexity + node.kind.operands - 1;
      }
    }
    assert nodes[..|nodes|] == nodes;
    Metrics.CcWalkSum(funcNode);
    if WellFormed(funcNode) {
      Metrics.ComplexityAtLeastOne(funcNode);
    }
  }

  /** A file handed to `analyze`: parsed, or rejected by the parser or the decoder. */
  datatype SourceFile = Parsed(path: string, tree: Node) | Unparseable(path: string)

  /** One reported line: the file, the qualified function name and its complexity. */
  datatype Finding = Finding(path: string, funcName: string, complexity: int)

  /** The findings for one file's functions, in extraction order. */
  function FileFindings(path: string, es: seq<FunctionEntry>, threshold: int): seq<Finding>
  {
    if es == [] then []
    else
      var e := es[|es| - 1];
      FileFindings(path, es[..|es| - 1], threshold)
      + (if Metrics.Complexity(e.node) >= threshold then [Finding(path, e.fullName, Metrics.Complexity(e.node))] else [])
  }

  function Findings(files: seq<SourceFile>, threshold: int): seq<Finding>
  {
    if files == [] then []
    else
      var f := files[|files| - 1];
      Findings(files[..|files| - 1], threshold)
      + (if f.Parsed? then FileFindings(f.path, Extract(f.tree, []), threshold) else [])
  }

  /** The inner loop of `analyze` over one file's functions. */
  method AnalyzeFunctions(path: string, functions: seq<FunctionEntry>, threshold: int) returns (found: seq<Finding>)
    ensures found == FileFindings(path, functions, threshold)
  {
    found := [];
    for i := 0 to |functions|
      invariant found == FileFindings(path, functions[..i], threshold)
    {
      assert functions[..i + 1][..i] == functions[..i];
      var complexity := CalculateCyclomaticComplexity(functions[i].node);
      if complexity >= threshold {
        found := found + [Finding(path, functions[i].fullName, complexity)];
      }
    }
    assert functions[..|functions|] == functions;
  }

  /** The result loop of `analyze`: files in order, functions in extraction order,
      those below the threshold dropped; a file that cannot be parsed is skipped. */
  method Analyze(files: seq<SourceFile>, threshold: int) returns (results: seq<Finding>)
    ensures results == Findings(files, threshold)
  {
    results := [];
    for k := 0 to |files|
      invariant results == Findings(files[..k], threshold)
    {
      assert files[..k + 1][..k] == files[..k];
      match files[k]
      case Unparseable(_) =>
      case Parsed(path, tree) =>
        var functions := ListFunctions(tree);
        var found := AnalyzeFunctions(path, functions, threshold);
        results := results + found;
    }
    assert files[..|files|] == files;
  }

  /** A finding is reported for a function exactly when its complexity reaches the threshold. */
  lemma {:induction false} FileFindingsExact(path: string, es: seq<FunctionEntry>, threshold: int, r: Finding)
    ensures r in FileFindings(path, es, threshold) <==>
      exists e :: e in es && Metrics.Complexity(e.node) >= threshold
        && r == Finding(path, e.fullName, Metrics.Complexity(e.node))
  {
    if es != [] {
      var init := es[..|es| - 1];
      FileFindingsExact(path, init, threshold, r);
      assert forall e :: e in es <==> e in init || e == es[|es| - 1];
    }
  }

  /** With the default threshold of 1 every function of a well-formed file is reported. */
  lemma {:induction false} DefaultThresholdReportsAll(path: string, es: seq<FunctionEntry>)
    requires forall e :: e in es ==> WellFormed(e.node)
    ensures |FileFindings(path, es, 1)| == |es|
  {
    if es != [] {
      var init := es[..|es| - 1];
      assert forall e :: e in init ==> e in es;
      DefaultThresholdReportsAll(path, init);
      Metrics.ComplexityAtLeastOne(es[|es| - 1].node);
    }
  }

  /** Every function extracted from a well-formed tree is well-formed. */
  lemma ExtractedWellFormed(tree: Node, e: FunctionEntry)
    requires WellFormed(tree) && e in Extract(tree, [])
    ensures WellFormed(e.node)
  {
    var p := ExtractNamedAt(tree, [], e);
    ExtractNodes(tree, []);
    var ns := EntryNodes(Extract(tree, []));
    var i :| 0 <= i < |Extract(tree, [])| && Extract(tree, [])[i] == e;
    assert ns[i] == e.node;
    assert e.node in Walk(tree);
    WellFormedSubtree(tree, e.node);
  }

  function EntryNames(es: seq<FunctionEntry>): (r: seq<string>)
    ensures |r| == |es| && forall i :: 0 <= i < |es| ==> r[i] == es[i].fullName
  {
    if es == [] then [] else EntryNames(es[..|es| - 1]) + [es[|es| - 1].fullName]
  }

  function NoArgs(): Arguments { Arguments([], [], None, [], None) }
  function SelfArg(): Arguments { Arguments([], ["self"], None, [], None) }

  /** The first case of the extraction tests (`A.method`, `A.method.inner`,
      `top_level`): a method `m` of class `c` holding a nested function `f`,
      then a top-level function `t`. */
  lemma ListFunctionsNestedExample(c: string, m: string, f: string, t: string)
    ensures var inner := Node(FunctionDef(f, NoArgs(), false), Some(4), Some(5), []);
      var meth := Node(FunctionDef(m, SelfArg(), false), Some(3), Some(6), [inner]);
      var a := Node(ClassDef(c, false), Some(2), Some(6), [meth]);
      var top := Node(FunctionDef(t, NoArgs(), false), Some(8), Some(9), []);
      EntryNames(Extract(Node(Module(false), None, None, [a, top]), []))
        == [c + "." + m, c + "." + m + "." + f, t]
  {
    var inner := Node(FunctionDef(f, NoArgs(), false), Some(4), Some(5), []);
    var meth := Node(FunctionDef(m, SelfArg(), false), Some(3), Some(6), [inner]);
    var a := Node(ClassDef(c, false), Some(2), Some(6), [meth]);
    var top := Node(FunctionDef(t, NoArgs(), false), Some(8), Some(9), []);
    var tree := Node(Module(false), None, None, [a, top]);
    var eInner := FunctionEntry(Join([c, m, f], "."), inner);
    var eMethod := FunctionEntry(Join([c, m], "."), meth);
    var eTop := FunctionEntry(Join([t], "."), top);
    assert Extract(inner, [c, m]) == [eInner] by {
      assert [c, m] + OwnScope(inner) == [c, m, f];
    }
    assert Extract(meth, [c]) == [eMethod, eInner] by {
      assert [c] + OwnScope(meth) == [c, m];
      assert [inner][..0] == [];
      assert ExtractAll([inner], [c, m]) == [eInner];
    }
    assert Extract(a, []) == [eMethod, eInner] by {
      assert [] + OwnScope(a) == [c];
      assert [meth][..0] == [];
      assert ExtractAll([meth], [c]) == [eMethod, eInner];
    }
    assert Extract(top, []) == [eTop] by {
      assert [] + OwnScope(top) == [t];
    }
    assert Extract(tree, []) == [eMethod, eInner, eTop] by {
      assert [a, top][..1] == [a];
      assert [a][..0] == [];
      assert [] + OwnScope(tree) == [];
      assert ExtractAll([a], []) == [eMethod, eInner];
      assert ExtractAll([a, top], []) == [eMethod, eInner] + [eTop];
    }
    assert Join([c, m, f], ".") == c + "." + m + "." + f by {
      assert [c, m, f][1..] == [m, f];
      assert [m, f][1..] == [f];
      assert Join([m, f], ".") == m + "." + f;
      assert c + "." + (m + "." + f) == c + "." + m + "." + f;
    }
    assert Join([c, m], ".") == c + "." + m by {
      assert [c, m][1..] == [m];
    }
  }

  /** The second case of the extraction tests (`async_func`, `Outer.method`,
      `Outer.Inner.inner_async`): an async function `g`, then class `o` with a
      method `m` and a nested class `i` holding an async method `h`. */
  lemma ListFunctionsAsyncExample(g: string, o: string, m: string, i: string, h: string)
    ensures var asyncFunc := Node(AsyncFunctionDef(g, NoArgs(), false), Some(2), Some(3), []);
      var meth := Node(FunctionDef(m, SelfArg(), false), Some(6), Some(7), []);
      var innerAsync := Node(AsyncFunctionDef(h, SelfArg(), false), Some(10), Some(11), []);
      var inner := Node(ClassDef(i, false), Some(9), Some(11), [innerAsync]);
      var outer := Node(ClassDef(o, false), Some(5), Some(11), [meth, inner]);
      EntryNames(Extract(Node(Module(false), None, None, [asyncFunc, outer]), []))
        == [g, o + "." + m, o + "." + i + "." + h]
  {
    var asyncFunc := Node(AsyncFunctionDef(g, NoArgs(), false), Some(2), Some(3), []);
    var meth := Node(FunctionDef(m, SelfArg(), false), Some(6), Some(7), []);
    var innerAsync := Node(AsyncFunctionDef(h, SelfArg(), false), Some(10), Some(11), []);
    var inner := Node(ClassDef(i, false), Some(9), Some(11), [innerAsync]);
    var outer := Node(ClassDef(o, false), Some(5), Some(11), [meth, inner]);
    var tree := Node(Module(false), None, None, [asyncFunc, outer]);
    var eAsync := FunctionEntry(Join([g], "."), asyncFunc);
    var eMethod := FunctionEntry(Join([o, m], "."), meth);
    var eInnerAsync := FunctionEntry(Join([o, i, h], "."), innerAsync);
    assert Extract(asyncFunc, []) == [eAsync] by {
      assert [] + OwnScope(asyncFunc) == [g];
    }
    assert Extract(meth, [o]) == [eMethod] by {
      assert [o] + OwnScope(meth) == [o, m];
    }
    assert Extract(innerAsync, [o, i]) == [eInnerAsync] by {
      assert [o, i] + OwnScope(innerAsync) == [o, i, h];
    }
    assert Extract(inner, [o]) == [eInnerAsync] by {
      assert [o] + OwnScope(inner) == [o, i];
      assert [innerAsync][..0] == [];
      assert ExtractAll([innerAsync], [o, i]) == [eInnerAsync];
    }
    assert Extract(outer, []) == [eMethod, eInnerAsync] by {
      assert [] + OwnScope(outer) == [o];
      assert [meth, inner][..1] == [meth];
      assert [meth][..0] == [];
      assert ExtractAll([meth], [o]) == [eMethod];
      assert ExtractAll([meth, inner], [o]) == [eMethod] + [eInnerAsync];
    }
    assert Extract(tree, []) == [eAsync, eMethod, eInnerAsync] by {
      assert [asyncFunc, outer][..1] == [asyncFunc];
      assert [asyncFunc][..0] == [];
      assert [] + OwnScope(tree) == [];
      assert ExtractAll([asyncFunc], []) == [eAsync];
      assert ExtractAll([asyncFunc, outer], []) == [eAsync] + [eMethod, eInnerAsync];
    }
    assert Join([o, i, h], ".") == o + "." + i + "." + h by {
      assert [o, i, h][1..] == [i, h];
      assert [i, h][1..] == [h];
      assert Join([i, h], ".") == i + "." + h;
      assert o + "." + (i + "." + h) == o + "." + i + "." + h;
    }
    assert Join([o, m], ".") == o + "." + m by {
      assert [o, m][1..] == [m];
    }
  }

  /** The default of `--threshold`: every function is reported. */
  const DEFAULT_THRESHOLD := 1

  /** The module of the command-line tests: three `from ... import` lines, the
      `runner` assignment, then `test_empty_file` and `test_this_file`. */
  function TestModule(): Node
  {
    Node(Module(false), None, None,
      [Node(ImportFrom([Alias("NamedTemporaryFile", None)]), Some(1), Some(1), []),
       Node(ImportFrom([Alias("CliRunner", None)]), Some(3), Some(3), []),
       Node(ImportFrom([Alias("app", None)]), Some(5), Some(5), []),
       Node(Other, Some(7), Some(7), []),
       Metrics.EmptyFileTest(),
       Metrics.ThisFileTest()])
  }

  /** Statements with no sub-nodes and no definition add nothing to the list. */
  lemma {:induction false} ExtractAllLeaves(ns: seq<Node>, path: seq<string>)
    requires forall i :: 0 <= i < |ns| ==> !IsScope(ns[i].kind) && ns[i].children == []
    ensures ExtractAll(ns, path) == []
  {
    if ns != [] {
      ExtractAllLeaves(ns[..|ns| - 1], path);
      assert Extract(ns[|ns| - 1], path) == [];
    }
  }

  /** Neither test function holds a nested definition, so each is listed once,
      under its own name. */
  lemma TestFunctionsExtract()
    ensures Extract(Metrics.EmptyFileTest(), []) == [FunctionEntry("test_empty_file", Metrics.EmptyFileTest())]
    ensures Extract(Metrics.ThisFileTest(), []) == [FunctionEntry("test_this_file", Metrics.ThisFileTest())]
  {
    var f := Metrics.EmptyFileTest();
    var w := f.children[0];
    var call, a1, a2 := w.children[0], w.children[1], w.children[2];
    assert f.children == [w] && w.children == [call, a1, a2];
    var p := ["test_empty_file"];
    assert [] + OwnScope(f) == p;
    ExtractAllLeaves([call, a1, a2], p);
    assert Extract(w, p) == [] by {
      assert [] + OwnScope(w) == [] && p + [] == p;
    }
    assert [w][..0] == [];
    var g := Metrics.ThisFileTest();
    var assign, b1, b2 := g.children[0], g.children[1], g.children[2];
    assert g.children == [assign, b1, b2];
    var q := ["test_this_file"];
    assert [] + OwnScope(g) == q;
    ExtractAllLeaves([assign, b1, b2], q);
  }

  /** Leaf statements followed by two subtrees: only the two subtrees add entries. */
  lemma ExtractAllLeavesThenTwo(ls: seq<Node>, f: Node, g: Node, path: seq<string>)
    requires forall i :: 0 <= i < |ls| ==> !IsScope(ls[i].kind) && ls[i].children == []
    ensures ExtractAll(ls + [f, g], path) == Extract(f, path) + Extract(g, path)
  {
    ExtractAllLeaves(ls, path);
    var cs := ls + [f, g];
    assert cs[..|cs| - 1] == ls + [f];
    assert (ls + [f])[..|ls|] == ls;
  }

  /** The test module lists its two functions in source order. */
  lemma TestModuleExtract()
    ensures Extract(TestModule(), []) == [FunctionEntry("test_empty_file", Metrics.EmptyFileTest()),
                                         FunctionEntry("test_this_file", Metrics.ThisFileTest())]
  {
    var m := TestModule();
    var ls := m.children[..4];
    assert m.children == ls + [Metrics.EmptyFileTest(), Metrics.ThisFileTest()];
    ExtractAllLeavesThenTwo(ls, Metrics.EmptyFileTest(), Metrics.ThisFileTest(), []);
    TestFunctionsExtract();
    assert [] + OwnScope(m) == [];
  }

  /** Analysing one parsed file reports the findings of its extracted functions. */
  lemma FindingsOneFile(path: string, tree: Node, threshold: int)
    ensures Findings([Parsed(path, tree)], threshold) == FileFindings(path, Extract(tree, []), threshold)
  {
    assert [Parsed(path, tree)][..0] == [];
  }

  /** Two functions that both reach the threshold are both reported, in order. */
  lemma FileFindingsBothReported(path: string, e1: FunctionEntry, e2: FunctionEntry, threshold: int)
    requires Metrics.Complexity(e1.node) >= threshold && Metrics.Complexity(e2.node) >= threshold
    ensures FileFindings(path, [e1, e2], threshold)
      == [Finding(path, e1.fullName, Metrics.Complexity(e1.node)), Finding(path, e2.fullName, Metrics.Complexity(e2.node))]
  {
    assert [e1][..0] == [];
    assert FileFindings(path, [e1], threshold) == [Finding(path, e1.fullName, Metrics.Complexity(e1.node))];
    assert [e1, e2][..1] == [e1];
  }

  /** `test_this_file`: analysing the test module with the default threshold reports
      its two functions, in order, with complexities 4 and 3. */
  lemma AnalyzeTestModuleExample(path: string)
    ensures Findings([Parsed(path, TestModule())], DEFAULT_THRESHOLD)
      == [Finding(path, "test_empty_file", 4), Finding(path, "test_this_file", 3)]
  {
    var ef := FunctionEntry("test_empty_file", Metrics.EmptyFileTest());
    var eg := FunctionEntry("test_this_file", Metrics.ThisFileTest());
    FindingsOneFile(path, TestModule(), DEFAULT_THRESHOLD);
    TestModuleExtract();
    Metrics.ComplexityExample();
    Metrics.ThisFileComplexityExample();
    FileFindingsBothReported(path, ef, eg, DEFAULT_THRESHOLD);
  }
}
