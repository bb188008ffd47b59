/**
 * The abstract syntax tree the analyser consumes: the part of Python's
 * `ast` node classes that the metrics look at. Nodes that no metric
 * distinguishes are `Other`; their children are still walked.
 */
module Ast {
  import opened Python

  datatype ExprContext = Load | Store | Del

  datatype BoolOperator = And | Or

  /** `import name as asname` / `from m import name as asname`. */
  datatype Alias = Alias(name: string, asname: Option<string>)

  /** `ast.arguments` of a definition, reduced to the parameter names. */
  datatype Arguments = Arguments(
    posonlyargs: seq<string>,
    args: seq<string>,
    vararg: Option<string>,
    kwonlyargs: seq<string>,
    kwarg: Option<string>)

  /** The node class, with the fields the metrics read. `doc` says whether
      `ast.get_docstring` returns a non-empty string for the node. */
  datatype Kind =
    | Module(doc: bool)
    | ClassDef(name: string, doc: bool)
    | FunctionDef(name: string, arguments: Arguments, doc: bool)
    | AsyncFunctionDef(name: string, arguments: Arguments, doc: bool)
    | If | For | While | Try | ExceptHandler | With | AsyncFor | AsyncWith | Assert
    | BoolOp(op: BoolOperator, operands: nat)
    | Name(id: string, ctx: ExprContext)
    | Import(names: seq<Alias>)
    | ImportFrom(names: seq<Alias>)
    | Other

  /** A node: its class, its optional `lineno`/`end_lineno`, and the nodes
      `ast.iter_child_nodes` yields for it, in field order. */
  datatype Node = Node(kind: Kind, lineno: Option<int>, endLineno: Option<int>, children: seq<Node>)

  predicate IsFunction(k: Kind) { k.FunctionDef? || k.AsyncFunctionDef? }

  /** Classes and functions: the nodes that open a scope for qualified names. */
  predicate IsScope(k: Kind) { k.ClassDef? || IsFunction(k) }

  /** The nodes `ast.get_docstring` accepts. */
  predicate IsDocumentable(k: Kind) { k.Module? || IsScope(k) }

  /** What Python's parser guarantees and the metrics need: every `BoolOp`
      combines at least two operands. */
  ghost predicate WellFormed(n: Node)
  {
    forall m :: m in Walk(n) && m.kind.BoolOp? ==> m.kind.operands >= 2
  }

  /** Every node of the subtree rooted at `n`, each exactly once: the nodes
      `ast.walk(n)` yields. Python yields them breadth-first; this lists them
      in pre-order, which no count, sum or set built from it can tell apart. */
  function Walk(n: Node): (r: seq<Node>)
    decreases n
    ensures |r| >= 1 && r[0] == n
  {
    [n] + WalkAll(n.children)
  }

  /** The nodes of a sequence of subtrees, one subtree after the other. */
  function WalkAll(ns: seq<Node>): seq<Node>
    decreases ns
  {
    if ns == [] then [] else Walk(ns[0]) + WalkAll(ns[1..])
  }

  lemma {:induction false} WalkAllAppend(a: seq<Node>, b: seq<Node>)
    ensures WalkAll(a + b) == WalkAll(a) + WalkAll(b)
  {
    if a == [] {
      assert a + b == b;
    } else {
      assert (a + b)[1..] == a[1..] + b;
      WalkAllAppend(a[1..], b);
    }
  }

  lemma WalkAllSingle(n: Node)
    ensures WalkAll([n]) == Walk(n)
  {
    assert [n][1..] == [];
  }

  /** The nodes of a sequence of subtrees are those of one of the subtrees. */
  lemma {:induction false} WalkAllMember(ns: seq<Node>, m: Node) returns (i: nat)
    requires m in WalkAll(ns)
    ensures i < |ns| && m in Walk(ns[i])
  {
    if m in Walk(ns[0]) {
      i := 0;
    } else {
      var j := WalkAllMember(ns[1..], m);
      i := j + 1;
    }
  }

  /** A child's subtree lies inside its parent's. */
  lemma {:induction false} WalkAllContains(ns: seq<Node>, i: nat, m: Node)
    requires i < |ns| && m in Walk(ns[i])
    ensures m in WalkAll(ns)
  {
    if i > 0 { WalkAllContains(ns[1..], i - 1, m); }
  }

  lemma WalkChild(n: Node, i: nat, m: Node)
    requires i < |n.children| && m in Walk(n.children[i])
    ensures m in Walk(n)
  {
    WalkAllContains(n.children, i, m);
  }

  /** A subtree of a subtree is a subtree. */
  lemma {:induction false} WalkTransitive(n: Node, m: Node, x: Node)
    requires m in Walk(n) && x in Walk(m)
    ensures x in Walk(n)
    decreases n
  {
    if m != n {
      var i := WalkAllMember(n.children, m);
      WalkTransitive(n.children[i], m, x);
      WalkChild(n, i, x);
    }
  }

  /** A root-to-node path, as child indices. */
  ghost predicate IsPath(n: Node, p: seq<nat>)
    decreases p
  {
    p == [] || (p[0] < |n.children| && IsPath(n.children[p[0]], p[1..]))
  }

  /** The node a path leads to. */
  ghost function NodeAt(n: Node, p: seq<nat>): Node
    requires IsPath(n, p)
    decreases p
  {
    if p == [] then n else NodeAt(n.children[p[0]], p[1..])
  }

  /** A well-formed tree has well-formed subtrees. */
  lemma WellFormedChild(n: Node, i: nat)
    requires WellFormed(n) && i < |n.children|
    ensures WellFormed(n.children[i])
  {
    forall m | m in Walk(n.children[i]) ensures m in Walk(n) { WalkChild(n, i, m); }
  }

  lemma WellFormedSubtree(n: Node, m: Node)
    requires WellFormed(n) && m in Walk(n)
    ensures WellFormed(m)
  {
    forall x | x in Walk(m) ensures x in Walk(n) { WalkTransitive(n, m, x); }
  }
}
