/**
 * The metrics engine: per-function cyclomatic complexity, length and
 * maximum nesting depth, and per-file comment, long-line, naming and
 * docstring ratios and the unused-import list. Ratios are exact reals.
 */
module Metrics {
  import opened Python
  import opened Ast

  datatype FuncMetrics = FuncMetrics(cc: int, length: Option<int>, maxNest: int)

  /** One naming finding: which check flagged it, and the offending identifier. */
  datatype NamingIssue =
    | FunctionNotSnakeCase(name: string)
    | AsyncFunctionNotSnakeCase(name: string)
    | ClassNotCapWords(name: string)
    | ArgumentNotSnakeCase(name: string)
    | VarargNotSnakeCase(name: string)
    | KwargNotSnakeCase(name: string)
    | VariableNotSnakeCase(name: string)

  datatype FileMetrics = FileMetrics(
    commentRatio: real,
    docstringCoverage: real,
    longLineRatio: real,
    namingIssueRatio: real,
    namingIssues: seq<NamingIssue>,
    unusedImports: seq<string>)

  // =====================================================================
  // Cyclomatic complexity
  // =====================================================================

  /** The node classes that each add one decision point. */
  predicate IsDecision(k: Kind)
  {
    k.If? || k.For? || k.While? || k.ExceptHandler? || k.With? || k.Assert? || k.Try?
    || k.AsyncFor? || k.AsyncWith?
  }

  /** What the walk adds for one node: 1 for a decision node, k - 1 for an
      `and`/`or` with k operands, 0 otherwise. */
  function CcWeight(n: Node): int
  {
    if IsDecision(n.kind) then 1
    else if n.kind.BoolOp? && (n.kind.op == And || n.kind.op == Or) then n.kind.operands - 1
    else 0
  }

  /** The number of decision nodes in the subtree, nested definitions included. */
  function DecisionCount(n: Node): nat
    decreases n
  {
    (if IsDecision(n.kind) then 1 else 0) + DecisionCountAll(n.children)
  }

  function DecisionCountAll(ns: seq<Node>): nat
    decreases ns
  {
    if ns == [] then 0 else DecisionCount(ns[0]) + DecisionCountAll(ns[1..])
  }

  /** The sum of k - 1 over the boolean operations of the subtree, k being the operand count. */
  function BoolOpPoints(n: Node): int
    decreases n
  {
    (if n.kind.BoolOp? then n.kind.operands - 1 else 0) + BoolOpPointsAll(n.children)
  }

  function BoolOpPointsAll(ns: seq<Node>): int
    decreases ns
  {
    if ns == [] then 0 else BoolOpPoints(ns[0]) + BoolOpPointsAll(ns[1..])
  }

  /** The complexity the analyser promises for a function node. */
  function Complexity(n: Node): int
  {
    1 + DecisionCount(n) + BoolOpPoints(n)
  }

  /** Summing the per-node weights over the walk gives the structural counts. */
  lemma {:induction false} CcWalkSum(n: Node)
    ensures Sum(Walk(n), CcWeight) == DecisionCount(n) + BoolOpPoints(n)
    decreases n
  {
    SumAppend([n], WalkAll(n.children), CcWeight);
    assert [n][..0] == [];
    CcWalkSumAll(n.children);
  }

  lemma {:induction false} CcWalkSumAll(ns: seq<Node>)
    ensures Sum(WalkAll(ns), CcWeight) == DecisionCountAll(ns) + BoolOpPointsAll(ns)
    decreases ns
  {
    if ns != [] {
      SumAppend(Walk(ns[0]), WalkAll(ns[1..]), CcWeight);
      CcWalkSum(ns[0]);
      CcWalkSumAll(ns[1..]);
    }
  }

  /** `calc_cc`: 1 plus the weight of every node `ast.walk` yields. */
  method CalcCc(funcNode: Node) returns (complexity: int)
    ensures complexity == Complexity(funcNode)
    ensures WellFormed(funcNode) ==> complexity >= 1
  {
    complexity := 1;
    var nodes := Walk(funcNode);
    for i := 0 to |nodes|
      invariant complexity == 1 + Sum(nodes[..i], CcWeight)
    {
      assert nodes[..i + 1][..i] == nodes[..i];
      var k := nodes[i].kind;
      if IsDecision(k) {
        complexity := complexity + 1;
      } else if k.BoolOp? && (k.op == And || k.op == Or) {
        complexity := complexity + k.operands - 1;
      }
    }
    assert nodes[..|nodes|] == nodes;
    CcWalkSum(funcNode);
    if WellFormed(funcNode) {
      ComplexityAtLeastOne(funcNode);
    }
  }

  lemma {:induction false} BoolOpPointsNonNegative(n: Node)
    requires forall m :: m in Walk(n) && m.kind.BoolOp? ==> m.kind.operands >= 1
    ensures BoolOpPoints(n) >= 0
    decreases n
  {
    BoolOpPointsAllNonNegative(n.children);
  }

  lemma {:induction false} BoolOpPointsAllNonNegative(ns: seq<Node>)
    requires forall m :: m in WalkAll(ns) && m.kind.BoolOp? ==> m.kind.operands >= 1
    ensures BoolOpPointsAll(ns) >= 0
    decreases ns
  {
    if ns != [] {
      BoolOpPointsNonNegative(ns[0]);
      BoolOpPointsAllNonNegative(ns[1..]);
    }
  }

  /** Every function of a parsed file has complexity at least 1. */
  lemma ComplexityAtLeastOne(n: Node)
    requires WellFormed(n)
    ensures Complexity(n) >= 1
  {
    BoolOpPointsNonNegative(n);
  }

  /** Complexity is not scoped: the decision points of any subtree, such as a
      nested function, are part of the enclosing function's count too. */
  lemma {:induction false} SubtreeComplexityIncluded(n: Node, m: Node)
    requires WellFormed(n) && m in Walk(n)
    ensures Complexity(m) <= Complexity(n)
    decreases n
  {
    if m != n {
      SubtreeIncludedAll(n.children, m);
      BoolOpPointsNonNegative(n);
    }
  }

  lemma {:induction false} SubtreeIncludedAll(ns: seq<Node>, m: Node)
    requires forall x :: x in WalkAll(ns) && x.kind.BoolOp? ==> x.kind.operands >= 2
    requires m in WalkAll(ns)
    ensures DecisionCount(m) <= DecisionCountAll(ns)
    ensures BoolOpPoints(m) <= BoolOpPointsAll(ns)
    decreases ns
  {
    var h := ns[0];
    if m in Walk(h) {
      if m != h {
        SubtreeIncludedAll(h.children, m);
      }
      if h.kind.BoolOp? {
        assert h in Walk(h);
      }
      BoolOpPointsAllNonNegative(h.children);
      BoolOpPointsAllNonNegative(ns[1..]);
    } else {
      SubtreeIncludedAll(ns[1..], m);
      BoolOpPointsNonNegative(h);
    }
  }

  // =====================================================================
  // Length
  // =====================================================================

  /** `calc_length`: the inclusive line span, when the node carries both positions. */
  function CalcLength(funcNode: Node): (r: Option<int>)
    ensures r.Some? <==> funcNode.lineno.Some? && funcNode.endLineno.Some?
    ensures r.Some? && funcNode.lineno.value <= funcNode.endLineno.value ==> r.value >= 1
  {
    if funcNode.lineno.Some? && funcNode.endLineno.Some? then
      Some(funcNode.endLineno.value - funcNode.lineno.value + 1)
    else
      None
  }

  /** The line numbers `a`, `a + 1`, ..., `b`. */
  function LineNumbers(a: int, b: int): (r: set<int>)
    ensures forall l :: l in r <==> a <= l <= b
    decreases b - a
  {
    if a > b then {} else {a} + LineNumbers(a + 1, b)
  }

  lemma {:induction false} LineNumbersSize(a: int, b: int)
    requires a <= b + 1
    ensures |LineNumbers(a, b)| == b - a + 1
    decreases b - a
  {
    if a <= b {
      LineNumbersSize(a + 1, b);
      assert a !in LineNumbers(a + 1, b);
    }
  }

  /** The length is the number of source lines from `lineno` to `end_lineno`. */
  lemma LengthCountsLines(funcNode: Node)
    requires funcNode.lineno.Some? && funcNode.endLineno.Some?
    requires funcNode.lineno.value <= funcNode.endLineno.value + 1
    ensures CalcLength(funcNode) == Some(|LineNumbers(funcNode.lineno.value, funcNode.endLineno.value)|)
  {
    LineNumbersSize(funcNode.lineno.value, funcNode.endLineno.value);
  }

  // =====================================================================
  // Maximum nesting depth
  // =====================================================================

  /** The node classes that open one more level of nesting (`except` clauses do not). */
  predicate IsNest(k: Kind)
  {
    k.If? || k.For? || k.While? || k.Try? || k.With? || k.AsyncFor? || k.AsyncWith?
  }

  function NestStep(n: Node): nat { if IsNest(n.kind) then 1 else 0 }

  /** The inner `dfs(node, depth)`. */
  function Dfs(n: Node, depth: int): int
    decreases n
  {
    DfsChildren(n.children, depth)
  }

  /** `max_d` after the loop over `cs`: `depth`, raised by each child's `dfs`. */
  function DfsChildren(cs: seq<Node>, depth: int): int
    decreases cs
  {
    if cs == [] then depth
    else
      var c := cs[|cs| - 1];
      Max(DfsChildren(cs[..|cs| - 1], depth), Dfs(c, depth + NestStep(c)))
  }

  /** `calc_max_nesting`. */
  function CalcMaxNesting(funcNode: Node): (r: int)
    ensures r >= 0
  {
    DfsAtLeast(funcNode, 0);
    Dfs(funcNode, 0)
  }

  lemma {:induction false} DfsAtLeast(n: Node, depth: int)
    ensures Dfs(n, depth) >= depth
    decreases n
  {
    DfsChildrenAtLeast(n.children, depth);
  }

  lemma {:induction false} DfsChildrenAtLeast(cs: seq<Node>, depth: int)
    ensures DfsChildren(cs, depth) >= depth
    decreases cs
  {
    if cs != [] {
      DfsChildrenAtLeast(cs[..|cs| - 1], depth);
    }
  }

  /** The number of nesting constructs on the path, the start node excluded. */
  ghost function NestAlong(n: Node, p: seq<nat>): nat
    requires IsPath(n, p)
    decreases p
  {
    if p == [] then 0
    else NestStep(n.children[p[0]]) + NestAlong(n.children[p[0]], p[1..])
  }

  /** No path goes deeper than `dfs` reports. */
  lemma {:induction false} DfsBoundsEveryPath(n: Node, depth: int, p: seq<nat>)
    requires IsPath(n, p)
    ensures depth + NestAlong(n, p) <= Dfs(n, depth)
    decreases p
  {
    if p != [] {
      var c := n.children[p[0]];
      DfsBoundsEveryPath(c, depth + NestStep(c), p[1..]);
      DfsChildrenCovers(n.children, depth, p[0]);
    } else {
      DfsAtLeast(n, depth);
    }
  }

  lemma {:induction false} DfsChildrenCovers(cs: seq<Node>, depth: int, i: nat)
    requires i < |cs|
    ensures Dfs(cs[i], depth + NestStep(cs[i])) <= DfsChildren(cs, depth)
    decreases cs
  {
    if i < |cs| - 1 {
      DfsChildrenCovers(cs[..|cs| - 1], depth, i);
    }
  }

  /** Some path reaches the depth `dfs` reports. */
  lemma {:induction false} DfsAttained(n: Node, depth: int) returns (p: seq<nat>)
    ensures IsPath(n, p) && Dfs(n, depth) == depth + NestAlong(n, p)
    decreases n
  {
    var i := DfsChildrenArgMax(n.children, depth);
    if i < 0 {
      p := [];
    } else {
      var c := n.children[i];
      var q := DfsAttained(c, depth + NestStep(c));
      p := [i] + q;
      assert p[1..] == q;
    }
  }

  /** Which child, if any, gives the loop's maximum (-1: none exceeds `depth`). */
  lemma {:induction false} DfsChildrenArgMax(cs: seq<Node>, depth: int) returns (i: int)
    ensures -1 <= i < |cs|
    ensures i < 0 ==> DfsChildren(cs, depth) == depth
    ensures i >= 0 ==> DfsChildren(cs, depth) == Dfs(cs[i], depth + NestStep(cs[i]))
    decreases cs
  {
    if cs == [] {
      i := -1;
    } else {
      var c := cs[|cs| - 1];
      var j := DfsChildrenArgMax(cs[..|cs| - 1], depth);
      if DfsChildren(cs[..|cs| - 1], depth) >= Dfs(c, depth + NestStep(c)) {
        i := j;
      } else {
        i := |cs| - 1;
      }
    }
  }

  /** `calc_max_nesting` is the maximum, over paths from the function node, of
      the nesting constructs strictly below it. */
  lemma MaxNestingIsDeepestPath(funcNode: Node)
    ensures forall p :: IsPath(funcNode, p) ==> NestAlong(funcNode, p) <= CalcMaxNesting(funcNode)
    ensures exists p :: IsPath(funcNode, p) && NestAlong(funcNode, p) == CalcMaxNesting(funcNode)
  {
    forall p | IsPath(funcNode, p) ensures NestAlong(funcNode, p) <= CalcMaxNesting(funcNode) {
      DfsBoundsEveryPath(funcNode, 0, p);
    }
    var w := DfsAttained(funcNode, 0);
  }

  /** The depth is 0 exactly when no nesting construct occurs below the function node. */
  lemma {:induction false} MaxNestingZeroIff(n: Node, depth: int)
    ensures Dfs(n, depth) == depth <==> forall m :: m in WalkAll(n.children) ==> !IsNest(m.kind)
    decreases n
  {
    MaxNestingZeroIffAll(n.children, depth);
  }

  lemma {:induction false} MaxNestingZeroIffAll(cs: seq<Node>, depth: int)
    ensures DfsChildren(cs, depth) == depth <==> NoNest(WalkAll(cs))
    decreases cs
  {
    if cs != [] {
      var c := cs[|cs| - 1];
      var init := cs[..|cs| - 1];
      assert cs == init + [c];
      WalkAllAppend(init, [c]);
      WalkAllSingle(c);
      NoNestAppend(WalkAll(init), Walk(c));
      NoNestAppend([c], WalkAll(c.children));
      MaxNestingZeroIffAll(init, depth);
      MaxNestingZeroIff(c, depth + NestStep(c));
      DfsChildrenAtLeast(init, depth);
      DfsAtLeast(c, depth + NestStep(c));
    }
  }

  /** No nesting construct among `ns`. */
  ghost predicate NoNest(ns: seq<Node>)
  {
    forall m :: m in ns ==> !IsNest(m.kind)
  }

  lemma NoNestAppend(a: seq<Node>, b: seq<Node>)
    ensures NoNest(a + b) <==> NoNest(a) && NoNest(b)
  {
    assert forall m :: m in a + b <==> m in a || m in b;
  }

  // =====================================================================
  // collect_func_metrics
  // =====================================================================

  method CollectFuncMetrics(funcNode: Node) returns (m: FuncMetrics)
    ensures m.cc == Complexity(funcNode)
    ensures m.length == CalcLength(funcNode)
    ensures m.maxNest == CalcMaxNesting(funcNode)
    ensures WellFormed(funcNode) ==> m.cc >= 1
  {
    var cc := CalcCc(funcNode);
    m := FuncMetrics(cc, CalcLength(funcNode), CalcMaxNesting(funcNode));
  }

  // =====================================================================
  // Ratios over the line list
  // =====================================================================

  /** `part / whole if whole > 0 else 0.0`, without rounding. */
  function Ratio(part: nat, whole: nat): real
  {
    if whole == 0 then 0.0 else part as real / whole as real
  }

  lemma RatioInUnitInterval(part: nat, whole: nat)
    requires part <= whole
    ensures 0.0 <= Ratio(part, whole) <= 1.0
    ensures Ratio(part, whole) == 0.0 <==> part == 0
    ensures Ratio(part, whole) == 1.0 <==> 0 < whole && part == whole
  {
    if whole > 0 {
      var r := part as real / whole as real;
      assert r * whole as real == part as real;
    }
  }

  lemma RatioMonotone(p: nat, q: nat, whole: nat)
    requires p <= q
    ensures Ratio(p, whole) <= Ratio(q, whole)
  {
    if whole > 0 {
      var w := whole as real;
      assert (q as real) / w - (p as real) / w == (q - p) as real / w;
    }
  }

  /** A line whose stripped text starts with `#`. */
  predicate IsCommentLine(line: string)
  {
    StartsWith(Strip(line), "#")
  }

  function CommentRatio(lines: seq<string>): real
  {
    Ratio(CountWhere(lines, IsCommentLine), |lines|)
  }

  /** `calc_comment_ratio` over `source.splitlines()`. */
  method CalcCommentRatio(lines: seq<string>) returns (ratio: real)
    ensures ratio == CommentRatio(lines)
    ensures 0.0 <= ratio <= 1.0
    ensures lines == [] ==> ratio == 0.0
  {
    if |lines| == 0 {
      return 0.0;
    }
    var commentLines := 0;
    for i := 0 to |lines|
      invariant commentLines == CountWhere(lines[..i], IsCommentLine)
    {
      assert lines[..i + 1][..i] == lines[..i];
      if StartsWith(Strip(lines[i]), "#") {
        commentLines := commentLines + 1;
      }
    }
    assert lines[..|lines|] == lines;
    ratio := commentLines as real / |lines| as real;
    RatioInUnitInterval(commentLines, |lines|);
  }

  /** The comment ratio is 1 exactly when the file has lines and all are comments,
      and 0 exactly when none is. */
  lemma CommentRatioExtremes(lines: seq<string>)
    ensures CommentRatio(lines) == 1.0 <==> lines != [] && forall i :: 0 <= i < |lines| ==> IsCommentLine(lines[i])
    ensures CommentRatio(lines) == 0.0 <==> forall i :: 0 <= i < |lines| ==> !IsCommentLine(lines[i])
  {
    RatioInUnitInterval(CountWhere(lines, IsCommentLine), |lines|);
    CountWhereAll(lines, IsCommentLine);
    CountWhereNone(lines, IsCommentLine);
  }

  /** The default `limit` of `calc_long_line_ratio`. */
  const LONG_LINE_LIMIT := 79

  /** Longer than `limit` once trailing newlines are removed. */
  predicate IsLongLine(line: string, limit: int)
  {
    |RStripChar(line, '\n')| > limit
  }

  /** `sum(1 for line in lines if len(line.rstrip("\n")) > limit)`. */
  function LongLineCount(lines: seq<string>, limit: int): (r: nat)
    ensures r <= |lines|
  {
    if lines == [] then 0
    else LongLineCount(lines[..|lines| - 1], limit) + (if IsLongLine(lines[|lines| - 1], limit) then 1 else 0)
  }

  /** `calc_long_line_ratio`. */
  function CalcLongLineRatio(lines: seq<string>, limit: int): (r: real)
    ensures 0.0 <= r <= 1.0
    ensures lines == [] ==> r == 0.0
  {
    RatioInUnitInterval(LongLineCount(lines, limit), |lines|);
    Ratio(LongLineCount(lines, limit), |lines|)
  }

  lemma {:induction false} LongLineCountAntitone(lines: seq<string>, a: int, b: int)
    requires a <= b
    ensures LongLineCount(lines, b) <= LongLineCount(lines, a)
  {
    if lines != [] {
      LongLineCountAntitone(lines[..|lines| - 1], a, b);
    }
  }

  lemma {:induction false} LongLineCountAll(lines: seq<string>, limit: int)
    ensures LongLineCount(lines, limit) == |lines| <==> forall i :: 0 <= i < |lines| ==> IsLongLine(lines[i], limit)
  {
    if lines != [] {
      var t := lines[..|lines| - 1];
      LongLineCountAll(t, limit);
      assert forall i :: 0 <= i < |t| ==> t[i] == lines[i];
    }
  }

  /** Raising the limit never raises the ratio; the ratio is 1 exactly when every line is long. */
  lemma LongLineRatioProperties(lines: seq<string>, a: int, b: int)
    requires a <= b
    ensures CalcLongLineRatio(lines, b) <= CalcLongLineRatio(lines, a)
    ensures CalcLongLineRatio(lines, a) == 1.0 <==> lines != [] && forall i :: 0 <= i < |lines| ==> IsLongLine(lines[i], a)
  {
    LongLineCountAntitone(lines, a, b);
    LongLineCountAll(lines, a);
    RatioInUnitInterval(LongLineCount(lines, a), |lines|);
    RatioMonotone(LongLineCount(lines, b), LongLineCount(lines, a), |lines|);
  }

  // =====================================================================
  // Naming
  // =====================================================================

  /** `[a-z_][a-z0-9_]*` */
  predicate SnakeCaseBody(s: string)
  {
    && |s| >= 1
    && (IsAsciiLower(s[0]) || s[0] == '_')
    && forall i :: 1 <= i < |s| ==> IsAsciiLower(s[i]) || IsAsciiDigit(s[i]) || s[i] == '_'
  }

  /** `[A-Z][a-zA-Z0-9]*` */
  predicate CapWordsBody(s: string)
  {
    && |s| >= 1
    && IsAsciiUpper(s[0])
    && forall i :: 1 <= i < |s| ==> IsAsciiLower(s[i]) || IsAsciiUpper(s[i]) || IsAsciiDigit(s[i])
  }

  /** `SNAKE_CASE_RE.match(name)`: the anchored pattern `^[a-z_][a-z0-9_]*$`, whose
      `$` also matches just before a final newline. */
  predicate IsSnakeCase(name: string)
  {
    SnakeCaseBody(name) || (|name| > 0 && name[|name| - 1] == '\n' && SnakeCaseBody(name[..|name| - 1]))
  }

  /** `CAPWORDS_RE.match(name)`: `^[A-Z][a-zA-Z0-9]*$`, `$` as above. */
  predicate IsCapWords(name: string)
  {
    CapWordsBody(name) || (|name| > 0 && name[|name| - 1] == '\n' && CapWordsBody(name[..|name| - 1]))
  }

  /** No identifier satisfies both conventions, and the empty string neither. */
  lemma NamingStylesDisjoint(name: string)
    ensures !(IsSnakeCase(name) && IsCapWords(name))
    ensures !IsSnakeCase("") && !IsCapWords("")
  {
  }

  predicate IsDefinition(n: Node) { IsScope(n.kind) }

  /** The finding for a definition's own name, if any. */
  function DefNameIssues(n: Node): (r: seq<NamingIssue>)
    ensures |r| <= (if IsDefinition(n) then 1 else 0)
  {
    match n.kind
    case FunctionDef(name, _, _) => if IsSnakeCase(name) then [] else [FunctionNotSnakeCase(name)]
    case AsyncFunctionDef(name, _, _) => if IsSnakeCase(name) then [] else [AsyncFunctionNotSnakeCase(name)]
    case ClassDef(name, _) => if IsCapWords(name) then [] else [ClassNotCapWords(name)]
    case _ => []
  }

  /** `check_func_and_class_names`: one check per class or function, one finding per bad name. */
  method CheckFuncAndClassNames(tree: Node) returns (totalChecked: int, issues: seq<NamingIssue>)
    ensures totalChecked == CountWhere(Walk(tree), IsDefinition)
    ensures issues == FlatMap(Walk(tree), DefNameIssues)
    ensures |issues| <= totalChecked
  {
    totalChecked := 0;
    issues := [];
    var nodes := Walk(tree);
    for i := 0 to |nodes|
      invariant totalChecked == CountWhere(nodes[..i], IsDefinition)
      invariant issues == FlatMap(nodes[..i], DefNameIssues)
    {
      CountWhereStep(nodes, i, IsDefinition);
      FlatMapStep(nodes, i, DefNameIssues);
      match nodes[i].kind
      case FunctionDef(name, _, _) =>
        totalChecked := totalChecked + 1;
        if !IsSnakeCase(name) {
          issues := issues + [FunctionNotSnakeCase(name)];
        }
      case AsyncFunctionDef(name, _, _) =>
        totalChecked := totalChecked + 1;
        if !IsSnakeCase(name) {
          issues := issues + [AsyncFunctionNotSnakeCase(name)];
        }
      case ClassDef(name, _) =>
        totalChecked := totalChecked + 1;
        if !IsCapWords(name) {
          issues := issues + [ClassNotCapWords(name)];
        }
      case _ =>
    }
    assert nodes[..|nodes|] == nodes;
    FlatMapLengthCount(nodes, DefNameIssues, IsDefinition);
  }

  function ArgumentIssue(name: string): seq<NamingIssue>
  {
    if IsSnakeCase(name) then [] else [ArgumentNotSnakeCase(name)]
  }

  lemma {:induction false} ArgumentIssuesBounded(names: seq<string>)
    ensures |FlatMap(names, ArgumentIssue)| <= |names|
  {
    if names != [] {
      ArgumentIssuesBounded(names[..|names| - 1]);
    }
  }

  /** The parameter names `check_arg_names` looks at, in its order: `args`,
      `kwonlyargs`, `*vararg` and `**kwarg`; positional-only parameters are not
      among them, and a node that is not a function has none. */
  function CheckedArgNames(n: Node): seq<string>
  {
    if IsFunction(n.kind) then
      var a := n.kind.arguments;
      a.args + a.kwonlyargs
      + (if a.vararg.Some? then [a.vararg.value] else [])
      + (if a.kwarg.Some? then [a.kwarg.value] else [])
    else []
  }

  predicate IsBadName(name: string) { !IsSnakeCase(name) }

  /** The identifiers the findings of a list name, in order. */
  function IssueNames(r: seq<NamingIssue>): seq<string>
  {
    seq(|r|, i requires 0 <= i < |r| => r[i].name)
  }

  lemma IssueNamesAppend(a: seq<NamingIssue>, b: seq<NamingIssue>)
    ensures IssueNames(a + b) == IssueNames(a) + IssueNames(b)
  {
  }

  /** The running count of `check_arg_names`: one per parameter it looks at. */
  function ArgNameChecks(n: Node): (r: int)
    ensures r == |CheckedArgNames(n)|
  {
    if IsFunction(n.kind) then
      var a := n.kind.arguments;
      |a.args + a.kwonlyargs| + (if a.vararg.Some? then 1 else 0) + (if a.kwarg.Some? then 1 else 0)
    else 0
  }

  function ArgNameIssues(n: Node): (r: seq<NamingIssue>)
    ensures |r| <= ArgNameChecks(n)
  {
    if IsFunction(n.kind) then
      var a := n.kind.arguments;
      ArgumentIssuesBounded(a.args + a.kwonlyargs);
      FlatMap(a.args + a.kwonlyargs, ArgumentIssue)
      + (if a.vararg.Some? && !IsSnakeCase(a.vararg.value) then [VarargNotSnakeCase(a.vararg.value)] else [])
      + (if a.kwarg.Some? && !IsSnakeCase(a.kwarg.value) then [KwargNotSnakeCase(a.kwarg.value)] else [])
    else []
  }

  lemma {:induction false} ArgumentIssueNames(names: seq<string>)
    ensures IssueNames(FlatMap(names, ArgumentIssue)) == Filter(names, IsBadName)
  {
    if names != [] {
      var init := names[..|names| - 1];
      ArgumentIssueNames(init);
      IssueNamesAppend(FlatMap(init, ArgumentIssue), ArgumentIssue(names[|names| - 1]));
    }
  }

  /** The finding for an optional `*args` or `**kwargs`: present, and naming it,
      exactly when the parameter exists and is not snake_case. */
  lemma OptionalIssueNames(x: Option<string>, issues: seq<NamingIssue>)
    requires issues != [] <==> x.Some? && IsBadName(x.value)
    requires |issues| <= 1 && forall i :: 0 <= i < |issues| ==> x.Some? && issues[i].name == x.value
    ensures IssueNames(issues) == Filter(if x.Some? then [x.value] else [], IsBadName)
  {
    if x.Some? {
      assert [x.value][..0] == [];
    }
  }

  /** The findings of one function name, in order, exactly the parameters it looks
      at that are not snake_case: each finding names a bad parameter and each bad
      parameter gets one finding. */
  lemma ArgNameIssuesExact(n: Node)
    ensures IssueNames(ArgNameIssues(n)) == Filter(CheckedArgNames(n), IsBadName)
  {
    if IsFunction(n.kind) {
      var a := n.kind.arguments;
      var params := a.args + a.kwonlyargs;
      var v := if a.vararg.Some? then [a.vararg.value] else [];
      var k := if a.kwarg.Some? then [a.kwarg.value] else [];
      var vi := if a.vararg.Some? && !IsSnakeCase(a.vararg.value) then [VarargNotSnakeCase(a.vararg.value)] else [];
      var ki := if a.kwarg.Some? && !IsSnakeCase(a.kwarg.value) then [KwargNotSnakeCase(a.kwarg.value)] else [];
      var pi := FlatMap(params, ArgumentIssue);
      assert ArgNameIssues(n) == pi + vi + ki;
      assert CheckedArgNames(n) == params + v + k;
      ArgumentIssueNames(params);
      OptionalIssueNames(a.vararg, vi);
      OptionalIssueNames(a.kwarg, ki);
      FilterAppend(params, v, IsBadName);
      FilterAppend(params + v, k, IsBadName);
      IssueNamesAppend(pi, vi);
      IssueNamesAppend(pi + vi, ki);
    }
  }

  /** The body of `check_arg_names` for one function node. */
  method CheckArgsOf(node: Node) returns (checked: int, found: seq<NamingIssue>)
    requires IsFunction(node.kind)
    ensures checked == ArgNameChecks(node)
    ensures found == ArgNameIssues(node)
  {
    var a := node.kind.arguments;
    var params := a.args + a.kwonlyargs;
    checked := 0;
    found := [];
    for j := 0 to |params|
      invariant checked == j
      invariant found == FlatMap(params[..j], ArgumentIssue)
    {
      assert params[..j + 1][..j] == params[..j];
      checked := checked + 1;
      if !IsSnakeCase(params[j]) {
        found := found + [ArgumentNotSnakeCase(params[j])];
      }
    }
    assert params[..|params|] == params;
    if a.vararg.Some? {
      checked := checked + 1;
      if !IsSnakeCase(a.vararg.value) {
        found := found + [VarargNotSnakeCase(a.vararg.value)];
      }
    }
    if a.kwarg.Some? {
      checked := checked + 1;
      if !IsSnakeCase(a.kwarg.value) {
        found := found + [KwargNotSnakeCase(a.kwarg.value)];
      }
    }
  }

  /** `check_arg_names`. */
  method CheckArgNames(tree: Node) returns (totalChecked: int, issues: seq<NamingIssue>)
    ensures totalChecked == Sum(Walk(tree), ArgNameChecks)
    ensures issues == FlatMap(Walk(tree), ArgNameIssues)
    ensures |issues| <= totalChecked
  {
    totalChecked := 0;
    issues := [];
    var nodes := Walk(tree);
    for i := 0 to |nodes|
      invariant totalChecked == Sum(nodes[..i], ArgNameChecks)
      invariant issues == FlatMap(nodes[..i], ArgNameIssues)
    {
      assert nodes[..i + 1][..i] == nodes[..i];
      var node := nodes[i];
      if node.kind.FunctionDef? || node.kind.AsyncFunctionDef? {
        var checked, found := CheckArgsOf(node);
        totalChecked := totalChecked + checked;
        issues := issues + found;
      }
    }
    assert nodes[..|nodes|] == nodes;
    FlatMapLength(nodes, ArgNameIssues, ArgNameChecks);
  }

  /** The names bound in Store context among `ns`. */
  function StoreNames(ns: seq<Node>): set<string>
  {
    set m | m in ns && m.kind.Name? && m.kind.ctx == Store :: m.kind.id
  }

  /** `_` and dunder names are never checked as variables. */
  predicate IsExemptVariable(name: string)
  {
    name == "_" || (StartsWith(name, "__") && EndsWith(name, "__"))
  }

  function CheckedVariables(tree: Node): set<string>
  {
    set x | x in StoreNames(Walk(tree)) && !IsExemptVariable(x)
  }

  function BadVariables(tree: Node): (r: set<string>)
    ensures r <= CheckedVariables(tree)
  {
    set x | x in CheckedVariables(tree) && !IsSnakeCase(x)
  }

  /** The first loop of `check_var_names`. */
  method CollectStoreNames(tree: Node) returns (storeNames: set<string>)
    ensures storeNames == StoreNames(Walk(tree))
  {
    storeNames := {};
    var nodes := Walk(tree);
    for i := 0 to |nodes|
      invariant storeNames == StoreNames(nodes[..i])
    {
      assert nodes[..i + 1] == nodes[..i] + [nodes[i]];
      var node := nodes[i];
      if node.kind.Name? && node.kind.ctx == Store {
        storeNames := storeNames + {node.kind.id};
      }
    }
    assert nodes[..|nodes|] == nodes;
  }

  /** `check_var_names`: each distinct stored name is checked once. The order of
      the findings follows Python's set iteration and is left open here. */
  method CheckVarNames(tree: Node) returns (totalChecked: int, issues: seq<NamingIssue>)
    ensures totalChecked == |CheckedVariables(tree)|
    ensures |issues| == |BadVariables(tree)|
    ensures forall x :: x in issues <==> x.VariableNotSnakeCase? && x.name in BadVariables(tree)
    ensures |issues| <= totalChecked
  {
    var storeNames := CollectStoreNames(tree);
    totalChecked := 0;
    issues := [];
    var rest := storeNames;
    ghost var checked: set<string> := {};
    ghost var bad: set<string> := {};
    while rest != {}
      invariant rest <= storeNames
      invariant forall x :: x in checked <==> x in storeNames && x !in rest && !IsExemptVariable(x)
      invariant forall x :: x in bad <==> x in checked && !IsSnakeCase(x)
      invariant totalChecked == |checked|
      invariant |issues| == |bad|
      invariant forall x :: x in issues <==> x.VariableNotSnakeCase? && x.name in bad
      decreases rest
    {
      var name :| name in rest;
      rest := rest - {name};
      if name == "_" || (StartsWith(name, "__") && EndsWith(name, "__")) {
        continue;
      }
      checked := checked + {name};
      totalChecked := totalChecked + 1;
      if !IsSnakeCase(name) {
        bad := bad + {name};
        issues := issues + [VariableNotSnakeCase(name)];
      }
    }
    assert checked == CheckedVariables(tree);
    assert bad == BadVariables(tree);
    assert checked == bad + (checked - bad);
  }

  function DefinitionIssues(tree: Node): seq<NamingIssue> { FlatMap(Walk(tree), DefNameIssues) }
  function ArgumentIssues(tree: Node): seq<NamingIssue> { FlatMap(Walk(tree), ArgNameIssues) }

  /** The identifiers the three checks look at, in total. */
  function NamesChecked(tree: Node): int
  {
    CountWhere(Walk(tree), IsDefinition) + Sum(Walk(tree), ArgNameChecks) + |CheckedVariables(tree)|
  }

  /** The findings of the three checks, in total. */
  function NamingIssueCount(tree: Node): nat
  {
    |DefinitionIssues(tree)| + |ArgumentIssues(tree)| + |BadVariables(tree)|
  }

  /** Each finding comes from one checked identifier. */
  lemma NamingIssuesBounded(tree: Node)
    ensures NamingIssueCount(tree) <= NamesChecked(tree)
  {
    FlatMapLengthCount(Walk(tree), DefNameIssues, IsDefinition);
    FlatMapLength(Walk(tree), ArgNameIssues, ArgNameChecks);
    var c, b := CheckedVariables(tree), BadVariables(tree);
    assert c == b + (c - b);
  }

  function NamingRatio(tree: Node): real
  {
    NamingIssuesBounded(tree);
    Ratio(NamingIssueCount(tree), NamesChecked(tree))
  }

  /** `collect_naming_issues`: the three checks in order, their findings concatenated. */
  method CollectNamingIssues(tree: Node) returns (ratio: real, issues: seq<NamingIssue>)
    ensures ratio == NamingRatio(tree)
    ensures 0.0 <= ratio <= 1.0
    ensures NamesChecked(tree) == 0 ==> ratio == 0.0
    ensures |issues| == NamingIssueCount(tree)
    ensures issues[..|DefinitionIssues(tree)| + |ArgumentIssues(tree)|] == DefinitionIssues(tree) + ArgumentIssues(tree)
    ensures forall x :: x in issues[|DefinitionIssues(tree)| + |ArgumentIssues(tree)|..] <==>
      x.VariableNotSnakeCase? && x.name in BadVariables(tree)
  {
    var checked1, found1 := CheckFuncAndClassNames(tree);
    var checked2, found2 := CheckArgNames(tree);
    var checked3, found3 := CheckVarNames(tree);
    var totalChecked := checked1 + checked2 + checked3;
    issues := found1 + found2 + found3;
    assert issues[..|found1| + |found2|] == found1 + found2;
    assert issues[|found1| + |found2|..] == found3;
    assert totalChecked == NamesChecked(tree);
    assert |issues| == NamingIssueCount(tree);
    NamingIssuesBounded(tree);
    RatioInUnitInterval(|issues|, totalChecked);
    ratio := if totalChecked > 0 then |issues| as real / totalChecked as real else 0.0;
    assert ratio == Ratio(|issues|, totalChecked);
  }

  // =====================================================================
  // Docstring coverage
  // =====================================================================

  /** `ast.get_docstring(node)` is a non-empty string. */
  predicate HasDocstring(n: Node)
  {
    IsDocumentable(n.kind) && n.kind.doc
  }

  /** The classes and functions of the tree, as `ast.walk` yields them. */
  function Definitions(tree: Node): seq<Node>
  {
    Filter(Walk(tree), IsDefinition)
  }

  /** (module docstring + documented definitions) / (definitions + 1). */
  function DocstringCoverage(tree: Node): real
  {
    Ratio((if HasDocstring(tree) then 1 else 0) + CountWhere(Definitions(tree), HasDocstring), |Definitions(tree)| + 1)
  }

  /** The first loop of `calc_docstring_coverage`: the classes and functions in walk order. */
  method CollectDefinitions(tree: Node) returns (defs: seq<Node>)
    ensures defs == Definitions(tree)
    ensures forall i :: 0 <= i < |defs| ==> IsScope(defs[i].kind)
  {
    defs := [];
    var nodes := Walk(tree);
    for i := 0 to |nodes|
      invariant defs == Filter(nodes[..i], IsDefinition)
    {
      assert nodes[..i + 1][..i] == nodes[..i];
      var node := nodes[i];
      if node.kind.FunctionDef? || node.kind.AsyncFunctionDef? || node.kind.ClassDef? {
        defs := defs + [node];
      }
    }
    assert nodes[..|nodes|] == nodes;
  }

  /** The second half of `calc_docstring_coverage`: the module's docstring and those of `defs`. */
  method CountDocstrings(tree: Node, defs: seq<Node>) returns (docWith: nat)
    requires IsDocumentable(tree.kind)
    requires forall i :: 0 <= i < |defs| ==> IsScope(defs[i].kind)
    ensures docWith == (if HasDocstring(tree) then 1 else 0) + CountWhere(defs, HasDocstring)
  {
    docWith := 0;
    if tree.kind.doc {
      docWith := docWith + 1;
    }
    for j := 0 to |defs|
      invariant docWith == (if HasDocstring(tree) then 1 else 0) + CountWhere(defs[..j], HasDocstring)
    {
      assert defs[..j + 1][..j] == defs[..j];
      if defs[j].kind.doc {
        docWith := docWith + 1;
      }
    }
    assert defs[..|defs|] == defs;
  }

  /** `calc_docstring_coverage`; `ast.get_docstring` accepts only modules, classes and functions. */
  method CalcDocstringCoverage(tree: Node) returns (coverage: real)
    requires IsDocumentable(tree.kind)
    ensures coverage == DocstringCoverage(tree)
    ensures 0.0 <= coverage <= 1.0
  {
    var defs := CollectDefinitions(tree);
    var totalDefs := |defs| + 1;
    var docWith := CountDocstrings(tree, defs);
    RatioInUnitInterval(docWith, totalDefs);
    coverage := if totalDefs > 0 then docWith as real / totalDefs as real else 0.0;
    assert coverage == Ratio(docWith, totalDefs);
  }

  /** The documented count reaches the total exactly when everything is documented,
      and 0 exactly when nothing is. */
  lemma DocstringCountExtremes(tree: Node)
    ensures var defs := Definitions(tree);
      var documented := (if HasDocstring(tree) then 1 else 0) + CountWhere(defs, HasDocstring);
      (documented == |defs| + 1 <==> HasDocstring(tree) && forall d :: d in defs ==> HasDocstring(d))
      && (documented == 0 <==> !HasDocstring(tree) && forall d :: d in defs ==> !HasDocstring(d))
  {
    var defs := Definitions(tree);
    CountWhereAll(defs, HasDocstring);
    CountWhereNone(defs, HasDocstring);
    assert (forall d :: d in defs ==> HasDocstring(d)) <==> (forall i :: 0 <= i < |defs| ==> HasDocstring(defs[i]));
    assert (forall d :: d in defs ==> !HasDocstring(d)) <==> (forall i :: 0 <= i < |defs| ==> !HasDocstring(defs[i]));
  }

  /** Coverage is 1 exactly when the module and every class and function are
      documented, and 0 exactly when none of them is. */
  lemma DocstringCoverageExtremes(tree: Node)
    requires tree.kind.Module?
    ensures DocstringCoverage(tree) == 1.0 <==>
      HasDocstring(tree) && forall d :: d in Definitions(tree) ==> HasDocstring(d)
    ensures DocstringCoverage(tree) == 0.0 <==>
      !HasDocstring(tree) && forall d :: d in Definitions(tree) ==> !HasDocstring(d)
  {
    var defs := Definitions(tree);
    var documented := (if HasDocstring(tree) then 1 else 0) + CountWhere(defs, HasDocstring);
    DocstringCountExtremes(tree);
    RatioInUnitInterval(documented, |defs| + 1);
  }

  // =====================================================================
  // Unused imports
  // =====================================================================

  /** `s.split(".")[0]`. */
  function FirstSegment(s: string): (r: string)
    ensures '.' !in r && StartsWith(s, r)
    ensures '.' !in s ==> r == s
  {
    if s == [] || s[0] == '.' then [] else [s[0]] + FirstSegment(s[1..])
  }

  /** `alias.asname or alias.name.split(".")[0]`, the name `import` binds. */
  function ImportBinding(a: Alias): string
  {
    if a.asname.Some? && a.asname.value != "" then a.asname.value else FirstSegment(a.name)
  }

  /** `alias.asname or alias.name`, the name `from ... import` binds. */
  function FromImportBinding(a: Alias): string
  {
    if a.asname.Some? && a.asname.value != "" then a.asname.value else a.name
  }

  /** The names `import a.b as c, ...` binds. */
  function ImportBindings(names: seq<Alias>): set<string>
  {
    if names == [] then {}
    else
      var last := names[|names| - 1];
      ImportBindings(names[..|names| - 1]) + {ImportBinding(last)}
  }

  /** The names `from m import a as b, ...` binds; `*` binds none that is tracked. */
  function FromImportBindings(names: seq<Alias>): set<string>
  {
    if names == [] then {}
    else
      var last := names[|names| - 1];
      FromImportBindings(names[..|names| - 1]) + (if last.name == "*" then {} else {FromImportBinding(last)})
  }

  function BindingsOf(k: Kind): set<string>
  {
    match k
    case Import(names) => ImportBindings(names)
    case ImportFrom(names) => FromImportBindings(names)
    case _ => {}
  }

  /** The names the import statements among `ns` bind. */
  function ImportedNames(ns: seq<Node>): set<string>
  {
    if ns == [] then {}
    else
      var last := ns[|ns| - 1];
      ImportedNames(ns[..|ns| - 1]) + BindingsOf(last.kind)
  }

  /** The identifiers read (Load context) among `ns`. */
  function LoadedNames(ns: seq<Node>): set<string>
  {
    set m | m in ns && m.kind.Name? && m.kind.ctx == Load :: m.kind.id
  }

  /** Imported anywhere in the file, read nowhere in it: a scope-blind approximation. */
  function UnusedNames(tree: Node): set<string>
  {
    ImportedNames(Walk(tree)) - LoadedNames(Walk(tree))
  }

  /** The loop over `node.names` of an `import` statement. */
  method AddImportBindings(imported0: set<string>, names: seq<Alias>) returns (imported: set<string>)
    ensures imported == imported0 + ImportBindings(names)
  {
    imported := imported0;
    for j := 0 to |names|
      invariant imported == imported0 + ImportBindings(names[..j])
    {
      assert names[..j + 1][..j] == names[..j];
      imported := imported + {ImportBinding(names[j])};
    }
    assert names[..|names|] == names;
  }

  /** The loop over `node.names` of a `from ... import` statement. */
  method AddFromImportBindings(imported0: set<string>, names: seq<Alias>) returns (imported: set<string>)
    ensures imported == imported0 + FromImportBindings(names)
  {
    imported := imported0;
    for j := 0 to |names|
      invariant imported == imported0 + FromImportBindings(names[..j])
    {
      assert names[..j + 1][..j] == names[..j];
      if names[j].name == "*" {
        continue;
      }
      imported := imported + {FromImportBinding(names[j])};
    }
    assert names[..|names|] == names;
  }

  lemma {:induction false} ImportBindingsMembership(names: seq<Alias>, x: string)
    ensures x in ImportBindings(names) <==> exists a :: a in names && ImportBinding(a) == x
  {
    if names != [] {
      var init := names[..|names| - 1];
      ImportBindingsMembership(init, x);
      assert forall a :: a in names <==> a in init || a == names[|names| - 1];
    }
  }

  lemma {:induction false} FromImportBindingsMembership(names: seq<Alias>, x: string)
    ensures x in FromImportBindings(names) <==> exists a :: a in names && a.name != "*" && FromImportBinding(a) == x
  {
    if names != [] {
      var init := names[..|names| - 1];
      FromImportBindingsMembership(init, x);
      assert forall a :: a in names <==> a in init || a == names[|names| - 1];
    }
  }

  /** A name is imported exactly when some import statement among `ns` binds it. */
  lemma {:induction false} ImportedNamesMembership(ns: seq<Node>, x: string)
    ensures x in ImportedNames(ns) <==> exists m :: m in ns && x in BindingsOf(m.kind)
  {
    if ns != [] {
      var init := ns[..|ns| - 1];
      ImportedNamesMembership(init, x);
      assert forall m :: m in ns <==> m in init || m == ns[|ns| - 1];
    }
  }

  /** Visiting one more node adds its bindings and, for a read, its identifier. */
  lemma NamesStep(nodes: seq<Node>, i: nat)
    requires i < |nodes|
    ensures ImportedNames(nodes[..i + 1]) == ImportedNames(nodes[..i]) + BindingsOf(nodes[i].kind)
    ensures LoadedNames(nodes[..i + 1]) == LoadedNames(nodes[..i])
      + (if nodes[i].kind.Name? && nodes[i].kind.ctx == Load then {nodes[i].kind.id} else {})
  {
    assert nodes[..i + 1][..i] == nodes[..i];
    assert nodes[..i + 1] == nodes[..i] + [nodes[i]];
  }

  /** `calc_unused_imports`: the unused bindings, sorted, each once. */
  method CalcUnusedImports(tree: Node) returns (unused: seq<string>)
    ensures StrictlySorted(unused)
    ensures |unused| == |UnusedNames(tree)|
    ensures forall x :: x in unused <==> x in UnusedNames(tree)
  {
    var imported: set<string> := {};
    var used: set<string> := {};
    var nodes := Walk(tree);
    for i := 0 to |nodes|
      invariant imported == ImportedNames(nodes[..i])
      invariant used == LoadedNames(nodes[..i])
    {
      var node := nodes[i];
      NamesStep(nodes, i);
      match node.kind
      case Import(names) =>
        imported := AddImportBindings(imported, names);
      case ImportFrom(names) =>
        imported := AddFromImportBindings(imported, names);
      case Name(id, ctx) =>
        if ctx == Load {
          used := used + {id};
        }
      case _ =>
    }
    assert nodes[..|nodes|] == nodes;
    var candidates := set x | x in imported && x !in used;
    assert candidates == UnusedNames(tree);
    unused := Sorted(candidates);
  }

  /** `(head + "." + tail).split(".")[0] == head` when `head` has no dot. */
  lemma {:induction false} FirstSegmentDotted(head: string, tail: string)
    requires '.' !in head
    ensures FirstSegment(head + "." + tail) == head
  {
    if head != [] {
      assert (head + "." + tail)[1..] == head[1..] + "." + tail;
      FirstSegmentDotted(head[1..], tail);
    }
  }

  /** `import pkg.sub` with no further use of `pkg` leaves `pkg` unused. */
  lemma UnusedImportExample(pkg: string, sub: string)
    requires '.' !in pkg
    ensures var imp := Node(Import([Alias(pkg + "." + sub, None)]), Some(1), Some(1), []);
      UnusedNames(Node(Module(false), None, None, [imp])) == {pkg}
  {
    var alias := Alias(pkg + "." + sub, None);
    var imp := Node(Import([alias]), Some(1), Some(1), []);
    var t := Node(Module(false), None, None, [imp]);
    var nodes := [t, imp];
    assert Walk(t) == nodes by {
      assert WalkAll([imp]) == Walk(imp) + WalkAll([]);
    }
    assert BindingsOf(imp.kind) == {pkg} by {
      FirstSegmentDotted(pkg, sub);
      assert ImportBinding(alias) == pkg;
      assert [alias][..0] == [];
      assert ImportBindings([alias]) == ImportBindings([]) + {ImportBinding(alias)};
    }
    assert ImportedNames(nodes) == {pkg} by {
      assert ImportedNames([t]) == {} by { assert [t][..0] == []; }
      assert nodes[..1] == [t];
    }
    assert LoadedNames(nodes) == {};
  }

  /** Reading a module's name anywhere in the file, as `os.getcwd()` does, makes `import os` used. */
  lemma UsedImportExample(pkg: string)
    requires '.' !in pkg
    ensures var imp := Node(Import([Alias(pkg, None)]), Some(1), Some(1), []);
      var use := Node(Other, Some(2), Some(2), [Node(Name(pkg, Load), Some(2), Some(2), [])]);
      UnusedNames(Node(Module(false), None, None, [imp, use])) == {}
  {
    var alias := Alias(pkg, None);
    var imp := Node(Import([alias]), Some(1), Some(1), []);
    var name := Node(Name(pkg, Load), Some(2), Some(2), []);
    var use := Node(Other, Some(2), Some(2), [name]);
    var t := Node(Module(false), None, None, [imp, use]);
    var nodes := [t, imp, use, name];
    assert Walk(t) == nodes by {
      assert Walk(name) == [name];
      assert Walk(use) == [use, name] by {
        assert WalkAll([name]) == Walk(name) + WalkAll([]);
      }
      assert Walk(imp) == [imp];
      assert WalkAll([use]) == Walk(use) + WalkAll([]);
      assert [imp, use][1..] == [use];
      assert WalkAll([imp, use]) == Walk(imp) + WalkAll([use]);
    }
    assert pkg in LoadedNames(nodes);
    forall x | x in ImportedNames(nodes) ensures x == pkg {
      ImportedNamesMembership(nodes, x);
      ImportBindingsMembership([alias], x);
    }
  }

  /** `from m import *` binds no tracked name. */
  lemma StarImportExample()
    ensures var star := Node(ImportFrom([Alias("*", None)]), Some(1), Some(1), []);
      UnusedNames(Node(Module(false), None, None, [star])) == {}
  {
    var star := Node(ImportFrom([Alias("*", None)]), Some(1), Some(1), []);
    var t := Node(Module(false), None, None, [star]);
    assert Walk(t) == [t, star] by {
      assert WalkAll([star]) == Walk(star) + WalkAll([]);
    }
    assert FromImportBindings([Alias("*", None)]) == {} by {
      assert [Alias("*", None)][..0] == [];
    }
    assert BindingsOf(star.kind) == {};
    assert ImportedNames([t]) == {} by { assert [t][..0] == []; }
    assert ImportedNames([t, star]) == {} by { assert [t, star][..1] == [t]; }
  }

  /** The function `test_empty_file` of the command-line tests: a `with` block
      holding a call and two `assert` statements, on lines 10 to 14. */
  function EmptyFileTest(): Node
  {
    var call := Node(Other, Some(12), Some(12), []);
    var a1 := Node(Assert, Some(13), Some(13), []);
    var a2 := Node(Assert, Some(14), Some(14), []);
    var w := Node(With, Some(11), Some(14), [call, a1, a2]);
    Node(FunctionDef("test_empty_file", Arguments([], [], None, [], None), false), Some(10), Some(14), [w])
  }

  /** The function `test_this_file` of the command-line tests: an assignment and
      two `assert` statements, on lines 17 to 23. */
  function ThisFileTest(): Node
  {
    var assign := Node(Other, Some(18), Some(18), []);
    var a1 := Node(Assert, Some(19), Some(19), []);
    var a2 := Node(Assert, Some(20), Some(23), []);
    Node(FunctionDef("test_this_file", Arguments([], [], None, [], None), false), Some(17), Some(23), [assign, a1, a2])
  }

  /** `test_empty_file` has complexity 1 + 3 = 4 (the `with` and two `assert`s),
      is five lines long and nests one level deep. */
  lemma ComplexityExample()
    ensures Complexity(EmptyFileTest()) == 4
    ensures CalcLength(EmptyFileTest()) == Some(5)
    ensures CalcMaxNesting(EmptyFileTest()) == 1
  {
    var f := EmptyFileTest();
    var w := f.children[0];
    var call, a1, a2 := w.children[0], w.children[1], w.children[2];
    assert w.children == [call, a1, a2];
    assert Dfs(w, 1) == 1 by {
      assert [call, a1, a2][..2] == [call, a1];
      assert [call, a1][..1] == [call];
      assert [call][..0] == [];
      assert DfsChildren([call], 1) == 1;
      assert DfsChildren([call, a1], 1) == 1;
      assert DfsChildren([call, a1, a2], 1) == 1;
    }
    assert [w][..0] == [];
  }

  /** `test_this_file` has complexity 1 + 2 = 3 (two `assert`s), is seven lines
      long and has no nesting. */
  lemma ThisFileComplexityExample()
    ensures Complexity(ThisFileTest()) == 3
    ensures CalcLength(ThisFileTest()) == Some(7)
    ensures CalcMaxNesting(ThisFileTest()) == 0
  {
    var f := ThisFileTest();
    var assign, a1, a2 := f.children[0], f.children[1], f.children[2];
    assert f.children == [assign, a1, a2];
    assert [assign, a1, a2][..2] == [assign, a1];
    assert [assign, a1][..1] == [assign];
    assert [assign][..0] == [];
    assert DfsChildren([assign], 0) == 0;
    assert DfsChildren([assign, a1], 0) == 0;
    assert DfsChildren([assign, a1, a2], 0) == 0;
  }

  /** The worked example of the complexity rule: a function `f` whose
      `if a and b and c:` holds a `for` loop. */
  function BoolOpExample(): Node
  {
    var names := [Node(Name("a", Load), Some(2), Some(2), []), Node(Name("b", Load), Some(2), Some(2), []),
                  Node(Name("c", Load), Some(2), Some(2), [])];
    var test := Node(BoolOp(And, 3), Some(2), Some(2), names);
    var loop := Node(For, Some(3), Some(4), []);
    var cond := Node(If, Some(2), Some(4), [test, loop]);
    Node(FunctionDef("f", Arguments([], [], None, [], None), false), Some(1), Some(4), [cond])
  }

  /** Leaves that are neither decisions nor boolean operations score nothing. */
  lemma {:induction false} PlainLeavesScoreNothing(ns: seq<Node>)
    requires forall i :: 0 <= i < |ns| ==> !IsDecision(ns[i].kind) && !ns[i].kind.BoolOp? && ns[i].children == []
    ensures DecisionCountAll(ns) == 0 && BoolOpPointsAll(ns) == 0
  {
    if ns != [] {
      PlainLeavesScoreNothing(ns[1..]);
      assert ns[0].children == [];
      assert DecisionCount(ns[0]) == 0 && BoolOpPoints(ns[0]) == 0;
    }
  }

  /** The example scores 1 + 1 (`if`) + 1 (`for`) + 2 (three operands) = 5. */
  lemma BoolOpComplexityExample()
    ensures Complexity(BoolOpExample()) == 5
  {
    var f := BoolOpExample();
    var cond := f.children[0];
    var test, loop := cond.children[0], cond.children[1];
    assert f.children == [cond] && cond.children == [test, loop];
    PlainLeavesScoreNothing(test.children);
    assert DecisionCount(test) == 0 && BoolOpPoints(test) == 2;
    assert [test, loop][1..] == [loop] && [loop][1..] == [];
    assert DecisionCountAll([loop]) == 1 && BoolOpPointsAll([loop]) == 0;
    assert DecisionCountAll([test, loop]) == 1 && BoolOpPointsAll([test, loop]) == 2;
    assert DecisionCount(cond) == 2 && BoolOpPoints(cond) == 2;
    assert [cond][1..] == [];
  }

  /** The `for` inside the `if` makes the example nest two levels deep. */
  lemma BoolOpNestingExample()
    ensures CalcMaxNesting(BoolOpExample()) == 2
  {
    var f := BoolOpExample();
    var cond := f.children[0];
    var test, loop := cond.children[0], cond.children[1];
    var na, nb, nc := test.children[0], test.children[1], test.children[2];
    assert f.children == [cond] && cond.children == [test, loop] && test.children == [na, nb, nc];
    assert DfsChildren([na, nb, nc], 1) == 1 by {
      assert [na, nb, nc][..2] == [na, nb];
      assert [na, nb][..1] == [na];
      assert [na][..0] == [];
      assert DfsChildren([na], 1) == 1;
      assert DfsChildren([na, nb], 1) == 1;
    }
    assert Dfs(cond, 1) == 2 by {
      assert [test, loop][..1] == [test];
      assert [test][..0] == [];
      assert Dfs(test, 1) == 1;
      assert DfsChildren([test], 1) == 1;
      assert Dfs(loop, 2) == 2;
      assert DfsChildren([test, loop], 1) == 2;
    }
    assert [cond][..0] == [];
  }

  // =====================================================================
  // collect_file_metrics
  // =====================================================================

  predicate InUnitInterval(r: real) { 0.0 <= r <= 1.0 }

  /** `collect_file_metrics`, with `lines` the result of `source.splitlines()`. */
  method CollectFileMetrics(tree: Node, lines: seq<string>) returns (m: FileMetrics)
    requires IsDocumentable(tree.kind)
    ensures m.commentRatio == CommentRatio(lines)
    ensures m.docstringCoverage == DocstringCoverage(tree)
    ensures m.longLineRatio == CalcLongLineRatio(lines, LONG_LINE_LIMIT)
    ensures m.namingIssueRatio == NamingRatio(tree)
    ensures |m.namingIssues| == NamingIssueCount(tree)
    ensures StrictlySorted(m.unusedImports)
    ensures forall x :: x in m.unusedImports <==> x in UnusedNames(tree)
    ensures InUnitInterval(m.commentRatio) && InUnitInterval(m.docstringCoverage)
    ensures InUnitInterval(m.longLineRatio) && InUnitInterval(m.namingIssueRatio)
  {
    var commentRatio := CalcCommentRatio(lines);
    var docCov := CalcDocstringCoverage(tree);
    var longRatio := CalcLongLineRatio(lines, LONG_LINE_LIMIT);
    var namingRatio, namingIssues := CollectNamingIssues(tree);
    var unusedImports := CalcUnusedImports(tree);
    m := FileMetrics(commentRatio, docCov, longRatio, namingRatio, namingIssues, unusedImports);
  }

  /** An empty file (a module with no statements and no text) scores 0 on every ratio. */
  lemma EmptyFileRatios()
    ensures var empty := Node(Module(false), None, None, []);
      && CommentRatio([]) == 0.0
      && CalcLongLineRatio([], LONG_LINE_LIMIT) == 0.0
      && DocstringCoverage(empty) == 0.0
      && NamingRatio(empty) == 0.0
  {
    var empty := Node(Module(false), None, None, []);
    assert Walk(empty) == [empty];
    assert CheckedVariables(empty) == {};
  }
}
