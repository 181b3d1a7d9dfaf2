/**
 * The structural stage of `CodeQualityAnalyzer`: `analyze_python_syntax`,
 * `_calculate_complexity` and `_calculate_nesting_depth`. The Python parser
 * is not modelled; its outcome (`ParseOutcome`) is an input. Walks over the
 * tree follow `ast.walk`: a work list from which the front node is removed
 * and its children appended.
 */
module SyntaxAnalyzer {
  import opened IssueTally

  /** The node kinds the analyzer distinguishes; every other node is `Other`. */
  datatype Kind = FunctionDef | If | For | While | Try | ExceptHandler | Other

  /** A syntax-tree node with its direct children (`ast.iter_child_nodes`) in order. */
  datatype Node = Node(kind: Kind, children: seq<Node>)

  /** `ast.parse`: a tree, a `SyntaxError`, or any other exception. */
  datatype ParseOutcome = Parsed(tree: Node) | SyntaxErr | OtherErr

  /** Kinds that add one to a function's complexity. */
  predicate IsBranch(k: Kind) {
    k == If || k == For || k == While || k == Try || k == ExceptHandler
  }

  /** Kinds through which the nesting depth recurses. */
  predicate IsBlock(k: Kind) {
    k == For || k == While || k == If || k == Try
  }

  /** Kinds whose nesting depth is checked. */
  predicate IsLoopOrIf(k: Kind) {
    k == For || k == While || k == If
  }

  const ComplexityThreshold := 10
  const NestingThreshold := 3

  // ---- Reference definitions by structural recursion ----

  /** Number of nodes in the subtree. */
  function Size(n: Node): nat { 1 + SizeOf(n.children) }
  function SizeOf(ns: seq<Node>): nat {
    if ns == [] then 0 else Size(ns[0]) + SizeOf(ns[1..])
  }

  /** Number of If/For/While/Try/ExceptHandler nodes in the subtree, the root included. */
  function Branches(n: Node): nat { (if IsBranch(n.kind) then 1 else 0) + BranchesOf(n.children) }
  function BranchesOf(ns: seq<Node>): nat {
    if ns == [] then 0 else Branches(ns[0]) + BranchesOf(ns[1..])
  }

  /** `_calculate_complexity(n)` */
  function Complexity(n: Node): nat { 1 + Branches(n) }

  /**
   * `_calculate_nesting_depth(n)`: the deepest chain of For/While/If/Try
   * nodes descending from `n` through direct children only.
   */
  function NestingDepth(n: Node): nat { DeepestBlock(n.children) }

  /** The largest `1 + NestingDepth(c)` over the block children `c` of `ns`, or 0. */
  function DeepestBlock(ns: seq<Node>): nat {
    if ns == [] then 0
    else
      var rest := DeepestBlock(ns[..|ns| - 1]);
      var last := ns[|ns| - 1];
      if IsBlock(last.kind) && 1 + NestingDepth(last) > rest then 1 + NestingDepth(last) else rest
  }

  /** Function definitions in the subtree whose complexity exceeds the threshold. */
  function ComplexFunctions(n: Node): nat {
    (if n.kind == FunctionDef && Complexity(n) > ComplexityThreshold then 1 else 0) + ComplexFunctionsOf(n.children)
  }
  function ComplexFunctionsOf(ns: seq<Node>): nat {
    if ns == [] then 0 else ComplexFunctions(ns[0]) + ComplexFunctionsOf(ns[1..])
  }

  /** For/While/If nodes in the subtree whose nesting depth exceeds the threshold. */
  function DeepBlocks(n: Node): nat {
    (if IsLoopOrIf(n.kind) && NestingDepth(n) > NestingThreshold then 1 else 0) + DeepBlocksOf(n.children)
  }
  function DeepBlocksOf(ns: seq<Node>): nat {
    if ns == [] then 0 else DeepBlocks(ns[0]) + DeepBlocksOf(ns[1..])
  }

  /** `sum(analyze_python_syntax(code).values())` */
  function SyntaxTotal(outcome: ParseOutcome): nat {
    match outcome
    case Parsed(tree) => ComplexFunctions(tree) + DeepBlocks(tree)
    case SyntaxErr => 1
    case OtherErr => 0
  }

  // ---- The forest sums distribute over concatenation ----

  lemma {:induction false} ForestAppend(a: seq<Node>, b: seq<Node>)
    ensures SizeOf(a + b) == SizeOf(a) + SizeOf(b)
    ensures BranchesOf(a + b) == BranchesOf(a) + BranchesOf(b)
    ensures ComplexFunctionsOf(a + b) == ComplexFunctionsOf(a) + ComplexFunctionsOf(b)
    ensures DeepBlocksOf(a + b) == DeepBlocksOf(a) + DeepBlocksOf(b)
  {
    if a != [] {
      assert (a + b)[1..] == a[1..] + b;
      ForestAppend(a[1..], b);
    } else {
      assert a + b == b;
    }
  }

  /** Removing the front of a work list and appending its children, as `ast.walk` does. */
  lemma WalkStep(todo: seq<Node>)
    requires todo != []
    ensures var next := todo[1..] + todo[0].children;
      && SizeOf(next) == SizeOf(todo) - 1
      && BranchesOf(next) + (if IsBranch(todo[0].kind) then 1 else 0) == BranchesOf(todo)
      && ComplexFunctionsOf(next)
         + (if todo[0].kind == FunctionDef && Complexity(todo[0]) > ComplexityThreshold then 1 else 0)
         == ComplexFunctionsOf(todo)
      && DeepBlocksOf(next)
         + (if IsLoopOrIf(todo[0].kind) && NestingDepth(todo[0]) > NestingThreshold then 1 else 0)
         == DeepBlocksOf(todo)
  {
    ForestAppend(todo[1..], todo[0].children);
  }

  // ---- The source's loops ----

  /** `_calculate_complexity(node)`: one plus a count over `ast.walk(node)`. */
  method CalculateComplexity(node: Node) returns (complexity: nat)
    ensures complexity == 1 + Branches(node)
  {
    complexity := 1;
    var todo := [node];
    while todo != []
      invariant complexity + BranchesOf(todo) == 1 + Branches(node)
      decreases SizeOf(todo)
    {
      var child := todo[0];
      WalkStep(todo);
      todo := todo[1..] + child.children;
      if IsBranch(child.kind) {
        complexity := complexity + 1;
      }
    }
  }

  /** `_calculate_nesting_depth(node, depth)` */
  method CalculateNestingDepth(node: Node, depth: nat) returns (maxDepth: nat)
    ensures maxDepth == depth + NestingDepth(node)
    decreases node
  {
    maxDepth := depth;
    for i := 0 to |node.children|
      invariant maxDepth == depth + DeepestBlock(node.children[..i])
    {
      assert node.children[..i + 1][..i] == node.children[..i];
      var child := node.children[i];
      if child.kind == For || child.kind == While || child.kind == If || child.kind == Try {
        var childDepth := CalculateNestingDepth(child, depth + 1);
        if childDepth > maxDepth {
          maxDepth := childDepth;
        }
      }
    }
    assert node.children[..|node.children|] == node.children;
  }

  /** `analyze_python_syntax(code)`, given what `ast.parse(code)` did. */
  method AnalyzePythonSyntax(outcome: ParseOutcome) returns (issues: Tally)
    ensures outcome.SyntaxErr? ==> issues == map[SyntaxError := 1]
    ensures outcome.OtherErr? ==> issues == map[]
    ensures outcome.Parsed? ==>
      && issues.Keys <= {HighComplexity, DeepNesting}
      && Get(issues, HighComplexity) == ComplexFunctions(outcome.tree)
      && Get(issues, DeepNesting) == DeepBlocks(outcome.tree)
    ensures forall c :: c in issues ==> issues[c] > 0
    ensures TallyTotal(issues) == SyntaxTotal(outcome)
  {
    issues := map[];
    match outcome
    case SyntaxErr =>
      issues := issues[SyntaxError := Get(issues, SyntaxError) + 1];
    case OtherErr =>
    case Parsed(tree) =>
      var todo := [tree];
      assert ComplexFunctionsOf(todo) == ComplexFunctions(tree) && DeepBlocksOf(todo) == DeepBlocks(tree);
      while todo != []
        invariant issues.Keys <= {HighComplexity, DeepNesting}
        invariant forall c :: c in issues ==> issues[c] > 0
        invariant Get(issues, HighComplexity) + ComplexFunctionsOf(todo) == ComplexFunctions(tree)
        invariant Get(issues, DeepNesting) + DeepBlocksOf(todo) == DeepBlocks(tree)
        decreases SizeOf(todo)
      {
        var node := todo[0];
        WalkStep(todo);
        todo := todo[1..] + node.children;
        if node.kind == FunctionDef {
          var complexity := CalculateComplexity(node);
          if complexity > ComplexityThreshold {
            issues := issues[HighComplexity := Get(issues, HighComplexity) + 1];
          }
        }
        if node.kind == For || node.kind == While || node.kind == If {
          var depth := CalculateNestingDepth(node, 0);
          if depth > NestingThreshold {
            issues := issues[DeepNesting := Get(issues, DeepNesting) + 1];
          }
        }
      }
  }

  // ---- Properties of the reference definitions ----

  /**
   * The nesting depth is 0 when no direct child is a For/While/If/Try, and
   * otherwise one more than the largest depth among such children.
   */
  lemma {:induction false} DeepestBlockIsMax(ns: seq<Node>)
    ensures (forall i :: 0 <= i < |ns| ==> !IsBlock(ns[i].kind)) ==> DeepestBlock(ns) == 0
    ensures forall i :: 0 <= i < |ns| && IsBlock(ns[i].kind) ==> DeepestBlock(ns) >= 1 + NestingDepth(ns[i])
    ensures DeepestBlock(ns) > 0 ==>
      exists i :: 0 <= i < |ns| && IsBlock(ns[i].kind) && DeepestBlock(ns) == 1 + NestingDepth(ns[i])
  {
    if ns != [] {
      var init := ns[..|ns| - 1];
      DeepestBlockIsMax(init);
      forall i | 0 <= i < |init| ensures init[i] == ns[i] { }
    }
  }

  /** Height of the tree: a leaf has height 1. */
  function Height(n: Node): nat { 1 + TallestOf(n.children) }
  function TallestOf(ns: seq<Node>): nat {
    if ns == [] then 0
    else
      var h := Height(ns[0]);
      var rest := TallestOf(ns[1..]);
      if h > rest then h else rest
  }

  lemma {:induction false} TallestOfBounds(ns: seq<Node>, i: nat)
    requires i < |ns|
    ensures Height(ns[i]) <= TallestOf(ns)
  {
    if i > 0 {
      TallestOfBounds(ns[1..], i - 1);
    }
  }

  /** A nesting depth above the threshold needs a tree more than four levels deep. */
  lemma {:induction false} NestingBelowHeight(n: Node)
    ensures NestingDepth(n) < Height(n)
    decreases n
  {
    DeepestBlockIsMax(n.children);
    if NestingDepth(n) > 0 {
      var i :| 0 <= i < |n.children| && IsBlock(n.children[i].kind) && NestingDepth(n) == 1 + NestingDepth(n.children[i]);
      NestingBelowHeight(n.children[i]);
      TallestOfBounds(n.children, i);
    }
  }

  /** A flagged function has more than the threshold's worth of branch nodes beneath it. */
  lemma {:induction false} ComplexFunctionNeedsBranches(n: Node)
    requires ComplexFunctions(n) > 0
    ensures Branches(n) >= ComplexityThreshold
    decreases n
  {
    if !(n.kind == FunctionDef && Complexity(n) > ComplexityThreshold) {
      var i := FirstFlaggedChild(n.children);
      ComplexFunctionNeedsBranches(n.children[i]);
      BranchesOfBounds(n.children, i);
    }
  }

  lemma {:induction false} BranchesOfBounds(ns: seq<Node>, i: nat)
    requires i < |ns|
    ensures Branches(ns[i]) <= BranchesOf(ns)
  {
    if i > 0 {
      BranchesOfBounds(ns[1..], i - 1);
    }
  }

  /** The position of a child whose subtree holds a flagged function. */
  function FirstFlaggedChild(ns: seq<Node>): (i: nat)
    requires ComplexFunctionsOf(ns) > 0
    ensures i < |ns| && ComplexFunctions(ns[i]) > 0
  {
    if ComplexFunctions(ns[0]) > 0 then 0 else 1 + FirstFlaggedChild(ns[1..])
  }
}
