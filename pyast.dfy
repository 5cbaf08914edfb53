/**
 * The slice of Python's `ast` module the core inspects: a syntax tree whose
 * nodes carry the kind the checks look at, a line number and their children
 * in field order, and `ast.walk`, which visits a tree breadth first.
 */
module PyAst {
  import opened Base

  datatype Kind =
    | Module
      /** `import a.b, c`: the dotted names of the aliases, in order (never empty). */
    | Import(first: string, rest: seq<string>)
      /** `from m import x, y`: the module (absent for `from . import x`) and the imported names. */
    | ImportFrom(source: Option<string>, firstName: string, restNames: seq<string>)
      /** `def name(): ...` with its docstring ("" when it has none). */
    | FunctionDef(name: string, doc: string)
    | For
    | While
    | Break
    | Return
    | If
    | Compare
    | Try
      /** A call: the callee is the first child, the positional arguments follow. */
    | Call
    | Name(id: string)
      /** A string constant. */
    | Str(value: string)
    | Other

  datatype Node = Node(kind: Kind, line: nat, kids: seq<Node>)

  /** Outcome of `ast.parse`. */
  datatype Parsed = Parsed(tree: Node) | SyntaxError(msg: string)

  function Size(n: Node): (r: nat)
    ensures r >= 1
    decreases n
  {
    1 + SumSizes(n.kids)
  }

  function SumSizes(q: seq<Node>): (r: nat)
    ensures |q| > 0 ==> r >= Size(q[0])
    decreases q
  {
    if |q| == 0 then 0 else Size(q[0]) + SumSizes(q[1..])
  }

  lemma {:induction false} SumSizesAppend(a: seq<Node>, b: seq<Node>)
    ensures SumSizes(a + b) == SumSizes(a) + SumSizes(b)
    decreases |a|
  {
    if |a| > 0 {
      assert (a + b)[1..] == a[1..] + b;
      SumSizesAppend(a[1..], b);
    } else {
      assert a + b == b;
    }
  }

  /** Breadth-first visit of a queue of nodes: take the first, enqueue its children. */
  function Bfs(q: seq<Node>): (r: seq<Node>)
    ensures |r| == SumSizes(q)
    ensures |q| > 0 ==> r[0] == q[0]
    decreases SumSizes(q)
  {
    if |q| == 0 then []
    else
      SumSizesAppend(q[1..], q[0].kids);
      [q[0]] + Bfs(q[1..] + q[0].kids)
  }

  /** `ast.walk(n)` as a list. */
  function Walk(n: Node): (r: seq<Node>)
    ensures |r| == Size(n) && r[0] == n
  {
    assert [n][1..] == [] && SumSizes([]) == 0;
    assert SumSizes([n]) == Size(n);
    Bfs([n])
  }

  /** The nodes of a tree, order aside. */
  function Nodes(n: Node): set<Node>
    decreases Size(n), 0
  {
    {n} + NodesOf(n.kids)
  }

  function NodesOf(q: seq<Node>): set<Node>
    decreases SumSizes(q), 1
  {
    if |q| == 0 then {} else Nodes(q[0]) + NodesOf(q[1..])
  }

  lemma {:induction false} NodesOfAppend(a: seq<Node>, b: seq<Node>)
    ensures NodesOf(a + b) == NodesOf(a) + NodesOf(b)
    decreases |a|
  {
    if |a| > 0 {
      assert (a + b)[1..] == a[1..] + b;
      NodesOfAppend(a[1..], b);
    } else {
      assert a + b == b;
    }
  }

  /** The breadth-first visit reaches exactly the nodes of the queued trees. */
  lemma {:induction false} BfsVisitsAll(q: seq<Node>)
    ensures (set x | x in Bfs(q)) == NodesOf(q)
    decreases SumSizes(q)
  {
    if |q| > 0 {
      var next := q[1..] + q[0].kids;
      SumSizesAppend(q[1..], q[0].kids);
      BfsVisitsAll(next);
      NodesOfAppend(q[1..], q[0].kids);
      var rest := Bfs(next);
      assert Bfs(q) == [q[0]] + rest;
      calc {
        set x | x in Bfs(q);
        ({q[0]} + (set x | x in rest));
        ({q[0]} + NodesOf(q[1..]) + NodesOf(q[0].kids));
        NodesOf(q);
      }
    }
  }

  /** `ast.walk` reaches every node of the tree and nothing else. */
  lemma WalkVisitsAll(n: Node)
    ensures (set x | x in Walk(n)) == Nodes(n)
  {
    BfsVisitsAll([n]);
  }

  /** The nodes of a child are nodes of the parent. */
  lemma {:induction false} NodesOfChild(n: Node, k: nat)
    requires k < |n.kids|
    ensures Nodes(n.kids[k]) <= Nodes(n)
  {
    NodesOfMember(n.kids, k);
  }

  lemma {:induction false} NodesOfMember(q: seq<Node>, k: nat)
    requires k < |q|
    ensures Nodes(q[k]) <= NodesOf(q)
    decreases k
  {
    if k > 0 {
      NodesOfMember(q[1..], k - 1);
    }
  }

  /** Some node of the walk has a kind satisfying `p`. */
  predicate AnyKind(n: Node, p: Kind -> bool) {
    exists x :: x in Walk(n) && p(x.kind)
  }

  /** What `AnyKind` finds in a child it finds in the parent. */
  lemma AnyKindOfChild(n: Node, k: nat, p: Kind -> bool)
    requires k < |n.kids| && AnyKind(n.kids[k], p)
    ensures AnyKind(n, p)
  {
    var x :| x in Walk(n.kids[k]) && p(x.kind);
    WalkVisitsAll(n.kids[k]);
    NodesOfChild(n, k);
    WalkVisitsAll(n);
    assert x in Nodes(n);
  }
}
