/**
 * Python abstract syntax trees, as far as the extension loader needs them, and `ast.walk`.
 *
 * Every node class of Python 3.12's `ast` module is a `Kind`, except the three the loader looks
 * into: a function definition (its name), a call (its callee) and a name (its identifier), which
 * are constructors of their own. Children are kept in the order `ast.iter_child_nodes` yields
 * them; a `Name` node's expression context is not kept.
 */
module PyAst {

  datatype Kind =
    // modules
    | Module | Interactive | Expression | FunctionType
    // statements
    | AsyncFunctionDef | ClassDef | Return | Delete | Assign | TypeAlias | AugAssign | AnnAssign
    | For | AsyncFor | While | If | With | AsyncWith | Match | Raise | Try | TryStar | Assert
    | Import | ImportFrom | Global | Nonlocal | Expr | Pass | Break | Continue
    // expressions
    | BoolOp | NamedExpr | BinOp | UnaryOp | Lambda | IfExp | Dict | Set | ListComp | SetComp
    | DictComp | GeneratorExp | Await | Yield | YieldFrom | Compare | FormattedValue | JoinedStr
    | Constant | Attribute | Subscript | Starred | List | Tuple | Slice
    // expression contexts and operators
    | Load | Store | Del | And | Or | Add | Sub | Mult | MatMult | Div | Mod | Pow | LShift
    | RShift | BitOr | BitXor | BitAnd | FloorDiv | Invert | Not | UAdd | USub | Eq | NotEq | Lt
    | LtE | Gt | GtE | Is | IsNot | In | NotIn
    // auxiliary nodes
    | Comprehension | ExceptHandler | Arguments | Arg | Keyword | Alias | WithItem | MatchCase
    // patterns and type parameters
    | MatchValue | MatchSingleton | MatchSequence | MatchMapping | MatchClass | MatchStar
    | MatchAs | MatchOr | TypeIgnore | TypeVar | ParamSpec | TypeVarTuple

  /** `type(node).__name__` for a node of kind `k`. */
  function ClassName(k: Kind): string
  {
    match k
    case Module => "Module" case Interactive => "Interactive" case Expression => "Expression"
    case FunctionType => "FunctionType" case AsyncFunctionDef => "AsyncFunctionDef"
    case ClassDef => "ClassDef" case Return => "Return" case Delete => "Delete"
    case Assign => "Assign" case TypeAlias => "TypeAlias" case AugAssign => "AugAssign"
    case AnnAssign => "AnnAssign" case For => "For" case AsyncFor => "AsyncFor"
    case While => "While" case If => "If" case With => "With" case AsyncWith => "AsyncWith"
    case Match => "Match" case Raise => "Raise" case Try => "Try" case TryStar => "TryStar"
    case Assert => "Assert" case Import => "Import" case ImportFrom => "ImportFrom"
    case Global => "Global" case Nonlocal => "Nonlocal" case Expr => "Expr" case Pass => "Pass"
    case Break => "Break" case Continue => "Continue" case BoolOp => "BoolOp"
    case NamedExpr => "NamedExpr" case BinOp => "BinOp" case UnaryOp => "UnaryOp"
    case Lambda => "Lambda" case IfExp => "IfExp" case Dict => "Dict" case Set => "Set"
    case ListComp => "ListComp" case SetComp => "SetComp" case DictComp => "DictComp"
    case GeneratorExp => "GeneratorExp" case Await => "Await" case Yield => "Yield"
    case YieldFrom => "YieldFrom" case Compare => "Compare"
    case FormattedValue => "FormattedValue" case JoinedStr => "JoinedStr"
    case Constant => "Constant" case Attribute => "Attribute" case Subscript => "Subscript"
    case Starred => "Starred" case List => "List" case Tuple => "Tuple" case Slice => "Slice"
    case Load => "Load" case Store => "Store" case Del => "Del" case And => "And"
    case Or => "Or" case Add => "Add" case Sub => "Sub" case Mult => "Mult"
    case MatMult => "MatMult" case Div => "Div" case Mod => "Mod" case Pow => "Pow"
    case LShift => "LShift" case RShift => "RShift" case BitOr => "BitOr"
    case BitXor => "BitXor" case BitAnd => "BitAnd" case FloorDiv => "FloorDiv"
    case Invert => "Invert" case Not => "Not" case UAdd => "UAdd" case USub => "USub"
    case Eq => "Eq" case NotEq => "NotEq" case Lt => "Lt" case LtE => "LtE" case Gt => "Gt"
    case GtE => "GtE" case Is => "Is" case IsNot => "IsNot" case In => "In"
    case NotIn => "NotIn" case Comprehension => "comprehension"
    case ExceptHandler => "ExceptHandler" case Arguments => "arguments" case Arg => "arg"
    case Keyword => "keyword" case Alias => "alias" case WithItem => "withitem"
    case MatchCase => "match_case" case MatchValue => "MatchValue"
    case MatchSingleton => "MatchSingleton" case MatchSequence => "MatchSequence"
    case MatchMapping => "MatchMapping" case MatchClass => "MatchClass"
    case MatchStar => "MatchStar" case MatchAs => "MatchAs" case MatchOr => "MatchOr"
    case TypeIgnore => "TypeIgnore" case TypeVar => "TypeVar" case ParamSpec => "ParamSpec"
    case TypeVarTuple => "TypeVarTuple"
  }

  /**
   * A syntax tree. `FunctionDef`'s parts are its `arguments` node, body statements, decorators,
   * return annotation and type parameters; `Call`'s arguments are its positional arguments
   * followed by its `keyword` nodes.
   */
  datatype Node =
    | FunctionDef(name: string, parts: seq<Node>)
    | Call(callee: Node, arguments: seq<Node>)
    | Name(id: string)
    | Node(kind: Kind, children: seq<Node>)

  /** `ast.iter_child_nodes(n)` */
  function Children(n: Node): seq<Node>
  {
    match n
    case FunctionDef(_, parts) => parts
    case Call(callee, arguments) => [callee] + arguments
    case Name(_) => []
    case Node(_, children) => children
  }

  /** The number of nodes in the tree below and including `n`. */
  function Size(n: Node): nat
  {
    match n
    case FunctionDef(_, parts) => 1 + SizeAll(parts)
    case Call(callee, arguments) => 1 + Size(callee) + SizeAll(arguments)
    case Name(_) => 1
    case Node(_, children) => 1 + SizeAll(children)
  }

  function SizeAll(ns: seq<Node>): nat
  {
    if ns == [] then 0 else Size(ns[0]) + SizeAll(ns[1..])
  }

  /** Every node of the tree rooted at `n`, `n` included, with multiplicity. */
  function Nodes(n: Node): multiset<Node>
  {
    match n
    case FunctionDef(_, parts) => multiset{n} + NodesAll(parts)
    case Call(callee, arguments) => multiset{n} + Nodes(callee) + NodesAll(arguments)
    case Name(_) => multiset{n}
    case Node(_, children) => multiset{n} + NodesAll(children)
  }

  function NodesAll(ns: seq<Node>): multiset<Node>
  {
    if ns == [] then multiset{} else Nodes(ns[0]) + NodesAll(ns[1..])
  }

  lemma {:induction false} SizeAllAppend(a: seq<Node>, b: seq<Node>)
    ensures SizeAll(a + b) == SizeAll(a) + SizeAll(b)
  {
    if a == [] {
      assert a + b == b;
    } else {
      assert (a + b)[1..] == a[1..] + b;
      SizeAllAppend(a[1..], b);
    }
  }

  lemma {:induction false} NodesAllAppend(a: seq<Node>, b: seq<Node>)
    ensures NodesAll(a + b) == NodesAll(a) + NodesAll(b)
  {
    if a == [] {
      assert a + b == b;
    } else {
      assert (a + b)[1..] == a[1..] + b;
      NodesAllAppend(a[1..], b);
    }
  }

  /** A node is one more than its children, in size and in nodes. */
  lemma ChildrenMeasure(n: Node)
    ensures Size(n) == 1 + SizeAll(Children(n))
    ensures Nodes(n) == multiset{n} + NodesAll(Children(n))
  {
    if n.Call? {
      var cs := Children(n);
      assert cs[0] == n.callee && cs[1..] == n.arguments;
    }
  }

  /**
   * The breadth-first traversal of `ast.walk`: take the node at the front of the queue, put its
   * children at the back, and yield it.
   */
  function Bfs(queue: seq<Node>): (visited: seq<Node>)
    ensures |visited| == SizeAll(queue)
    decreases SizeAll(queue)
  {
    if queue == [] then []
    else
      ChildrenMeasure(queue[0]);
      SizeAllAppend(queue[1..], Children(queue[0]));
      [queue[0]] + Bfs(queue[1..] + Children(queue[0]))
  }

  /** `list(ast.walk(n))` */
  function Walk(n: Node): seq<Node>
  {
    Bfs([n])
  }

  /** The traversal yields every node of the queued trees, each exactly once. */
  lemma {:induction false} BfsVisitsAll(queue: seq<Node>)
    ensures multiset(Bfs(queue)) == NodesAll(queue)
    decreases SizeAll(queue)
  {
    if queue != [] {
      var n := queue[0];
      var next := queue[1..] + Children(n);
      ChildrenMeasure(n);
      SizeAllAppend(queue[1..], Children(n));
      NodesAllAppend(queue[1..], Children(n));
      BfsVisitsAll(next);
      calc {
        multiset(Bfs(queue));
        multiset([n] + Bfs(next));
        multiset{n} + NodesAll(queue[1..]) + NodesAll(Children(n));
        Nodes(n) + NodesAll(queue[1..]);
      }
    }
  }

  /** The queued trees come out first, in queue order, before any of their descendants. */
  lemma {:induction false} BfsQueueFirst(queue: seq<Node>)
    ensures |queue| <= |Bfs(queue)| && Bfs(queue)[..|queue|] == queue
    decreases SizeAll(queue)
  {
    if queue != [] {
      var n := queue[0];
      var next := queue[1..] + Children(n);
      ChildrenMeasure(n);
      SizeAllAppend(queue[1..], Children(n));
      BfsQueueFirst(next);
      assert Bfs(next)[..|queue| - 1] == next[..|queue| - 1] == queue[1..];
      assert Bfs(queue)[..|queue|] == [n] + Bfs(next)[..|queue| - 1];
    }
  }

  /** `ast.walk(n)` yields `n` first and then exactly the other nodes of its tree. */
  lemma WalkVisitsTree(n: Node)
    ensures multiset(Walk(n)) == Nodes(n)
    ensures |Walk(n)| == Size(n) && Walk(n)[0] == n
  {
    BfsVisitsAll([n]);
    BfsQueueFirst([n]);
    assert [n][1..] == [];
    assert SizeAll([n]) == Size(n) + SizeAll([]);
  }

  /** The root and its children are nodes of its tree. */
  lemma ChildInTree(n: Node, c: Node)
    requires c in Children(n)
    ensures c in Nodes(n)
  {
    ChildrenMeasure(n);
    ChildInAll(Children(n), c);
  }

  lemma {:induction false} ChildInAll(ns: seq<Node>, c: Node)
    requires c in ns
    ensures c in NodesAll(ns)
  {
    if ns[0] == c {
      ChildrenMeasure(c);
    } else {
      ChildInAll(ns[1..], c);
    }
  }
}
