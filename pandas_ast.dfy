/** The fragment of Python's `ast` module that the pandas parser
    (hammer/logical_plan/pandas_ast/parser.py) inspects, with
    `ast.iter_child_nodes` and the breadth-first `ast.walk`. */
module PandasAst {
  import opened Results
  import opened PyValues

  /** An AST node. Expression contexts (`Load`, `Store`) are left out: no
      visit looks at them and they have no children. */
  datatype Ast =
    | Module(body: seq<Ast>)
    | Assign(targets: seq<Ast>, value: Ast)
      /** An expression statement. */
    | ExprStmt(value: Ast)
    | Name(id: string)
    | Constant(literal: Value)
    | Attribute(value: Ast, attr: string)
    | Call(func: Ast, args: seq<Ast>, keywords: seq<Ast>)
      /** `arg=value` in a call; `arg` is None for `**value`. */
    | Keyword(arg: Option<string>, value: Ast)
    | Subscript(value: Ast, slice: Ast)
      /** Any other node, with its children in field order. */
    | Other(children: seq<Ast>)

  function Size(n: Ast): nat
    decreases n, 1
  {
    match n
    case Module(body) => 1 + SizeAll(body)
    case Assign(targets, value) => 1 + SizeAll(targets) + Size(value)
    case ExprStmt(value) => 1 + Size(value)
    case Name(_) => 1
    case Constant(_) => 1
    case Attribute(value, _) => 1 + Size(value)
    case Call(func, args, keywords) => 1 + Size(func) + SizeAll(args) + SizeAll(keywords)
    case Keyword(_, value) => 1 + Size(value)
    case Subscript(value, slice) => 1 + Size(value) + Size(slice)
    case Other(children) => 1 + SizeAll(children)
  }

  function SizeAll(ns: seq<Ast>): nat
    decreases ns, 0
  {
    if ns == [] then 0 else Size(ns[0]) + SizeAll(ns[1..])
  }

  lemma {:induction false} SizeAllAppend(a: seq<Ast>, b: seq<Ast>)
    ensures SizeAll(a + b) == SizeAll(a) + SizeAll(b)
    decreases |a|
  {
    if a != [] {
      assert (a + b)[0] == a[0] && (a + b)[1..] == a[1..] + b;
      SizeAllAppend(a[1..], b);
    } else {
      assert a + b == b;
    }
  }

  /** `ast.iter_child_nodes(n)`: the direct children in field order. */
  function Children(n: Ast): seq<Ast> {
    match n
    case Module(body) => body
    case Assign(targets, value) => targets + [value]
    case ExprStmt(value) => [value]
    case Name(_) => []
    case Constant(_) => []
    case Attribute(value, _) => [value]
    case Call(func, args, keywords) => [func] + args + keywords
    case Keyword(_, value) => [value]
    case Subscript(value, slice) => [value, slice]
    case Other(children) => children
  }

  /** A node is one larger than its children together. */
  lemma ChildrenSize(n: Ast)
    ensures SizeAll(Children(n)) == Size(n) - 1
  {
    match n
    case Assign(targets, value) =>
      SizeAllAppend(targets, [value]);
    case Call(func, args, keywords) =>
      SizeAllAppend([func] + args, keywords);
      SizeAllAppend([func], args);
    case Subscript(value, slice) =>
      assert [value, slice] == [value] + [slice];
      SizeAllAppend([value], [slice]);
    case _ =>
  }

  /** The breadth-first order of `ast.walk` for a queue of pending nodes. */
  function WalkQueue(queue: seq<Ast>): seq<Ast>
    decreases SizeAll(queue)
  {
    if queue == [] then []
    else
      SizeAllAppend(queue[1..], Children(queue[0]));
      ChildrenSize(queue[0]);
      [queue[0]] + WalkQueue(queue[1..] + Children(queue[0]))
  }

  /** `list(ast.walk(root))` */
  function Walk(root: Ast): seq<Ast> {
    WalkQueue([root])
  }

  /** The walk yields every node exactly as many times as it occurs: its
      length is the number of nodes. */
  lemma {:induction false} WalkQueueLength(queue: seq<Ast>)
    ensures |WalkQueue(queue)| == SizeAll(queue)
    decreases SizeAll(queue)
  {
    if queue != [] {
      SizeAllAppend(queue[1..], Children(queue[0]));
      ChildrenSize(queue[0]);
      WalkQueueLength(queue[1..] + Children(queue[0]));
    }
  }

  /** The pending nodes come out first, in queue order. */
  lemma {:induction false} WalkQueuePrefix(queue: seq<Ast>)
    ensures |queue| <= |WalkQueue(queue)| && WalkQueue(queue)[..|queue|] == queue
    decreases SizeAll(queue)
  {
    if queue != [] {
      var next := queue[1..] + Children(queue[0]);
      SizeAllAppend(queue[1..], Children(queue[0]));
      ChildrenSize(queue[0]);
      WalkQueuePrefix(next);
      assert WalkQueue(next)[..|queue| - 1] == queue[1..] by {
        assert WalkQueue(next)[..|next|][..|queue| - 1] == next[..|queue| - 1];
      }
      assert WalkQueue(queue)[..|queue|] == [queue[0]] + WalkQueue(next)[..|queue| - 1];
    }
  }

  /** The walk starts at the root, then the root's children in order. */
  lemma WalkStartsWithChildren(root: Ast)
    ensures |Walk(root)| == Size(root)
    ensures 1 + |Children(root)| <= |Walk(root)| && Walk(root)[..1 + |Children(root)|] == [root] + Children(root)
  {
    WalkQueueLength([root]);
    var kids := Children(root);
    var w := WalkQueue(kids);
    assert Walk(root) == [root] + w by {
      assert [root][1..] + kids == kids;
    }
    WalkQueuePrefix(kids);
    assert ([root] + w)[..1 + |kids|] == [root] + w[..|kids|];
  }

  /** The statements of a module come right after the module itself, in
      order: one-statement-per-line code is visited statement by
      statement before any sub-expression. */
  lemma WalkModule(body: seq<Ast>)
    ensures 1 + |body| <= |Walk(Module(body))| && Walk(Module(body))[..1 + |body|] == [Module(body)] + body
  {
    WalkStartsWithChildren(Module(body));
  }

  lemma WalkQueueStep(queue: seq<Ast>)
    requires queue != []
    ensures WalkQueue(queue) == [queue[0]] + WalkQueue(queue[1..] + Children(queue[0]))
  {
  }

  /** The walk of `y = df.m()`: statement, assignment, target, call,
      callee, object. */
  lemma WalkAssignedCall(target: string, obj: string, methodName: string)
    ensures var attr := Attribute(Name(obj), methodName);
      var call := Call(attr, [], []);
      var assign := Assign([Name(target)], call);
      Walk(Module([assign])) == [Module([assign]), assign, Name(target), call, attr, Name(obj)]
  {
    var df := Name(obj);
    var attr := Attribute(df, methodName);
    var call := Call(attr, [], []);
    var assign := Assign([Name(target)], call);
    var tree := Module([assign]);
    var y := Name(target);
    WalkCallChain(obj, methodName);
    assert WalkQueue([y, call]) == [y, call, attr, df] by {
      WalkQueueStep([y, call]);
      assert [y, call][1..] + Children(y) == [call];
    }
    assert WalkQueue([assign]) == [assign, y, call, attr, df] by {
      WalkQueueStep([assign]);
      assert [assign][1..] + Children(assign) == [y, call];
    }
    WalkQueueStep([tree]);
    assert [tree][1..] + Children(tree) == [assign];
  }

  /** The walk of the call `df.m()`: call, callee, object. */
  lemma WalkCallChain(obj: string, methodName: string)
    ensures var attr := Attribute(Name(obj), methodName);
      WalkQueue([Call(attr, [], [])]) == [Call(attr, [], []), attr, Name(obj)]
  {
    var df := Name(obj);
    var attr := Attribute(df, methodName);
    var call := Call(attr, [], []);
    assert WalkQueue([df]) == [df] by {
      WalkQueueStep([df]);
      assert [df][1..] + Children(df) == [];
    }
    assert WalkQueue([attr]) == [attr, df] by {
      WalkQueueStep([attr]);
      assert [attr][1..] + Children(attr) == [df];
    }
    WalkQueueStep([call]);
    assert [call][1..] + Children(call) == [attr];
  }
}
