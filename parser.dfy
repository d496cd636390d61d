/** `PandasParser` (hammer/logical_plan/pandas_ast/parser.py): reads pandas
    code line by line and records, on a plan, the data nodes, operation
    nodes and edges it finds.

    The plan type the parser builds (`LogicalPlan`) and the methods it
    calls on it are not the `DAG` of hammer/logical_plan/logical_plan.py,
    so the plan is modelled abstractly: the parser appends each call it
    makes to a log, and `has_node` is a predicate over that log. The set
    of chainable method names, the supported file suffixes and Python's
    own `ast.parse` are parameters too. */
module PandasParsing {
  import opened Results
  import opened PyStrings
  import opened PyValues
  import opened PandasAst

  /** A keyword argument as the parser collects it; `key` is None for
      `**value`. */
  datatype KwEntry = KwEntry(key: Option<string>, value: Value)

  /** A call the parser makes on its plan. */
  datatype PlanCall =
    | AddDataNode(name: string, dataType: string, source: Option<string>)
    | AddEdge(from: string, to: string)
      /** `add_operation_node(name, name, args, kwargs, input_nodes=inputs)` */
    | AddCallNode(name: string, args: seq<Value>, kwargs: seq<KwEntry>, inputs: seq<Value>)
      /** `add_operation_node("select", "select", column, input_nodes=source)` */
    | AddSelectNode(column: Value, inputSource: Value)

  /** What the parser takes from outside: the chainable method names, the
      supported file suffixes, the plan's `has_node` on the calls made so
      far, its two path queries (data nodes and operation nodes between a
      start and an end node), and `ast.parse` (None for a syntax
      error). */
  datatype Env = Env(
    dataMethods: set<string>,
    supportedTypes: seq<string>,
    hasNode: (seq<PlanCall>, Value) -> bool,
    dataNodesBetween: (seq<PlanCall>, string, string) -> seq<string>,
    opNodesBetween: (seq<PlanCall>, string, string) -> seq<string>,
    pyParse: string -> Option<Ast>)

  /** A variable and where its value came from. */
  datatype Binding = Binding(variable: string, source: string)

  /** What one step does: its outcome and the plan calls it made (made
      even when the outcome is an exception raised later). */
  datatype Effect<T> = Effect(outcome: Result<T>, calls: seq<PlanCall>)

  // ---------------------------------------------------------------------------
  // Pure helpers

  /** `update_node_name` */
  function UpdateNodeName(name: string): string {
    if StartsWith(name, "read_") then "pd." + name else name
  }

  /** `_get_arg_value`: a literal, a variable name, or None. */
  function ArgValue(n: Ast): (r: Value)
    ensures n.Constant? ==> r == n.literal
    ensures n.Name? ==> r == PyStr(n.id)
    ensures !n.Constant? && !n.Name? ==> r == PyNone
  {
    match n
    case Constant(literal) => literal
    case Name(id) => PyStr(id)
    case _ => PyNone
  }

  function ArgValues(args: seq<Ast>): (r: seq<Value>)
    ensures |r| == |args| && forall i :: 0 <= i < |args| ==> r[i] == ArgValue(args[i])
  {
    seq(|args|, i requires 0 <= i < |args| => ArgValue(args[i]))
  }

  /** The name `_get_func_name` returns: the attribute of `obj.attr`, the
      id of a bare name, None otherwise. */
  function FuncName(func: Ast): (r: Option<string>)
    ensures func.Attribute? ==> r == Some(func.attr)
    ensures func.Name? ==> r == Some(func.id)
    ensures !func.Attribute? && !func.Name? ==> r.None?
  {
    match func
    case Attribute(_, attr) => Some(attr)
    case Name(id) => Some(id)
    case _ => None
  }

  /** The edge `_get_func_name` records first: for a chainable `obj.attr`,
      from `obj` when it is a name and from "select" when it is a
      subscript. */
  function ChainCalls(env: Env, func: Ast): seq<PlanCall> {
    if func.Attribute? && func.attr in env.dataMethods && func.value.Name? then [AddEdge(func.value.id, func.attr)]
    else if func.Attribute? && func.attr in env.dataMethods && func.value.Subscript? then [AddEdge("select", func.attr)]
    else []
  }

  /** The value `_get_source` returns. */
  function SourceValue(n: Ast): (r: Value)
    ensures !n.Constant? ==> r.PyStr? || r.PyNone?
  {
    match n
    case Call(func, _, _) => if FuncName(func).Some? then PyStr(FuncName(func).value) else PyNone
    case Name(id) => PyStr(id)
    case Constant(literal) => literal
    case Subscript(_, _) => PyStr("select")
    case _ => PyNone
  }

  /** The calls `_get_source` makes: only a call goes through
      `_get_func_name`. */
  function SourceCalls(env: Env, n: Ast): seq<PlanCall> {
    if n.Call? then ChainCalls(env, n.func) else []
  }

  /** `{kw.arg: value for kw in keywords}` from `acc` on: a repeated key keeps
      its first position and takes the last value. */
  function PutKw(d: seq<KwEntry>, k: Option<string>, v: Value): (r: seq<KwEntry>)
    ensures LookupKw(r, k) == Some(v)
    ensures forall k' :: k' != k ==> LookupKw(r, k') == LookupKw(d, k')
  {
    if d == [] then [KwEntry(k, v)]
    else if d[0].key == k then [KwEntry(k, v)] + d[1..]
    else [d[0]] + PutKw(d[1..], k, v)
  }

  function LookupKw(d: seq<KwEntry>, k: Option<string>): Option<Value> {
    if d == [] then None else if d[0].key == k then Some(d[0].value) else LookupKw(d[1..], k)
  }

  /** The keyword dict of a call; a child that is not a keyword node has no
      `arg` and raises. */
  function KeywordEntries(acc: seq<KwEntry>, keywords: seq<Ast>): (r: Result<seq<KwEntry>>)
    ensures r.Failure? <==> exists i :: 0 <= i < |keywords| && !keywords[i].Keyword?
    decreases |keywords|
  {
    if keywords == [] then Success(acc)
    else if !keywords[0].Keyword? then Failure(AttributeError("arg"))
    else
      var r := KeywordEntries(PutKw(acc, keywords[0].arg, ArgValue(keywords[0].value)), keywords[1..]);
      assert forall i :: 0 < i < |keywords| ==> keywords[i] == keywords[1..][i - 1];
      r
  }

  /** `[n for n in args if has_node(n)]` */
  function Present(env: Env, log: seq<PlanCall>, args: seq<Value>): (r: seq<Value>)
    ensures forall a :: a in r <==> a in args && env.hasNode(log, a)
    ensures |r| <= |args|
  {
    if args == [] then []
    else (if env.hasNode(log, args[0]) then [args[0]] else []) + Present(env, log, args[1..])
  }

  // ---------------------------------------------------------------------------
  // The visits as effects

  /** `visit_Assign(Assign(targets, value))` */
  function AssignStep(env: Env, targets: seq<Ast>, value: Ast): Effect<Option<Binding>> {
    if |targets| == 0 then Effect(Failure(IndexError), [])
    else if !targets[0].Name? then Effect(Success(None), [])
    else
      var variable := targets[0].id;
      var source := SourceValue(value);
      var pre := SourceCalls(env, value);
      if !Truthy(source) then Effect(Success(None), pre)
      else if !value.Constant? then
        Effect(Success(Some(Binding(variable, UpdateNodeName(source.s)))), pre + [AddDataNode(variable, "memory", None)])
      else if !source.PyStr? then Effect(Failure(AttributeError("endswith")), pre)
      else if EndsWithAny(source.s, env.supportedTypes) then
        Effect(Success(Some(Binding(variable, source.s))), pre + [AddDataNode(variable, "io", Some(source.s))])
      else Effect(Success(Some(Binding(variable, source.s))), pre)
  }

  /** `visit_Call(Call(func, args, keywords))` on a plan that has seen
      `log`. */
  function CallStep(env: Env, log: seq<PlanCall>, func: Ast, args: seq<Ast>, keywords: seq<Ast>): Effect<()> {
    var pre := ChainCalls(env, func);
    match FuncName(func)
    case None => Effect(Failure(AttributeError("startswith")), pre)
    case Some(name) =>
      var values := ArgValues(args);
      match KeywordEntries([], keywords)
      case Failure(e) => Effect(Failure(e), pre)
      case Success(kwargs) =>
        Effect(Success(()), pre + [AddCallNode(UpdateNodeName(name), values, kwargs, Present(env, log + pre, values))])
  }

  /** `visit_Subscript(Subscript(value, slice))` */
  function SubscriptCalls(env: Env, value: Ast, slice: Ast): seq<PlanCall> {
    SourceCalls(env, value) + [AddSelectNode(ArgValue(slice), SourceValue(value))]
  }

  /** The state of `parse_line` between two nodes of the walk. */
  datatype LineState = LineState(outcome: Result<Option<Binding>>, log: seq<PlanCall>)

  /** One node of the walk. An assignment whose visit returns None cannot
      be unpacked into `var_name, source` and raises `TypeError`. */
  function NodeStep(env: Env, st: LineState, n: Ast): LineState {
    match n
    case Assign(targets, value) =>
      var e := AssignStep(env, targets, value);
      var log := st.log + e.calls;
      (match e.outcome
       case Failure(err) => LineState(Failure(err), log)
       case Success(None) => LineState(Failure(TypeError), log)
       case Success(Some(b)) => LineState(Success(Some(b)), log))
    case Call(func, args, keywords) =>
      var e := CallStep(env, st.log, func, args, keywords);
      LineState(if e.outcome.Failure? then Failure(e.outcome.error) else st.outcome, st.log + e.calls)
    case Subscript(value, slice) =>
      LineState(st.outcome, st.log + SubscriptCalls(env, value, slice))
    case _ => st
  }

  /** The walk so far: every node in turn until one raises. */
  function WalkLine(env: Env, log: seq<PlanCall>, nodes: seq<Ast>): LineState
    decreases |nodes|
  {
    if nodes == [] then LineState(Success(None), log)
    else
      var st := WalkLine(env, log, nodes[..|nodes| - 1]);
      if st.outcome.Failure? then st else NodeStep(env, st, nodes[|nodes| - 1])
  }

  /** `parse_line(line)`. A syntax error leaves `var_name` unbound, so the
      return in the handler raises `UnboundLocalError`. */
  function ParseLineSpec(env: Env, log: seq<PlanCall>, line: string): LineState {
    match env.pyParse(line)
    case None => LineState(Failure(UnboundLocalError("var_name")), log)
    case Some(tree) => WalkLine(env, log, Walk(tree))
  }

  /** The state of `parse` between two lines. */
  datatype ParseState = ParseState(outcome: Result<()>, log: seq<PlanCall>)

  /** One line of `parse`: a blank line is skipped; an assignment line adds
      the edge from its source to its variable. */
  function LineStep(env: Env, st: ParseState, line: string): ParseState {
    if Strip(line) == "" then st
    else
      var ls := ParseLineSpec(env, st.log, Strip(line));
      match ls.outcome
      case Failure(e) => ParseState(Failure(e), ls.log)
      case Success(None) => ParseState(st.outcome, ls.log)
      case Success(Some(b)) =>
        ParseState(st.outcome, if b.variable != "" then ls.log + [AddEdge(b.source, b.variable)] else ls.log)
  }

  function ParseLines(env: Env, log: seq<PlanCall>, lines: seq<string>): ParseState
    decreases |lines|
  {
    if lines == [] then ParseState(Success(()), log)
    else
      var st := ParseLines(env, log, lines[..|lines| - 1]);
      if st.outcome.Failure? then st else LineStep(env, st, lines[|lines| - 1])
  }

  /** The lines `parse` reads. */
  function CodeLines(code: string): seq<string> {
    Split(Strip(code), '\n')
  }

  // ---------------------------------------------------------------------------
  // The parser object

  /** The `start_node_name` argument: one name or a list of names. */
  datatype StartArg = OneStart(name: string) | StartList(names: seq<string>)

  class PandasParser {
    const env: Env
    const startNodes: seq<string>
    const endNode: string
    var log: seq<PlanCall>

    /** `PandasParser(start_node_name, end_node_name)`: a single start name
        becomes a one-element list. */
    constructor (env: Env, start: StartArg, endNode: string)
      ensures this.env == env && this.endNode == endNode && log == []
      ensures start.OneStart? ==> startNodes == [start.name]
      ensures start.StartList? ==> startNodes == start.names
    {
      this.env := env;
      this.startNodes := if start.OneStart? then [start.name] else start.names;
      this.endNode := endNode;
      this.log := [];
    }

    /** `_get_func_name(func)` */
    method GetFuncName(func: Ast) returns (r: Option<string>)
      modifies this
      ensures r == FuncName(func) && log == old(log) + ChainCalls(env, func)
    {
      if func.Attribute? {
        if func.attr in env.dataMethods && func.value.Name? {
          log := log + [AddEdge(func.value.id, func.attr)];
        } else if func.attr in env.dataMethods && func.value.Subscript? {
          log := log + [AddEdge("select", func.attr)];
        }
        return Some(func.attr);
      } else if func.Name? {
        return Some(func.id);
      }
      return None;
    }

    /** `_get_source(n)` */
    method GetSource(n: Ast) returns (r: Value)
      modifies this
      ensures r == SourceValue(n) && log == old(log) + SourceCalls(env, n)
    {
      match n
      case Call(func, _, _) =>
        var name := GetFuncName(func);
        r := if name.Some? then PyStr(name.value) else PyNone;
      case Name(id) => r := PyStr(id);
      case Constant(literal) => r := literal;
      case Subscript(_, _) => r := PyStr("select");
      case _ => r := PyNone;
    }

    /** `visit_Assign` */
    method VisitAssign(targets: seq<Ast>, value: Ast) returns (r: Result<Option<Binding>>)
      modifies this
      ensures r == AssignStep(env, targets, value).outcome
      ensures log == old(log) + AssignStep(env, targets, value).calls
    {
      if |targets| == 0 {
        return Failure(IndexError);
      }
      if !targets[0].Name? {
        return Success(None);
      }
      var variable := targets[0].id;
      var source := GetSource(value);
      if !Truthy(source) {
        return Success(None);
      }
      if !value.Constant? {
        log := log + [AddDataNode(variable, "memory", None)];
        return Success(Some(Binding(variable, UpdateNodeName(source.s))));
      }
      if !source.PyStr? {
        return Failure(AttributeError("endswith"));
      }
      if EndsWithAny(source.s, env.supportedTypes) {
        log := log + [AddDataNode(variable, "io", Some(source.s))];
      }
      return Success(Some(Binding(variable, source.s)));
    }

    /** `visit_Call` */
    method VisitCall(func: Ast, args: seq<Ast>, keywords: seq<Ast>) returns (r: Result<()>)
      modifies this
      ensures r == CallStep(env, old(log), func, args, keywords).outcome
      ensures log == old(log) + CallStep(env, old(log), func, args, keywords).calls
    {
      var name := GetFuncName(func);
      if name.None? {
        return Failure(AttributeError("startswith"));
      }
      var funcName := UpdateNodeName(name.value);
      var values := ArgValues(args);
      var kwargs := KeywordEntries([], keywords);
      if kwargs.Failure? {
        return Failure(kwargs.error);
      }
      var inputs := Present(env, log, values);
      log := log + [AddCallNode(funcName, values, kwargs.value, inputs)];
      return Success(());
    }

    /** `visit_Subscript` */
    method VisitSubscript(value: Ast, slice: Ast)
      modifies this
      ensures log == old(log) + SubscriptCalls(env, value, slice)
    {
      var column := ArgValue(slice);
      var source := GetSource(value);
      log := log + [AddSelectNode(column, source)];
    }

    /** The dispatch in the loop of `parse_line`: one node of the walk,
        with the binding found so far. */
    method VisitNode(node: Ast, binding: Option<Binding>) returns (r: Result<Option<Binding>>)
      modifies this
      ensures NodeStep(env, LineState(Success(binding), old(log)), node) == LineState(r, log)
    {
      match node
      case Assign(targets, value) =>
        var b := VisitAssign(targets, value);
        if b.Failure? {
          r := Failure(b.error);
        } else if b.value.None? {
          r := Failure(TypeError);
        } else {
          r := b;
        }
      case Call(func, args, keywords) =>
        var c := VisitCall(func, args, keywords);
        r := if c.Failure? then Failure(c.error) else Success(binding);
      case Subscript(value, slice) =>
        VisitSubscript(value, slice);
        r := Success(binding);
      case _ =>
        r := Success(binding);
    }

    /** `parse_line(line)`: visits every node of the parsed line in
        `ast.walk` order; the last assignment gives the result. */
    method ParseLine(line: string) returns (r: Result<Option<Binding>>)
      modifies this
      ensures r == ParseLineSpec(env, old(log), line).outcome
      ensures log == ParseLineSpec(env, old(log), line).log
    {
      var tree := env.pyParse(line);
      if tree.None? {
        return Failure(UnboundLocalError("var_name"));
      }
      var nodes := Walk(tree.value);
      ghost var log0 := log;
      var binding: Option<Binding> := None;
      var i := 0;
      while i < |nodes|
        invariant 0 <= i <= |nodes|
        invariant WalkLine(env, log0, nodes[..i]) == LineState(Success(binding), log)
      {
        var step := VisitNode(nodes[i], binding);
        WalkLineNext(env, log0, nodes, i);
        if step.Failure? {
          WalkLineStops(env, log0, nodes, i + 1);
          return step;
        }
        binding := step.value;
        i := i + 1;
      }
      assert nodes[..i] == nodes;
      return Success(binding);
    }

    /** The body of the loop of `parse`: a blank line is skipped; otherwise
        the stripped line is parsed and, if it bound a variable, an edge
        goes from the source to the variable. */
    method ParseOneLine(line: string) returns (r: Result<()>)
      modifies this
      ensures LineStep(env, ParseState(Success(()), old(log)), line) == ParseState(r, log)
    {
      if Strip(line) == "" {
        return Success(());
      }
      var b := ParseLine(Strip(line));
      if b.Failure? {
        return Failure(b.error);
      }
      if b.value.Some? && b.value.value.variable != "" {
        log := log + [AddEdge(b.value.value.source, b.value.value.variable)];
      }
      return Success(());
    }

    /** The loop of `parse` over the lines of the code. */
    method ParseAll(lines: seq<string>) returns (r: Result<()>)
      modifies this
      ensures r == ParseLines(env, old(log), lines).outcome
      ensures log == ParseLines(env, old(log), lines).log
    {
      ghost var log0 := log;
      var i := 0;
      while i < |lines|
        invariant 0 <= i <= |lines|
        invariant ParseLines(env, log0, lines[..i]) == ParseState(Success(()), log)
      {
        var step := ParseOneLine(lines[i]);
        ParseLinesNext(env, log0, lines, i);
        if step.Failure? {
          ParseLinesStops(env, log0, lines, i + 1);
          return step;
        }
        i := i + 1;
      }
      assert lines[..i] == lines;
      return Success(());
    }

    /** `parse(code)` */
    method Parse(code: string) returns (r: Result<()>)
      modifies this
      ensures r == ParseLines(env, old(log), CodeLines(code)).outcome
      ensures log == ParseLines(env, old(log), CodeLines(code)).log
    {
      r := ParseAll(CodeLines(code));
    }

    /** `get_main_nodes(node_type, end_node_name, prefix)`: the nodes on the
        plan's paths from any start node to the end node, of the asked
        kind, keeping only names with the prefix when one is given. The
        result is built with `set`, so it has no order. */
    function GetMainNodes(nodeType: string, endName: Option<string>, prefix: Option<string>): (r: Result<set<string>>)
      reads this
      ensures r.Failure? <==> nodeType != "data" && nodeType != "op"
      ensures r.Failure? ==> r.error == ValueError("")
      ensures r.Success? ==> forall n :: n in r.value <==>
        (exists s :: s in startNodes && n in PathQuery(env, nodeType)(log, s, EndName(endName, endNode)))
        && (prefix.Some? && prefix.value != "" ==> StartsWith(n, prefix.value))
    {
      if nodeType != "data" && nodeType != "op" then Failure(ValueError(""))
      else
        var nodes := PathNodes(startNodes, PathQuery(env, nodeType), log, EndName(endName, endNode));
        Success(set n | n in nodes && (prefix.Some? && prefix.value != "" ==> StartsWith(n, prefix.value)))
    }
  }

  /** The nested comprehension of `get_main_nodes`: the query's nodes for
      each start node in turn. */
  function PathNodes(starts: seq<string>, query: (seq<PlanCall>, string, string) -> seq<string>,
                     log: seq<PlanCall>, end: string): (r: seq<string>)
    ensures forall n :: n in r <==> exists s :: s in starts && n in query(log, s, end)
  {
    if starts == [] then []
    else
      assert forall s :: s in starts <==> s == starts[0] || s in starts[1..];
      query(log, starts[0], end) + PathNodes(starts[1..], query, log, end)
  }

  /** The plan query `get_main_nodes` uses for a node kind. */
  function PathQuery(env: Env, nodeType: string): (seq<PlanCall>, string, string) -> seq<string> {
    if nodeType == "data" then env.dataNodesBetween else env.opNodesBetween
  }

  /** `end_node_name or self.end_node_name` */
  function EndName(given: Option<string>, default: string): (r: string)
    ensures given.Some? && given.value != "" ==> r == given.value
    ensures given.None? || given.value == "" ==> r == default
  {
    if given.Some? && given.value != "" then given.value else default
  }

  /** Once a step of the walk raised, the rest of the walk is skipped. */
  lemma {:induction false} WalkLineStops(env: Env, log: seq<PlanCall>, nodes: seq<Ast>, k: nat)
    requires k <= |nodes| && WalkLine(env, log, nodes[..k]).outcome.Failure?
    ensures WalkLine(env, log, nodes) == WalkLine(env, log, nodes[..k])
    decreases |nodes|
  {
    if k < |nodes| {
      assert nodes[..|nodes| - 1][..k] == nodes[..k];
      WalkLineStops(env, log, nodes[..|nodes| - 1], k);
    } else {
      assert nodes[..k] == nodes;
    }
  }

  lemma WalkLineSnoc(env: Env, log: seq<PlanCall>, nodes: seq<Ast>, n: Ast)
    ensures WalkLine(env, log, nodes + [n])
         == if WalkLine(env, log, nodes).outcome.Failure? then WalkLine(env, log, nodes) else NodeStep(env, WalkLine(env, log, nodes), n)
  {
    assert (nodes + [n])[..|nodes|] == nodes;
  }

  lemma WalkLineNext(env: Env, log: seq<PlanCall>, nodes: seq<Ast>, i: nat)
    requires i < |nodes| && WalkLine(env, log, nodes[..i]).outcome.Success?
    ensures WalkLine(env, log, nodes[..i + 1]) == NodeStep(env, WalkLine(env, log, nodes[..i]), nodes[i])
  {
    assert nodes[..i + 1][..i] == nodes[..i];
  }

  lemma ParseLinesNext(env: Env, log: seq<PlanCall>, lines: seq<string>, i: nat)
    requires i < |lines| && ParseLines(env, log, lines[..i]).outcome.Success?
    ensures ParseLines(env, log, lines[..i + 1]) == LineStep(env, ParseLines(env, log, lines[..i]), lines[i])
  {
    assert lines[..i + 1][..i] == lines[..i];
  }

  lemma {:induction false} ParseLinesStops(env: Env, log: seq<PlanCall>, lines: seq<string>, k: nat)
    requires k <= |lines| && ParseLines(env, log, lines[..k]).outcome.Failure?
    ensures ParseLines(env, log, lines) == ParseLines(env, log, lines[..k])
    decreases |lines|
  {
    if k < |lines| {
      assert lines[..|lines| - 1][..k] == lines[..k];
      ParseLinesStops(env, log, lines[..|lines| - 1], k);
    } else {
      assert lines[..k] == lines;
    }
  }

  // ---------------------------------------------------------------------------
  // Properties

  /** `update_node_name` prefixes "pd." exactly to names starting with
      "read_", and leaves every other name alone. */
  lemma UpdateNodeNameIff(name: string)
    ensures UpdateNodeName(name) == "pd." + name <==> StartsWith(name, "read_")
    ensures !StartsWith(name, "read_") ==> UpdateNodeName(name) == name
  {
    if !StartsWith(name, "read_") {
      assert |"pd." + name| != |name|;
    }
  }

  /** Renaming twice is renaming once: "pd.read_x" does not start with
      "read_". */
  lemma UpdateNodeNameIdempotent(name: string)
    ensures UpdateNodeName(UpdateNodeName(name)) == UpdateNodeName(name)
  {
    if StartsWith(name, "read_") {
      assert ("pd." + name)[0] == 'p';
    }
  }

  /** `_get_func_name` records an edge only for a chainable attribute on a
      name (from the name) or on a subscript (from "select"). */
  lemma ChainEdgeCases(env: Env, func: Ast)
    ensures |ChainCalls(env, func)| <= 1
    ensures ChainCalls(env, func) != [] <==>
      func.Attribute? && func.attr in env.dataMethods && (func.value.Name? || func.value.Subscript?)
    ensures func.Attribute? && func.attr in env.dataMethods && func.value.Name? ==>
      ChainCalls(env, func) == [AddEdge(func.value.id, func.attr)]
    ensures func.Attribute? && func.attr in env.dataMethods && func.value.Subscript? ==>
      ChainCalls(env, func) == [AddEdge("select", func.attr)]
  {
  }

  /** The provenance rule of `_get_source`. */
  lemma SourceCases(env: Env, n: Ast)
    ensures n.Call? ==> SourceValue(n) == (if FuncName(n.func).Some? then PyStr(FuncName(n.func).value) else PyNone)
    ensures n.Name? ==> SourceValue(n) == PyStr(n.id)
    ensures n.Constant? ==> SourceValue(n) == n.literal
    ensures n.Subscript? ==> SourceValue(n) == PyStr("select")
    ensures !n.Call? && !n.Name? && !n.Constant? && !n.Subscript? ==> SourceValue(n) == PyNone
    ensures !n.Call? ==> SourceCalls(env, n) == []
  {
  }

  /** An assignment from a call, a name or a subscript adds a "memory"
      data node for the variable, after any edge the source records. */
  lemma AssignFromExpression(env: Env, variable: string, value: Ast)
    requires !value.Constant? && Truthy(SourceValue(value))
    ensures AssignStep(env, [Name(variable)], value)
         == Effect(Success(Some(Binding(variable, UpdateNodeName(SourceValue(value).s)))),
                   SourceCalls(env, value) + [AddDataNode(variable, "memory", None)])
  {
  }

  /** An assignment of a string with a supported suffix adds an "io" node
      with that source; any other non-empty string adds nothing but is
      still returned. */
  lemma AssignFromString(env: Env, variable: string, text: string)
    requires text != ""
    ensures EndsWithAny(text, env.supportedTypes) ==>
      AssignStep(env, [Name(variable)], Constant(PyStr(text)))
      == Effect(Success(Some(Binding(variable, text))), [AddDataNode(variable, "io", Some(text))])
    ensures !EndsWithAny(text, env.supportedTypes) ==>
      AssignStep(env, [Name(variable)], Constant(PyStr(text))) == Effect(Success(Some(Binding(variable, text))), [])
  {
  }

  /** A truthy literal that is not a string has no `endswith`. */
  lemma AssignFromOtherLiteral(env: Env, variable: string, literal: Value)
    requires Truthy(literal) && !literal.PyStr?
    ensures AssignStep(env, [Name(variable)], Constant(literal)) == Effect(Failure(AttributeError("endswith")), [])
  {
  }

  /** An assignment without a source (a falsy literal, an attribute, a call
      of a call, ...) or to something that is not a plain name returns
      None, which `parse_line` cannot unpack. */
  lemma AssignWithoutBindingRaises(env: Env, st: LineState, targets: seq<Ast>, value: Ast)
    requires |targets| > 0 && (!targets[0].Name? || !Truthy(SourceValue(value)))
    ensures NodeStep(env, st, Assign(targets, value)).outcome == Failure(TypeError)
    ensures NodeStep(env, st, Assign(targets, value)).log
         == st.log + (if targets[0].Name? then SourceCalls(env, value) else [])
  {
  }

  /** The inputs of a call node are exactly its argument values that are
      plan nodes once the chain edge is recorded, in argument order. */
  lemma CallInputs(env: Env, log: seq<PlanCall>, func: Ast, args: seq<Ast>)
    requires FuncName(func).Some?
    ensures var e := CallStep(env, log, func, args, []);
      var pre := ChainCalls(env, func);
      && e.outcome.Success?
      && e.calls == pre + [AddCallNode(UpdateNodeName(FuncName(func).value), ArgValues(args), [], Present(env, log + pre, ArgValues(args)))]
      && forall a :: a in e.calls[|e.calls| - 1].inputs <==> a in ArgValues(args) && env.hasNode(log + pre, a)
  {
  }

  /** A call whose callee is neither a name nor an attribute has no name,
      and renaming it raises. */
  lemma CallWithoutName(env: Env, log: seq<PlanCall>, func: Ast, args: seq<Ast>, keywords: seq<Ast>)
    requires !func.Attribute? && !func.Name?
    ensures CallStep(env, log, func, args, keywords) == Effect(Failure(AttributeError("startswith")), [])
  {
  }

  /** The parser only appends to the plan: every step keeps the calls made
      before it. */
  lemma NodeStepAppends(env: Env, st: LineState, n: Ast)
    ensures st.log <= NodeStep(env, st, n).log
  {
  }

  lemma {:induction false} WalkLineAppends(env: Env, log: seq<PlanCall>, nodes: seq<Ast>)
    ensures log <= WalkLine(env, log, nodes).log
    decreases |nodes|
  {
    if nodes != [] {
      WalkLineAppends(env, log, nodes[..|nodes| - 1]);
      var st := WalkLine(env, log, nodes[..|nodes| - 1]);
      if !st.outcome.Failure? {
        NodeStepAppends(env, st, nodes[|nodes| - 1]);
      }
    }
  }

  lemma {:induction false} ParseLinesAppends(env: Env, log: seq<PlanCall>, lines: seq<string>)
    ensures log <= ParseLines(env, log, lines).log
    decreases |lines|
  {
    if lines != [] {
      ParseLinesAppends(env, log, lines[..|lines| - 1]);
      var st := ParseLines(env, log, lines[..|lines| - 1]);
      if !st.outcome.Failure? {
        LineStepAppends(env, st, lines[|lines| - 1]);
      }
    }
  }

  lemma LineStepAppends(env: Env, st: ParseState, line: string)
    ensures st.log <= LineStep(env, st, line).log
  {
    if Strip(line) != "" {
      match env.pyParse(Strip(line))
      case None =>
      case Some(tree) => WalkLineAppends(env, st.log, Walk(tree));
    }
  }

  /** Blank lines are skipped: code made only of blank lines changes
      nothing. */
  lemma {:induction false} BlankLinesSkipped(env: Env, log: seq<PlanCall>, lines: seq<string>)
    requires forall i :: 0 <= i < |lines| ==> Strip(lines[i]) == ""
    ensures ParseLines(env, log, lines) == ParseState(Success(()), log)
    decreases |lines|
  {
    if lines != [] {
      BlankLinesSkipped(env, log, lines[..|lines| - 1]);
    }
  }

  /** A line that does not parse stops `parse` with `UnboundLocalError`
      instead of being skipped, and records nothing. */
  lemma SyntaxErrorRaises(env: Env, st: ParseState, line: string)
    requires Strip(line) != "" && env.pyParse(Strip(line)).None?
    ensures LineStep(env, st, line) == ParseState(Failure(UnboundLocalError("var_name")), st.log)
  {
  }

  /** An assignment line that binds a variable ends with the edge from its
      source to the variable. */
  lemma AssignmentLineAddsEdge(env: Env, st: ParseState, line: string, b: Binding)
    requires Strip(line) != "" && ParseLineSpec(env, st.log, Strip(line)).outcome == Success(Some(b))
    requires b.variable != ""
    ensures LineStep(env, st, line) == ParseState(st.outcome, ParseLineSpec(env, st.log, Strip(line)).log + [AddEdge(b.source, b.variable)])
  {
  }

  /** The walk of `y = df.m()`, with `m` chainable, records in order: the
      chain edge of the assignment's source, the memory node for `y`, the
      chain edge again from the call visit, and the call node; it binds `y`
      to the plan name of `m`. */
  lemma WalkChainedAssignmentCalls(env: Env, log: seq<PlanCall>, target: string, obj: string, methodName: string)
    requires methodName in env.dataMethods && methodName != ""
    ensures var attr := Attribute(Name(obj), methodName);
      var call := Call(attr, [], []);
      var assign := Assign([Name(target)], call);
      WalkLine(env, log, [Module([assign]), assign, Name(target), call, attr, Name(obj)])
      == LineState(Success(Some(Binding(target, UpdateNodeName(methodName)))),
                   log + [AddEdge(obj, methodName), AddDataNode(target, "memory", None)]
                       + [AddEdge(obj, methodName), AddCallNode(UpdateNodeName(methodName), [], [], [])])
  {
    var attr := Attribute(Name(obj), methodName);
    var call := Call(attr, [], []);
    var assign := Assign([Name(target)], call);
    var edge := AddEdge(obj, methodName);
    var b := Binding(target, UpdateNodeName(methodName));
    var s1 := LineState(Success(None), log);
    var s2 := LineState(Success(Some(b)), log + [edge, AddDataNode(target, "memory", None)]);
    var s4 := LineState(Success(Some(b)), s2.log + [edge, AddCallNode(UpdateNodeName(methodName), [], [], [])]);
    var p1 := [] + [Module([assign])];
    var p2 := p1 + [assign];
    var p3 := p2 + [Name(target)];
    var p4 := p3 + [call];
    var p5 := p4 + [attr];
    var p6 := p5 + [Name(obj)];
    assert WalkLine(env, log, p1) == s1 by {
      WalkLineSnoc(env, log, [], Module([assign]));
    }
    assert WalkLine(env, log, p2) == s2 by {
      WalkLineSnoc(env, log, p1, assign);
      AssignVisit(env, log, target, obj, methodName);
    }
    assert WalkLine(env, log, p3) == s2 by {
      WalkLineSnoc(env, log, p2, Name(target));
    }
    assert WalkLine(env, log, p4) == s4 by {
      WalkLineSnoc(env, log, p3, call);
      CallVisit(env, s2, obj, methodName);
    }
    assert WalkLine(env, log, p5) == s4 by {
      WalkLineSnoc(env, log, p4, attr);
    }
    WalkLineSnoc(env, log, p5, Name(obj));
    assert p6 == [Module([assign]), assign, Name(target), call, attr, Name(obj)];
  }

  /** The visit of `y = df.m()` with `m` chainable. */
  lemma AssignVisit(env: Env, log: seq<PlanCall>, target: string, obj: string, methodName: string)
    requires methodName in env.dataMethods && methodName != ""
    ensures NodeStep(env, LineState(Success(None), log), Assign([Name(target)], Call(Attribute(Name(obj), methodName), [], [])))
         == LineState(Success(Some(Binding(target, UpdateNodeName(methodName)))),
                      log + [AddEdge(obj, methodName), AddDataNode(target, "memory", None)])
  {
    var value := Call(Attribute(Name(obj), methodName), [], []);
    assert SourceCalls(env, value) == [AddEdge(obj, methodName)];
    assert [AddEdge(obj, methodName)] + [AddDataNode(target, "memory", None)]
        == [AddEdge(obj, methodName), AddDataNode(target, "memory", None)];
  }

  /** The visit of the call `df.m()` with `m` chainable and no arguments. */
  lemma CallVisit(env: Env, st: LineState, obj: string, methodName: string)
    requires methodName in env.dataMethods
    ensures NodeStep(env, st, Call(Attribute(Name(obj), methodName), [], []))
         == LineState(st.outcome, st.log + [AddEdge(obj, methodName), AddCallNode(UpdateNodeName(methodName), [], [], [])])
  {
    var edge := AddEdge(obj, methodName);
    assert ChainCalls(env, Attribute(Name(obj), methodName)) == [edge];
    assert KeywordEntries([], []) == Success([]);
    assert Present(env, st.log + [edge], []) == [];
    assert [edge] + [AddCallNode(UpdateNodeName(methodName), [], [], [])]
        == [edge, AddCallNode(UpdateNodeName(methodName), [], [], [])];
  }

  lemma ChainedAssignmentSpec(env: Env, log: seq<PlanCall>, line: string, target: string, obj: string, methodName: string)
    requires methodName in env.dataMethods && methodName != ""
    requires env.pyParse(line) == Some(Module([Assign([Name(target)], Call(Attribute(Name(obj), methodName), [], []))]))
    ensures ParseLineSpec(env, log, line)
         == LineState(Success(Some(Binding(target, UpdateNodeName(methodName)))),
                      log + [AddEdge(obj, methodName), AddDataNode(target, "memory", None)]
                          + [AddEdge(obj, methodName), AddCallNode(UpdateNodeName(methodName), [], [], [])])
  {
    WalkAssignedCall(target, obj, methodName);
    WalkChainedAssignmentCalls(env, log, target, obj, methodName);
  }

  /** A line that parses as `y = df.m()`, with `m` chainable: the edge
      df -> m is recorded twice (once as the source of the assignment, once
      by the call visit), each time before the node it leads to; `parse`
      then adds the edge from the plan name of `m` to y. */
  lemma ChainedAssignmentLine(env: Env, log: seq<PlanCall>, line: string, target: string, obj: string, methodName: string)
    requires methodName in env.dataMethods && methodName != "" && target != ""
    requires Strip(line) != ""
    requires env.pyParse(Strip(line)) == Some(Module([Assign([Name(target)], Call(Attribute(Name(obj), methodName), [], []))]))
    ensures ParseLines(env, log, [line])
         == ParseState(Success(()), log + [AddEdge(obj, methodName), AddDataNode(target, "memory", None), AddEdge(obj, methodName),
                                            AddCallNode(UpdateNodeName(methodName), [], [], []), AddEdge(UpdateNodeName(methodName), target)])
  {
    var b := Binding(target, UpdateNodeName(methodName));
    ChainedAssignmentSpec(env, log, Strip(line), target, obj, methodName);
    AssignmentLineAddsEdge(env, ParseState(Success(()), log), line, b);
    ParseLinesNext(env, log, [line], 0);
    assert [line][..1] == [line];
    assert [line][..0] == [];
  }
}
