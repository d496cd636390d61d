/** The plan graph (hammer/logical_plan/logical_plan.py): a directed graph
    keyed by node name, with the semantics of a networkx `DiGraph`.

    A node carries an attribute dict; adding an edge creates any missing
    endpoint with no attributes; adding a node again updates its
    attributes; edges form a set. Nodes keep their insertion order, and
    each node keeps its successors in insertion order, which is the order
    networkx lists them in. */
module LogicalPlan {
  import opened Results
  import opened PyStrings
  import opened PyValues
  import opened Nodes
  import opened BuildOps

  /** The `obj` attribute: a `Node` for data nodes, the operation object
      `create_ops` made for operation nodes. */
  datatype Payload = NodePayload(node: Node) | OpPayload(op: Instantiation)

  /** A node's attribute dict: empty for a node created by an edge,
      otherwise `type` and `obj`. */
  datatype NodeAttrs = NoAttrs | Attrs(nodeType: string, obj: Payload)

  datatype Graph = Graph(nodeOrder: seq<string>, attrs: map<string, NodeAttrs>, succ: map<string, seq<string>>)

  predicate NoDuplicates(s: seq<string>) {
    forall i, j :: 0 <= i < j < |s| ==> s[i] != s[j]
  }

  predicate WellFormed(g: Graph) {
    && NoDuplicates(g.nodeOrder)
    && (forall n :: n in g.attrs ==> n in g.nodeOrder)
    && (forall i :: 0 <= i < |g.nodeOrder| ==> g.nodeOrder[i] in g.attrs)
    && g.succ.Keys == g.attrs.Keys
    && (forall u :: u in g.succ ==> NoDuplicates(g.succ[u]))
    && (forall u, v :: u in g.succ && v in g.succ[u] ==> v in g.attrs)
  }

  const EmptyGraph := Graph([], map[], map[])

  /** `has_node(n)` */
  function HasNode(g: Graph, n: string): bool {
    n in g.attrs
  }

  /** `graph.has_edge(u, v)` */
  predicate HasEdge(g: Graph, u: string, v: string) {
    u in g.succ && v in g.succ[u]
  }

  /** `graph.add_node(n, **attrs)` with both attributes given. */
  function AddNode(g: Graph, n: string, a: NodeAttrs): Graph {
    if n in g.attrs then g.(attrs := g.attrs[n := a])
    else Graph(g.nodeOrder + [n], g.attrs[n := a], g.succ[n := []])
  }

  /** Adds `n` with no attributes unless it is present. */
  function EnsureNode(g: Graph, n: string): Graph {
    if n in g.attrs then g else Graph(g.nodeOrder + [n], g.attrs[n := NoAttrs], g.succ[n := []])
  }

  /** `graph.add_edge(u, v)` */
  function AddEdge(g: Graph, u: string, v: string): Graph {
    var g' := EnsureNode(EnsureNode(g, u), v);
    if u in g'.succ && v !in g'.succ[u] then g'.(succ := g'.succ[u := g'.succ[u] + [v]]) else g'
  }

  /** One `add_edge(x, v)` per entry of `sources`, in order. */
  function AddEdgesTo(g: Graph, sources: seq<string>, v: string): Graph
    decreases |sources|
  {
    if sources == [] then g else AddEdgesTo(AddEdge(g, sources[0], v), sources[1..], v)
  }

  /** The `input_nodes` argument of `add_operation_node`. */
  datatype InputsArg =
    | OneInput(name: string)
    | InputList(names: seq<string>)
      /** A dict from edge name to input node. */
    | InputMap(entries: seq<NamedInput>)
      /** Any other value: no input edges. */
    | OtherInputs

  datatype NamedInput = NamedInput(edgeName: string, node: string)

  /** The nodes an edge is drawn from: a string is a one-element list, a
      dict gives its values and drops its keys. */
  function InputSources(inputs: InputsArg): (r: seq<string>)
    ensures inputs.InputMap? ==> |r| == |inputs.entries| && forall i :: 0 <= i < |r| ==> r[i] == inputs.entries[i].node
  {
    match inputs
    case OneInput(name) => [name]
    case InputList(names) => names
    case InputMap(entries) => seq(|entries|, i requires 0 <= i < |entries| => entries[i].node)
    case OtherInputs => []
  }

  /** The graph after `add_operation_node` once the operation object was made. */
  function AddOperation(g: Graph, name: string, op: Instantiation, inputs: InputsArg, output: string): Graph {
    AddEdge(AddEdgesTo(AddNode(g, name, Attrs("op", OpPayload(op))), InputSources(inputs), name), name, output)
  }

  /** The attributes `add_data_node` stores. */
  function DataAttrs(name: string, dataType: Option<string>, source: Option<string>): NodeAttrs {
    Attrs("data", NodePayload(DataPayload(name, dataType, source)))
  }

  // ---------------------------------------------------------------------------
  // Properties of the graph operations

  lemma EmptyGraphIsEmpty(u: string, v: string)
    ensures WellFormed(EmptyGraph) && !HasNode(EmptyGraph, u) && !HasEdge(EmptyGraph, u, v)
  {
  }

  /** Adding a node sets its attributes (replacing any earlier ones) and
      changes no other node and no edge; a new node goes last in the order. */
  lemma AddNodeEffect(g: Graph, n: string, a: NodeAttrs)
    requires WellFormed(g)
    ensures WellFormed(AddNode(g, n, a))
    ensures AddNode(g, n, a).attrs == g.attrs[n := a]
    ensures forall x, y :: HasEdge(AddNode(g, n, a), x, y) <==> HasEdge(g, x, y)
    ensures n in g.attrs ==> AddNode(g, n, a).nodeOrder == g.nodeOrder
    ensures n !in g.attrs ==> AddNode(g, n, a).nodeOrder == g.nodeOrder + [n]
  {
    if n !in g.attrs {
      var g' := AddNode(g, n, a);
      assert n !in g.nodeOrder;
      AppendFresh(g.nodeOrder, n);
      assert forall i :: 0 <= i < |g'.nodeOrder| ==> g'.nodeOrder[i] in g'.attrs by {
        forall i | 0 <= i < |g'.nodeOrder| ensures g'.nodeOrder[i] in g'.attrs {
          if i < |g.nodeOrder| { assert g'.nodeOrder[i] == g.nodeOrder[i]; }
        }
      }
      assert forall x :: x in g'.succ ==> NoDuplicates(g'.succ[x]) by {
        forall x | x in g'.succ ensures NoDuplicates(g'.succ[x]) {
          if x != n { assert g'.succ[x] == g.succ[x]; }
        }
      }
    }
  }

  lemma EnsureNodeEffect(g: Graph, n: string)
    requires WellFormed(g)
    ensures WellFormed(EnsureNode(g, n))
    ensures forall x, y :: HasEdge(EnsureNode(g, n), x, y) <==> HasEdge(g, x, y)
  {
    if n !in g.attrs {
      AddNodeEffect(g, n, NoAttrs);
    }
  }

  lemma EnsureNodeAttrs(g: Graph, n: string)
    ensures EnsureNode(g, n).attrs.Keys == g.attrs.Keys + {n}
    ensures forall m :: m in g.attrs ==> EnsureNode(g, n).attrs[m] == g.attrs[m]
    ensures n !in g.attrs ==> EnsureNode(g, n).attrs[n] == NoAttrs
  {
  }

  /** Appending a value a list lacks keeps it free of duplicates. */
  lemma AppendFresh(s: seq<string>, v: string)
    requires NoDuplicates(s) && v !in s
    ensures NoDuplicates(s + [v])
  {
    var t := s + [v];
    forall i, j | 0 <= i < j < |t| ensures t[i] != t[j] {
      if j == |s| { assert t[i] == s[i]; }
    }
  }

  /** After both endpoints exist, appending the edge keeps the graph well
      formed and adds exactly that edge. */
  lemma AppendEdge(g: Graph, u: string, v: string)
    requires WellFormed(g) && u in g.attrs && v in g.attrs && !HasEdge(g, u, v)
    ensures var g' := g.(succ := g.succ[u := g.succ[u] + [v]]);
      && WellFormed(g')
      && forall x, y :: HasEdge(g', x, y) <==> HasEdge(g, x, y) || (x == u && y == v)
  {
    AppendFresh(g.succ[u], v);
  }

  /** Adding an edge keeps the graph well formed. */
  lemma AddEdgeWellFormed(g: Graph, u: string, v: string)
    requires WellFormed(g)
    ensures WellFormed(AddEdge(g, u, v))
  {
    EnsureNodeEffect(g, u);
    EnsureNodeEffect(EnsureNode(g, u), v);
    if !HasEdge(EnsureNode(EnsureNode(g, u), v), u, v) {
      AppendEdge(EnsureNode(EnsureNode(g, u), v), u, v);
    }
  }

  /** Adding an edge adds exactly that pair to the edges. */
  lemma AddEdgeEdges(g: Graph, u: string, v: string)
    requires WellFormed(g)
    ensures forall x, y :: HasEdge(AddEdge(g, u, v), x, y) <==> HasEdge(g, x, y) || (x == u && y == v)
  {
    EnsureNodeEffect(g, u);
    EnsureNodeEffect(EnsureNode(g, u), v);
    if !HasEdge(EnsureNode(EnsureNode(g, u), v), u, v) {
      AppendEdge(EnsureNode(EnsureNode(g, u), v), u, v);
    }
  }

  /** A missing endpoint is created without attributes; existing nodes keep
      theirs. */
  lemma AddEdgeAttrs(g: Graph, u: string, v: string)
    ensures AddEdge(g, u, v).attrs.Keys == g.attrs.Keys + {u, v}
    ensures forall m :: m in g.attrs ==> m in AddEdge(g, u, v).attrs && AddEdge(g, u, v).attrs[m] == g.attrs[m]
    ensures u !in g.attrs ==> AddEdge(g, u, v).attrs[u] == NoAttrs
    ensures v !in g.attrs ==> AddEdge(g, u, v).attrs[v] == NoAttrs
  {
    EnsureNodeAttrs(g, u);
    EnsureNodeAttrs(EnsureNode(g, u), v);
  }

  /** Edges into `v` from each source in turn keep the graph well formed. */
  lemma {:induction false} AddEdgesToWellFormed(g: Graph, sources: seq<string>, v: string)
    requires WellFormed(g)
    ensures WellFormed(AddEdgesTo(g, sources, v))
    decreases |sources|
  {
    if sources != [] {
      AddEdgeWellFormed(g, sources[0], v);
      AddEdgesToWellFormed(AddEdge(g, sources[0], v), sources[1..], v);
    }
  }

  /** Edges into `v` from each source in turn: exactly those edges are
      added. */
  lemma {:induction false} AddEdgesToEdges(g: Graph, sources: seq<string>, v: string)
    requires WellFormed(g)
    ensures forall x, y :: HasEdge(AddEdgesTo(g, sources, v), x, y) <==> HasEdge(g, x, y) || (y == v && x in sources)
    decreases |sources|
  {
    if sources != [] {
      var g1 := AddEdge(g, sources[0], v);
      AddEdgeWellFormed(g, sources[0], v);
      AddEdgeEdges(g, sources[0], v);
      AddEdgesToEdges(g1, sources[1..], v);
      assert forall x :: x in sources <==> x == sources[0] || x in sources[1..];
    }
  }

  /** Edges into `v` from each source in turn: every source and `v` become
      nodes, and existing nodes keep their attributes. */
  lemma {:induction false} AddEdgesToAttrs(g: Graph, sources: seq<string>, v: string)
    ensures AddEdgesTo(g, sources, v).attrs.Keys == g.attrs.Keys + (if sources == [] then {} else {v}) + set x | x in sources
    ensures forall m :: m in g.attrs ==> m in AddEdgesTo(g, sources, v).attrs && AddEdgesTo(g, sources, v).attrs[m] == g.attrs[m]
    decreases |sources|
  {
    if sources != [] {
      var g1 := AddEdge(g, sources[0], v);
      AddEdgeAttrs(g, sources[0], v);
      AddEdgesToAttrs(g1, sources[1..], v);
      assert forall x :: x in sources <==> x == sources[0] || x in sources[1..];
    }
  }

  /** `add_operation_node` keeps the graph well formed. */
  lemma AddOperationWellFormed(g: Graph, name: string, op: Instantiation, inputs: InputsArg, output: string)
    requires WellFormed(g)
    ensures WellFormed(AddOperation(g, name, op, inputs, output))
  {
    var g1 := AddNode(g, name, Attrs("op", OpPayload(op)));
    AddNodeEffect(g, name, Attrs("op", OpPayload(op)));
    AddEdgesToWellFormed(g1, InputSources(inputs), name);
    AddEdgeWellFormed(AddEdgesTo(g1, InputSources(inputs), name), name, output);
  }

  /** `add_operation_node`: every input gets an edge into the operation
      node and an edge goes from it to the output; no other edge is
      added or removed. */
  lemma AddOperationEdges(g: Graph, name: string, op: Instantiation, inputs: InputsArg, output: string)
    requires WellFormed(g)
    ensures forall x, y :: HasEdge(AddOperation(g, name, op, inputs, output), x, y) <==>
      HasEdge(g, x, y) || (y == name && x in InputSources(inputs)) || (x == name && y == output)
  {
    var g1 := AddNode(g, name, Attrs("op", OpPayload(op)));
    AddNodeEffect(g, name, Attrs("op", OpPayload(op)));
    AddEdgesToWellFormed(g1, InputSources(inputs), name);
    AddEdgesToEdges(g1, InputSources(inputs), name);
    AddEdgeEdges(AddEdgesTo(g1, InputSources(inputs), name), name, output);
  }

  /** `add_operation_node`: the operation node gets type "op" and its
      operation object, the inputs and the output become nodes, and every
      other node keeps its attributes. */
  lemma AddOperationAttrs(g: Graph, name: string, op: Instantiation, inputs: InputsArg, output: string)
    ensures var g' := AddOperation(g, name, op, inputs, output);
      && g'.attrs[name] == Attrs("op", OpPayload(op))
      && HasNode(g', output)
      && (forall x :: x in InputSources(inputs) ==> HasNode(g', x))
      && (forall m :: m in g.attrs && m != name ==> m in g'.attrs && g'.attrs[m] == g.attrs[m])
  {
    var g1 := AddNode(g, name, Attrs("op", OpPayload(op)));
    AddEdgesToAttrs(g1, InputSources(inputs), name);
    AddEdgeAttrs(AddEdgesTo(g1, InputSources(inputs), name), name, output);
  }

  /** Two operation nodes with the same name are one node whose edges are
      the union of both calls' edges; the second operation object wins. */
  lemma SameNameTwice(g: Graph, name: string, op1: Instantiation, in1: InputsArg, out1: string,
                      op2: Instantiation, in2: InputsArg, out2: string)
    requires WellFormed(g)
    ensures var g2 := AddOperation(AddOperation(g, name, op1, in1, out1), name, op2, in2, out2);
      && g2.attrs[name] == Attrs("op", OpPayload(op2))
      && NoDuplicates(g2.nodeOrder)
      && (forall x, y :: HasEdge(g2, x, y) <==>
            || HasEdge(g, x, y)
            || (y == name && (x in InputSources(in1) || x in InputSources(in2)))
            || (x == name && (y == out1 || y == out2)))
  {
    var g1 := AddOperation(g, name, op1, in1, out1);
    AddOperationWellFormed(g, name, op1, in1, out1);
    AddOperationEdges(g, name, op1, in1, out1);
    AddOperationWellFormed(g1, name, op2, in2, out2);
    AddOperationEdges(g1, name, op2, in2, out2);
    AddOperationAttrs(g1, name, op2, in2, out2);
  }

  /** A dict of inputs draws its edges from the values; the keys are
      dropped. */
  lemma DictInputsUseValues(entries: seq<NamedInput>, x: string)
    ensures x in InputSources(InputMap(entries)) <==> exists i :: 0 <= i < |entries| && entries[i].node == x
  {
    var s := InputSources(InputMap(entries));
    if x in s {
      var i :| 0 <= i < |s| && s[i] == x;
      assert entries[i].node == x;
    }
  }

  /** A string input is the same as a one-element list. */
  lemma StringInputIsSingletonList(input: string)
    ensures InputSources(OneInput(input)) == InputSources(InputList([input]))
  {
  }

  // ---------------------------------------------------------------------------
  // repr

  /** `repr((u, v))` */
  function ReprEdge(u: string, v: string): string {
    "(" + ReprString(u) + ", " + ReprString(v) + ")"
  }

  /** `list(graph.edges)`: node by node in node order, each node's
      successors in insertion order. */
  function EdgeList(nodeOrder: seq<string>, succ: map<string, seq<string>>): seq<(string, string)> {
    if nodeOrder == [] then []
    else
      var u := nodeOrder[0];
      var out := if u in succ then succ[u] else [];
      seq(|out|, i requires 0 <= i < |out| => (u, out[i])) + EdgeList(nodeOrder[1..], succ)
  }

  /** The edge list holds exactly the edges of the graph. */
  lemma {:induction false} EdgeListMembers(nodeOrder: seq<string>, succ: map<string, seq<string>>, u: string, v: string)
    ensures (u, v) in EdgeList(nodeOrder, succ) <==> u in nodeOrder && u in succ && v in succ[u]
  {
    if nodeOrder != [] {
      var w := nodeOrder[0];
      var out := if w in succ then succ[w] else [];
      var head := seq(|out|, i requires 0 <= i < |out| => (w, out[i]));
      EdgeListMembers(nodeOrder[1..], succ, u, v);
      assert (u, v) in head <==> u == w && w in succ && v in succ[w] by {
        if (u, v) in head {
          var i :| 0 <= i < |head| && head[i] == (u, v);
        }
        if u == w && w in succ && v in succ[w] {
          var i :| 0 <= i < |succ[w]| && succ[w][i] == v;
          assert head[i] == (u, v);
        }
      }
      assert nodeOrder == [w] + nodeOrder[1..];
    }
  }

  lemma EdgeListIsEdges(g: Graph)
    requires WellFormed(g)
    ensures forall u, v :: (u, v) in EdgeList(g.nodeOrder, g.succ) <==> HasEdge(g, u, v)
  {
    forall u, v ensures (u, v) in EdgeList(g.nodeOrder, g.succ) <==> HasEdge(g, u, v) {
      EdgeListMembers(g.nodeOrder, g.succ, u, v);
    }
  }

  function ReprEdges(edges: seq<(string, string)>): seq<string> {
    seq(|edges|, i requires 0 <= i < |edges| => ReprEdge(edges[i].0, edges[i].1))
  }

  /** `repr(dag)` */
  function ReprGraph(g: Graph): string {
    "DAG(nodes=" + Repr(StrList(g.nodeOrder)) + ", edges=[" + Join(ReprEdges(EdgeList(g.nodeOrder, g.succ)), ", ") + "])"
  }

  // ---------------------------------------------------------------------------
  // The mutable graph

  class DAG {
    var nodeOrder: seq<string>
    var attrs: map<string, NodeAttrs>
    var succ: map<string, seq<string>>

    function Model(): Graph
      reads this
    {
      Graph(nodeOrder, attrs, succ)
    }

    predicate Valid()
      reads this
    {
      WellFormed(Model())
    }

    /** `DAG()`: no nodes, no edges. */
    constructor ()
      ensures Valid() && Model() == EmptyGraph
    {
      nodeOrder := [];
      attrs := map[];
      succ := map[];
    }

    method SetModel(g: Graph)
      modifies this
      ensures Model() == g
    {
      nodeOrder := g.nodeOrder;
      attrs := g.attrs;
      succ := g.succ;
    }

    /** `graph.add_node(n, type=..., obj=...)` */
    method AddNodeWith(n: string, a: NodeAttrs)
      requires Valid()
      modifies this
      ensures Valid() && Model() == AddNode(old(Model()), n, a)
    {
      AddNodeEffect(Model(), n, a);
      if n in attrs {
        attrs := attrs[n := a];
      } else {
        nodeOrder := nodeOrder + [n];
        attrs := attrs[n := a];
        succ := succ[n := []];
      }
    }

    /** `graph.add_edge(u, v)` */
    method AddEdgeBetween(u: string, v: string)
      requires Valid()
      modifies this
      ensures Valid() && Model() == AddEdge(old(Model()), u, v)
    {
      AddEdgeWellFormed(Model(), u, v);
      var g := AddEdge(Model(), u, v);
      SetModel(g);
    }

    /** `add_data_node(name, data_type, source)` */
    method AddDataNode(name: string, dataType: Option<string>, source: Option<string>)
      requires Valid()
      modifies this
      ensures Valid() && Model() == AddNode(old(Model()), name, DataAttrs(name, dataType, source))
    {
      AddNodeWith(name, DataAttrs(name, dataType, source));
    }

    /** `add_operation_node(pandas_name, pandas_params, input_nodes,
        output_node, target_ops=...)`. The operation object is made first;
        when that raises, the graph is left as it was. */
    method AddOperationNode(registry: OperationRegistry, pandasName: string, pandasParams: Value,
                            inputs: InputsArg, outputNode: string, targetOps: Value)
      returns (r: Result<Instantiation>)
      requires Valid()
      modifies this
      ensures Valid()
      ensures r == CreateOps(registry.entries, pandasName, pandasParams, PyNone, targetOps)
      ensures r.Failure? ==> Model() == old(Model())
      ensures r.Success? ==> Model() == AddOperation(old(Model()), pandasName, r.value, inputs, outputNode)
    {
      r := CreateOps(registry.entries, pandasName, pandasParams, PyNone, targetOps);
      if r.Failure? {
        return;
      }
      AddNodeWith(pandasName, Attrs("op", OpPayload(r.value)));
      AddEdgesInto(InputSources(inputs), pandasName);
      AddEdgeBetween(pandasName, outputNode);
    }

    /** The input loop of `add_operation_node`: one `add_edge(x, v)` per
        source, in order. */
    method AddEdgesInto(sources: seq<string>, v: string)
      requires Valid()
      modifies this
      ensures Valid() && Model() == AddEdgesTo(old(Model()), sources, v)
    {
      ghost var start := Model();
      var i := 0;
      while i < |sources|
        invariant 0 <= i <= |sources|
        invariant Valid()
        invariant AddEdgesTo(Model(), sources[i..], v) == AddEdgesTo(start, sources, v)
      {
        assert sources[i..][1..] == sources[i + 1..];
        AddEdgeBetween(sources[i], v);
        i := i + 1;
      }
    }

    /** `dag[name]`: the attribute dict, or None for an absent node. */
    function GetItem(name: string): (r: Option<NodeAttrs>)
      reads this
      ensures r.None? <==> !HasNode(Model(), name)
      ensures r.Some? ==> r.value == attrs[name]
    {
      if name in attrs then Some(attrs[name]) else None
    }

    /** `has_node(name)` */
    function HasNodeNamed(name: string): (r: bool)
      reads this
      ensures Valid() ==> (r <==> name in nodeOrder)
    {
      HasNode(Model(), name)
    }

    /** `repr(dag)` */
    function Repr(): string
      reads this
    {
      ReprGraph(Model())
    }

    /** `to_pyspark()`: not implemented. */
    function ToPyspark(): (r: Result<string>)
      ensures r == Failure(NotImplementedError)
    {
      Failure(NotImplementedError)
    }
  }
}
