/** `Operation` and `Node` (hammer/logical_plan/node.py): the older
    operation base that `SumOp` extends, and the plan node the graph stores
    as the payload of its data nodes. */
module Nodes {
  import opened Results
  import opened PyStrings
  import opened PyValues
  import opened ReprFields

  // ---------------------------------------------------------------------------
  // Operation

  datatype Operation = Operation(pandasName: string, pandasParams: Value, targetOps: Value, engine: string)

  const DefaultEngine := "pandas"

  /** The `target_ops` default, an empty dict. */
  const DefaultTargetOps: Value := PyDict([])

  /** `Operation(pandas_name, pandas_params, target_ops=..., engine=...)`:
      falsy parameters (None among them) become `{}`. */
  function NewOperation(pandasName: string, pandasParams: Value, targetOps: Value, engine: string): (op: Operation)
    ensures op.pandasName == pandasName && op.targetOps == targetOps && op.engine == engine
    ensures Truthy(pandasParams) ==> op.pandasParams == pandasParams
    ensures !Truthy(pandasParams) ==> op.pandasParams == PyDict([])
  {
    Operation(pandasName, Or(pandasParams, PyDict([])), targetOps, engine)
  }

  /** `repr(op)`: the abstract `params` property gives None. */
  function ReprOperation(className: string): string {
    className + "(None)"
  }

  /** The base `to_pyspark` and `to_dask`: not implemented. */
  function Unimplemented(op: Operation): (r: Result<string>)
    ensures r == Failure(NotImplementedError)
  {
    Failure(NotImplementedError)
  }

  lemma OperationDefaults(pandasName: string)
    ensures NewOperation(pandasName, PyNone, DefaultTargetOps, DefaultEngine)
         == Operation(pandasName, PyDict([]), PyDict([]), "pandas")
  {
  }

  // ---------------------------------------------------------------------------
  // Node

  /** What `input_nodes` holds: a dict of nodes, or the parameter's default,
      a `dataclasses.Field` object (it is truthy, so `or {}` keeps it). */
  datatype InputNodes = InputDict(entries: seq<NodeEntry>) | FieldDefault

  datatype NodeEntry = NodeEntry(key: string, node: Node)

  datatype Node = Node(
    name: string,
    nodeType: string,
    dataType: string,
    source: string,
    operation: string,
    params: Dict,
    inputNodes: InputNodes,
    outputNode: Option<Node>)

  /** The `input_nodes` argument: left out, None, or a dict. */
  datatype InputNodesArg = InputsOmitted | InputsNone | InputsGiven(entries: seq<NodeEntry>)

  /** `Node(name, node_type=..., data_type=..., source=..., operation=...,
      params=..., input_nodes=..., output_node=...)`: missing (or empty)
      strings become "", missing params `{}`, None inputs `{}`, and an
      omitted `input_nodes` keeps its `Field` default. */
  function NewNode(
    name: string, nodeType: Option<string>, dataType: Option<string>, source: Option<string>,
    operation: Option<string>, params: Option<Dict>, inputNodes: InputNodesArg, outputNode: Option<Node>)
    : (n: Node)
    ensures n.name == name && n.outputNode == outputNode
    ensures n.nodeType == nodeType.GetOr("") && n.dataType == dataType.GetOr("")
    ensures n.source == source.GetOr("") && n.operation == operation.GetOr("")
    ensures n.params == params.GetOr([])
    ensures inputNodes.InputsOmitted? <==> n.inputNodes.FieldDefault?
    ensures inputNodes.InputsNone? ==> n.inputNodes == InputDict([])
    ensures inputNodes.InputsGiven? ==> n.inputNodes == InputDict(inputNodes.entries)
  {
    var inputs := match inputNodes
      case InputsOmitted => FieldDefault
      case InputsNone => InputDict([])
      case InputsGiven(entries) => InputDict(entries);
    Node(name, nodeType.GetOr(""), dataType.GetOr(""), source.GetOr(""), operation.GetOr(""),
         params.GetOr([]), inputs, outputNode)
  }

  /** The node the graph stores for a data node. */
  function DataPayload(name: string, dataType: Option<string>, source: Option<string>): Node {
    NewNode(name, Some("data"), dataType, source, None, None, InputsOmitted, None)
  }

  /** `repr(node)`. Both branches are labelled `DataNode`; `fieldRepr` is the
      text of the `Field` default object, which Python prints with an
      address. */
  function ReprNode(n: Node, fieldRepr: string): string
    decreases n, 2
  {
    if n.nodeType == "data" then
      "DataNode(" + Labelled("name", n.name, Labelled("node_type", "data",
        Labelled("data_type", n.dataType, LastLabelled("source", n.source))))
    else
      "DataNode(" + Labelled("name", n.name, Labelled("node_type", "op",
        Labelled("params", Repr(PyDict(n.params)),
        Labelled("input_nodes", ReprInputs(n.inputNodes, fieldRepr),
        LastLabelled("output_node", ReprOutput(n.outputNode, fieldRepr))))))
  }

  function ReprInputs(inputs: InputNodes, fieldRepr: string): string
    decreases inputs, 1
  {
    match inputs
    case FieldDefault => fieldRepr
    case InputDict(entries) => "{" + ReprNodeEntries(entries, fieldRepr) + "}"
  }

  function ReprNodeEntries(entries: seq<NodeEntry>, fieldRepr: string): string
    decreases entries, 0
  {
    if entries == [] then ""
    else
      var e := ReprString(entries[0].key) + ": " + ReprNode(entries[0].node, fieldRepr);
      if |entries| == 1 then e else e + ", " + ReprNodeEntries(entries[1..], fieldRepr)
  }

  function ReprOutput(output: Option<Node>, fieldRepr: string): string
    decreases output, 1
  {
    match output
    case None => "None"
    case Some(o) => ReprNode(o, fieldRepr)
  }

  /** Reads a data-node repr back: name, kind and source, provided the
      `node_type` field says `data`. */
  function ParseDataRepr(t: string): Option<(string, string, string)> {
    var prefix := "DataNode(";
    if !StartsWith(t, prefix) then None
    else
      match ReadField(t[|prefix|..], "name")
      case None => None
      case Some((name, rest)) =>
        match ReadField(rest, "node_type")
        case None => None
        case Some((nodeType, rest')) =>
          if nodeType != "data" then None
          else
            match ReadField(rest', "data_type")
            case None => None
            case Some((dataType, rest'')) =>
              match ReadLast(rest'', "source")
              case None => None
              case Some(source) => Some((name, dataType, source))
  }

  /** The `node_type` field the repr shows: `data` or `op`. */
  function ShownNodeType(t: string): Option<string> {
    var prefix := "DataNode(";
    if !StartsWith(t, prefix) then None
    else
      match ReadField(t[|prefix|..], "name")
      case None => None
      case Some((_, rest)) =>
        match ReadField(rest, "node_type")
        case None => None
        case Some((nodeType, _)) => Some(nodeType)
  }

  /** A data node's repr reads back to its name, kind and source when the
      name and kind hold no comma. */
  lemma DataReprRoundTrip(n: Node, fieldRepr: string)
    requires n.nodeType == "data"
    requires ',' !in n.name && ',' !in n.dataType
    ensures ParseDataRepr(ReprNode(n, fieldRepr)) == Some((n.name, n.dataType, n.source))
  {
    var tail := LastLabelled("source", n.source);
    var third := Labelled("data_type", n.dataType, tail);
    var second := Labelled("node_type", "data", third);
    var t := ReprNode(n, fieldRepr);
    assert t == "DataNode(" + Labelled("name", n.name, second);
    assert StartsWith(t, "DataNode(") && t[|"DataNode("|..] == Labelled("name", n.name, second);
    ReadFieldWritten("name", n.name, second);
    ReadFieldWritten("node_type", "data", third);
    ReadFieldWritten("data_type", n.dataType, tail);
    ReadLastWritten("source", n.source);
  }

  /** Whatever `node_type` holds, the repr shows `data` exactly for "data"
      and `op` for everything else (including ""). */
  lemma ShownNodeTypeIsBranch(n: Node, fieldRepr: string)
    requires ',' !in n.name
    ensures ShownNodeType(ReprNode(n, fieldRepr)) == Some(if n.nodeType == "data" then "data" else "op")
  {
    if n.nodeType == "data" {
      ShownData(n, fieldRepr);
    } else {
      ShownOp(n, fieldRepr);
    }
  }

  lemma ShownData(n: Node, fieldRepr: string)
    requires ',' !in n.name && n.nodeType == "data"
    ensures ShownNodeType(ReprNode(n, fieldRepr)) == Some("data")
  {
    var t := ReprNode(n, fieldRepr);
    var third := Labelled("data_type", n.dataType, LastLabelled("source", n.source));
    var second := Labelled("node_type", "data", third);
    assert StartsWith(t, "DataNode(") && t[|"DataNode("|..] == Labelled("name", n.name, second);
    ReadFieldWritten("name", n.name, second);
    ReadFieldWritten("node_type", "data", third);
  }

  lemma ShownOp(n: Node, fieldRepr: string)
    requires ',' !in n.name && n.nodeType != "data"
    ensures ShownNodeType(ReprNode(n, fieldRepr)) == Some("op")
  {
    var t := ReprNode(n, fieldRepr);
    var third := Labelled("params", Repr(PyDict(n.params)),
      Labelled("input_nodes", ReprInputs(n.inputNodes, fieldRepr),
      LastLabelled("output_node", ReprOutput(n.outputNode, fieldRepr))));
    var second := Labelled("node_type", "op", third);
    assert StartsWith(t, "DataNode(") && t[|"DataNode("|..] == Labelled("name", n.name, second);
    ReadFieldWritten("name", n.name, second);
    ReadFieldWritten("node_type", "op", third);
  }

  /** A data node's repr ignores the operation-side fields. */
  lemma DataReprIgnoresOperationFields(n: Node, fieldRepr: string, params: Dict, inputs: InputNodes, output: Option<Node>)
    requires n.nodeType == "data"
    ensures ReprNode(n.(params := params, inputNodes := inputs, outputNode := output), fieldRepr) == ReprNode(n, fieldRepr)
  {
  }

  /** The defaults of a bare `Node(name)`, and of one built with explicit
      None for `input_nodes`. */
  lemma NodeDefaults(name: string)
    ensures NewNode(name, None, None, None, None, None, InputsNone, None)
         == Node(name, "", "", "", "", [], InputDict([]), None)
    ensures NewNode(name, None, None, None, None, None, InputsOmitted, None).inputNodes == FieldDefault
  {
  }

  /** The repr of a node with no type and no inputs uses the operation
      branch. */
  lemma UntypedNodeRepr(name: string, fieldRepr: string)
    ensures ReprNode(NewNode(name, None, None, None, None, None, InputsNone, None), fieldRepr)
         == "DataNode(" + Labelled("name", name, Labelled("node_type", "op", Labelled("params", "{}",
              Labelled("input_nodes", "{}", LastLabelled("output_node", "None")))))
  {
    assert Repr(PyDict([])) == "{}";
    assert ReprInputs(InputDict([]), fieldRepr) == "{}";
  }
}
