/** `DataNode` (hammer/logical_plan/data_node.py): a named piece of data
    with its kind ("io" or "memory") and its source. */
module DataNodes {
  import opened Results
  import opened PyStrings
  import opened ReprFields

  datatype DataNode = DataNode(name: string, dataType: string, source: string)

  /** `DataNode(name, data_type=..., source=...)`: a missing (or empty)
      kind or source is stored as "". */
  function NewDataNode(name: string, dataType: Option<string>, source: Option<string>): (n: DataNode)
    ensures n.name == name
    ensures dataType.Some? ==> n.dataType == dataType.value
    ensures dataType.None? ==> n.dataType == ""
    ensures source.Some? ==> n.source == source.value
    ensures source.None? ==> n.source == ""
  {
    DataNode(name, dataType.GetOr(""), source.GetOr(""))
  }

  /** `repr(node)`: `DataNode(name=..., data_type=..., source=...)`. */
  function ReprDataNode(n: DataNode): string {
    "DataNode(" + Labelled("name", n.name, Labelled("data_type", n.dataType, LastLabelled("source", n.source)))
  }

  /** Reads a `DataNode(...)` repr back into the node. */
  function ParseDataNodeRepr(t: string): Option<DataNode> {
    var prefix := "DataNode(";
    if !StartsWith(t, prefix) then None
    else
      match ReadField(t[|prefix|..], "name")
      case None => None
      case Some((name, rest)) =>
        match ReadField(rest, "data_type")
        case None => None
        case Some((dataType, rest')) =>
          match ReadLast(rest', "source")
          case None => None
          case Some(source) => Some(DataNode(name, dataType, source))
  }

  /** The repr identifies the node when its name and kind hold no comma
      (the source is free). */
  lemma ReprRoundTrip(n: DataNode)
    requires ',' !in n.name && ',' !in n.dataType
    ensures ParseDataNodeRepr(ReprDataNode(n)) == Some(n)
  {
    var tail := LastLabelled("source", n.source);
    var middle := Labelled("data_type", n.dataType, tail);
    var t := ReprDataNode(n);
    assert StartsWith(t, "DataNode(") && t[|"DataNode("|..] == Labelled("name", n.name, middle);
    ReadFieldWritten("name", n.name, middle);
    ReadFieldWritten("data_type", n.dataType, tail);
    ReadLastWritten("source", n.source);
  }

  /** Two nodes with comma-free names and kinds print alike only if they
      are equal. */
  lemma ReprInjective(a: DataNode, b: DataNode)
    requires ',' !in a.name && ',' !in a.dataType && ',' !in b.name && ',' !in b.dataType
    requires ReprDataNode(a) == ReprDataNode(b)
    ensures a == b
  {
    ReprRoundTrip(a);
    ReprRoundTrip(b);
  }

  /** The defaults, and an empty name kept as it is. */
  lemma Defaults()
    ensures NewDataNode("", None, None) == DataNode("", "", "")
  {
  }

}
