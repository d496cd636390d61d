/** `LocOp` and `SelectOp` (hammer/logical_plan/operations/select_ops.py):
    column selection rendered as `select([...])`. The two classes have the
    same body and differ only in their function name, so they share one
    definition here. */
module SelectOps {
  import opened Results
  import opened PyValues
  import opened OperationBase
  import BuildOps

  const LocName := "loc"
  const SelectName := "select"

  /** Both classes bind no positional parameter names. */
  const PositionalArgsName: seq<string> := []

  const LocClass := BuildOps.ClassDesc("LocOp", None, BuildOps.FunctionArgsSignature)
  const SelectClass := BuildOps.ClassDesc("SelectOp", None, BuildOps.FunctionArgsSignature)

  datatype SelectionOp = SelectionOp(node: OperationNode, selectCols: Value)

  /** The shared constructor body: a string positional value becomes a
      one-column list, anything else is kept as the column list. */
  function NewSelection(functionName: string, positionalArgs: Value, keywordArgs: Option<Dict>): (op: SelectionOp)
    ensures op.node == NewOperationNode(functionName, positionalArgs, keywordArgs, DefaultTargetOps)
    ensures op.node.positionalArgs.PyStr? ==> op.selectCols == PyList([op.node.positionalArgs])
    ensures !op.node.positionalArgs.PyStr? ==> op.selectCols == op.node.positionalArgs
  {
    var node := NewOperationNode(functionName, positionalArgs, keywordArgs, DefaultTargetOps);
    var cols := if node.positionalArgs.PyStr? then PyList([node.positionalArgs]) else node.positionalArgs;
    SelectionOp(node, cols)
  }

  /** `LocOp(function_positional_args, function_keyword_args)` */
  function NewLocOp(positionalArgs: Value, keywordArgs: Option<Dict>): (op: SelectionOp)
    ensures op.node == NewOperationNode(LocName, positionalArgs, keywordArgs, DefaultTargetOps)
    ensures op.selectCols == NewSelection(SelectName, positionalArgs, keywordArgs).selectCols
  {
    NewSelection(LocName, positionalArgs, keywordArgs)
  }

  /** `SelectOp(function_positional_args, function_keyword_args)` */
  function NewSelectOp(positionalArgs: Value, keywordArgs: Option<Dict>): (op: SelectionOp)
    ensures op.node == NewOperationNode(SelectName, positionalArgs, keywordArgs, DefaultTargetOps)
    ensures op.selectCols == NewSelection(LocName, positionalArgs, keywordArgs).selectCols
  {
    NewSelection(SelectName, positionalArgs, keywordArgs)
  }

  /** `is_data_method` of both classes. */
  function IsDataMethod(op: SelectionOp): (r: bool)
    ensures r
  {
    true
  }

  /** `to_pyspark()` of both classes. */
  function ToPyspark(op: SelectionOp): (text: string)
    ensures |text| > 7 && text[..7] == "select(" && text[|text| - 1] == ')'
    ensures text[7..|text| - 1] == Str(op.selectCols)
  {
    "select(" + Str(op.selectCols) + ")"
  }

  /** A non-empty column name becomes a one-element column list. */
  lemma SingleColumn(column: string, keywordArgs: Option<Dict>)
    requires column != ""
    ensures NewSelectOp(PyStr(column), keywordArgs).selectCols == PyList([PyStr(column)])
  {
  }

  /** An empty column name is falsy, so it is first replaced by `[]`. */
  lemma EmptyColumnName(keywordArgs: Option<Dict>)
    ensures NewSelectOp(PyStr(""), keywordArgs).selectCols == PyList([])
    ensures ToPyspark(NewSelectOp(PyStr(""), keywordArgs)) == "select([])"
  {
  }

  /** A non-empty list is kept as the column list. */
  lemma ColumnList(columns: seq<Value>, keywordArgs: Option<Dict>)
    requires columns != []
    ensures NewSelectOp(PyList(columns), keywordArgs).selectCols == PyList(columns)
  {
  }

  /** `LocOp` and `SelectOp` differ in their name and nothing else. */
  lemma LocMatchesSelect(positionalArgs: Value, keywordArgs: Option<Dict>)
    ensures ToPyspark(NewLocOp(positionalArgs, keywordArgs)) == ToPyspark(NewSelectOp(positionalArgs, keywordArgs))
    ensures NewLocOp(positionalArgs, keywordArgs).selectCols == NewSelectOp(positionalArgs, keywordArgs).selectCols
    ensures NewLocOp(positionalArgs, keywordArgs).node.functionName == LocName
    ensures NewSelectOp(positionalArgs, keywordArgs).node.functionName == SelectName
  {
  }

  /** The merged keyword view is the stored keyword dict, and it fails
      only when the positional value cannot be iterated. */
  lemma MergedIsKeywordArgs(positionalArgs: Value, keywordArgs: Option<Dict>)
    ensures var node := NewSelectOp(positionalArgs, keywordArgs).node;
      if Iterate(node.positionalArgs).Some? then MergedKeywordArgs(PositionalArgsName, node) == Success(node.storedKeywordArgs)
      else MergedKeywordArgs(PositionalArgsName, node) == Failure(TypeError)
  {
  }

  /** A list of plain column names renders as a Python list display. */
  lemma RenderColumns(columns: seq<string>)
    requires columns != []
    requires forall i :: 0 <= i < |columns| ==> PlainString(columns[i])
    ensures ToPyspark(NewSelectOp(StrList(columns), None)) == "select([" + PyStrings.Join(QuotedAll(columns), ", ") + "])"
  {
    var cols := StrList(columns);
    var op := NewSelectOp(cols, None);
    assert op.selectCols == cols;
    ReprPlainList(columns);
    var body := PyStrings.Join(QuotedAll(columns), ", ");
    assert Str(cols) == "[" + body + "]";
    WrapList(body);
  }

  lemma WrapList(body: string)
    ensures "select(" + ("[" + body + "]") + ")" == "select([" + body + "])"
  {
  }

  /** `select([a, b])` renders the list display of the quoted column
      names. */
  lemma RenderTwoColumns(a: string, b: string)
    requires PlainString(a) && PlainString(b)
    ensures ToPyspark(NewSelectOp(StrList([a, b]), None)) == "select(['" + a + "', '" + b + "'])"
  {
    var columns := StrList([a, b]);
    var op := NewSelectOp(columns, None);
    assert op.selectCols == columns;
    ReprTwoPlain(a, b);
    assert Str(columns) == "['" + a + "', '" + b + "']";
  }

  /** Neither class can be registered (no `pandas_name`). */
  lemma NotRegistrable(reg: BuildOps.Registry, positional: Value, keyword: Value, targetOps: Value)
    ensures BuildOps.Register(reg, LocClass) == (Failure(AttributeError("pandas_name")), reg)
    ensures BuildOps.Register(reg, SelectClass) == (Failure(AttributeError("pandas_name")), reg)
    ensures forall name :: name in reg && (reg[name] == LocClass || reg[name] == SelectClass) ==>
      BuildOps.CreateOps(reg, name, positional, keyword, targetOps) == Failure(TypeError)
  {
    forall name | name in reg && (reg[name] == LocClass || reg[name] == SelectClass)
      ensures BuildOps.CreateOps(reg, name, positional, keyword, targetOps) == Failure(TypeError)
    {
      BuildOps.FunctionArgsConstructorRaises(reg, name, positional, keyword, targetOps);
    }
  }
}
