/** `ReadcsvOp` (hammer/logical_plan/operations/io_ops.py): `pd.read_csv`
    rendered as a Spark CSV load. */
module IoOps {
  import opened Results
  import opened PyValues
  import opened OperationBase
  import BuildOps

  const FunctionName := "pd.read_csv"

  const PositionalArgsName: seq<string> := ["filepath_or_buffer"]

  const Class := BuildOps.ClassDesc("ReadcsvOp", None, BuildOps.FunctionArgsSignature)

  datatype ReadcsvOp = ReadcsvOp(node: OperationNode, filePath: Value)

  /** `ReadcsvOp(function_positional_args, function_keyword_args)`; the
      constructor reads the merged view, so it raises where that does. */
  function NewReadcsvOp(positionalArgs: Value, keywordArgs: Option<Dict>): (r: Result<ReadcsvOp>)
    ensures var node := NewOperationNode(FunctionName, positionalArgs, keywordArgs, DefaultTargetOps);
      && (r.Success? <==> MergedKeywordArgs(PositionalArgsName, node).Success?)
      && (r.Success? ==> r.value.node == node)
  {
    var node := NewOperationNode(FunctionName, positionalArgs, keywordArgs, DefaultTargetOps);
    var kw :- MergedKeywordArgs(PositionalArgsName, node);
    Success(ReadcsvOp(node, GetValue(kw, "filepath_or_buffer")))
  }

  /** `is_data_method`: reading a file starts a chain, it does not continue one. */
  function IsDataMethod(op: ReadcsvOp): (r: bool)
    ensures !r
  {
    false
  }

  /** `to_pyspark()` */
  function ToPyspark(op: ReadcsvOp): string {
    "spark.read.load(" + Str(op.filePath) + ", format=\"csv\", header=True)"
  }

  /** The first positional value is the path, whatever the keywords say. */
  lemma PositionalPath(first: Value, rest: seq<Value>, keywordArgs: Option<Dict>)
    ensures NewReadcsvOp(PyList([first] + rest), keywordArgs).Success?
    ensures NewReadcsvOp(PyList([first] + rest), keywordArgs).value.filePath == first
  {
    var node := NewOperationNode(FunctionName, PyList([first] + rest), keywordArgs, DefaultTargetOps);
    MergedBindsPositionals(node.storedKeywordArgs, PositionalArgsName, [first] + rest, 0);
  }

  /** Without positional values the path is the keyword one, or None. */
  lemma KeywordPath(positionalArgs: Value, keywordArgs: Dict)
    requires !Truthy(positionalArgs)
    ensures NewReadcsvOp(positionalArgs, Some(keywordArgs)).Success?
    ensures NewReadcsvOp(positionalArgs, Some(keywordArgs)).value.filePath
         == GetValue(keywordArgs, "filepath_or_buffer")
  {
  }

  /** A path string is substituted without quotes. */
  lemma RenderPath(path: string)
    ensures ToPyspark(NewReadcsvOp(PyList([PyStr(path)]), None).value)
         == "spark.read.load(" + path + ", format=\"csv\", header=True)"
  {
    PositionalPath(PyStr(path), [], None);
    assert [PyStr(path)] + [] == [PyStr(path)];
  }

  /** With no path at all the rendering loads `None`. */
  lemma RenderWithoutPath()
    ensures NewReadcsvOp(PyNone, None).Success?
    ensures NewReadcsvOp(PyNone, None).value.filePath == PyNone
    ensures ToPyspark(NewReadcsvOp(PyNone, None).value) == "spark.read.load(" + "None" + ", format=\"csv\", header=True)"
  {
    KeywordPath(PyNone, []);
    assert GetValue([], "filepath_or_buffer") == PyNone;
    assert Str(PyNone) == "None";
  }

  lemma NotRegistrable(reg: BuildOps.Registry, positional: Value, keyword: Value, targetOps: Value)
    ensures BuildOps.Register(reg, Class) == (Failure(AttributeError("pandas_name")), reg)
    ensures forall name :: name in reg && reg[name] == Class ==>
      BuildOps.CreateOps(reg, name, positional, keyword, targetOps) == Failure(TypeError)
  {
    forall name | name in reg && reg[name] == Class
      ensures BuildOps.CreateOps(reg, name, positional, keyword, targetOps) == Failure(TypeError)
    {
      BuildOps.FunctionArgsConstructorRaises(reg, name, positional, keyword, targetOps);
    }
  }
}
