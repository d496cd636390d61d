/** `GroupbyOp` (hammer/logical_plan/operations/groupby_ops.py): the
    `groupby` call and its `groupBy(..)` rendering. */
module GroupbyOps {
  import opened Results
  import opened PyStrings
  import opened PyValues
  import opened OperationBase
  import BuildOps

  const FunctionName := "groupby"

  /** The parameters of `DataFrame.groupby`, in order. */
  const PositionalArgsName: seq<string> :=
    ["by", "axis", "level", "as_index", "sort", "group_keys", "observed", "dropna"]

  /** The class as the registry sees it: `function_name` but no `pandas_name`. */
  const Class := BuildOps.ClassDesc("GroupbyOp", None, BuildOps.FunctionArgsSignature)

  datatype GroupbyOp = GroupbyOp(node: OperationNode, byArg: Value)

  /** `GroupbyOp(function_positional_args, function_keyword_args)`; the
      constructor reads the merged view, so it raises where that does. */
  function NewGroupbyOp(positionalArgs: Value, keywordArgs: Option<Dict>): (r: Result<GroupbyOp>)
    ensures var node := NewOperationNode(FunctionName, positionalArgs, keywordArgs, DefaultTargetOps);
      && (r.Success? <==> MergedKeywordArgs(PositionalArgsName, node).Success?)
      && (r.Success? ==> r.value.node == node)
  {
    var node := NewOperationNode(FunctionName, positionalArgs, keywordArgs, DefaultTargetOps);
    var kw :- MergedKeywordArgs(PositionalArgsName, node);
    Success(GroupbyOp(node, GetValue(kw, "by")))
  }

  /** `is_data_method`: a groupby is chained onto a data frame. */
  function IsDataMethod(op: GroupbyOp): (r: bool)
    ensures r
  {
    true
  }

  /** `to_pyspark()` */
  function ToPyspark(op: GroupbyOp): (text: string)
    ensures |text| > 8 && text[..8] == "groupBy(" && text[|text| - 1] == ')'
    ensures text[8..|text| - 1] == Str(op.byArg)
  {
    "groupBy(" + Str(op.byArg) + ")"
  }

  lemma NamesDistinct()
    ensures DistinctNames(PositionalArgsName)
  {
  }

  /** The first positional value is `by`, whatever the keyword arguments say. */
  lemma PositionalBy(first: Value, rest: seq<Value>, keywordArgs: Option<Dict>)
    ensures NewGroupbyOp(PyList([first] + rest), keywordArgs).Success?
    ensures NewGroupbyOp(PyList([first] + rest), keywordArgs).value.byArg == first
  {
    var node := NewOperationNode(FunctionName, PyList([first] + rest), keywordArgs, DefaultTargetOps);
    NamesDistinct();
    MergedBindsPositionals(node.storedKeywordArgs, PositionalArgsName, [first] + rest, 0);
  }

  /** Without positional values `by` is the keyword `by`, or None. */
  lemma KeywordBy(positionalArgs: Value, keywordArgs: Dict)
    requires !Truthy(positionalArgs)
    ensures NewGroupbyOp(positionalArgs, Some(keywordArgs)).Success?
    ensures Get(keywordArgs, "by").Some? ==>
              NewGroupbyOp(positionalArgs, Some(keywordArgs)).value.byArg == Get(keywordArgs, "by").value
    ensures Get(keywordArgs, "by").None? ==>
              NewGroupbyOp(positionalArgs, Some(keywordArgs)).value.byArg == PyNone
  {
  }

  /** With no arguments at all, `by` is None and the rendering says so. */
  lemma AbsentBy()
    ensures NewGroupbyOp(PyNone, None) == Success(GroupbyOp(OperationNode(FunctionName, PyList([]), [], PyDict([])), PyNone))
    ensures ToPyspark(NewGroupbyOp(PyNone, None).value) == "groupBy(None)"
  {
  }

  /** The constructor raises exactly when the positional value is a truthy
      value that cannot be iterated (a non-zero int or True). */
  lemma ConstructionFails(positionalArgs: Value, keywordArgs: Option<Dict>)
    ensures NewGroupbyOp(positionalArgs, keywordArgs).Failure? <==>
              Truthy(positionalArgs) && (positionalArgs.PyInt? || positionalArgs.PyBool?)
  {
  }

  /** `groupby("a")` renders as `groupBy(a)`: a string is substituted
      without quotes. */
  lemma RenderColumn(column: string)
    ensures ToPyspark(NewGroupbyOp(PyList([PyStr(column)]), None).value) == "groupBy(" + column + ")"
  {
    PositionalBy(PyStr(column), [], None);
  }

  /** `groupby(["a", "b"])` renders the list display of the quoted
      column names. */
  lemma RenderColumnList(a: string, b: string)
    requires PlainString(a) && PlainString(b)
    ensures ToPyspark(NewGroupbyOp(PyList([StrList([a, b])]), None).value) == "groupBy(['" + a + "', '" + b + "'])"
  {
    var columns := StrList([a, b]);
    PositionalBy(columns, [], None);
    assert [columns] + [] == [columns];
    var op := NewGroupbyOp(PyList([columns]), None).value;
    assert op.byArg == columns;
    ReprTwoPlain(a, b);
    assert Str(columns) == "['" + a + "', '" + b + "']";
  }

  /** The `register_op()` decorator rejects the class for lacking
      `pandas_name`, and `create_ops` would call its constructor with no
      arguments. */
  lemma NotRegistrable(reg: BuildOps.Registry, positional: Value, keyword: Value, targetOps: Value)
    ensures BuildOps.Register(reg, Class) == (Failure(AttributeError("pandas_name")), reg)
    ensures BuildOps.CallFor(Class, positional, keyword, targetOps) == BuildOps.NoArguments
    ensures forall name :: name in reg && reg[name] == Class ==>
      BuildOps.CreateOps(reg, name, positional, keyword, targetOps) == Failure(TypeError)
  {
    BuildOps.FunctionArgsConstructorGetsNoArguments(positional, keyword, targetOps);
    forall name | name in reg && reg[name] == Class
      ensures BuildOps.CreateOps(reg, name, positional, keyword, targetOps) == Failure(TypeError)
    {
      BuildOps.FunctionArgsConstructorRaises(reg, name, positional, keyword, targetOps);
    }
  }
}
