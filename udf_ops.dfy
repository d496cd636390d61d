/** `UserDefinedFunctionOp` (hammer/logical_plan/operations/udf_ops.py): a
    user function with its source block and call arguments. The class is
    not decorated with `register_op()`, so the factory never sees it. */
module UdfOps {
  import opened Results
  import opened PyStrings
  import opened PyValues
  import opened OperationBase

  const FunctionName := "udf"

  const PositionalArgsName: seq<string> := []

  datatype UdfOp = UdfOp(node: OperationNode, udfName: string, udfBlock: string, args: seq<Value>, kwargs: Dict)

  /** `UserDefinedFunctionOp(udf_name, udf_block, *args, **kwargs)`: the
      base receives None for both argument collections. */
  function NewUdfOp(udfName: string, udfBlock: string, args: seq<Value>, kwargs: Dict): (op: UdfOp)
    ensures op.node == NewOperationNode(FunctionName, PyNone, None, DefaultTargetOps)
    ensures op.udfName == udfName && op.udfBlock == udfBlock && op.args == args && op.kwargs == kwargs
  {
    UdfOp(NewOperationNode(FunctionName, PyNone, None, DefaultTargetOps), udfName, udfBlock, args, kwargs)
  }

  /** `is_data_method`: a user function is not chained onto a data frame. */
  function IsDataMethod(op: UdfOp): (r: bool)
    ensures !r
  {
    false
  }

  /** `register_udf()` */
  function RegisterUdf(op: UdfOp): (text: string)
    ensures |text| == 5 + |op.udfBlock| && text[..5] == "@udf\n" && text[5..] == op.udfBlock
  {
    "@udf\n" + op.udfBlock
  }

  /** The strings `",".join(args)` joins; it raises `TypeError` on the first
      argument that is not a string. */
  function StrArgs(args: seq<Value>): (r: Result<seq<string>>)
    ensures r.Success? <==> forall i :: 0 <= i < |args| ==> args[i].PyStr?
    ensures r.Success? ==> |r.value| == |args| && forall i :: 0 <= i < |args| ==> r.value[i] == args[i].s
    ensures r.Failure? ==> r.error == TypeError
  {
    if args == [] then Success([])
    else if !args[0].PyStr? then Failure(TypeError)
    else
      match StrArgs(args[1..])
      case Failure(e) => Failure(e)
      case Success(rest) => Success([args[0].s] + rest)
  }

  /** The `name=value` texts of the keyword arguments, in insertion order. */
  function KwargTexts(kwargs: Dict): (r: seq<string>)
    ensures |r| == |kwargs|
    ensures forall i :: 0 <= i < |kwargs| ==> r[i] == kwargs[i].key + "=" + Str(kwargs[i].value)
  {
    if kwargs == [] then []
    else [kwargs[0].key + "=" + Str(kwargs[0].value)] + KwargTexts(kwargs[1..])
  }

  /** `to_pyspark()` */
  function ToPyspark(op: UdfOp): Result<string> {
    var positional :- if op.args != [] then
        match StrArgs(op.args)
        case Failure(e) => Failure(e)
        case Success(strs) => Success(Join(strs, ","))
      else Success("");
    var text := if op.kwargs != [] then positional + Join(KwargTexts(op.kwargs), ",") else positional;
    Success(if text != "" then op.udfName + "(" + text + ")" else op.udfName + "()")
  }

  /** The base stores no arguments: an empty positional list and dict. */
  lemma BaseHoldsNoArguments(udfName: string, udfBlock: string, args: seq<Value>, kwargs: Dict)
    ensures NewUdfOp(udfName, udfBlock, args, kwargs).node == OperationNode(FunctionName, PyList([]), [], PyDict([]))
    ensures MergedKeywordArgs(PositionalArgsName, NewUdfOp(udfName, udfBlock, args, kwargs).node) == Success([])
  {
  }

  /** With no arguments the call is `name()`. */
  lemma RenderWithoutArguments(udfName: string, udfBlock: string)
    ensures ToPyspark(NewUdfOp(udfName, udfBlock, [], [])) == Success(udfName + "()")
  {
  }

  /** String arguments and keyword arguments: the positional part joined by
      ",", then the keyword part joined by ",", with nothing in between. */
  lemma RenderArguments(udfName: string, udfBlock: string, args: seq<string>, kwargs: Dict)
    ensures var values := seq(|args|, i requires 0 <= i < |args| => PyStr(args[i]));
      ToPyspark(NewUdfOp(udfName, udfBlock, values, kwargs))
      == Success(
           var text := (if args != [] then Join(args, ",") else "") + (if kwargs != [] then Join(KwargTexts(kwargs), ",") else "");
           if text != "" then udfName + "(" + text + ")" else udfName + "()")
  {
    var values := seq(|args|, i requires 0 <= i < |args| => PyStr(args[i]));
    var op := NewUdfOp(udfName, udfBlock, values, kwargs);
    var positional := if args != [] then Join(args, ",") else "";
    if args != [] {
      var r := StrArgs(values);
      assert r.Success?;
      assert r.value == args;
    }
    var text := if kwargs != [] then positional + Join(KwargTexts(kwargs), ",") else positional;
    assert positional + "" == positional;
    assert ToPyspark(op) == Success(if text != "" then udfName + "(" + text + ")" else udfName + "()");
  }

  /** A non-string positional argument makes the rendering raise. */
  lemma NonStringArgument(udfName: string, udfBlock: string, args: seq<Value>, kwargs: Dict, i: nat)
    requires i < |args| && !args[i].PyStr?
    ensures ToPyspark(NewUdfOp(udfName, udfBlock, args, kwargs)) == Failure(TypeError)
  {
  }

  /** `f("a", "b", x=1)` renders as `f(a,bx=1)`. */
  lemma RenderExample()
    ensures ToPyspark(NewUdfOp("f", "def f(a, b, x): ...", [PyStr("a"), PyStr("b")], [Entry("x", PyInt(1))]))
         == Success("f(a,bx=1)")
  {
    var op := NewUdfOp("f", "def f(a, b, x): ...", [PyStr("a"), PyStr("b")], [Entry("x", PyInt(1))]);
    var r := StrArgs(op.args);
    assert r.Success? && r.value[0] == "a" && r.value[1] == "b";
    assert r.value == ["a", "b"];
    assert Join(["a", "b"], ",") == "a,b";
    assert Str(PyInt(1)) == "1";
    var kw := KwargTexts(op.kwargs);
    assert kw[0] == "x" + "=" + "1" == "x=1";
    assert kw == ["x=1"];
    assert "a,b" + "x=1" == "a,bx=1";
    assert "f" + "(" + "a,bx=1" + ")" == "f(a,bx=1)";
  }
}
