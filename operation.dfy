/** The base of every operation node (hammer/logical_plan/operations/operation.py):
    the stored call arguments and the keyword view that folds positional
    arguments into keyword form by the parameter names of the concrete
    operation. */
module OperationBase {
  import opened Results
  import opened PyValues

  /** What an `OperationNode` stores after its constructor ran. */
  datatype OperationNode = OperationNode(
    functionName: string,
    positionalArgs: Value,
    storedKeywordArgs: Dict,
    targetOps: Value)

  /** The `target_ops` default of the constructor, an empty dict. */
  const DefaultTargetOps: Value := PyDict([])

  /** `OperationNode(function_name, function_positional_args, function_keyword_args, target_ops=...)`:
      falsy positional arguments (None among them) become `[]`, a missing
      keyword dict becomes `{}`, and the name and `target_ops` are kept. */
  function NewOperationNode(functionName: string, positionalArgs: Value, keywordArgs: Option<Dict>, targetOps: Value)
    : (n: OperationNode)
    ensures n.functionName == functionName && n.targetOps == targetOps
    ensures Truthy(positionalArgs) ==> n.positionalArgs == positionalArgs
    ensures !Truthy(positionalArgs) ==> n.positionalArgs == PyList([])
    ensures keywordArgs.Some? ==> n.storedKeywordArgs == keywordArgs.value
    ensures keywordArgs.None? ==> n.storedKeywordArgs == []
  {
    OperationNode(functionName, Or(positionalArgs, PyList([])), keywordArgs.GetOr([]), targetOps)
  }

  /** The defaults: absent arguments give an empty list and an empty dict. */
  lemma ConstructorDefaults(functionName: string)
    ensures NewOperationNode(functionName, PyNone, None, DefaultTargetOps)
         == OperationNode(functionName, PyList([]), [], PyDict([]))
  {
  }

  /** The keyword view built by `for name, value in zip(names, items):
      keyword_args[name] = value`, starting from `kw`. */
  function ZipMerge(kw: Dict, names: seq<string>, items: seq<Value>): Dict
    decreases |names|
  {
    if names == [] || items == [] then kw
    else ZipMerge(Set(kw, names[0], items[0]), names[1..], items[1..])
  }

  /** The `function_keyword_args` property for an operation whose
      `positional_args_name` is `names`. `zip` iterates the positional
      arguments even when `names` is empty, so a non-iterable value raises. */
  function MergedKeywordArgs(names: seq<string>, node: OperationNode): Result<Dict> {
    match Iterate(node.positionalArgs)
    case None => Failure(TypeError)
    case Some(items) => Success(ZipMerge(node.storedKeywordArgs, names, items))
  }

  /** The property as written: a copy of the stored dict updated in a loop
      over `zip`. It has no `modifies` clause, so the stored dict is left
      alone. */
  method FunctionKeywordArgs(names: seq<string>, node: OperationNode) returns (r: Result<Dict>)
    ensures r == MergedKeywordArgs(names, node)
  {
    var iterated := Iterate(node.positionalArgs);
    if iterated.None? {
      return Failure(TypeError);
    }
    var items := iterated.value;
    var keywordArgs := node.storedKeywordArgs;
    var i := 0;
    while i < |names| && i < |items|
      invariant 0 <= i <= |names| && i <= |items|
      invariant ZipMerge(keywordArgs, names[i..], items[i..]) == ZipMerge(node.storedKeywordArgs, names, items)
    {
      assert names[i..][1..] == names[i + 1..] && items[i..][1..] == items[i + 1..];
      keywordArgs := Set(keywordArgs, names[i], items[i]);
      i := i + 1;
    }
    assert names[i..] == [] || items[i..] == [];
    r := Success(keywordArgs);
  }

  /** The names `zip` pairs with a value: the first min(|names|, |items|). */
  function ZippedNames(names: seq<string>, items: seq<Value>): set<string> {
    set i | 0 <= i < |names| && i < |items| :: names[i]
  }

  lemma ZippedNamesTail(names: seq<string>, items: seq<Value>)
    requires names != [] && items != []
    ensures ZippedNames(names, items) == {names[0]} + ZippedNames(names[1..], items[1..])
  {
    var tail := ZippedNames(names[1..], items[1..]);
    forall x | x in ZippedNames(names, items) ensures x in {names[0]} + tail {
      var i :| 0 <= i < |names| && i < |items| && names[i] == x;
      if i > 0 { assert names[1..][i - 1] == x; }
    }
    forall x | x in tail ensures x in ZippedNames(names, items) {
      var i :| 0 <= i < |names| - 1 && i < |items| - 1 && names[1..][i] == x;
      assert names[i + 1] == x;
    }
  }

  /** The merged view holds every stored key and every zipped name, and
      nothing else. */
  lemma {:induction false} MergedKeys(kw: Dict, names: seq<string>, items: seq<Value>)
    ensures Keys(ZipMerge(kw, names, items)) == Keys(kw) + ZippedNames(names, items)
    decreases |names|
  {
    if names != [] && items != [] {
      ZippedNamesTail(names, items);
      MergedKeys(Set(kw, names[0], items[0]), names[1..], items[1..]);
    }
  }

  /** A key no positional value is zipped to keeps its stored value. */
  lemma {:induction false} MergedUnzippedKey(kw: Dict, names: seq<string>, items: seq<Value>, k: string)
    requires k !in ZippedNames(names, items)
    ensures Get(ZipMerge(kw, names, items), k) == Get(kw, k)
    decreases |names|
  {
    if names != [] && items != [] {
      ZippedNamesTail(names, items);
      MergedUnzippedKey(Set(kw, names[0], items[0]), names[1..], items[1..], k);
    }
  }

  /** The i-th positional value wins over a keyword argument of the same
      name (and over nothing else: a later repetition of the name would
      win instead). */
  lemma {:induction false} MergedPositionalWins(kw: Dict, names: seq<string>, items: seq<Value>, i: nat)
    requires i < |names| && i < |items|
    requires names[i] !in ZippedNames(names[i + 1..], items[i + 1..])
    ensures Get(ZipMerge(kw, names, items), names[i]) == Some(items[i])
    decreases |names|
  {
    if i == 0 {
      MergedUnzippedKey(Set(kw, names[0], items[0]), names[1..], items[1..], names[0]);
    } else {
      assert names[1..][i - 1..] == names[i..] && items[1..][i - 1..] == items[i..];
      assert names[1..][i - 1 + 1..] == names[i + 1..] && items[1..][i - 1 + 1..] == items[i + 1..];
      MergedPositionalWins(Set(kw, names[0], items[0]), names[1..], items[1..], i - 1);
    }
  }

  /** Parameter names without repetitions. */
  predicate DistinctNames(names: seq<string>) {
    forall a, b :: 0 <= a < b < |names| ==> names[a] != names[b]
  }

  /** With distinct parameter names, every name zipped with a positional
      value maps to that value in the merged view. */
  lemma MergedBindsPositionals(kw: Dict, names: seq<string>, items: seq<Value>, i: nat)
    requires DistinctNames(names)
    requires i < |names| && i < |items|
    ensures Get(ZipMerge(kw, names, items), names[i]) == Some(items[i])
  {
    MergedPositionalWins(kw, names, items, i);
  }

  /** Surplus names or surplus values are dropped: only the first
      min(|names|, |items|) pairs matter. */
  lemma {:induction false} MergedTruncates(kw: Dict, names: seq<string>, items: seq<Value>, m: nat)
    requires m <= |names| && m <= |items| && (m == |names| || m == |items|)
    ensures ZipMerge(kw, names, items) == ZipMerge(kw, names[..m], items[..m])
    decreases m
  {
    if m > 0 {
      assert names[..m][1..] == names[1..][..m - 1] && items[..m][1..] == items[1..][..m - 1];
      MergedTruncates(Set(kw, names[0], items[0]), names[1..], items[1..], m - 1);
    }
  }

  /** With no positional parameter names the merged view is the stored dict. */
  lemma MergedWithoutNames(node: OperationNode)
    requires Iterate(node.positionalArgs).Some?
    ensures MergedKeywordArgs([], node) == Success(node.storedKeywordArgs)
  {
  }

  /** The merge never fails on a list of positional values. */
  lemma MergedOnList(names: seq<string>, node: OperationNode)
    requires node.positionalArgs.PyList?
    ensures MergedKeywordArgs(names, node).Success?
  {
  }

  /** Distinct keys stay distinct in the merged view. */
  lemma {:induction false} MergedDistinct(kw: Dict, names: seq<string>, items: seq<Value>)
    requires DistinctKeys(kw)
    ensures DistinctKeys(ZipMerge(kw, names, items))
    decreases |names|
  {
    if names != [] && items != [] {
      SetDistinct(kw, names[0], items[0]);
      MergedDistinct(Set(kw, names[0], items[0]), names[1..], items[1..]);
    }
  }

  /** `repr(op)`: the class name and the merged keyword view. */
  function ReprOperation(className: string, names: seq<string>, node: OperationNode): (r: Result<string>)
    ensures r.Success? <==> MergedKeywordArgs(names, node).Success?
  {
    var kw :- MergedKeywordArgs(names, node);
    Success(className + "(" + Repr(PyDict(kw)) + ")")
  }

  /** The base `to_pyspark` and `to_dask`: not implemented. */
  function Unimplemented(node: OperationNode): (r: Result<string>)
    ensures r == Failure(NotImplementedError)
  {
    Failure(NotImplementedError)
  }
}
