/** `SumOp` (hammer/logical_plan/operations/agg_ops.py): a sum aggregation
    over an `Operation` base; which `Operation` that is, is discussed in
    README.md. */
module AggOps {
  import opened Results
  import opened PyValues
  import opened Nodes

  const PandasName := "sum"


  datatype SumOp = SumOp(base: Operation)

  /** `SumOp(pandas_params, target_ops=..., engine=...)`: the base is built
      with its default engine, which the constructor then overwrites with
      its own `engine` argument. */
  function NewSumOp(pandasParams: Value, targetOps: Value, engine: string): (op: SumOp)
    ensures op.base.pandasName == PandasName && op.base.engine == engine && op.base.targetOps == targetOps
    ensures op.base.pandasParams == Or(pandasParams, PyDict([]))
  {
    SumOp(NewOperation(PandasName, pandasParams, targetOps, DefaultEngine).(engine := engine))
  }

  /** `SumOp(pandas_params)`: `target_ops` None and engine "pandas". */
  function NewDefaultSumOp(pandasParams: Value): (op: SumOp)
    ensures op == NewSumOp(pandasParams, PyNone, "pandas")
  {
    NewSumOp(pandasParams, PyNone, DefaultEngine)
  }

  /** The `positional_args_name` property: a sum takes no positional
      arguments. */
  function PositionalArgsName(op: SumOp): (names: seq<string>)
    ensures |names| == 0
  {
    []
  }

  /** `to_pyspark()` */
  function ToPyspark(op: SumOp): (text: string)
    ensures text == "sum()"
  {
    "sum()"
  }

  /** `is_data_method` is not defined on this class or its base. */
  function IsDataMethod(op: SumOp): (r: Result<bool>)
    ensures r == Failure(AttributeError("is_data_method"))
  {
    Failure(AttributeError("is_data_method"))
  }

  /** The rendering does not depend on the parameters, target or engine. */
  lemma RenderingIsConstant(p1: Value, t1: Value, e1: string, p2: Value, t2: Value, e2: string)
    ensures ToPyspark(NewSumOp(p1, t1, e1)) == ToPyspark(NewSumOp(p2, t2, e2)) == "sum()"
  {
  }

  lemma Defaults(pandasParams: Value)
    ensures NewDefaultSumOp(pandasParams).base.engine == "pandas"
    ensures NewDefaultSumOp(pandasParams).base.targetOps == PyNone
    ensures NewDefaultSumOp(PyNone).base.pandasParams == PyDict([])
  {
  }

  /** A given engine is kept, not the base's default. */
  lemma EngineKept(pandasParams: Value, targetOps: Value, engine: string)
    ensures NewSumOp(pandasParams, targetOps, engine).base.engine == engine
  {
  }
}
