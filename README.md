# hammer logical plan, pandas parser and schema utilities in Dafny

This project models the core of hammer, a feature platform. Three layers:

- **The logical-plan layer.** It has four parts:
  - *The operation catalogue*: the `OperationNode` base and its keyword view, the operation registry and the `create_ops` factory, and the concrete `groupby`, `loc`/`select`, `pd.read_csv`, `sum` and user-defined-function operations with their Spark renderings.
  - *The plan's values*: the `DataNode` and `Node` records with their `repr`.
  - *The plan graph* `DAG`: a name-keyed directed graph with networkx semantics.
  - *The pandas parser* `PandasParser`: it walks the Python AST of each line of pandas code and records data nodes, operation nodes and edges on a plan.
- **The schema utilities.** The `TableSchema` string and list parsers, the `Datatype` pandas-type table and its inversion, `Field`'s delegation, and the `init_schema` dispatcher.
- **The source utilities.** The ClickHouse type table and its `Nullable(...)` unwrapping, the `BatchSource` SQL text builder, and the `Entity` value type.

## How the model is built

Python values are a `Value` datatype with Python truthiness (`PyValues`):
- a dict is an insertion-ordered list of entries with string keys;
- `repr`/`str` produce Python's display text.

Exceptions are the `Failure` side of a `Result` (`Results`). The paths on which the modelled code raises are failures with their exception kind. The exceptions are the ones listed under "## Left out". Examples:
- indexing an empty list;
- a failed `assert`;
- a missing attribute;
- a `TypeError` from `zip` or `join`;
- a constructor call whose arguments do not bind to its signature;
- unpacking `None`.

Code that changes state step by step is imperative Dafny, proved against a specification function:

| Source | Model |
|---|---|
| `DAG` | class `LogicalPlan.DAG` with node-order, attribute and successor fields; each method's new state is a function of the old one |
| registry | class `BuildOps.OperationRegistry` |
| `BatchSource`'s cache | class `BatchSources.BatchSource` |
| `PandasParser` | class `PandasParsing.PandasParser`, whose methods append to a log of plan calls |
| `function_keyword_args` | loop method `OperationBase.FunctionKeywordArgs` |
| `from_list` and `from_string` | loop methods `Schema.FromList` and `Schema.FromString` |

Pure code is pure functions with lemmas. `ast.walk` is the breadth-first `PandasAst.Walk` over an AST datatype.

The parser calls a plan API that the shown `DAG` does not have: `add_edge`, a five-argument `add_operation_node`, `_get_datanodes` and `_get_operation_nodes`. So the parser is modelled against an abstract plan:
- every call it makes is appended to a log;
- `has_node` and the two path queries are functions of that log, passed in as parameters;
- the chainable method names, the supported file suffixes and Python's `ast.parse` are parameters too.

The registry is modelled over class descriptors: the class name, whether the class has a `pandas_name` attribute, and the signature of its constructor (each parameter's name, kind and whether it has a default). `create_ops` picks a call shape from the parameter names and then binds the arguments to the signature as Python does; a call that cannot bind raises `TypeError`. Two consequences:
- None of the shown operation classes has a `pandas_name` attribute (they define `function_name`), so decorating them raises.
- Their constructors take a required `function_positional_args`, which `create_ops` does not look for. The factory calls them with no arguments, and that call raises `TypeError`.

Both are stated as lemmas.

## Model

| member | source | states |
|---|---|---|
| Results.MapResultsItems | hammer/schema/schema.py:27-34 | an element-by-element loop that succeeds has one result per element, each the element's own result |
| Results.MapResultsSucceeds | hammer/schema/schema.py:27-34 | an element-by-element loop succeeds iff every element succeeds |
| Results.MapResultsError | hammer/schema/schema.py:27-34 | when every failing element raises the same exception, the loop raises that exception |
| Results.ConcatResultsSucceeds | hammer/schema/schema.py:27-34 | a concatenating loop succeeds iff every element succeeds |
| PyStrings.StripLeftSpec | hammer/schema/schema.py:30 | `lstrip` removes exactly the longest whitespace prefix |
| PyStrings.StripRightSpec | hammer/schema/schema.py:30 | `rstrip` removes exactly the longest whitespace suffix |
| PyStrings.Strip | hammer/schema/schema.py:30 | definition; `StripStripped` and `StripIdempotent` state it |
| PyStrings.StripStripped | hammer/schema/schema.py:30 | `strip()` leaves no whitespace at either end |
| PyStrings.StripLeftPadded | hammer/schema/schema.py:51 | whitespace before a non-space start is removed and nothing else |
| PyStrings.StripRightPadded | hammer/schema/schema.py:51 | whitespace after a non-space end is removed and nothing else |
| PyStrings.StripPadded | hammer/schema/schema.py:51-52 | stripping whitespace padding gives back the stripped text inside |
| PyStrings.StripIdempotent | hammer/logical_plan/pandas_ast/parser.py:141-144 | stripping twice is stripping once |
| PyStrings.Split | hammer/schema/schema.py:29 | `split(sep)` gives at least one part, no part holds the separator, and joining the parts with it gives back the text |
| PyStrings.Join | hammer/dataset/source/batch.py:11 | definition of `sep.join(parts)`; `Split` and `SplitJoin` prove it inverts `split` |
| PyStrings.StartsWith | hammer/logical_plan/pandas_ast/parser.py:41 | definition: `p` is a prefix of `s` |
| PyStrings.SplitJoin | hammer/schema/schema.py:50 | splitting a join of separator-free parts gives back the parts |
| PyStrings.SplitAfter | hammer/schema/schema.py:50 | splitting text that starts with a separator-free part gives that part first |
| PyStrings.SplitTrailing | hammer/schema/schema.py:50 | a trailing separator adds one empty part |
| PyStrings.NatToString | hammer/logical_plan/operations/udf_ops.py:33 | the decimal text of a natural number is digits without a leading zero |
| PyStrings.ParseNatToString | hammer/logical_plan/operations/udf_ops.py:33 | the decimal text reads back to the number |
| PyStrings.IntToStringRoundTrip | hammer/logical_plan/operations/udf_ops.py:33 | `str(i)` of any integer reads back, a minus sign marking negatives |
| PyValues.Or | hammer/logical_plan/operations/operation.py:15-16 | definition: `v or d` is `v` when truthy, `d` otherwise |
| PyValues.Truthy | hammer/logical_plan/operations/operation.py:15-16 | definition of `bool(v)`; `Or` states how `or` uses it |
| PyValues.Iterate | hammer/logical_plan/operations/operation.py:35 | lists iterate their items and strings their characters; None, booleans and ints raise |
| PyValues.Get | hammer/logical_plan/operations/groupby_ops.py:17 | lookup finds a key iff the dict holds it, with a value stored under that key |
| PyValues.GetValue | hammer/logical_plan/operations/groupby_ops.py:17 | `.get(k)` is the stored value, None for an absent key |
| PyValues.Set | hammer/logical_plan/operations/operation.py:36 | `d[k] = v` adds `k`, maps it to `v` and leaves every other key's value |
| PyValues.SetExistingKey | hammer/logical_plan/operations/operation.py:36 | overwriting a present key keeps the dict's size and key order |
| PyValues.SetNewKey | hammer/logical_plan/operations/operation.py:36 | a new key is appended at the end |
| PyValues.SetDistinct | hammer/logical_plan/operations/operation.py:36 | assignment keeps keys distinct |
| PyValues.KeysCons | hammer/logical_plan/operations/operation.py:34 | the keys of a dict with a leading entry are that key and the rest's keys |
| PyValues.Repr | hammer/logical_plan/operations/select_ops.py:32 | definition of `repr`; `ReprStringRoundTrip` and `ReprPlainList` state it for strings and string lists |
| PyValues.ReprString | hammer/logical_plan/operations/select_ops.py:32 | a string's repr is enclosed in the quote Python chooses for it |
| PyValues.UnescapeChar | hammer/logical_plan/operations/select_ops.py:32 | each escaped character reads back to itself |
| PyValues.UnescapeBody | hammer/logical_plan/operations/select_ops.py:32 | an escaped body reads back to the string |
| PyValues.ReprStringRoundTrip | hammer/logical_plan/operations/select_ops.py:32 | the repr of any string reads back to the string |
| PyValues.EscapePlainBody | hammer/logical_plan/operations/select_ops.py:32 | a plain string needs no escapes |
| PyValues.ReprPlainString | hammer/logical_plan/operations/select_ops.py:32 | a plain string's repr is the string in single quotes |
| PyValues.QuotedAll | hammer/logical_plan/operations/select_ops.py:32 | each column is quoted in place |
| PyValues.ReprPlainList | hammer/logical_plan/operations/select_ops.py:32 | a list of plain strings displays as `[` the quoted strings joined by `, ` `]` |
| PyValues.ReprPlainItems | hammer/logical_plan/operations/select_ops.py:32 | the items of that display are the quoted strings joined by `, ` |
| PyValues.ReprTwoPlain | hammer/logical_plan/operations/select_ops.py:32 | worked example: `['a', 'b']` for two plain strings |
| PyValues.Str | hammer/logical_plan/operations/groupby_ops.py:28 | definition: an f-string substitutes a string as itself and anything else as its repr |
| ReprFields.ReadFieldWritten | hammer/logical_plan/data_node.py:24-25 | a comma-free `tag=value, ` field reads back to its value and the rest of the text |
| ReprFields.ReadLastWritten | hammer/logical_plan/data_node.py:24-25 | the closing `tag=value)` field reads back to its value |
| DataNodes.NewDataNode | hammer/logical_plan/data_node.py:4-22 | definition: the name is stored verbatim; a missing data type or source becomes "", given ones are kept |
| DataNodes.Defaults | hammer/logical_plan/data_node.py:20-22 | `DataNode("")` has empty name, data type and source |
| DataNodes.ReprDataNode | hammer/logical_plan/data_node.py:24-25 | definition; `ReprRoundTrip` and `ReprInjective` prove the text reads back to the node |
| DataNodes.ReprRoundTrip | hammer/logical_plan/data_node.py:24-25 | the repr `DataNode(name=N, data_type=T, source=S)` reads back to the node when N and T hold no comma |
| DataNodes.ReprInjective | hammer/logical_plan/data_node.py:24-25 | two such nodes with the same repr are the same node |
| Nodes.NewOperation | hammer/logical_plan/node.py:7-18 | definition: name, target ops and engine are kept; falsy params become `{}` |
| Nodes.ReprOperation | hammer/logical_plan/node.py:20-21 | definition: the abstract `params` property returns None, so the repr is the class name around "None" |
| Nodes.Unimplemented | hammer/logical_plan/node.py:33-37 | definition: `to_pyspark` and `to_dask` of `Operation` raise `NotImplementedError` |
| Nodes.OperationDefaults | hammer/logical_plan/node.py:12-18 | absent params give `{}`, target ops `{}`, engine "pandas" |
| Nodes.NewNode | hammer/logical_plan/node.py:40-73 | definition: the four text fields become "" and params `{}` when missing; `input_nodes=None` becomes `{}` while the omitted default keeps the `field(...)` object; name and output are kept |
| Nodes.NodeDefaults | hammer/logical_plan/node.py:66-73 | a node given only its name has empty fields, `{}` params and, with `input_nodes=None`, `{}` inputs |
| Nodes.ReprNode | hammer/logical_plan/node.py:75-78 | definition; `DataReprRoundTrip`, `ShownNodeTypeIsBranch` and `DataReprIgnoresOperationFields` state what the text shows |
| Nodes.DataReprRoundTrip | hammer/logical_plan/node.py:76-77 | a data node's repr reads back to its name, data type and source |
| Nodes.ShownNodeTypeIsBranch | hammer/logical_plan/node.py:75-78 | the repr shows `node_type=data` exactly for data nodes and `node_type=op` for every other node |
| Nodes.ShownData | hammer/logical_plan/node.py:76-77 | a data node's repr shows `node_type=data` |
| Nodes.ShownOp | hammer/logical_plan/node.py:78 | any other node's repr shows `node_type=op`, still labelled `DataNode` |
| Nodes.DataReprIgnoresOperationFields | hammer/logical_plan/node.py:76-77 | a data node's repr does not depend on params, inputs or output |
| Nodes.UntypedNodeRepr | hammer/logical_plan/node.py:78 | a node with no type shows `node_type=op, params={}, input_nodes={}, output_node=None` |
| OperationBase.NewOperationNode | hammer/logical_plan/operations/operation.py:6-17 | definition: falsy positional args become `[]`, a missing keyword dict `{}`; name and target ops are kept |
| OperationBase.ConstructorDefaults | hammer/logical_plan/operations/operation.py:9-16 | absent arguments give `[]`, `{}` and target ops `{}` |
| OperationBase.FunctionKeywordArgs | hammer/logical_plan/operations/operation.py:32-37 | the copy-and-update loop over `zip` computes exactly the merged view, a `TypeError` for a non-iterable positional value |
| OperationBase.ZippedNamesTail | hammer/logical_plan/operations/operation.py:35 | the names `zip` pairs are the first name and the names zipped from the rest |
| OperationBase.MergedKeys | hammer/logical_plan/operations/operation.py:34-36 | the merged view's keys are all stored keys plus the zipped names, nothing else |
| OperationBase.MergedUnzippedKey | hammer/logical_plan/operations/operation.py:34-36 | a key not zipped with a positional value keeps its stored value |
| OperationBase.MergedPositionalWins | hammer/logical_plan/operations/operation.py:35-36 | the i-th positional value overrides a keyword of the same name unless a later name repeats it |
| OperationBase.MergedBindsPositionals | hammer/logical_plan/operations/operation.py:35-36 | with distinct names, `merged[names[i]] == positional[i]` for every zipped i |
| OperationBase.MergedTruncates | hammer/logical_plan/operations/operation.py:35 | surplus names or surplus values are dropped |
| OperationBase.MergedWithoutNames | hammer/logical_plan/operations/operation.py:33-37 | with no parameter names the merged view is the stored dict |
| OperationBase.MergedOnList | hammer/logical_plan/operations/operation.py:35 | a list of positional values never makes the merge raise |
| OperationBase.MergedDistinct | hammer/logical_plan/operations/operation.py:34-36 | the merged view has distinct keys when the stored dict does |
| OperationBase.ReprOperation | hammer/logical_plan/operations/operation.py:19-20 | `repr` succeeds exactly when the merged view can be formed |
| OperationBase.Unimplemented | hammer/logical_plan/operations/operation.py:39-43 | definition: base `to_pyspark` and `to_dask` raise `NotImplementedError` |
| BuildOps.Register | hammer/logical_plan/operations/build_ops.py:7-15 | the decorator applied to a class descriptor, as a function from the registry before to the result and the registry after |
| BuildOps.OperationRegistry.constructor | hammer/logical_plan/operations/build_ops.py:4 | the registry starts empty |
| BuildOps.OperationRegistry.RegisterOp | hammer/logical_plan/operations/build_ops.py:7-15 | the decorator on the module registry: the result and the new registry are `Register`'s; a class without `pandas_name` raises and changes nothing |
| BuildOps.RegisterWithoutPandasName | hammer/logical_plan/operations/build_ops.py:9-10 | no `pandas_name`: `AttributeError` and an unchanged registry |
| BuildOps.RegisterStores | hammer/logical_plan/operations/build_ops.py:12-13 | the class is returned unchanged and stored under its `pandas_name`, every other entry kept |
| BuildOps.RegisterLastWins | hammer/logical_plan/operations/build_ops.py:12 | a second class under the same name replaces the first |
| BuildOps.Dispatch | hammer/logical_plan/operations/build_ops.py:29-42 | each constructor call shape passes exactly the arguments of its branch; `target_ops` only in the first |
| BuildOps.DispatchShapes | hammer/logical_plan/operations/build_ops.py:29-42 | each of the five shapes is chosen iff its parameter test is the first to hold |
| BuildOps.ParamNames | hammer/logical_plan/operations/build_ops.py:29 | the names of `inspect.signature(cls).parameters` are exactly the names in the signature |
| BuildOps.PositionalSlots | hammer/logical_plan/operations/build_ops.py:32-42 | the slots positional arguments fill are the positional-or-keyword parameters of the signature, and all of them |
| BuildOps.CreateOps | hammer/logical_plan/operations/build_ops.py:18-42 | an unregistered name raises `ValueError` naming it and the registry; a registered one fails iff its constructor cannot bind the dispatched call, and then with `TypeError`; otherwise that class is instantiated with the dispatched call; the registry is only read |
| BuildOps.UnregisteredMessage | hammer/logical_plan/operations/build_ops.py:25-27 | the error lists exactly the registered names, which exclude the requested one |
| BuildOps.FunctionArgsConstructorGetsNoArguments | hammer/logical_plan/operations/build_ops.py:29-42 | a constructor taking `function_positional_args` and `function_keyword_args` matches no branch but the last and is called with no arguments |
| BuildOps.UnsuppliedParameterRaises | hammer/logical_plan/operations/build_ops.py:32-42 | a parameter without a default that the dispatched call binds neither positionally nor by keyword makes `create_ops` raise `TypeError` |
| BuildOps.FunctionArgsConstructorRaises | hammer/logical_plan/operations/build_ops.py:40-42 | a registered class with the `(function_positional_args, function_keyword_args=None)` constructor can never be created: `create_ops` raises `TypeError` |
| BuildOps.FactorySignatureCreates | hammer/logical_plan/operations/build_ops.py:32-33 | a class with the constructor `(pandas_positional_args, pandas_keyword_args=None, *, target_ops=None)` is created with all three arguments |
| BuildOps.RegisterThenCreate | hammer/logical_plan/operations/build_ops.py:12-42 | after registering a class, creating it by its name instantiates that class with the dispatched call when its constructor accepts it, and raises `TypeError` otherwise |
| AggOps.NewSumOp | hammer/logical_plan/operations/agg_ops.py:7-15 | definition: name "sum", falsy params `{}`, target ops and engine as given |
| AggOps.NewDefaultSumOp | hammer/logical_plan/operations/agg_ops.py:7-15 | `SumOp(pandas_params)` is the full constructor with `target_ops` None and engine "pandas" |
| AggOps.PositionalArgsName | hammer/logical_plan/operations/agg_ops.py:17-19 | a sum names no positional arguments |
| AggOps.ToPyspark | hammer/logical_plan/operations/agg_ops.py:21-22 | the text is "sum()" for every operation |
| AggOps.IsDataMethod | hammer/logical_plan/operations/agg_ops.py:6-22 | `is_data_method` is defined neither on `SumOp` nor on its base, so reading it raises |
| AggOps.RenderingIsConstant | hammer/logical_plan/operations/agg_ops.py:21-22 | `to_pyspark()` is "sum()" whatever the params, target ops or engine |
| AggOps.Defaults | hammer/logical_plan/operations/agg_ops.py:10-15 | engine defaults to "pandas", target ops to None, params to `{}` |
| AggOps.EngineKept | hammer/logical_plan/operations/agg_ops.py:15 | the engine given is the engine stored, overriding the base default |
| GroupbyOps.NewGroupbyOp | hammer/logical_plan/operations/groupby_ops.py:11-17 | the base gets "groupby" and the arguments; the constructor raises exactly when the merged view does |
| GroupbyOps.IsDataMethod | hammer/logical_plan/operations/groupby_ops.py:19-21 | `is_data_method` is always True: a groupby is chained onto a data frame |
| GroupbyOps.ToPyspark | hammer/logical_plan/operations/groupby_ops.py:27-28 | the text is `groupBy(` and `)` around the f-string text of `by`; `RenderColumn` and `RenderColumnList` give it for a column and a column list |
| GroupbyOps.NamesDistinct | hammer/logical_plan/operations/groupby_ops.py:23-25 | the eight parameter names are distinct |
| GroupbyOps.PositionalBy | hammer/logical_plan/operations/groupby_ops.py:17 | the first positional value is `by`, over any keyword `by` |
| GroupbyOps.KeywordBy | hammer/logical_plan/operations/groupby_ops.py:17 | without positional values `by` is the keyword `by`, or None |
| GroupbyOps.AbsentBy | hammer/logical_plan/operations/groupby_ops.py:17-28 | with no arguments `by` is None and the rendering is `groupBy(None)` |
| GroupbyOps.ConstructionFails | hammer/logical_plan/operations/groupby_ops.py:17 | construction raises iff the positional value is a truthy int or boolean |
| GroupbyOps.RenderColumn | hammer/logical_plan/operations/groupby_ops.py:27-28 | `groupby("c")` renders `groupBy(c)` |
| GroupbyOps.RenderColumnList | hammer/logical_plan/operations/groupby_ops.py:27-28 | `groupby(["a", "b"])` renders `groupBy(['a', 'b'])` |
| GroupbyOps.NotRegistrable | hammer/logical_plan/operations/groupby_ops.py:7-15 | decorating the class raises for want of `pandas_name`; `create_ops` calls it with no arguments, and on any registry holding it that call raises `TypeError` |
| SelectOps.NewSelection | hammer/logical_plan/operations/select_ops.py:11-21 | definition: a string positional value becomes a one-element column list, anything else is the column list |
| SelectOps.NewLocOp | hammer/logical_plan/operations/select_ops.py:8-21 | the base gets "loc" and the arguments; the columns are those `SelectOp` selects from the same arguments |
| SelectOps.NewSelectOp | hammer/logical_plan/operations/select_ops.py:36-49 | the base gets "select" and the arguments; the columns are those `LocOp` selects from the same arguments |
| SelectOps.IsDataMethod | hammer/logical_plan/operations/select_ops.py:23-25 | `is_data_method` of both classes is always True |
| SelectOps.ToPyspark | hammer/logical_plan/operations/select_ops.py:31-32 | the text is `select(` and `)` around the f-string text of the column list |
| SelectOps.SingleColumn | hammer/logical_plan/operations/select_ops.py:45-49 | a non-empty column name becomes `[name]` |
| SelectOps.EmptyColumnName | hammer/logical_plan/operations/select_ops.py:44-49 | the empty name is falsy, so it becomes `[]` and renders `select([])` |
| SelectOps.ColumnList | hammer/logical_plan/operations/select_ops.py:45-49 | a non-empty list is kept as it is |
| SelectOps.LocMatchesSelect | hammer/logical_plan/operations/select_ops.py:8-60 | `LocOp` and `SelectOp` give the same columns and rendering, differing only in name |
| SelectOps.MergedIsKeywordArgs | hammer/logical_plan/operations/select_ops.py:55-57 | the merged view is the keyword dict, raising only for a non-iterable positional value |
| SelectOps.RenderColumns | hammer/logical_plan/operations/select_ops.py:59-60 | plain columns render `select([` quoted names joined by `, ` `])` |
| SelectOps.RenderTwoColumns | hammer/logical_plan/operations/select_ops.py:59-60 | worked example: `select(['a', 'b'])` |
| SelectOps.NotRegistrable | hammer/logical_plan/operations/select_ops.py:7-15 | decorating either class raises for want of `pandas_name`, and on any registry holding either of them `create_ops` raises `TypeError` |
| IoOps.NewReadcsvOp | hammer/logical_plan/operations/io_ops.py:12-18 | the base gets "pd.read_csv"; construction raises exactly when the merged view does |
| IoOps.IsDataMethod | hammer/logical_plan/operations/io_ops.py:20-22 | `is_data_method` is always False: reading a file starts a chain |
| IoOps.ToPyspark | hammer/logical_plan/operations/io_ops.py:28-29 | definition; `RenderPath` and `RenderWithoutPath` give the load text for a given and a missing path |
| IoOps.PositionalPath | hammer/logical_plan/operations/io_ops.py:18-26 | the first positional value is the file path |
| IoOps.KeywordPath | hammer/logical_plan/operations/io_ops.py:18 | without positional values the path is the keyword `filepath_or_buffer`, or None |
| IoOps.RenderPath | hammer/logical_plan/operations/io_ops.py:28-29 | a path renders unquoted in `spark.read.load(p, format="csv", header=True)` |
| IoOps.RenderWithoutPath | hammer/logical_plan/operations/io_ops.py:18-29 | with no path, None is loaded |
| IoOps.NotRegistrable | hammer/logical_plan/operations/io_ops.py:7-16 | decorating the class raises for want of `pandas_name`, and on any registry holding it `create_ops` raises `TypeError` |
| UdfOps.StrArgs | hammer/logical_plan/operations/udf_ops.py:30 | `join` succeeds iff every argument is a string, giving those strings; otherwise `TypeError` |
| UdfOps.KwargTexts | hammer/logical_plan/operations/udf_ops.py:33 | one `name=value` text per keyword argument, in insertion order |
| UdfOps.NewUdfOp | hammer/logical_plan/operations/udf_ops.py:9-14 | the base gets "udf" and no arguments; name, block, `*args` and `**kwargs` are stored as given |
| UdfOps.IsDataMethod | hammer/logical_plan/operations/udf_ops.py:16-18 | `is_data_method` is always False |
| UdfOps.RegisterUdf | hammer/logical_plan/operations/udf_ops.py:24-25 | the text is "@udf" and a newline followed by the block unchanged |
| UdfOps.ToPyspark | hammer/logical_plan/operations/udf_ops.py:27-35 | definition; `RenderWithoutArguments`, `RenderArguments` and `NonStringArgument` state its result for no arguments, string arguments and a non-string argument |
| UdfOps.BaseHoldsNoArguments | hammer/logical_plan/operations/udf_ops.py:9-14 | the base stores name "udf", `[]` and `{}`, whatever the call arguments |
| UdfOps.RenderWithoutArguments | hammer/logical_plan/operations/udf_ops.py:27-35 | no arguments render `name()` |
| UdfOps.RenderArguments | hammer/logical_plan/operations/udf_ops.py:27-35 | positional texts joined by ",", then keyword texts joined by ",", with no separator between the two parts |
| UdfOps.NonStringArgument | hammer/logical_plan/operations/udf_ops.py:30 | a non-string positional argument makes the rendering raise `TypeError` |
| UdfOps.RenderExample | hammer/logical_plan/operations/udf_ops.py:27-35 | worked example: `f("a", "b", x=1)` renders `f(a,bx=1)` |
| LogicalPlan.InputSources | hammer/logical_plan/logical_plan.py:38-46 | a dict of inputs gives its values in order |
| LogicalPlan.EmptyGraphIsEmpty | hammer/logical_plan/logical_plan.py:10-12 | the new graph is well formed with no node and no edge |
| LogicalPlan.AddNode | hammer/logical_plan/logical_plan.py:22 | definition of networkx `add_node`; `AddNodeEffect` states its effect |
| LogicalPlan.AddEdge | hammer/logical_plan/logical_plan.py:43 | definition of networkx `add_edge`; `AddEdgeWellFormed`, `AddEdgeEdges` and `AddEdgeAttrs` state its effect |
| LogicalPlan.AddOperation | hammer/logical_plan/logical_plan.py:33-48 | definition; `AddOperationWellFormed`, `AddOperationEdges` and `AddOperationAttrs` state its effect |
| LogicalPlan.ReprGraph | hammer/logical_plan/logical_plan.py:59-60 | definition; `EdgeListMembers` and `EdgeListIsEdges` prove the edge list is the graph's edges |
| LogicalPlan.AddNodeEffect | hammer/logical_plan/logical_plan.py:22 | `add_node` sets the attributes, keeps every edge, and appends the name only when it is new |
| LogicalPlan.EnsureNodeEffect | hammer/logical_plan/logical_plan.py:43 | creating a missing endpoint keeps the graph well formed and its edges unchanged |
| LogicalPlan.EnsureNodeAttrs | hammer/logical_plan/logical_plan.py:43 | a missing endpoint is added with no attributes; present nodes keep theirs |
| LogicalPlan.AppendFresh | hammer/logical_plan/logical_plan.py:22 | appending a new name keeps node names distinct |
| LogicalPlan.AppendEdge | hammer/logical_plan/logical_plan.py:43 | appending a new successor keeps the graph well formed |
| LogicalPlan.AddEdgeWellFormed | hammer/logical_plan/logical_plan.py:43 | `add_edge` keeps the graph well formed |
| LogicalPlan.AddEdgeEdges | hammer/logical_plan/logical_plan.py:43 | `add_edge(u, v)` adds exactly the edge u→v; edges form a set |
| LogicalPlan.AddEdgeAttrs | hammer/logical_plan/logical_plan.py:43 | both endpoints become nodes, new ones without attributes, present ones unchanged |
| LogicalPlan.AddEdgesToWellFormed | hammer/logical_plan/logical_plan.py:41-46 | the input loop keeps the graph well formed |
| LogicalPlan.AddEdgesToEdges | hammer/logical_plan/logical_plan.py:41-46 | the input loop adds exactly one edge from each input into the operation |
| LogicalPlan.AddEdgesToAttrs | hammer/logical_plan/logical_plan.py:41-46 | every input becomes a node; present nodes keep their attributes |
| LogicalPlan.AddOperationWellFormed | hammer/logical_plan/logical_plan.py:33-48 | `add_operation_node` keeps the graph well formed |
| LogicalPlan.AddOperationEdges | hammer/logical_plan/logical_plan.py:33-48 | the edges after the call are the old ones, input→op for every input, and op→output |
| LogicalPlan.AddOperationAttrs | hammer/logical_plan/logical_plan.py:33-48 | the op node has type "op" and its operation object; inputs and output are nodes; other nodes keep their attributes |
| LogicalPlan.SameNameTwice | hammer/logical_plan/logical_plan.py:33-37 | two calls with one name give one node, the second object, and the union of the edges |
| LogicalPlan.DictInputsUseValues | hammer/logical_plan/logical_plan.py:44-46 | dict inputs draw edges from the values, not the keys |
| LogicalPlan.StringInputIsSingletonList | hammer/logical_plan/logical_plan.py:38-39 | a string input is a one-element list |
| LogicalPlan.EdgeListMembers | hammer/logical_plan/logical_plan.py:59-60 | the listed edges are exactly the successor pairs of the listed nodes |
| LogicalPlan.EdgeListIsEdges | hammer/logical_plan/logical_plan.py:59-60 | `repr` lists exactly the graph's edges |
| LogicalPlan.DAG.constructor | hammer/logical_plan/logical_plan.py:10-12 | `DAG()` is the empty graph |
| LogicalPlan.DAG.SetModel | hammer/logical_plan/logical_plan.py:12 | the fields hold the given graph |
| LogicalPlan.DAG.AddNodeWith | hammer/logical_plan/logical_plan.py:22 | `graph.add_node` in place equals `AddNode` on the old graph and keeps it well formed |
| LogicalPlan.DAG.AddEdgeBetween | hammer/logical_plan/logical_plan.py:43 | `graph.add_edge` in place equals `AddEdge` on the old graph |
| LogicalPlan.DAG.AddDataNode | hammer/logical_plan/logical_plan.py:14-22 | the in-place `add_node` of a node with type "data" and a data `Node` payload; re-adding a name overwrites its attributes |
| LogicalPlan.DAG.AddOperationNode | hammer/logical_plan/logical_plan.py:24-48 | the operation object is `create_ops`'s; if that raises (an unknown name, or a constructor that cannot bind its arguments) the graph is unchanged, otherwise it equals `AddOperation` on the old graph |
| LogicalPlan.DAG.AddEdgesInto | hammer/logical_plan/logical_plan.py:41-46 | the input loop in place equals `AddEdgesTo` on the old graph |
| LogicalPlan.DAG.GetItem | hammer/logical_plan/logical_plan.py:62-63 | `dag[n]` is None iff the node is absent, otherwise its attributes |
| LogicalPlan.DAG.HasNodeNamed | hammer/logical_plan/logical_plan.py:65-66 | `has_node(n)` holds iff n is among the graph's nodes |
| LogicalPlan.DAG.Repr | hammer/logical_plan/logical_plan.py:59-60 | definition: the repr of the current graph by `ReprGraph` |
| LogicalPlan.DAG.ToPyspark | hammer/logical_plan/logical_plan.py:68-70 | raises `NotImplementedError` |
| PandasAst.Walk | hammer/logical_plan/pandas_ast/parser.py:125 | definition of `ast.walk` as a breadth-first queue; `WalkQueueLength`, `WalkQueuePrefix` and `WalkStartsWithChildren` state its order and length |
| PandasAst.SizeAllAppend | hammer/logical_plan/pandas_ast/parser.py:125-126 | node counts add over concatenation |
| PandasAst.ChildrenSize | hammer/logical_plan/pandas_ast/parser.py:126 | a node is one larger than its children together |
| PandasAst.WalkQueueLength | hammer/logical_plan/pandas_ast/parser.py:125 | `ast.walk` yields as many nodes as the tree has |
| PandasAst.WalkQueuePrefix | hammer/logical_plan/pandas_ast/parser.py:125 | the walk starts with the pending queue in order |
| PandasAst.WalkStartsWithChildren | hammer/logical_plan/pandas_ast/parser.py:125-126 | the walk visits the root, then its children in field order |
| PandasAst.WalkModule | hammer/logical_plan/pandas_ast/parser.py:123-125 | a module's walk starts with the module and its statements |
| PandasAst.WalkQueueStep | hammer/logical_plan/pandas_ast/parser.py:125-126 | one breadth-first step: yield the head, enqueue its children |
| PandasAst.WalkAssignedCall | hammer/logical_plan/pandas_ast/parser.py:125-126 | `y = df.m()` is walked as module, assignment, `y`, call, attribute, `df` |
| PandasAst.WalkCallChain | hammer/logical_plan/pandas_ast/parser.py:125-126 | the walk of the call `df.m()` after its queue |
| PandasParsing.ArgValue | hammer/logical_plan/pandas_ast/parser.py:94-100 | definition: the literal of a constant, the id of a name, None otherwise |
| PandasParsing.ArgValues | hammer/logical_plan/pandas_ast/parser.py:63 | one argument value per argument, in order |
| PandasParsing.FuncName | hammer/logical_plan/pandas_ast/parser.py:78-92 | definition: the attribute name, the id of a name, or None |
| PandasParsing.SourceValue | hammer/logical_plan/pandas_ast/parser.py:102-112 | only a constant's source can be other than a string or None |
| PandasParsing.PutKw | hammer/logical_plan/pandas_ast/parser.py:64 | a comprehension entry binds its key and leaves the others |
| PandasParsing.KeywordEntries | hammer/logical_plan/pandas_ast/parser.py:64 | collecting keywords raises iff some keyword node is malformed |
| PandasParsing.Present | hammer/logical_plan/pandas_ast/parser.py:68 | the inputs are exactly the arguments that are plan nodes |
| PandasParsing.CodeLines | hammer/logical_plan/pandas_ast/parser.py:141 | the lines are the parts of the stripped code split at newlines |
| PandasParsing.UpdateNodeName | hammer/logical_plan/pandas_ast/parser.py:39-43 | definition; `UpdateNodeNameIff` and `UpdateNodeNameIdempotent` state it |
| PandasParsing.AssignStep | hammer/logical_plan/pandas_ast/parser.py:45-57 | definition; `AssignFromExpression`, `AssignFromString` and `AssignFromOtherLiteral` state its cases |
| PandasParsing.CallStep | hammer/logical_plan/pandas_ast/parser.py:59-69 | definition; `CallInputs` and `CallWithoutName` state its cases |
| PandasParsing.NodeStep | hammer/logical_plan/pandas_ast/parser.py:128-133 | definition; `NodeStepAppends` and `AssignWithoutBindingRaises` state it |
| PandasParsing.ParseLineSpec | hammer/logical_plan/pandas_ast/parser.py:121-137 | definition; `SyntaxErrorRaises` and `WalkLineStops` state it |
| PandasParsing.ParseLines | hammer/logical_plan/pandas_ast/parser.py:139-146 | definition; `ParseLinesNext`, `ParseLinesStops`, `ParseLinesAppends` and `BlankLinesSkipped` state it |
| PandasParsing.PandasParser.constructor | hammer/logical_plan/pandas_ast/parser.py:10-13 | a single start name becomes a one-element list; the plan starts empty |
| PandasParsing.PandasParser.GetFuncName | hammer/logical_plan/pandas_ast/parser.py:78-92 | the name, after logging any chain edge |
| PandasParsing.PandasParser.GetSource | hammer/logical_plan/pandas_ast/parser.py:102-112 | the provenance value, after the callee's chain edge |
| PandasParsing.PandasParser.VisitAssign | hammer/logical_plan/pandas_ast/parser.py:45-57 | the binding and plan calls of the assignment step |
| PandasParsing.PandasParser.VisitCall | hammer/logical_plan/pandas_ast/parser.py:59-69 | the outcome and plan calls of the call step |
| PandasParsing.PandasParser.VisitSubscript | hammer/logical_plan/pandas_ast/parser.py:71-76 | a select node on the subscript's column and source |
| PandasParsing.PandasParser.VisitNode | hammer/logical_plan/pandas_ast/parser.py:128-133 | one turn of the walk loop is the node step |
| PandasParsing.PandasParser.ParseLine | hammer/logical_plan/pandas_ast/parser.py:121-137 | the walk loop over the parsed line equals the line specification, including the unbound-local error after a syntax error |
| PandasParsing.PandasParser.ParseOneLine | hammer/logical_plan/pandas_ast/parser.py:142-146 | one line of `parse`: skip blanks, parse, add the source→variable edge |
| PandasParsing.PandasParser.ParseAll | hammer/logical_plan/pandas_ast/parser.py:142-146 | the line loop equals `ParseLines` |
| PandasParsing.PandasParser.Parse | hammer/logical_plan/pandas_ast/parser.py:139-146 | `parse(code)` equals `ParseLines` over the stripped, newline-split code |
| PandasParsing.PandasParser.GetMainNodes | hammer/logical_plan/pandas_ast/parser.py:15-37 | a kind other than "data"/"op" raises; otherwise the set of nodes the query finds from any start node, filtered by a non-empty prefix |
| PandasParsing.PathNodes | hammer/logical_plan/pandas_ast/parser.py:21-31 | the comprehension holds exactly the nodes found from some start node |
| PandasParsing.EndName | hammer/logical_plan/pandas_ast/parser.py:19 | definition: a non-empty given end name, else the parser's own |
| PandasParsing.WalkLineStops | hammer/logical_plan/pandas_ast/parser.py:125-137 | once a step raises, the rest of the walk is skipped |
| PandasParsing.WalkLineSnoc | hammer/logical_plan/pandas_ast/parser.py:125-133 | walking one more node is one more node step, unless the walk already raised |
| PandasParsing.WalkLineNext | hammer/logical_plan/pandas_ast/parser.py:125-133 | the walk up to node i+1 is the node step on the walk up to i |
| PandasParsing.ParseLinesNext | hammer/logical_plan/pandas_ast/parser.py:142-146 | parsing up to line i+1 is the line step on parsing up to i |
| PandasParsing.ParseLinesStops | hammer/logical_plan/pandas_ast/parser.py:142-146 | once a line raises, later lines are not parsed |
| PandasParsing.UpdateNodeNameIff | hammer/logical_plan/pandas_ast/parser.py:39-43 | the name gains "pd." iff it starts with "read_"; otherwise it is unchanged |
| PandasParsing.UpdateNodeNameIdempotent | hammer/logical_plan/pandas_ast/parser.py:39-43 | renaming twice is renaming once |
| PandasParsing.ChainEdgeCases | hammer/logical_plan/pandas_ast/parser.py:80-88 | at most one edge; obj→attr for a chainable attribute on a name, select→attr on a subscript, none otherwise |
| PandasParsing.SourceCases | hammer/logical_plan/pandas_ast/parser.py:102-112 | callee name, id, literal, "select" or None, with plan calls only for calls |
| PandasParsing.AssignFromExpression | hammer/logical_plan/pandas_ast/parser.py:51-54 | a non-constant source adds a "memory" node and binds the renamed source |
| PandasParsing.AssignFromString | hammer/logical_plan/pandas_ast/parser.py:55-57 | a supported suffix adds an "io" node with that source; any other string adds nothing but is still bound |
| PandasParsing.AssignFromOtherLiteral | hammer/logical_plan/pandas_ast/parser.py:55 | a truthy non-string literal has no `endswith` and raises |
| PandasParsing.AssignWithoutBindingRaises | hammer/logical_plan/pandas_ast/parser.py:129 | an assignment returning None cannot be unpacked: `TypeError`, after the source's plan calls |
| PandasParsing.CallInputs | hammer/logical_plan/pandas_ast/parser.py:61-69 | the call node comes after the chain edge, and its inputs are exactly the argument values that are plan nodes |
| PandasParsing.CallWithoutName | hammer/logical_plan/pandas_ast/parser.py:61-62 | a callee without a name makes renaming raise |
| PandasParsing.NodeStepAppends | hammer/logical_plan/pandas_ast/parser.py:128-133 | a node step only appends plan calls |
| PandasParsing.WalkLineAppends | hammer/logical_plan/pandas_ast/parser.py:125-133 | a line's walk only appends plan calls |
| PandasParsing.ParseLinesAppends | hammer/logical_plan/pandas_ast/parser.py:142-146 | parsing only appends plan calls |
| PandasParsing.LineStepAppends | hammer/logical_plan/pandas_ast/parser.py:143-146 | a line step only appends plan calls |
| PandasParsing.BlankLinesSkipped | hammer/logical_plan/pandas_ast/parser.py:143 | blank lines make no plan call |
| PandasParsing.SyntaxErrorRaises | hammer/logical_plan/pandas_ast/parser.py:123-137 | a line that fails `ast.parse` raises `UnboundLocalError` instead of being skipped |
| PandasParsing.AssignmentLineAddsEdge | hammer/logical_plan/pandas_ast/parser.py:144-146 | after an assignment line, `parse` adds the edge source→variable |
| PandasParsing.WalkChainedAssignmentCalls | hammer/logical_plan/pandas_ast/parser.py:45-69 | walking `y = df.m()` logs the chain edge, the memory node for y, the chain edge again and the call node, in that order |
| PandasParsing.AssignVisit | hammer/logical_plan/pandas_ast/parser.py:45-57 | the assignment visit of `y = df.m()` logs the chain edge and the memory node |
| PandasParsing.CallVisit | hammer/logical_plan/pandas_ast/parser.py:59-69 | the call visit of `df.m()` logs the chain edge and an input-less call node |
| PandasParsing.ChainedAssignmentSpec | hammer/logical_plan/pandas_ast/parser.py:121-134 | the line `y = df.m()` binds y to the renamed m after those four calls |
| PandasParsing.ChainedAssignmentLine | hammer/logical_plan/pandas_ast/parser.py:139-146 | `parse` of that line records the four calls and then the edge m→y |
| Dtype.DictOf | hammer/schema/dtype.py:6-18 | a dict display holds exactly the listed keys |
| Dtype.Flip | hammer/schema/dtype.py:20 | definition: the inversion swaps each pair |
| Dtype.DictOfLookup | hammer/schema/dtype.py:6-20 | with distinct keys, each key maps to its own value |
| Dtype.ToNumpy | hammer/schema/dtype.py:27-28 | the result is a listed type or `np.str_` |
| Dtype.FromNumpy | hammer/schema/dtype.py:30-31 | the result is a listed name or "str" |
| Dtype.ToTorch | hammer/schema/dtype.py:33-34 | definition: raises `NotImplementedError` |
| Dtype.FromTorch | hammer/schema/dtype.py:36-37 | definition: raises `NotImplementedError` |
| Dtype.MappingKeysDistinct | hammer/schema/dtype.py:6-18 | the eleven names are distinct |
| Dtype.MappingValuesDistinct | hammer/schema/dtype.py:6-18 | the eleven mapped types are distinct |
| Dtype.ToNumpyListed | hammer/schema/dtype.py:27-28 | each listed name maps to the type beside it |
| Dtype.ToNumpyUnlisted | hammer/schema/dtype.py:28 | an unlisted name maps to `np.str_` |
| Dtype.FromNumpyToNumpy | hammer/schema/dtype.py:20-31 | `from_numpy(to_numpy(n)) == n` for listed names, "str" otherwise, on any receiver |
| Dtype.FromNumpyUnmapped | hammer/schema/dtype.py:30-31 | an unmapped object gives "str" |
| Fields.NewField | hammer/schema/field.py:7-11 | definition: `tag` defaults to None |
| Fields.FieldToNumpy | hammer/schema/field.py:13-14 | definition: delegates to `dtype.to_numpy()`; a string dtype has no such method |
| Fields.FieldFromNumpy | hammer/schema/field.py:16-17 | definition: delegates to `dtype.from_numpy(o)`; a string dtype has no such method |
| Fields.FieldToTorch | hammer/schema/field.py:19-20 | definition: always raises |
| Fields.FieldFromTorch | hammer/schema/field.py:22-23 | definition: always raises |
| Fields.FieldRoundTrip | hammer/schema/field.py:13-17 | a field's numpy conversion reads back to its listed type name |
| Fields.ConversionsIgnoreNameAndTag | hammer/schema/field.py:13-17 | conversions depend on the dtype alone |
| Schema.Names | hammer/schema/schema.py:11-13 | definition: the field names in order |
| Schema.Len | hammer/schema/schema.py:19-21 | definition; `NamesLen` relates it to the names |
| Schema.GetItem | hammer/schema/schema.py:15-17 | Python indexing, negative from the end, `IndexError` out of range |
| Schema.NamesLen | hammer/schema/schema.py:11-21 | `len` is the number of names, and `schema[i].name == names[i]` |
| Schema.AppendDictFields | hammer/schema/schema.py:28-34 | the inner loop appends one field per item or raises on a non-string value |
| Schema.FromList | hammer/schema/schema.py:24-35 | the nested loops compute the list specification |
| Schema.FromListSpec | hammer/schema/schema.py:24-35 | definition; `FromListErrors` and `ListFieldsSucceed` state when it raises and what it reads |
| Schema.DictFieldsStops | hammer/schema/schema.py:28-34 | after a failing item the rest of the dict is not read |
| Schema.ListFieldsStops | hammer/schema/schema.py:27-34 | after a failing element the rest of the list is not read |
| Schema.SegmentsToDicts | hammer/schema/schema.py:50-53 | the segment loop computes the segment specification |
| Schema.FromString | hammer/schema/schema.py:38-54 | the method computes the string specification |
| Schema.FromStringSpec | hammer/schema/schema.py:38-54 | definition; `FromStringSucceeds`, `FromStringFields` and `TrailingSemicolonRaises` state when it raises and what it reads |
| Schema.SegmentDictsStops | hammer/schema/schema.py:50-53 | after a failing segment the rest is not read |
| Schema.FieldOfParts | hammer/schema/schema.py:29-34 | the dtype is the first ","-part stripped; the tag is the second stripped iff there are exactly two parts |
| Schema.DictFieldsMap | hammer/schema/schema.py:28-34 | a dict's fields are its items' fields, item by item |
| Schema.DictFieldsSucceed | hammer/schema/schema.py:29 | a dict is read iff every value is a string, otherwise `split` is missing |
| Schema.DictFieldsItems | hammer/schema/schema.py:28-34 | one field per item, in order, named by the key |
| Schema.ListFieldsConcat | hammer/schema/schema.py:27-34 | the list's fields are its elements' fields concatenated |
| Schema.ListFieldsSucceed | hammer/schema/schema.py:27-34 | the list is read iff every element is a dict of strings |
| Schema.FromListErrors | hammer/schema/schema.py:24-35 | an empty list raises `IndexError`, a non-dict first element `AssertionError`; it succeeds iff every element is readable |
| Schema.ListFieldsSingletons | hammer/schema/schema.py:27-34 | one-item dicts give one field each, in order |
| Schema.SplitSeveral | hammer/schema/schema.py:52 | splitting gives a second part iff the separator occurs |
| Schema.SegmentDictsSucceed | hammer/schema/schema.py:50-53 | the segments are read iff each holds ":", otherwise `IndexError` |
| Schema.SegmentDictsMap | hammer/schema/schema.py:50-53 | segments are read one by one |
| Schema.SegmentDictsItems | hammer/schema/schema.py:50-53 | each segment gives `{name: dtype}` from its stripped parts |
| Schema.FromStringSucceeds | hammer/schema/schema.py:47-54 | no ":" or no ";" is an `AssertionError`; otherwise success iff every segment holds ":", else `IndexError` |
| Schema.SegmentFields | hammer/schema/schema.py:50-54 | the segments' dicts give one field per segment, in order |
| Schema.FromStringFields | hammer/schema/schema.py:50-54 | a parsed schema has one field per ";"-segment, each that segment's field |
| Schema.TrailingSemicolonRaises | hammer/schema/schema.py:52 | a trailing ";" leaves an empty segment and raises `IndexError` |
| Schema.FieldOfTagged | hammer/schema/schema.py:29-34 | `"t, g"` gives dtype t and tag g |
| Schema.FieldOfUntagged | hammer/schema/schema.py:29-34 | `"t"` gives dtype t and no tag |
| Schema.SegmentOf | hammer/schema/schema.py:51-53 | a segment `name: type` with leading spaces gives that name and type |
| Schema.JoinStartsWith | hammer/schema/schema.py:50 | helper for `Schema.FromStringSegments`: a join starts with its first part |
| Schema.FromStringSegments | hammer/schema/schema.py:47-54 | joined well-formed segments parse to one field per segment |
| Schema.SegmentTagged | hammer/schema/schema.py:50-53 | a tagged segment reads to its name, dtype and tag |
| Schema.SegmentUntagged | hammer/schema/schema.py:50-53 | an untagged segment reads to its name and dtype |
| Schema.FromStringReads | hammer/schema/schema.py:47-54 | joined segments parse to exactly the schema of their fields |
| Schema.ThreeSegments | hammer/schema/schema.py:42 | three segments parse to their three fields |
| Schema.FirstSegment | hammer/schema/schema.py:42 | worked example: `N: t, g` reads as a tagged field |
| Schema.SpacedTaggedSegment | hammer/schema/schema.py:42 | ` N: t, g` reads as a tagged field |
| Schema.SpacedUntaggedSegment | hammer/schema/schema.py:42 | ` N: t` reads as an untagged field |
| Schema.FromStringThreeFields | hammer/schema/schema.py:42 | the documented shape `A: t, g; B: t, g; C: t` gives three fields, tagged, tagged and untagged |
| InitSchema.Init | hammer/utils/schema.py:8-18 | a string goes to `from_string`, a schema is returned, a `Field` list is wrapped, an empty list raises `IndexError`, anything else `ValueError` with the type name |
| InitSchema.InitIdempotent | hammer/utils/schema.py:15-16 | `init_schema` of its own result gives the same result |
| InitSchema.StringListRaises | hammer/utils/schema.py:9-10 | a list of strings reaches `from_list`, whose assertion fails |
| InitSchema.ValueListsRaise | hammer/utils/schema.py:9-18 | no list of plain values is accepted; a list of dicts raises `ValueError` |
| InitSchema.InitText | hammer/utils/schema.py:13-14 | accepted text gives one field per segment |
| ClickHouseTypes.Lookup | hammer/dataset/source/clickhouse.py:58 | definition: the table's type, `str` for names it lacks |
| ClickHouseTypes.SignedIntegers | hammer/schema/clickhouse.py:8-11 | Int8..Int64 map to same-width signed numpy ints |
| ClickHouseTypes.UnsignedIntegers | hammer/schema/clickhouse.py:14-17 | UInt8..UInt64 map to same-width unsigned numpy ints |
| ClickHouseTypes.WideIntegers | hammer/schema/clickhouse.py:12-19 | the 128- and 256-bit integers map to Python `int` |
| ClickHouseTypes.Widths | hammer/schema/clickhouse.py:4-29 | every numpy integer in the table is 8 to 64 bits wide, every float 16 to 64 |
| ClickHouseTypes.Dates | hammer/schema/clickhouse.py:24-26 | DateTime, Date and the key "DateTime64(N)" map to "datetime" |
| ClickHouseTypes.DateTime64Precisions | hammer/schema/clickhouse.py:26 | a real precision such as "DateTime64(3)", or none, falls back to `str` |
| ClickHouseTypes.OtherKinds | hammer/schema/clickhouse.py:6-28 | String and FixedString map to `str`, BFloat16 as Float16, Enum8/16 to int8/16 |
| ClickHouseSource.ToPandasDtype | hammer/dataset/source/clickhouse.py:54-58 | only a `Nullable` name can raise, and then `IndexError`; any other name is looked up as it is |
| ClickHouseSource.PlainName | hammer/dataset/source/clickhouse.py:58 | a name without the prefix is looked up as given |
| ClickHouseSource.NullableUnwraps | hammer/dataset/source/clickhouse.py:56-58 | `Nullable(T)` resolves as T for a parenthesis-free T |
| ClickHouseSource.NestedArgumentDropped | hammer/dataset/source/clickhouse.py:57 | `Nullable(A(B))` resolves as A, so `Nullable(DateTime64(3))` gives `str` |
| ClickHouseSource.NullableWithoutParenthesis | hammer/dataset/source/clickhouse.py:57 | a "Nullable" prefix without "(" raises `IndexError` |
| BatchSources.Aliases | hammer/dataset/source/batch.py:11 | definition: one `k as v` per mapping pair, in order |
| BatchSources.FetchSql | hammer/dataset/source/batch.py:7-20 | the query is the select, from and where clauses in order |
| BatchSources.BatchSource.constructor | hammer/dataset/source/batch.py:7 | the settings are stored and the cache is empty |
| BatchSources.BatchSource.FetchDataSql | hammer/dataset/source/batch.py:5-22 | the first read builds and caches the query; later reads return the cache; no setting changes |
| BatchSources.PostgresQualified | hammer/dataset/source/batch.py:13-17 | `from db.public.t` iff the infra type is "postgres", else `from db.t` |
| BatchSources.SelectEverything | hammer/dataset/source/batch.py:8-10 | an empty mapping and no filter give `select *\nfrom ...` |
| BatchSources.SelectClauseOneLine | hammer/dataset/source/batch.py:8-11 | the projection is one line |
| BatchSources.JoinAvoids | hammer/dataset/source/batch.py:11 | a join holds no character absent from its parts and separator |
| BatchSources.QueryLines | hammer/dataset/source/batch.py:7-20 | the query has two lines, plus a where line iff the filter is truthy |
| BatchSources.FromClauseShape | hammer/dataset/source/batch.py:13-17 | the from clause is one new line |
| BatchSources.WhereClauseShape | hammer/dataset/source/batch.py:19-20 | the where clause is absent or one new line |
| BatchSources.ClauseLines | hammer/dataset/source/batch.py:7-20 | the clauses split into their own lines |
| BatchSources.AliasesInOrder | hammer/dataset/source/batch.py:10-11 | a non-empty mapping gives `select ` and the `k as v` items joined by a bare ",", which split back in order |
| Entities.NewEntity | hammer/dataset/entity.py:13-23 | definition: `name` and `join_keys` read back as given |
| Entities.Equal | hammer/dataset/entity.py:7-11 | definition of the dataclass `==`; `EqualIffSameFields` states it |
| Entities.Hash | hammer/dataset/entity.py:25-26 | definition; `HashAgreesWithEquality` states that it agrees with `==` |
| Entities.HashKey | hammer/dataset/entity.py:25-26 | the hashed pair starts with the name |
| Entities.SetProperty | hammer/dataset/entity.py:17-23 | assigning `name` or `join_keys` raises `AttributeError` naming that property, whatever the value: neither property has a setter |
| Entities.EqualIffSameFields | hammer/dataset/entity.py:7-11 | entities are equal iff name and keys are |
| Entities.HashAgreesWithEquality | hammer/dataset/entity.py:25-26 | equal entities hash alike under any hash function |
| Entities.HashKeyCollisions | hammer/dataset/entity.py:26 | `["a,b"]` and `["a", "b"]` collide, as do `[]` and `[""]` |
| Entities.HashKeyInjective | hammer/dataset/entity.py:26 | for non-empty comma-free keys the pair identifies the entity |

## Left out

- I/O and other plumbing are not part of this model: `DAG.visualize`, the parser's `print` of a syntax error, and the ClickHouse client, `get_schema` and `read`. The model keeps the parser's behaviour after the print.
- `ast.parse` is a parameter. So are the chainable method names, the supported file suffixes, and the plan's `has_node` and path queries. Their definitions are not part of this model.
- The function `create_ops` that `logical_plan.py` imports from its own package is not part of this model. `DAG.AddOperationNode` uses the factory of build_ops.py with the registry as a parameter, called without keyword arguments as `add_operation_node` calls it.
- `BuildOps.CreateOps`: only the binding of the arguments to the constructor's signature is modelled. What the constructor body does once the arguments are bound is not tied to the descriptor; each class's own constructor (`GroupbyOps.NewGroupbyOp` and the others) states that. Positional-only parameters (`/`) are not modelled, since no constructor here has them.
- `AggOps`: agg_ops.py imports `Operation` from the `hammer.logical_plan` package. That package's `__init__.py` imports it from `.operations.operation`, a module that defines only `OperationNode`, so the import fails as written. The model reads `SumOp`'s base as the `Operation` of node.py, the one whose constructor fits the `super().__init__("sum", pandas_params, target_ops=...)` call. The `Operation` of hammer/logical_plan/operation.py takes `(name, params, input_nodes, output_node)` and would not fit it.
- `PandasAst`: expression contexts (`Load`, `Store`) and the `parent` links set during the walk are left out. Only `_get_parent_var` reads those links, and nothing in the parser calls it, so it is left out too.
- `OperationBase.ReprOperation`, `Nodes.NewNode` and every rendering: floats, bytes and other Python objects are not `Value`s. Dict keys are strings only.
- `PyValues.ReprString`: non-ASCII characters are shown unescaped. The model does not follow Python's printable-character table.
- `PandasParsing.KeywordEntries`: a `**value` keyword is kept under the key None. The model does not rebuild what the comprehension would do with it.
- `Dtype` and `ClickHouseTypes`: numpy's type objects are datatype constants, and `np.bool` is taken to exist.
- `InitSchema.Init`: a `Field` list whose later elements are not fields is not modelled.
- `Fields`: the dtype is a `Datatype` or a type name, and nothing else.
- The `DataSource` base that `BatchSource` extends is not part of this model. Its settings are modelled as text, and a `field_mapping` of None is treated as empty.
- `BatchSources.FetchSql`: non-string settings, which the f-string would pass through `str()`, are not modelled.
- `Entities`: the `typeguard` checks are enforced by the types. The number `hash` returns is left abstract.
- The source's worked examples are proved in general form. These include:
  - the documented schema string (`Schema.FromStringThreeFields`);
  - `Nullable(DateTime64(3))` (`ClickHouseSource.NestedArgumentDropped` with `ClickHouseTypes.DateTime64Precisions`);
  - a chained assignment `y = df.m()` (`PandasParsing.ChainedAssignmentLine`).
- The repr of `DataNode` and `Node` is written with small field helpers (`ReprFields.Labelled`). The text they produce is the f-string's text.
