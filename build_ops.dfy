/** The operation registry and factory (hammer/logical_plan/operations/build_ops.py).

    Classes are seen through descriptors: the class name, the `pandas_name`
    class attribute if the class has one, and the parameters of its
    constructor as `inspect.signature` reports them. */
module BuildOps {
  import opened Results
  import opened PyValues

  /** The kinds of parameter a Python signature distinguishes. */
  datatype ParamKind = PositionalOrKeyword | KeywordOnlyParam | VarPositional | VarKeyword

  /** One constructor parameter: its name, its kind, and whether it has a
      default value. */
  datatype Param = Param(name: string, kind: ParamKind, hasDefault: bool)

  datatype ClassDesc = ClassDesc(className: string, pandasName: Option<string>, signature: seq<Param>)

  /** The names in `inspect.signature(cls).parameters`. */
  function ParamNames(signature: seq<Param>): (names: set<string>)
    ensures forall x :: x in names <==> exists i :: 0 <= i < |signature| && signature[i].name == x
  {
    set i | 0 <= i < |signature| :: signature[i].name
  }

  /** `_OPERATION_REGISTRY`: operation name to class. */
  type Registry = map<string, ClassDesc>

  /** The parameter names `create_ops` looks for. */
  const PositionalParam := "pandas_positional_args"
  const KeywordParam := "pandas_keyword_args"
  const TargetOpsParam := "target_ops"

  /** The outcome of the `register_op()` decorator applied to `cls`: the
      decorated class (or the error) and the registry afterwards. */
  function Register(reg: Registry, cls: ClassDesc): (Result<ClassDesc>, Registry) {
    match cls.pandasName
    case None => (Failure(AttributeError("pandas_name")), reg)
    case Some(name) => (Success(cls), reg[name := cls])
  }

  /** The mutable module-level registry. */
  class OperationRegistry {
    var entries: Registry

    constructor ()
      ensures entries == map[]
    {
      entries := map[];
    }

    /** `register_op()(cls)` */
    method RegisterOp(cls: ClassDesc) returns (r: Result<ClassDesc>)
      modifies this
      ensures (r, entries) == Register(old(entries), cls)
      ensures cls.pandasName.None? ==> r.Failure? && entries == old(entries)
    {
      if cls.pandasName.None? {
        return Failure(AttributeError("pandas_name"));
      }
      entries := entries[cls.pandasName.value := cls];
      r := Success(cls);
    }
  }

  /** A class without `pandas_name` is refused and nothing is registered. */
  lemma RegisterWithoutPandasName(reg: Registry, cls: ClassDesc)
    requires cls.pandasName.None?
    ensures Register(reg, cls) == (Failure(AttributeError("pandas_name")), reg)
  {
  }

  /** A class with `pandas_name` is returned unchanged and stored under that
      name; every other entry is kept. */
  lemma RegisterStores(reg: Registry, cls: ClassDesc)
    requires cls.pandasName.Some?
    ensures Register(reg, cls).0 == Success(cls)
    ensures var after := Register(reg, cls).1;
      && after.Keys == reg.Keys + {cls.pandasName.value}
      && after[cls.pandasName.value] == cls
      && forall k :: k in reg && k != cls.pandasName.value ==> after[k] == reg[k]
  {
  }

  /** Registering two classes under one name keeps the second. */
  lemma RegisterLastWins(reg: Registry, first: ClassDesc, second: ClassDesc)
    requires first.pandasName.Some? && second.pandasName == first.pandasName
    ensures Register(Register(reg, first).1, second).1 == reg[first.pandasName.value := second]
  {
  }

  /** How `create_ops` calls the class it found. */
  datatype CtorCall =
    | PositionalKeywordTargets(positional: Value, keyword: Value, targetOps: Value)
    | PositionalKeyword(positional: Value, keyword: Value)
    | PositionalOnly(positional: Value)
      /** The keyword dict, passed in the first positional slot. */
    | KeywordOnly(keyword: Value)
    | NoArguments

  datatype Instantiation = Instantiation(cls: ClassDesc, call: CtorCall)

  /** The branch chain on the constructor's parameter names. */
  function Dispatch(parameters: set<string>, positional: Value, keyword: Value, targetOps: Value): (c: CtorCall)
    ensures c.PositionalKeywordTargets? ==> c == PositionalKeywordTargets(positional, keyword, targetOps)
    ensures c.PositionalKeyword? ==> c == PositionalKeyword(positional, keyword)
    ensures c.PositionalOnly? ==> c == PositionalOnly(positional)
    ensures c.KeywordOnly? ==> c == KeywordOnly(keyword)
  {
    if PositionalParam in parameters && KeywordParam in parameters && TargetOpsParam in parameters then
      PositionalKeywordTargets(positional, keyword, targetOps)
    else if PositionalParam in parameters && KeywordParam in parameters then
      PositionalKeyword(positional, keyword)
    else if PositionalParam in parameters then
      PositionalOnly(positional)
    else if KeywordParam in parameters then
      KeywordOnly(keyword)
    else
      NoArguments
  }

  /** The first matching branch wins; each shape is chosen exactly when its
      condition holds and no earlier one did, and only the first shape
      passes `target_ops`. */
  lemma DispatchShapes(parameters: set<string>, positional: Value, keyword: Value, targetOps: Value)
    ensures var c := Dispatch(parameters, positional, keyword, targetOps);
      && (c.PositionalKeywordTargets? <==>
            PositionalParam in parameters && KeywordParam in parameters && TargetOpsParam in parameters)
      && (c.PositionalKeyword? <==>
            PositionalParam in parameters && KeywordParam in parameters && TargetOpsParam !in parameters)
      && (c.PositionalOnly? <==> PositionalParam in parameters && KeywordParam !in parameters)
      && (c.KeywordOnly? <==> PositionalParam !in parameters && KeywordParam in parameters)
      && (c.NoArguments? <==> PositionalParam !in parameters && KeywordParam !in parameters)
  {
  }

  /** The positional-or-keyword parameters in signature order: the slots
      positional arguments fill. */
  function PositionalSlots(signature: seq<Param>): (slots: seq<Param>)
    ensures forall i :: 0 <= i < |slots| ==> slots[i] in signature && slots[i].kind == PositionalOrKeyword
    ensures forall p :: p in signature && p.kind == PositionalOrKeyword ==> p in slots
  {
    if signature == [] then []
    else if signature[0].kind == PositionalOrKeyword then [signature[0]] + PositionalSlots(signature[1..])
    else PositionalSlots(signature[1..])
  }

  predicate HasKind(signature: seq<Param>, kind: ParamKind) {
    exists i :: 0 <= i < |signature| && signature[i].kind == kind
  }

  /** A parameter a keyword argument `k=...` can bind by name. */
  predicate Named(signature: seq<Param>, k: string) {
    exists i :: 0 <= i < |signature| && signature[i].name == k
      && (signature[i].kind == PositionalOrKeyword || signature[i].kind == KeywordOnlyParam)
  }

  /** A parameter that has no default and so must receive a value. */
  predicate Required(p: Param) {
    !p.hasDefault && (p.kind == PositionalOrKeyword || p.kind == KeywordOnlyParam)
  }

  /** The names the first `count` positional arguments bind. */
  function PositionallyBound(signature: seq<Param>, count: nat): set<string> {
    var slots := PositionalSlots(signature);
    set i | 0 <= i < |slots| && i < count :: slots[i].name
  }

  /** Python's binding of `count` positional arguments and keyword arguments
      named `keywords` to a signature succeeds: no surplus positional
      argument without `*args`, no keyword argument that repeats a
      positionally bound parameter or has no parameter to go to without
      `**kwargs`, and a value for every parameter without a default.
      Otherwise the call raises `TypeError`. */
  predicate Binds(signature: seq<Param>, count: nat, keywords: set<string>) {
    var bound := PositionallyBound(signature, count);
    && (count <= |PositionalSlots(signature)| || HasKind(signature, VarPositional))
    && (forall k :: k in keywords ==> k !in bound && (Named(signature, k) || HasKind(signature, VarKeyword)))
    && (forall i :: 0 <= i < |signature| && Required(signature[i]) ==> signature[i].name in bound + keywords)
  }

  /** How many positional arguments a call shape passes. */
  function ArgumentCount(c: CtorCall): nat {
    match c
    case PositionalKeywordTargets(_, _, _) => 2
    case PositionalKeyword(_, _) => 2
    case PositionalOnly(_) => 1
    case KeywordOnly(_) => 1
    case NoArguments => 0
  }

  /** The keyword arguments a call shape passes: only the first names one. */
  function KeywordNames(c: CtorCall): set<string> {
    if c.PositionalKeywordTargets? then {TargetOpsParam} else {}
  }

  /** The call `create_ops` makes to `cls`. */
  function CallFor(cls: ClassDesc, positional: Value, keyword: Value, targetOps: Value): CtorCall {
    Dispatch(ParamNames(cls.signature), positional, keyword, targetOps)
  }

  /** The constructor accepts the arguments of the call. */
  predicate Accepts(cls: ClassDesc, c: CtorCall) {
    Binds(cls.signature, ArgumentCount(c), KeywordNames(c))
  }

  /** The registry as the error message prints it: name to class name. */
  function ClassNames(reg: Registry): map<string, string> {
    map k | k in reg :: reg[k].className
  }

  /** `create_ops(name, positional, keyword, target_ops=...)`: an unknown
      name raises `ValueError` naming it and listing the registry; a known
      one is dispatched on its constructor's parameters, and the call raises
      `TypeError` when the constructor cannot bind its arguments. */
  function CreateOps(reg: Registry, name: string, positional: Value, keyword: Value, targetOps: Value)
    : (r: Result<Instantiation>)
    ensures r.Failure? <==> name !in reg || !Accepts(reg[name], CallFor(reg[name], positional, keyword, targetOps))
    ensures name !in reg ==> r.error == UnregisteredOperation(name, ClassNames(reg))
    ensures name in reg && r.Failure? ==> r.error == TypeError
    ensures r.Success? ==> r.value.cls == reg[name]
    ensures r.Success? ==> r.value.call == Dispatch(ParamNames(reg[name].signature), positional, keyword, targetOps)
  {
    if name !in reg then Failure(UnregisteredOperation(name, ClassNames(reg)))
    else
      var call := CallFor(reg[name], positional, keyword, targetOps);
      if Accepts(reg[name], call) then Success(Instantiation(reg[name], call)) else Failure(TypeError)
  }

  /** The error message lists exactly the registered names. */
  lemma UnregisteredMessage(reg: Registry, name: string, positional: Value, keyword: Value, targetOps: Value)
    requires name !in reg
    ensures CreateOps(reg, name, positional, keyword, targetOps).error.registered.Keys == reg.Keys
    ensures name !in CreateOps(reg, name, positional, keyword, targetOps).error.registered
  {
  }

  /** The constructor signature the operation classes share:
      `(function_positional_args, function_keyword_args=None)`. */
  const FunctionArgsSignature: seq<Param> :=
    [Param("function_positional_args", PositionalOrKeyword, false),
     Param("function_keyword_args", PositionalOrKeyword, true)]

  /** Such a constructor names neither `pandas_positional_args` nor
      `pandas_keyword_args`, so it matches no branch but the last and is
      called with no arguments. */
  lemma FunctionArgsConstructorGetsNoArguments(positional: Value, keyword: Value, targetOps: Value)
    ensures Dispatch(ParamNames(FunctionArgsSignature), positional, keyword, targetOps) == NoArguments
  {
    assert PositionalParam !in ParamNames(FunctionArgsSignature);
    assert KeywordParam !in ParamNames(FunctionArgsSignature);
  }

  /** A required parameter that the chosen call leaves without a value makes
      `create_ops` raise `TypeError`. */
  lemma UnsuppliedParameterRaises(reg: Registry, name: string, positional: Value, keyword: Value, targetOps: Value, i: nat)
    requires name in reg && i < |reg[name].signature| && Required(reg[name].signature[i])
    requires var call := CallFor(reg[name], positional, keyword, targetOps);
      reg[name].signature[i].name !in PositionallyBound(reg[name].signature, ArgumentCount(call)) + KeywordNames(call)
    ensures CreateOps(reg, name, positional, keyword, targetOps) == Failure(TypeError)
  {
  }

  /** So a registered class with that signature can never be created: the
      call without arguments leaves `function_positional_args` unbound. */
  lemma FunctionArgsConstructorRaises(reg: Registry, name: string, positional: Value, keyword: Value, targetOps: Value)
    requires name in reg && reg[name].signature == FunctionArgsSignature
    ensures CreateOps(reg, name, positional, keyword, targetOps) == Failure(TypeError)
  {
    FunctionArgsConstructorGetsNoArguments(positional, keyword, targetOps);
    assert PositionallyBound(FunctionArgsSignature, 0) == {};
    UnsuppliedParameterRaises(reg, name, positional, keyword, targetOps, 0);
  }

  /** The signature `create_ops` is written for,
      `(pandas_positional_args, pandas_keyword_args=None, *, target_ops=None)`. */
  const FactorySignature: seq<Param> :=
    [Param(PositionalParam, PositionalOrKeyword, false),
     Param(KeywordParam, PositionalOrKeyword, true),
     Param(TargetOpsParam, KeywordOnlyParam, true)]

  /** A class with that signature is created with all three arguments. */
  lemma FactorySignatureCreates(reg: Registry, name: string, positional: Value, keyword: Value, targetOps: Value)
    requires name in reg && reg[name].signature == FactorySignature
    ensures CreateOps(reg, name, positional, keyword, targetOps)
         == Success(Instantiation(reg[name], PositionalKeywordTargets(positional, keyword, targetOps)))
  {
    var sig := FactorySignature;
    assert sig[0].name == PositionalParam && sig[1].name == KeywordParam && sig[2].name == TargetOpsParam;
    var call := CallFor(reg[name], positional, keyword, targetOps);
    assert call == PositionalKeywordTargets(positional, keyword, targetOps);
    assert PositionalSlots(sig[2..]) == [] by { assert sig[2..][1..] == []; }
    assert PositionalSlots(sig[1..]) == [sig[1]] by { assert sig[1..][1..] == sig[2..]; }
    assert PositionalSlots(sig) == [sig[0], sig[1]];
    var bound := PositionallyBound(sig, 2);
    assert bound == {PositionalParam, KeywordParam};
    assert Named(sig, TargetOpsParam) by { assert sig[2].kind == KeywordOnlyParam; }
  }

  /** Registering a class and then creating it by its name reaches that
      class: it is created with the dispatched call when it accepts it, and
      otherwise the call raises `TypeError`. */
  lemma RegisterThenCreate(reg: Registry, cls: ClassDesc, positional: Value, keyword: Value, targetOps: Value)
    requires cls.pandasName.Some?
    ensures var call := CallFor(cls, positional, keyword, targetOps);
      CreateOps(Register(reg, cls).1, cls.pandasName.value, positional, keyword, targetOps)
      == if Accepts(cls, call) then Success(Instantiation(cls, call)) else Failure(TypeError)
  {
  }
}
