/** `init_schema` (hammer/utils/schema.py): normalise the accepted schema
    forms to a `TableSchema` by an `isinstance` dispatch. */
module InitSchema {
  import opened Results
  import opened PyStrings
  import opened PyValues
  import opened Fields
  import opened Schema

  /** The argument of `init_schema`. A list is either a list of `Field`s
      or a list of plain values (strings, dicts, ...); any other object
      carries the name of its type. */
  datatype SchemaArg =
    | SchemaText(text: string)
    | FieldList(fields: seq<Field>)
    | ValueList(values: seq<Value>)
    | SchemaObject(schema: TableSchema)
    | OtherArg(typeName: string)

  /** The message of the `ValueError` for an unsupported argument. */
  function UnsupportedMessage(typeName: string): string {
    "schema数据类型不符合期望: " + typeName + ", 期望类型是string和list!"
  }

  function TypeName(arg: SchemaArg): string {
    match arg
    case SchemaText(_) => "str"
    case FieldList(_) => "list"
    case ValueList(_) => "list"
    case SchemaObject(_) => "TableSchema"
    case OtherArg(name) => name
  }

  /** `init_schema(schema)`. The list tests index the first element, so an
      empty list raises before any branch is chosen. */
  function Init(arg: SchemaArg): (r: Result<TableSchema>)
    ensures arg.SchemaText? ==> r == FromStringSpec(arg.text)
    ensures arg.SchemaObject? ==> r == Success(arg.schema)
    ensures arg.FieldList? ==> r == if arg.fields == [] then Failure(IndexError) else Success(TableSchema(arg.fields))
    ensures arg.OtherArg? ==> r == Failure(ValueError(UnsupportedMessage(arg.typeName)))
  {
    match arg
    case FieldList(fields) =>
      if fields == [] then Failure(IndexError) else Success(TableSchema(fields))
    case ValueList(values) =>
      if values == [] then Failure(IndexError)
      else if values[0].PyStr? then FromListSpec(values)
      else Failure(ValueError(UnsupportedMessage(TypeName(arg))))
    case SchemaText(text) => FromStringSpec(text)
    case SchemaObject(schema) => Success(schema)
    case OtherArg(_) => Failure(ValueError(UnsupportedMessage(TypeName(arg))))
  }

  /** A schema passes through unchanged, so `init_schema` is idempotent on
      what it returns. */
  lemma InitIdempotent(arg: SchemaArg)
    requires Init(arg).Success?
    ensures Init(SchemaObject(Init(arg).value)) == Init(arg)
  {
  }

  /** A list whose first element is a string goes to `from_list`, whose
      first-element assertion then fails: no such list is ever accepted. */
  lemma StringListRaises(values: seq<Value>)
    requires values != [] && values[0].PyStr?
    ensures Init(ValueList(values)) == Failure(AssertionError)
  {
    FromListErrors(values);
  }

  /** No list of plain values is accepted, including the list of dicts the
      signature announces: its first element is not a string, so the
      dispatch falls through to the error. */
  lemma ValueListsRaise(values: seq<Value>)
    ensures Init(ValueList(values)).Failure?
    ensures values != [] && values[0].PyDict? ==> Init(ValueList(values)) == Failure(ValueError(UnsupportedMessage("list")))
  {
    if values != [] && values[0].PyStr? {
      StringListRaises(values);
    }
  }

  /** The only way in from text is `from_string`: an accepted text gives the
      fields of its segments. */
  lemma InitText(text: string)
    requires Init(SchemaText(text)).Success?
    ensures |Init(SchemaText(text)).value.fields| == |Split(text, ';')|
  {
    FromStringFields(text);
  }
}
