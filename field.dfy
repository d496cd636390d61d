/** `Field` (hammer/schema/field.py): a named column with a datatype and an
    optional tag, delegating its conversions to the datatype. */
module Fields {
  import opened Results
  import opened Dtype

  /** The `dtype` a field holds. It is annotated as a `Datatype`, but the
      schema parsers of hammer/schema/schema.py store the type's name as a
      plain string, which has none of `Datatype`'s methods. */
  datatype FieldDtype = DtypeObject(obj: Datatype) | DtypeName(name: string)

  datatype Field = Field(name: string, dtype: FieldDtype, tag: Option<string>)

  /** `Field(name, dtype)`: `tag` defaults to None. */
  function NewField(name: string, dtype: FieldDtype): (f: Field)
    ensures f.name == name && f.dtype == dtype && f.tag == None
  {
    Field(name, dtype, None)
  }

  /** `to_numpy()`: `self.dtype.to_numpy()`; on a string dtype the method
      lookup raises. */
  function FieldToNumpy(f: Field): (r: Result<NumpyObject>)
    ensures f.dtype.DtypeObject? ==> r == Success(ToNumpy(f.dtype.obj))
    ensures f.dtype.DtypeName? ==> r == Failure(AttributeError("to_numpy"))
  {
    match f.dtype
    case DtypeObject(d) => Success(ToNumpy(d))
    case DtypeName(_) => Failure(AttributeError("to_numpy"))
  }

  /** `from_numpy(obj)`: `self.dtype.from_numpy(obj)`. */
  function FieldFromNumpy(f: Field, obj: NumpyObject): (r: Result<string>)
    ensures f.dtype.DtypeObject? ==> r == Success(FromNumpy(f.dtype.obj, obj))
    ensures f.dtype.DtypeName? ==> r == Failure(AttributeError("from_numpy"))
  {
    match f.dtype
    case DtypeObject(d) => Success(FromNumpy(d, obj))
    case DtypeName(_) => Failure(AttributeError("from_numpy"))
  }

  /** `to_torch()`: `raise self.dtype.to_torch()`, whose inner call raises
      first. */
  function FieldToTorch(f: Field): (r: Result<NumpyObject>)
    ensures r.Failure?
    ensures f.dtype.DtypeObject? ==> r == ToTorch(f.dtype.obj)
    ensures f.dtype.DtypeName? ==> r == Failure(AttributeError("to_torch"))
  {
    match f.dtype
    case DtypeObject(d) => ToTorch(d)
    case DtypeName(_) => Failure(AttributeError("to_torch"))
  }

  /** `from_torch(obj)`: like `to_torch`, it always raises. */
  function FieldFromTorch(f: Field, obj: NumpyObject): (r: Result<string>)
    ensures r.Failure?
    ensures f.dtype.DtypeObject? ==> r == FromTorch(f.dtype.obj, obj)
    ensures f.dtype.DtypeName? ==> r == Failure(AttributeError("from_torch"))
  {
    match f.dtype
    case DtypeObject(d) => FromTorch(d, obj)
    case DtypeName(_) => Failure(AttributeError("from_torch"))
  }

  /** A field with a `Datatype` inherits the datatype's round trip: for a
      listed name the field converts to numpy and back to that name. */
  lemma FieldRoundTrip(f: Field)
    requires f.dtype.DtypeObject?
    ensures FieldToNumpy(f).Success?
    ensures FieldFromNumpy(f, FieldToNumpy(f).value)
         == Success(if Listed(f.dtype.obj.name) then f.dtype.obj.name else "str")
  {
    FromNumpyToNumpy(f.dtype.obj, f.dtype.obj.name);
  }

  /** The conversions of a field do not depend on its name or tag. */
  lemma ConversionsIgnoreNameAndTag(f: Field, g: Field, obj: NumpyObject)
    requires f.dtype == g.dtype
    ensures FieldToNumpy(f) == FieldToNumpy(g) && FieldFromNumpy(f, obj) == FieldFromNumpy(g, obj)
  {
  }
}
