/** `CH2PANDAS` (hammer/schema/clickhouse.py): the pandas-side type of
    each ClickHouse column type name. */
module ClickHouseTypes {

  /** The Python types the table maps to. `Builtin*` are Python's own
      `int` and `str`; "datetime" is the plain string. */
  datatype PandasType =
    | NpBool
    | BuiltinStr
    | BuiltinInt
    | NpInt(bits: nat)
    | NpUInt(bits: nat)
    | NpFloat(bits: nat)
    | DatetimeName

  /** `CH2PANDAS` */
  const CH2Pandas: map<string, PandasType> := map[
    "Bool" := NpBool,
    "FixedString" := BuiltinStr,
    "String" := BuiltinStr,
    "Int8" := NpInt(8),
    "Int16" := NpInt(16),
    "Int32" := NpInt(32),
    "Int64" := NpInt(64),
    "Int128" := BuiltinInt,
    "Int256" := BuiltinInt,
    "UInt8" := NpUInt(8),
    "UInt16" := NpUInt(16),
    "UInt32" := NpUInt(32),
    "UInt64" := NpUInt(64),
    "UInt128" := BuiltinInt,
    "UInt256" := BuiltinInt,
    "Float16" := NpFloat(16),
    "Float32" := NpFloat(32),
    "Float64" := NpFloat(64),
    "BFloat16" := NpFloat(16),
    "DateTime" := DatetimeName,
    "Date" := DatetimeName,
    "DateTime64(N)" := DatetimeName,
    "Enum8" := NpInt(8),
    "Enum16" := NpInt(16)
  ]

  /** `CH2PANDAS.get(name, str)` */
  function Lookup(name: string): (r: PandasType)
    ensures name !in CH2Pandas ==> r == BuiltinStr
    ensures name in CH2Pandas ==> r == CH2Pandas[name]
  {
    if name in CH2Pandas then CH2Pandas[name] else BuiltinStr
  }

  /** The fixed-width integers keep their width and signedness: `IntN`
      maps to the signed numpy integer of N bits ... */
  lemma SignedIntegers()
    ensures Lookup("Int8") == NpInt(8) && Lookup("Int16") == NpInt(16)
    ensures Lookup("Int32") == NpInt(32) && Lookup("Int64") == NpInt(64)
  {
  }

  /** ... and `UIntN` to the unsigned one. */
  lemma UnsignedIntegers()
    ensures Lookup("UInt8") == NpUInt(8) && Lookup("UInt16") == NpUInt(16)
    ensures Lookup("UInt32") == NpUInt(32) && Lookup("UInt64") == NpUInt(64)
  {
  }

  /** The integers wider than 64 bits have no numpy type and map to Python's
      unbounded `int`. */
  lemma WideIntegers()
    ensures Lookup("Int128") == BuiltinInt && Lookup("Int256") == BuiltinInt
    ensures Lookup("UInt128") == BuiltinInt && Lookup("UInt256") == BuiltinInt
  {
  }

  /** Every numpy integer the table names has one of the four widths 8, 16,
      32, 64; every float one of 16, 32, 64. */
  lemma Widths(name: string)
    requires name in CH2Pandas
    ensures CH2Pandas[name].NpInt? || CH2Pandas[name].NpUInt? ==> CH2Pandas[name].bits in {8, 16, 32, 64}
    ensures CH2Pandas[name].NpFloat? ==> CH2Pandas[name].bits in {16, 32, 64}
  {
  }

  /** The dates map to the name "datetime". */
  lemma Dates()
    ensures Lookup("DateTime") == DatetimeName && Lookup("Date") == DatetimeName
    ensures Lookup("DateTime64(N)") == DatetimeName
  {
  }

  /** The key "DateTime64(N)" is literal: a concrete precision such as
      "DateTime64(3)", and the bare "DateTime64", are not in the table and
      fall back to `str`. */
  lemma DateTime64Precisions()
    ensures Lookup("DateTime64(3)") == BuiltinStr
    ensures Lookup("DateTime64") == BuiltinStr
  {
    assert "DateTime64(3)" !in CH2Pandas;
    assert "DateTime64" !in CH2Pandas;
  }

  /** The strings, the brain float and the enums. */
  lemma OtherKinds()
    ensures Lookup("String") == BuiltinStr && Lookup("FixedString") == BuiltinStr
    ensures Lookup("BFloat16") == Lookup("Float16")
    ensures Lookup("Enum8") == NpInt(8) && Lookup("Enum16") == NpInt(16)
  {
  }
}
