/** The pandas type names of hammer/schema/dtype.py: `pandas_type_mapping`,
    its inversion `flipped_pandas_type_mapping`, and `Datatype`'s
    conversions. */
module Dtype {
  import opened Results

  /** The objects the table maps names to: numpy scalar types, and for
      "category" the plain string "category". Any other object a caller
      passes to `from_numpy` is `OtherObject`. */
  datatype NumpyObject =
    | NpInt64 | NpInt8 | NpInt16 | NpInt32 | NpStr | NpFloat64 | NpFloat32
    | NpBool | NpDatetime64 | NpTimedelta64
    | PyText(text: string)
    | OtherObject(id: nat)

  /** `pandas_type_mapping`, in its source order. */
  const PandasTypeMapping: seq<(string, NumpyObject)> := [
    ("int", NpInt64),
    ("int8", NpInt8),
    ("int16", NpInt16),
    ("int32", NpInt32),
    ("str", NpStr),
    ("float", NpFloat64),
    ("float32", NpFloat32),
    ("bool", NpBool),
    ("datetime", NpDatetime64),
    ("timedelta64", NpTimedelta64),
    ("category", PyText("category"))
  ]

  /** The dict a `{k: v for ...}` display builds from a list of pairs: a
      later pair overwrites an earlier one with the same key. */
  function DictOf<K(==,!new), V>(pairs: seq<(K, V)>): (m: map<K, V>)
    ensures forall k :: k in m <==> exists i :: 0 <= i < |pairs| && pairs[i].0 == k
    decreases |pairs|
  {
    if pairs == [] then map[]
    else
      var last := pairs[|pairs| - 1];
      var m := DictOf(pairs[..|pairs| - 1]);
      assert forall i :: 0 <= i < |pairs| - 1 ==> pairs[..|pairs| - 1][i] == pairs[i];
      m[last.0 := last.1]
  }

  /** The pairs with key and value swapped, as the comprehension
      `{v: k for k, v in d.items()}` reads them. */
  function Flip<K, V>(pairs: seq<(K, V)>): (r: seq<(V, K)>)
    ensures |r| == |pairs| && forall i :: 0 <= i < |pairs| ==> r[i] == (pairs[i].1, pairs[i].0)
  {
    seq(|pairs|, i requires 0 <= i < |pairs| => (pairs[i].1, pairs[i].0))
  }

  predicate DistinctKeys<K(==), V>(pairs: seq<(K, V)>) {
    forall i, j :: 0 <= i < j < |pairs| ==> pairs[i].0 != pairs[j].0
  }

  /** With distinct keys, the dict maps every key to the value paired with
      it. */
  lemma {:induction false} DictOfLookup<K(!new), V>(pairs: seq<(K, V)>, i: nat)
    requires DistinctKeys(pairs) && i < |pairs|
    ensures pairs[i].0 in DictOf(pairs) && DictOf(pairs)[pairs[i].0] == pairs[i].1
    decreases |pairs|
  {
    if i < |pairs| - 1 {
      var init := pairs[..|pairs| - 1];
      assert init[i] == pairs[i];
      assert DistinctKeys(init) by {
        forall a, b | 0 <= a < b < |init| ensures init[a].0 != init[b].0 {
          assert init[a] == pairs[a] && init[b] == pairs[b];
        }
      }
      DictOfLookup(init, i);
    }
  }

  /** `flipped_pandas_type_mapping` */
  function FlippedMapping(): map<NumpyObject, string> {
    DictOf(Flip(PandasTypeMapping))
  }

  /** `Datatype(name)` */
  datatype Datatype = Datatype(name: string)

  /** `to_numpy()`: the mapped type, `np.str_` for an unlisted name. */
  function ToNumpy(d: Datatype): (r: NumpyObject)
    ensures (exists i :: 0 <= i < |PandasTypeMapping| && PandasTypeMapping[i].0 == d.name) || r == NpStr
  {
    var m := DictOf(PandasTypeMapping);
    if d.name in m then m[d.name] else NpStr
  }

  /** `from_numpy(obj)`: the name mapped to `obj`, "str" for an object no
      name maps to. The datatype's own name plays no part. */
  function FromNumpy(d: Datatype, obj: NumpyObject): (r: string)
    ensures (exists i :: 0 <= i < |PandasTypeMapping| && PandasTypeMapping[i].1 == obj) || r == "str"
  {
    var m := FlippedMapping();
    if obj in m then
      assert exists i :: 0 <= i < |PandasTypeMapping| && Flip(PandasTypeMapping)[i].0 == obj;
      m[obj]
    else "str"
  }

  /** `to_torch()` */
  function ToTorch(d: Datatype): (r: Result<NumpyObject>)
    ensures r == Failure(NotImplementedError)
  {
    Failure(NotImplementedError)
  }

  /** `from_torch(obj)` */
  function FromTorch(d: Datatype, obj: NumpyObject): (r: Result<string>)
    ensures r == Failure(NotImplementedError)
  {
    Failure(NotImplementedError)
  }

  predicate Listed(name: string) {
    exists i :: 0 <= i < |PandasTypeMapping| && PandasTypeMapping[i].0 == name
  }

  lemma MappingKeysDistinct()
    ensures DistinctKeys(PandasTypeMapping)
  {
  }

  /** No two names share a numpy type. */
  lemma MappingValuesDistinct()
    ensures DistinctKeys(Flip(PandasTypeMapping))
  {
  }

  /** Each listed name maps to the type listed beside it. */
  lemma ToNumpyListed(i: nat)
    requires i < |PandasTypeMapping|
    ensures ToNumpy(Datatype(PandasTypeMapping[i].0)) == PandasTypeMapping[i].1
  {
    MappingKeysDistinct();
    DictOfLookup(PandasTypeMapping, i);
  }

  /** An unlisted name maps to `np.str_`. */
  lemma ToNumpyUnlisted(name: string)
    requires !Listed(name)
    ensures ToNumpy(Datatype(name)) == NpStr
  {
  }

  /** The inversion undoes the mapping, for any receiver: for a listed name
      `from_numpy(to_numpy(n)) == n`; an unlisted name comes back as
      "str", the name of `np.str_`. */
  lemma FromNumpyToNumpy(d: Datatype, name: string)
    ensures FromNumpy(d, ToNumpy(Datatype(name))) == if Listed(name) then name else "str"
  {
    MappingKeysDistinct();
    MappingValuesDistinct();
    if Listed(name) {
      var i :| 0 <= i < |PandasTypeMapping| && PandasTypeMapping[i].0 == name;
      DictOfLookup(PandasTypeMapping, i);
      DictOfLookup(Flip(PandasTypeMapping), i);
    } else {
      DictOfLookup(Flip(PandasTypeMapping), 4);
    }
  }

  /** An object no name maps to comes back as "str". */
  lemma FromNumpyUnmapped(d: Datatype, obj: NumpyObject)
    requires forall i :: 0 <= i < |PandasTypeMapping| ==> PandasTypeMapping[i].1 != obj
    ensures FromNumpy(d, obj) == "str"
  {
  }
}
