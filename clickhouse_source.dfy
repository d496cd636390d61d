/** `ClickHouseConfig.to_pandas_dtype` (hammer/dataset/source/clickhouse.py):
    the pandas-side type of a ClickHouse column type, looking through a
    `Nullable(...)` wrapper. */
module ClickHouseSource {
  import opened Results
  import opened PyStrings
  import opened ClickHouseTypes

  /** `to_pandas_dtype(source_dtype)`: a name starting with "Nullable" loses
      its last character and is replaced by its text between the first and
      the second "("; then the table is consulted, with `str` for names it
      lacks. Indexing the second part of a split without "(" raises. */
  function ToPandasDtype(sourceDtype: string): (r: Result<PandasType>)
    ensures r.Failure? ==> StartsWith(sourceDtype, "Nullable") && r.error == IndexError
    ensures !StartsWith(sourceDtype, "Nullable") ==> r == Success(Lookup(sourceDtype))
  {
    if StartsWith(sourceDtype, "Nullable") then
      var parts := Split(sourceDtype[..|sourceDtype| - 1], '(');
      if |parts| < 2 then Failure(IndexError) else Success(Lookup(parts[1]))
    else
      Success(Lookup(sourceDtype))
  }

  /** A name without the prefix is looked up as it is. */
  lemma PlainName(name: string)
    requires !StartsWith(name, "Nullable")
    ensures ToPandasDtype(name) == Success(Lookup(name))
    ensures name !in CH2Pandas ==> ToPandasDtype(name) == Success(BuiltinStr)
  {
  }

  /** `Nullable(T)` for a T without "(" resolves to the entry of T, which
      is how T itself resolves unless T carries the prefix too. */
  lemma NullableUnwraps(t: string)
    requires '(' !in t
    ensures ToPandasDtype("Nullable(" + t + ")") == Success(Lookup(t))
    ensures !StartsWith(t, "Nullable") ==> ToPandasDtype("Nullable(" + t + ")") == ToPandasDtype(t)
  {
    var s := "Nullable(" + t + ")";
    assert StartsWith(s, "Nullable") by {
      assert s[..|"Nullable"|] == "Nullable";
    }
    assert s[..|s| - 1] == Join(["Nullable", t], "(");
    SplitJoin(["Nullable", t], '(');
  }

  /** With a parenthesised argument inside the wrapper only the text up to
      the inner "(" is kept: `Nullable(A(B))` resolves as `A`, so
      "Nullable(DateTime64(3))" is looked up as "DateTime64" and gives
      `str`. */
  lemma NestedArgumentDropped(a: string, b: string)
    requires '(' !in a && '(' !in b
    ensures ToPandasDtype("Nullable(" + a + "(" + b + "))") == Success(Lookup(a))
  {
    var s := "Nullable(" + a + "(" + b + "))";
    var parts := ["Nullable", a, b + ")"];
    assert StartsWith(s, "Nullable") by {
      assert s[..|"Nullable"|] == "Nullable";
    }
    assert s[..|s| - 1] == Join(parts, "(") by {
      assert Join(parts[2..], "(") == b + ")";
      assert Join(parts[1..], "(") == a + "(" + (b + ")");
    }
    assert Split(Join(parts, "("), '(') == parts by {
      forall k | 0 <= k < |parts| ensures '(' !in parts[k] {
        if k == 0 {
        } else if k == 1 {
        } else {
          assert k == 2;
          assert '(' !in b + ")";
        }
      }
      SplitJoin(parts, '(');
    }
  }

  /** A prefixed name without "(" has no second part: an index error. */
  lemma NullableWithoutParenthesis(name: string)
    requires StartsWith(name, "Nullable") && '(' !in name
    ensures ToPandasDtype(name) == Failure(IndexError)
  {
    var inner := name[..|name| - 1];
    assert '(' !in inner;
  }
}
