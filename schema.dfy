/** `TableSchema` (hammer/schema/schema.py): a list of fields, read from a
    list of `{name: "dtype[, tag]"}` dicts or from a
    "name: dtype[, tag]; ..." string. */
module Schema {
  import opened Results
  import opened PyStrings
  import opened PyValues
  import opened Fields

  datatype TableSchema = TableSchema(fields: seq<Field>)

  /** `names` */
  function Names(t: TableSchema): (r: seq<string>)
    ensures |r| == |t.fields|
    ensures forall i :: 0 <= i < |r| ==> r[i] == t.fields[i].name
  {
    seq(|t.fields|, i requires 0 <= i < |t.fields| => t.fields[i].name)
  }

  /** `len(schema)` */
  function Len(t: TableSchema): nat {
    |t.fields|
  }

  /** `schema[index]`: Python list indexing, negative indices counting from
      the end. */
  function GetItem(t: TableSchema, index: int): (r: Result<Field>)
    ensures r.Success? <==> -|t.fields| <= index < |t.fields|
    ensures r.Success? ==> r.value == t.fields[if index >= 0 then index else |t.fields| + index]
    ensures r.Failure? ==> r.error == IndexError
  {
    if 0 <= index < |t.fields| then Success(t.fields[index])
    else if -|t.fields| <= index < 0 then Success(t.fields[|t.fields| + index])
    else Failure(IndexError)
  }

  /** Every name in `names` is the name of the field at the same index, so
      `names` and `len` agree. */
  lemma NamesLen(t: TableSchema)
    ensures |Names(t)| == Len(t)
    ensures forall i :: 0 <= i < Len(t) ==> GetItem(t, i).Success? && GetItem(t, i).value.name == Names(t)[i]
  {
  }

  // ---------------------------------------------------------------------------
  // from_list

  /** One `name: "dtype[, tag]"` item: the dtype is the first ","-part,
      stripped; the tag is the second part, stripped, when there are
      exactly two parts. */
  function FieldOf(name: string, fieldDtype: string): Field {
    var parts := Split(fieldDtype, ',');
    Field(name, DtypeName(Strip(parts[0])), if |parts| == 2 then Some(Strip(parts[1])) else None)
  }

  /** `field_dtype.split(",")` on a value that is not a string raises. */
  function EntryField(e: Entry): Result<Field> {
    if e.value.PyStr? then Success(FieldOf(e.key, e.value.s)) else Failure(AttributeError("split"))
  }

  /** The fields one dict contributes, item by item. */
  function DictFields(entries: Dict): Result<seq<Field>>
    decreases |entries|
  {
    if entries == [] then Success([])
    else
      match DictFields(entries[..|entries| - 1])
      case Failure(e) => Failure(e)
      case Success(fs) =>
        match EntryField(entries[|entries| - 1])
        case Failure(e) => Failure(e)
        case Success(f) => Success(fs + [f])
  }

  /** `f.items()` on an element that is not a dict raises. */
  function ItemFields(item: Value): Result<seq<Field>> {
    if item.PyDict? then DictFields(item.entries) else Failure(AttributeError("items"))
  }

  /** The fields of all elements, element by element. */
  function ListFields(data: seq<Value>): Result<seq<Field>>
    decreases |data|
  {
    if data == [] then Success([])
    else
      match ListFields(data[..|data| - 1])
      case Failure(e) => Failure(e)
      case Success(fs) =>
        match ItemFields(data[|data| - 1])
        case Failure(e) => Failure(e)
        case Success(gs) => Success(fs + gs)
  }

  /** `TableSchema.from_list(data_schema)`: indexing an empty list raises,
      and the first element must be a dict. */
  function FromListSpec(data: seq<Value>): Result<TableSchema> {
    if data == [] then Failure(IndexError)
    else if !data[0].PyDict? then Failure(AssertionError)
    else
      match ListFields(data)
      case Failure(e) => Failure(e)
      case Success(fs) => Success(TableSchema(fs))
  }

  /** The inner loop of `from_list`: append the fields of one dict. */
  method AppendDictFields(fields: seq<Field>, entries: Dict) returns (r: Result<seq<Field>>)
    ensures DictFields(entries).Failure? ==> r == DictFields(entries)
    ensures DictFields(entries).Success? ==> r == Success(fields + DictFields(entries).value)
  {
    var added: seq<Field> := [];
    var j := 0;
    while j < |entries|
      invariant j <= |entries|
      invariant DictFields(entries[..j]) == Success(added)
    {
      var e := entries[j];
      assert entries[..j + 1][..j] == entries[..j];
      if !e.value.PyStr? {
        DictFieldsStops(entries, j + 1);
        return Failure(AttributeError("split"));
      }
      added := added + [FieldOf(e.key, e.value.s)];
      j := j + 1;
    }
    assert entries[..j] == entries;
    return Success(fields + added);
  }

  /** `TableSchema.from_list(data_schema)` */
  method FromList(data: seq<Value>) returns (r: Result<TableSchema>)
    ensures r == FromListSpec(data)
  {
    if |data| == 0 {
      return Failure(IndexError);
    }
    if !data[0].PyDict? {
      return Failure(AssertionError);
    }
    var fields: seq<Field> := [];
    var i := 0;
    while i < |data|
      invariant i <= |data|
      invariant ListFields(data[..i]) == Success(fields)
    {
      var item := data[i];
      assert data[..i + 1][..i] == data[..i];
      if !item.PyDict? {
        ListFieldsStops(data, i + 1);
        return Failure(AttributeError("items"));
      }
      var next := AppendDictFields(fields, item.entries);
      if next.Failure? {
        ListFieldsStops(data, i + 1);
        return Failure(next.error);
      }
      fields := next.value;
      i := i + 1;
    }
    assert data[..i] == data;
    return Success(TableSchema(fields));
  }

  lemma {:induction false} DictFieldsStops(entries: Dict, k: nat)
    requires k <= |entries| && DictFields(entries[..k]).Failure?
    ensures DictFields(entries) == DictFields(entries[..k])
    decreases |entries|
  {
    if k < |entries| {
      assert entries[..|entries| - 1][..k] == entries[..k];
      DictFieldsStops(entries[..|entries| - 1], k);
    } else {
      assert entries[..k] == entries;
    }
  }

  lemma {:induction false} ListFieldsStops(data: seq<Value>, k: nat)
    requires k <= |data| && ListFields(data[..k]).Failure?
    ensures ListFields(data) == ListFields(data[..k])
    decreases |data|
  {
    if k < |data| {
      assert data[..|data| - 1][..k] == data[..k];
      ListFieldsStops(data[..|data| - 1], k);
    } else {
      assert data[..k] == data;
    }
  }

  // ---------------------------------------------------------------------------
  // from_string

  /** One ";"-segment `name: dtype...` as the dict `{name: dtype}`, both
      stripped; a segment without ":" has no second part to index. */
  function SegmentDict(segment: string): Result<Value> {
    var parts := Split(segment, ':');
    if |parts| < 2 then Failure(IndexError)
    else Success(PyDict([Entry(Strip(parts[0]), PyStr(Strip(parts[1])))]))
  }

  function SegmentDicts(segments: seq<string>): Result<seq<Value>>
    decreases |segments|
  {
    if segments == [] then Success([])
    else
      match SegmentDicts(segments[..|segments| - 1])
      case Failure(e) => Failure(e)
      case Success(ds) =>
        match SegmentDict(segments[|segments| - 1])
        case Failure(e) => Failure(e)
        case Success(d) => Success(ds + [d])
  }

  /** `TableSchema.from_string(data_schema)`: the text must contain both
      ":" and ";". */
  function FromStringSpec(text: string): Result<TableSchema> {
    if ':' !in text || ';' !in text then Failure(AssertionError)
    else
      match SegmentDicts(Split(text, ';'))
      case Failure(e) => Failure(e)
      case Success(ds) => FromListSpec(ds)
  }

  /** The loop of `from_string` over the segments. */
  method SegmentsToDicts(segments: seq<string>) returns (r: Result<seq<Value>>)
    ensures r == SegmentDicts(segments)
  {
    var schema: seq<Value> := [];
    var i := 0;
    while i < |segments|
      invariant i <= |segments|
      invariant SegmentDicts(segments[..i]) == Success(schema)
    {
      assert segments[..i + 1][..i] == segments[..i];
      var d := SegmentDict(segments[i]);
      if d.Failure? {
        SegmentDictsStops(segments, i + 1);
        return Failure(d.error);
      }
      schema := schema + [d.value];
      i := i + 1;
    }
    assert segments[..i] == segments;
    return Success(schema);
  }

  /** `TableSchema.from_string(data_schema)` */
  method FromString(text: string) returns (r: Result<TableSchema>)
    ensures r == FromStringSpec(text)
  {
    if ':' !in text || ';' !in text {
      return Failure(AssertionError);
    }
    var dicts := SegmentsToDicts(Split(text, ';'));
    if dicts.Failure? {
      return Failure(dicts.error);
    }
    r := FromList(dicts.value);
  }

  lemma {:induction false} SegmentDictsStops(segments: seq<string>, k: nat)
    requires k <= |segments| && SegmentDicts(segments[..k]).Failure?
    ensures SegmentDicts(segments) == SegmentDicts(segments[..k])
    decreases |segments|
  {
    if k < |segments| {
      assert segments[..|segments| - 1][..k] == segments[..k];
      SegmentDictsStops(segments[..|segments| - 1], k);
    } else {
      assert segments[..k] == segments;
    }
  }

  // ---------------------------------------------------------------------------
  // Properties

  /** The field of one item, read through the parts of its dtype text: the
      dtype is the first part; a tag exists exactly when the text has two
      parts. */
  lemma FieldOfParts(name: string, parts: seq<string>)
    requires |parts| >= 1 && forall k :: 0 <= k < |parts| ==> ',' !in parts[k]
    ensures FieldOf(name, Join(parts, ",")).dtype == DtypeName(Strip(parts[0]))
    ensures FieldOf(name, Join(parts, ",")).tag == if |parts| == 2 then Some(Strip(parts[1])) else None
  {
    SplitJoin(parts, ',');
  }

  /** A dict succeeds exactly when every value is a string; otherwise
      `split` is missing. */
  /** `DictFields` is `EntryField` applied item by item. */
  lemma {:induction false} DictFieldsMap(entries: Dict)
    ensures DictFields(entries) == MapResults(EntryField, entries)
    decreases |entries|
  {
    if entries != [] {
      DictFieldsMap(entries[..|entries| - 1]);
    }
  }

  lemma DictFieldsSucceed(entries: Dict)
    ensures DictFields(entries).Success? <==> forall k :: 0 <= k < |entries| ==> entries[k].value.PyStr?
    ensures DictFields(entries).Failure? ==> DictFields(entries).error == AttributeError("split")
  {
    DictFieldsMap(entries);
    MapResultsSucceeds(EntryField, entries);
    MapResultsError(EntryField, entries, AttributeError("split"));
  }

  /** A dict contributes its items in order, one field each. */
  lemma DictFieldsItems(entries: Dict)
    requires DictFields(entries).Success?
    ensures |DictFields(entries).value| == |entries|
    ensures forall k :: 0 <= k < |entries| ==>
      entries[k].value.PyStr? && DictFields(entries).value[k] == FieldOf(entries[k].key, entries[k].value.s)
  {
    DictFieldsMap(entries);
    MapResultsItems(EntryField, entries);
  }

  /** An element `from_list` can read: a dict whose values are all
      strings. */
  predicate Readable(item: Value) {
    item.PyDict? && forall k :: 0 <= k < |item.entries| ==> item.entries[k].value.PyStr?
  }

  /** The fields of a list exist exactly when every element is readable;
      `from_list` stops at the first element that is not. */
  /** `ListFields` is `ItemFields` applied element by element. */
  lemma {:induction false} ListFieldsConcat(data: seq<Value>)
    ensures ListFields(data) == ConcatResults(ItemFields, data)
    decreases |data|
  {
    if data != [] {
      ListFieldsConcat(data[..|data| - 1]);
    }
  }

  lemma ListFieldsSucceed(data: seq<Value>)
    ensures ListFields(data).Success? <==> forall k :: 0 <= k < |data| ==> Readable(data[k])
  {
    ListFieldsConcat(data);
    ConcatResultsSucceeds(ItemFields, data);
    forall k | 0 <= k < |data| ensures ItemFields(data[k]).Success? <==> Readable(data[k]) {
      if data[k].PyDict? {
        DictFieldsSucceed(data[k].entries);
      }
    }
  }

  /** `from_list` fails on an empty list, on a first element that is not
      a dict, and on any element it cannot read; given readable elements it
      succeeds. */
  lemma FromListErrors(data: seq<Value>)
    ensures data == [] ==> FromListSpec(data) == Failure(IndexError)
    ensures data != [] && !data[0].PyDict? ==> FromListSpec(data) == Failure(AssertionError)
    ensures FromListSpec(data).Success? <==> data != [] && forall k :: 0 <= k < |data| ==> Readable(data[k])
  {
    ListFieldsSucceed(data);
  }

  /** A list of one-item dicts with string values gives one field per
      element, in order. */
  lemma {:induction false} ListFieldsSingletons(data: seq<Value>)
    requires forall k :: 0 <= k < |data| ==> data[k].PyDict? && |data[k].entries| == 1 && data[k].entries[0].value.PyStr?
    ensures ListFields(data).Success?
    ensures |ListFields(data).value| == |data|
    ensures forall k :: 0 <= k < |data| ==>
      ListFields(data).value[k] == FieldOf(data[k].entries[0].key, data[k].entries[0].value.s)
    decreases |data|
  {
    if data != [] {
      var init := data[..|data| - 1];
      var last := data[|data| - 1];
      assert forall k :: 0 <= k < |init| ==> init[k] == data[k];
      ListFieldsSingletons(init);
      var fs := ListFields(init).value;
      var e := last.entries[0];
      assert DictFields(last.entries) == Success([FieldOf(e.key, e.value.s)]) by {
        assert last.entries == [e];
        assert last.entries[..0] == [];
        assert [] + [FieldOf(e.key, e.value.s)] == [FieldOf(e.key, e.value.s)];
      }
      var all := ListFields(data).value;
      assert all == fs + [FieldOf(e.key, e.value.s)];
      forall k | 0 <= k < |data|
        ensures all[k] == FieldOf(data[k].entries[0].key, data[k].entries[0].value.s)
      {
        if k < |init| {
          assert all[k] == fs[k];
        }
      }
    }
  }

  /** The field one segment yields: name before the first ":", the text
      up to the next ":" as the dtype text, both stripped. */
  function SegmentField(segment: string): Field
    requires ':' in segment
  {
    SplitSeveral(segment, ':');
    var parts := Split(segment, ':');
    FieldOf(Strip(parts[0]), Strip(parts[1]))
  }

  /** A text splits into several parts exactly when it contains the
      separator. */
  lemma SplitSeveral(s: string, sep: char)
    ensures |Split(s, sep)| >= 2 <==> sep in s
  {
    var parts := Split(s, sep);
    if |parts| >= 2 {
      assert Join(parts, [sep]) == parts[0] + [sep] + Join(parts[1..], [sep]);
      assert s[|parts[0]|] == sep;
    }
  }

  lemma SegmentDictsSucceed(segments: seq<string>)
    ensures SegmentDicts(segments).Success? <==> forall k :: 0 <= k < |segments| ==> ':' in segments[k]
    ensures SegmentDicts(segments).Failure? ==> SegmentDicts(segments).error == IndexError
  {
    SegmentDictsMap(segments);
    forall k | 0 <= k < |segments|
      ensures (SegmentDict(segments[k]).Success? <==> ':' in segments[k])
           && (SegmentDict(segments[k]).Failure? ==> SegmentDict(segments[k]).error == IndexError)
    {
      SplitSeveral(segments[k], ':');
    }
    MapResultsSucceeds(SegmentDict, segments);
    MapResultsError(SegmentDict, segments, IndexError);
  }

  /** `SegmentDicts` is `SegmentDict` applied segment by segment. */
  lemma {:induction false} SegmentDictsMap(segments: seq<string>)
    ensures SegmentDicts(segments) == MapResults(SegmentDict, segments)
    decreases |segments|
  {
    if segments != [] {
      SegmentDictsMap(segments[..|segments| - 1]);
    }
  }

  lemma SegmentDictsItems(segments: seq<string>)
    requires SegmentDicts(segments).Success?
    ensures |SegmentDicts(segments).value| == |segments|
    ensures forall k :: 0 <= k < |segments| ==>
      SegmentDict(segments[k]).Success? && SegmentDicts(segments).value[k] == SegmentDict(segments[k]).value
  {
    SegmentDictsMap(segments);
    MapResultsItems(SegmentDict, segments);
  }

  /** `from_string` fails with an assertion error without ":" or ";"; it
      succeeds exactly when every ";"-segment holds a ":", and fails with an
      index error otherwise. */
  lemma FromStringSucceeds(text: string)
    ensures ':' !in text || ';' !in text ==> FromStringSpec(text) == Failure(AssertionError)
    ensures ':' in text && ';' in text ==>
      (FromStringSpec(text).Success? <==> forall k :: 0 <= k < |Split(text, ';')| ==> ':' in Split(text, ';')[k])
    ensures ':' in text && ';' in text && FromStringSpec(text).Failure? ==> FromStringSpec(text).error == IndexError
  {
    if ':' in text && ';' in text {
      var segments := Split(text, ';');
      SegmentDictsSucceed(segments);
      if SegmentDicts(segments).Success? {
        SegmentFields(segments);
        assert FromStringSpec(text) == FromListSpec(SegmentDicts(segments).value);
        assert FromStringSpec(text).Success?;
        assert forall k :: 0 <= k < |segments| ==> ':' in segments[k];
      } else {
        var k :| 0 <= k < |segments| && ':' !in segments[k];
        assert ':' !in Split(text, ';')[k];
      }
    }
  }

  /** The dicts of well-formed segments: `from_list` reads them into one
      field per segment. */
  lemma SegmentFields(segments: seq<string>)
    requires segments != [] && SegmentDicts(segments).Success?
    ensures FromListSpec(SegmentDicts(segments).value).Success?
    ensures |FromListSpec(SegmentDicts(segments).value).value.fields| == |segments|
    ensures forall k :: 0 <= k < |segments| ==>
      ':' in segments[k] && FromListSpec(SegmentDicts(segments).value).value.fields[k] == SegmentField(segments[k])
  {
    SegmentDictsItems(segments);
    var ds := SegmentDicts(segments).value;
    forall k | 0 <= k < |ds|
      ensures ':' in segments[k] && ds[k].PyDict? && |ds[k].entries| == 1 && ds[k].entries[0].value.PyStr? && Readable(ds[k])
    {
      SplitSeveral(segments[k], ':');
    }
    ListFieldsSingletons(ds);
    FromListErrors(ds);
  }

  /** `from_string` yields one field per ";"-segment, in order: the name
      before the first ":", the text up to the next ":" as the dtype
      text. */
  lemma FromStringFields(text: string)
    requires FromStringSpec(text).Success?
    ensures |FromStringSpec(text).value.fields| == |Split(text, ';')|
    ensures forall k :: 0 <= k < |Split(text, ';')| ==>
      ':' in Split(text, ';')[k] && FromStringSpec(text).value.fields[k] == SegmentField(Split(text, ';')[k])
  {
    SegmentFields(Split(text, ';'));
  }

  /** A text that ends in ";" has an empty last segment, so `from_string`
      raises an index error. */
  lemma TrailingSemicolonRaises(text: string)
    requires ':' in text
    ensures FromStringSpec(text + ";") == Failure(IndexError)
  {
    var s := text + ";";
    assert ';' in s by { assert s[|s| - 1] == ';'; }
    assert ':' in s by {
      var i :| 0 <= i < |text| && text[i] == ':';
      assert s[i] == ':';
    }
    SplitTrailing(text, ';');
    var segments := Split(s, ';');
    assert segments[|segments| - 1] == [];
    FromStringSucceeds(s);
  }

  /** A dtype text `dtype, tag` gives that dtype and that tag. */
  lemma FieldOfTagged(name: string, dtype: string, tag: string)
    requires Stripped(dtype) && Stripped(tag) && ',' !in dtype && ',' !in tag
    ensures FieldOf(name, dtype + ", " + tag) == Field(name, DtypeName(dtype), Some(tag))
  {
    assert Join([dtype, " " + tag], ",") == dtype + ", " + tag;
    assert ' ' != ',';
    FieldOfParts(name, [dtype, " " + tag]);
    assert " " + tag == [' '] + tag + [];
    StripPadded([' '], tag, []);
    assert dtype == [] + dtype + [];
    StripPadded([], dtype, []);
  }

  /** A dtype text without "," gives that dtype and no tag. */
  lemma FieldOfUntagged(name: string, dtype: string)
    requires Stripped(dtype) && ',' !in dtype
    ensures FieldOf(name, dtype) == Field(name, DtypeName(dtype), None)
  {
    assert Join([dtype], ",") == dtype;
    FieldOfParts(name, [dtype]);
    assert dtype == [] + dtype + [];
    StripPadded([], dtype, []);
  }

  /** A segment `lead name: typeText` gives the field of `name` read from
      `typeText`. */
  lemma SegmentOf(seg: string, lead: string, name: string, typeText: string)
    requires seg == lead + name + ": " + typeText
    requires AllSpace(lead) && Stripped(name) && Stripped(typeText)
    requires ':' !in lead + name && ':' !in typeText
    ensures ':' in seg && SegmentField(seg) == FieldOf(name, typeText)
  {
    assert seg == Join([lead + name, " " + typeText], ":");
    assert ':' !in " " + typeText;
    SplitJoin([lead + name, " " + typeText], ':');
    assert seg[|lead + name|] == ':';
    StripPadded(lead, name, []);
    assert lead + name + [] == lead + name;
    StripPadded([' '], typeText, []);
    assert [' '] + typeText + [] == " " + typeText;
  }

  /** Plain text for a name, a dtype or a tag: not empty, no separator
      inside, no white space around. */
  predicate Plain(t: string) {
    t != [] && Stripped(t) && ':' !in t && ';' !in t && ',' !in t
  }

  lemma {:induction false} JoinStartsWith(parts: seq<string>, sep: string)
    requires |parts| >= 1
    ensures |parts[0]| <= |Join(parts, sep)| && Join(parts, sep)[..|parts[0]|] == parts[0]
  {
  }

  /** Segments that each hold a ":" and no ";", joined by ";": one field per
      segment, in order. */
  lemma FromStringSegments(segments: seq<string>)
    requires |segments| >= 2
    requires forall k :: 0 <= k < |segments| ==> ';' !in segments[k] && ':' in segments[k]
    ensures FromStringSpec(Join(segments, ";")).Success?
    ensures |FromStringSpec(Join(segments, ";")).value.fields| == |segments|
    ensures forall k :: 0 <= k < |segments| ==> FromStringSpec(Join(segments, ";")).value.fields[k] == SegmentField(segments[k])
  {
    var text := Join(segments, ";");
    SplitJoin(segments, ';');
    SplitSeveral(text, ';');
    JoinStartsWith(segments, ";");
    var i :| 0 <= i < |segments[0]| && segments[0][i] == ':';
    assert text[i] == ':';
    FromStringSucceeds(text);
    FromStringFields(text);
  }

  /** A segment `lead name: dtype, tag`. */
  lemma SegmentTagged(seg: string, lead: string, name: string, dtype: string, tag: string)
    requires seg == lead + name + ": " + (dtype + ", " + tag)
    requires AllSpace(lead) && ':' !in lead && ';' !in lead && Plain(name) && Plain(dtype) && Plain(tag)
    ensures ';' !in seg && ':' in seg && SegmentField(seg) == Field(name, DtypeName(dtype), Some(tag))
  {
    var d := dtype + ", " + tag;
    assert d[|d| - 1] == tag[|tag| - 1];
    AroundSeparator(dtype, ", ", tag, ';');
    AroundSeparator(lead + name, ": ", d, ';');
    FieldOfTagged(name, dtype, tag);
    SegmentOf(seg, lead, name, d);
  }

  /** A character in none of three pieces is not in their concatenation. */
  lemma AroundSeparator(a: string, sep: string, b: string, c: char)
    requires c !in a && c !in sep && c !in b
    ensures c !in a + sep + b
  {
  }

  /** A segment `lead name: dtype`. */
  lemma SegmentUntagged(seg: string, lead: string, name: string, dtype: string)
    requires seg == lead + name + ": " + dtype
    requires AllSpace(lead) && ':' !in lead && ';' !in lead && Plain(name) && Plain(dtype)
    ensures ';' !in seg && ':' in seg && SegmentField(seg) == Field(name, DtypeName(dtype), None)
  {
    AroundSeparator(lead + name, ": ", dtype, ';');
    FieldOfUntagged(name, dtype);
    SegmentOf(seg, lead, name, dtype);
  }

  /** Segments that each read as a given field, joined with ";", give
      those fields. */
  lemma FromStringReads(segments: seq<string>, fields: seq<Field>)
    requires |segments| >= 2 && |fields| == |segments|
    requires forall k :: 0 <= k < |segments| ==> ';' !in segments[k] && ':' in segments[k] && SegmentField(segments[k]) == fields[k]
    ensures FromStringSpec(Join(segments, ";")) == Success(TableSchema(fields))
  {
    FromStringSegments(segments);
    var r := FromStringSpec(Join(segments, ";"));
    assert r.value.fields == fields by {
      forall k | 0 <= k < |fields| ensures r.value.fields[k] == fields[k] {
      }
    }
    assert r.value == TableSchema(fields);
  }

  /** Three readable segments, joined with ";", give their three fields. */
  lemma ThreeSegments(s1: string, s2: string, s3: string, f1: Field, f2: Field, f3: Field)
    requires ';' !in s1 && ':' in s1 && SegmentField(s1) == f1
    requires ';' !in s2 && ':' in s2 && SegmentField(s2) == f2
    requires ';' !in s3 && ':' in s3 && SegmentField(s3) == f3
    ensures FromStringSpec(Join([s1, s2, s3], ";")) == Success(TableSchema([f1, f2, f3]))
  {
    var segments := [s1, s2, s3];
    var fields := [f1, f2, f3];
    forall k | 0 <= k < |segments|
      ensures ';' !in segments[k] && ':' in segments[k] && SegmentField(segments[k]) == fields[k]
    {
      if k == 0 {
      } else if k == 1 {
      } else {
        assert k == 2;
      }
    }
    FromStringReads(segments, fields);
  }

  /** The segments of the documented example: the first one tagged and
      without leading space, ... */
  lemma FirstSegment(name: string, dtype: string, tag: string)
    requires Plain(name) && Plain(dtype) && Plain(tag)
    ensures var s := name + ": " + (dtype + ", " + tag);
            ';' !in s && ':' in s && SegmentField(s) == Field(name, DtypeName(dtype), Some(tag))
  {
    var s := name + ": " + (dtype + ", " + tag);
    assert s == [] + name + ": " + (dtype + ", " + tag);
    SegmentTagged(s, [], name, dtype, tag);
  }

  /** ... the later ones after the space that follows each ";", tagged ... */
  lemma SpacedTaggedSegment(name: string, dtype: string, tag: string)
    requires Plain(name) && Plain(dtype) && Plain(tag)
    ensures var s := " " + name + ": " + (dtype + ", " + tag);
            ';' !in s && ':' in s && SegmentField(s) == Field(name, DtypeName(dtype), Some(tag))
  {
    SegmentTagged(" " + name + ": " + (dtype + ", " + tag), " ", name, dtype, tag);
  }

  /** ... or untagged. */
  lemma SpacedUntaggedSegment(name: string, dtype: string)
    requires Plain(name) && Plain(dtype)
    ensures var s := " " + name + ": " + dtype;
            ';' !in s && ':' in s && SegmentField(s) == Field(name, DtypeName(dtype), None)
  {
    SegmentUntagged(" " + name + ": " + dtype, " ", name, dtype);
  }

  /** The shape of the documented example
      "Y: int, target; YEARWEEK: datetime, main_time; QUANTITY: int":
      three fields, two tagged and one untagged, read in order. */
  lemma FromStringThreeFields(n1: string, t1: string, g1: string, n2: string, t2: string, g2: string, n3: string, t3: string)
    requires Plain(n1) && Plain(t1) && Plain(g1) && Plain(n2) && Plain(t2) && Plain(g2) && Plain(n3) && Plain(t3)
    ensures FromStringSpec(Join([n1 + ": " + (t1 + ", " + g1), " " + n2 + ": " + (t2 + ", " + g2), " " + n3 + ": " + t3], ";"))
         == Success(TableSchema([
              Field(n1, DtypeName(t1), Some(g1)),
              Field(n2, DtypeName(t2), Some(g2)),
              Field(n3, DtypeName(t3), None)]))
  {
    FirstSegment(n1, t1, g1);
    SpacedTaggedSegment(n2, t2, g2);
    SpacedUntaggedSegment(n3, t3);
    ThreeSegments(n1 + ": " + (t1 + ", " + g1), " " + n2 + ": " + (t2 + ", " + g2), " " + n3 + ": " + t3,
                  Field(n1, DtypeName(t1), Some(g1)), Field(n2, DtypeName(t2), Some(g2)), Field(n3, DtypeName(t3), None));
  }

}
