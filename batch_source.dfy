/** `BatchSource.fetch_data_sql` (hammer/dataset/source/batch.py): the
    query text of a batch source, built on first use and cached in the
    source. */
module BatchSources {
  import opened Results
  import opened PyStrings
  import PyValues

  /** The settings are text: `field_mapping` pairs source columns with the
      names they are selected as, in insertion order, and the filter is an
      optional condition, truthy when present and not empty. */
  type FieldMapping = seq<(string, string)>

  /** The filter setting as the Python value `bool(...)` is taken of. */
  function Condition(condition: Option<string>): (v: PyValues.Value)
    ensures condition.None? ==> v == PyValues.PyNone
    ensures condition.Some? ==> v == PyValues.PyStr(condition.value)
  {
    if condition.Some? then PyValues.PyStr(condition.value) else PyValues.PyNone
  }

  /** The projection: every column when the mapping is empty, otherwise
      `k as v` for each pair, in mapping order, separated by a bare ",". */
  function SelectClause(fieldMapping: FieldMapping): string {
    if fieldMapping == [] then "select *" else "select " + Join(Aliases(fieldMapping), ",")
  }

  /** The `k as v` items of the projection. */
  function Aliases(fieldMapping: FieldMapping): (r: seq<string>)
    ensures |r| == |fieldMapping|
    ensures forall i :: 0 <= i < |r| ==> r[i] == fieldMapping[i].0 + " as " + fieldMapping[i].1
  {
    seq(|fieldMapping|, i requires 0 <= i < |fieldMapping| => fieldMapping[i].0 + " as " + fieldMapping[i].1)
  }

  /** The table reference: PostgreSQL tables are qualified with the
      `public` schema. */
  function FromClause(database: string, tableName: string, infraType: string): string {
    if infraType != "postgres" then "\nfrom " + database + "." + tableName
    else "\nfrom " + database + ".public." + tableName
  }

  /** The row filter, present only for a truthy condition. */
  function WhereClause(filterConditions: Option<string>): string {
    if PyValues.Truthy(Condition(filterConditions)) then "\nwhere " + filterConditions.value else ""
  }

  /** The text `fetch_data_sql` computes from the source's settings. */
  function FetchSql(fieldMapping: FieldMapping, database: string, tableName: string, infraType: string, filterConditions: Option<string>): string {
    SelectClause(fieldMapping) + FromClause(database, tableName, infraType) + WhereClause(filterConditions)
  }

  /** A batch source with the settings `fetch_data_sql` reads and the
      cache it fills. */
  class BatchSource {
    var fieldMapping: FieldMapping
    var database: string
    var tableName: string
    var infraType: string
    var filterConditions: Option<string>
    /** `_fetch_data_sql`, None until the first read. */
    var fetchDataSql: Option<string>

    constructor(fieldMapping: FieldMapping, database: string, tableName: string, infraType: string, filterConditions: Option<string>)
      ensures this.fieldMapping == fieldMapping && this.database == database && this.tableName == tableName
      ensures this.infraType == infraType && this.filterConditions == filterConditions
      ensures fetchDataSql == None
    {
      this.fieldMapping := fieldMapping;
      this.database := database;
      this.tableName := tableName;
      this.infraType := infraType;
      this.filterConditions := filterConditions;
      fetchDataSql := None;
    }

    /** The `fetch_data_sql` property. The first read builds the text from
        the current settings and stores it; every later read returns the
        stored text, whatever the settings have become since. */
    method FetchDataSql() returns (sql: string)
      modifies this
      ensures old(fetchDataSql).Some? ==> sql == old(fetchDataSql).value
      ensures old(fetchDataSql).None? ==> sql == FetchSql(fieldMapping, database, tableName, infraType, filterConditions)
      ensures fetchDataSql == Some(sql)
      ensures fieldMapping == old(fieldMapping) && database == old(database) && tableName == old(tableName)
      ensures infraType == old(infraType) && filterConditions == old(filterConditions)
    {
      if fetchDataSql.None? {
        var text := "select *";
        if fieldMapping != [] {
          text := "select " + Join(Aliases(fieldMapping), ",");
        }
        text := text + (if infraType != "postgres" then "\nfrom " + database + "." + tableName
                        else "\nfrom " + database + ".public." + tableName);
        if PyValues.Truthy(Condition(filterConditions)) {
          text := text + ("\nwhere " + filterConditions.value);
        }
        fetchDataSql := Some(text);
      }
      sql := fetchDataSql.value;
    }
  }

  /** The schema qualification appears exactly for PostgreSQL. */
  lemma PostgresQualified(database: string, tableName: string, infraType: string)
    ensures infraType == "postgres" <==>
              FromClause(database, tableName, infraType) == "\nfrom " + database + ".public." + tableName
    ensures infraType != "postgres" <==>
              FromClause(database, tableName, infraType) == "\nfrom " + database + "." + tableName
  {
    var a := "\nfrom " + database + "." + tableName;
    var b := "\nfrom " + database + ".public." + tableName;
    assert |b| == |a| + 7;
  }

  /** No mapping, no filter: every column of the table. */
  lemma SelectEverything(database: string, tableName: string, infraType: string, filterConditions: Option<string>)
    requires !PyValues.Truthy(Condition(filterConditions))
    ensures FetchSql([], database, tableName, infraType, filterConditions)
         == "select *" + FromClause(database, tableName, infraType)
  {
  }

  /** Text without line breaks. */
  predicate OneLine(s: string) {
    '\n' !in s
  }

  /** The projection of a mapping without line breaks is one line. */
  lemma SelectClauseOneLine(fieldMapping: FieldMapping)
    requires forall i :: 0 <= i < |fieldMapping| ==> OneLine(fieldMapping[i].0) && OneLine(fieldMapping[i].1)
    ensures OneLine(SelectClause(fieldMapping))
  {
    if fieldMapping != [] {
      var items := Aliases(fieldMapping);
      forall i | 0 <= i < |items| ensures '\n' !in items[i] {
        assert items[i] == fieldMapping[i].0 + " as " + fieldMapping[i].1;
      }
      JoinAvoids(items, ",", '\n');
    }
  }

  /** Joining pieces that avoid a character, with a separator that avoids
      it, gives a text that avoids it. */
  lemma {:induction false} JoinAvoids(parts: seq<string>, sep: string, c: char)
    requires c !in sep
    requires forall i :: 0 <= i < |parts| ==> c !in parts[i]
    ensures c !in Join(parts, sep)
    decreases |parts|
  {
    if |parts| > 1 {
      JoinAvoids(parts[1..], sep, c);
      assert c !in parts[0];
    }
  }

  /** When no setting holds a line break, the query has one line per
      clause: the projection, the table, and the filter exactly when the
      condition is truthy. */
  lemma QueryLines(fieldMapping: FieldMapping, database: string, tableName: string, infraType: string, filterConditions: Option<string>)
    requires forall i :: 0 <= i < |fieldMapping| ==> OneLine(fieldMapping[i].0) && OneLine(fieldMapping[i].1)
    requires OneLine(database) && OneLine(tableName) && (filterConditions.Some? ==> OneLine(filterConditions.value))
    ensures var lines := Split(FetchSql(fieldMapping, database, tableName, infraType, filterConditions), '\n');
            && |lines| == (if PyValues.Truthy(Condition(filterConditions)) then 3 else 2)
            && lines[0] == SelectClause(fieldMapping)
            && lines[1] == FromClause(database, tableName, infraType)[1..]
            && (PyValues.Truthy(Condition(filterConditions)) ==> lines[2] == "where " + filterConditions.value)
  {
    SelectClauseOneLine(fieldMapping);
    FromClauseShape(database, tableName, infraType);
    WhereClauseShape(filterConditions);
    ClauseLines(SelectClause(fieldMapping), FromClause(database, tableName, infraType), WhereClause(filterConditions));
  }

  lemma FromClauseShape(database: string, tableName: string, infraType: string)
    requires OneLine(database) && OneLine(tableName)
    ensures var from := FromClause(database, tableName, infraType);
            |from| >= 1 && from[0] == '\n' && OneLine(from[1..])
  {
  }

  lemma WhereClauseShape(filterConditions: Option<string>)
    requires (filterConditions.Some? ==> OneLine(filterConditions.value))
    ensures var where := WhereClause(filterConditions);
            && (where == [] <==> !PyValues.Truthy(Condition(filterConditions)))
            && (where != [] ==> where[0] == '\n' && where[1..] == "where " + filterConditions.value && OneLine(where[1..]))
  {
  }

  /** The projection, the table clause and the optional filter clause, the
      last two each opening with a line break, split back into lines. */
  lemma ClauseLines(select: string, from: string, where: string)
    requires '\n' !in select
    requires |from| >= 1 && from[0] == '\n' && '\n' !in from[1..]
    requires where == [] || (where[0] == '\n' && '\n' !in where[1..])
    ensures var lines := Split(select + from + where, '\n');
            && |lines| == (if where == [] then 2 else 3)
            && lines[0] == select && lines[1] == from[1..]
            && (where != [] ==> lines[2] == where[1..])
  {
    var rest := from + where;
    AppendAssociative(select, from, where);
    DropFirstOfAppend(from, where);
    SplitAfter(select, rest, '\n');
    if where == [] {
      assert rest[1..] == from[1..];
    } else {
      SplitAfter(from[1..], where, '\n');
    }
  }

  /** The projection lists the mapping's pairs in order: with keys and
      values free of commas, splitting the column list at "," gives one
      `k as v` item per pair. */
  lemma AliasesInOrder(fieldMapping: FieldMapping)
    requires fieldMapping != []
    requires forall i :: 0 <= i < |fieldMapping| ==> ',' !in fieldMapping[i].0 && ',' !in fieldMapping[i].1
    ensures SelectClause(fieldMapping) == "select " + Join(Aliases(fieldMapping), ",")
    ensures Split(SelectClause(fieldMapping)[|"select "|..], ',') == Aliases(fieldMapping)
  {
    var items := Aliases(fieldMapping);
    forall k | 0 <= k < |items| ensures ',' !in items[k] {
      assert items[k] == fieldMapping[k].0 + " as " + fieldMapping[k].1;
    }
    SplitJoin(items, ',');
  }
}
