/** The Python values that flow through the logical plan (argument values,
    keyword dictionaries, column lists) with Python's truthiness, the
    insertion-ordered `dict`, and the text `repr()` and `str()` give. */
module PyValues {
  import opened Results
  import opened PyStrings

  datatype Value =
    | PyNone
    | PyBool(b: bool)
    | PyInt(i: int)
    | PyStr(s: string)
    | PyList(items: seq<Value>)
    | PyDict(entries: Dict)

  /** One `key: value` pair of a dictionary with string keys. */
  datatype Entry = Entry(key: string, value: Value)

  /** A Python `dict` with string keys, in insertion order. */
  type Dict = seq<Entry>

  /** `bool(v)` */
  predicate Truthy(v: Value) {
    match v
    case PyNone => false
    case PyBool(b) => b
    case PyInt(i) => i != 0
    case PyStr(s) => s != ""
    case PyList(items) => items != []
    case PyDict(entries) => entries != []
  }

  /** `v or default` */
  function Or(v: Value, default: Value): (r: Value)
    ensures Truthy(v) ==> r == v
    ensures !Truthy(v) ==> r == default
  {
    if Truthy(v) then v else default
  }

  /** The values `iter(v)` yields, or None when `v` is not iterable
      (iterating a string yields its characters, a dict its keys). */
  function Iterate(v: Value): (r: Option<seq<Value>>)
    ensures v.PyList? ==> r == Some(v.items)
    ensures v.PyStr? ==>
              r.Some? && |r.value| == |v.s| && forall i :: 0 <= i < |v.s| ==> r.value[i] == PyStr([v.s[i]])
    ensures (v.PyNone? || v.PyBool? || v.PyInt?) <==> r.None?
  {
    match v
    case PyList(items) => Some(items)
    case PyStr(s) => Some(seq(|s|, i requires 0 <= i < |s| => PyStr([s[i]])))
    case PyDict(entries) => Some(seq(|entries|, i requires 0 <= i < |entries| => PyStr(entries[i].key)))
    case _ => None
  }

  // ---------------------------------------------------------------------------
  // Dictionaries

  function Keys(d: Dict): set<string> {
    set i | 0 <= i < |d| :: d[i].key
  }

  /** Every key occurs once, as in any Python dict. */
  predicate DistinctKeys(d: Dict) {
    forall i, j :: 0 <= i < j < |d| ==> d[i].key != d[j].key
  }

  /** `d.get(k)`, with None for a missing key. */
  function Get(d: Dict, k: string): (r: Option<Value>)
    ensures r.Some? <==> k in Keys(d)
    ensures r.Some? ==> exists i :: 0 <= i < |d| && d[i] == Entry(k, r.value)
  {
    if d == [] then None
    else if d[0].key == k then Some(d[0].value)
    else
      var r := Get(d[1..], k);
      KeysCons(d[0], d[1..]);
      assert d == [d[0]] + d[1..];
      assert r.Some? ==> exists i :: 1 <= i < |d| && d[i] == Entry(k, r.value) by {
        if r.Some? {
          var i :| 0 <= i < |d[1..]| && d[1..][i] == Entry(k, r.value);
          assert d[i + 1] == Entry(k, r.value);
        }
      }
      r
  }

  /** `d.get(k)` as a Python value: `PyNone` for a missing key. */
  function GetValue(d: Dict, k: string): (r: Value)
    ensures k !in Keys(d) ==> r == PyNone
    ensures Get(d, k).Some? ==> r == Get(d, k).value
  {
    Get(d, k).GetOr(PyNone)
  }

  /** `d[k] = v`: an existing key keeps its position, a new key goes last
      (see SetExistingKey and SetNewKey). */
  function Set(d: Dict, k: string, v: Value): (r: Dict)
    ensures Keys(r) == Keys(d) + {k}
    ensures Get(r, k) == Some(v)
    ensures forall k' :: k' != k ==> Get(r, k') == Get(d, k')
  {
    if d == [] then
      KeysCons(Entry(k, v), []);
      [Entry(k, v)]
    else if d[0].key == k then
      KeysCons(d[0], d[1..]);
      KeysCons(Entry(k, v), d[1..]);
      [Entry(k, v)] + d[1..]
    else
      KeysCons(d[0], d[1..]);
      KeysCons(d[0], Set(d[1..], k, v));
      [d[0]] + Set(d[1..], k, v)
  }

  /** Assigning to a key already present keeps every key in its place. */
  lemma {:induction false} SetExistingKey(d: Dict, k: string, v: Value)
    requires k in Keys(d)
    ensures |Set(d, k, v)| == |d|
    ensures forall i :: 0 <= i < |d| ==> Set(d, k, v)[i].key == d[i].key
  {
    KeysCons(d[0], d[1..]);
    if d[0].key != k {
      SetExistingKey(d[1..], k, v);
    }
  }

  /** Assigning to a new key appends it. */
  lemma {:induction false} SetNewKey(d: Dict, k: string, v: Value)
    requires k !in Keys(d)
    ensures Set(d, k, v) == d + [Entry(k, v)]
  {
    if d != [] {
      KeysCons(d[0], d[1..]);
      SetNewKey(d[1..], k, v);
      assert d == [d[0]] + d[1..];
    }
  }

  /** Keys stay distinct under `d[k] = v`. */
  lemma SetDistinct(d: Dict, k: string, v: Value)
    requires DistinctKeys(d)
    ensures DistinctKeys(Set(d, k, v))
  {
    var r := Set(d, k, v);
    if k in Keys(d) {
      SetExistingKey(d, k, v);
      assert forall i, j :: 0 <= i < j < |r| ==> r[i].key == d[i].key && r[j].key == d[j].key;
    } else {
      SetNewKey(d, k, v);
      forall i | 0 <= i < |d| ensures r[i].key != k {
        assert d[i].key in Keys(d);
      }
    }
  }

  lemma KeysCons(e: Entry, d: Dict)
    ensures Keys([e] + d) == {e.key} + Keys(d)
  {
    var d' := [e] + d;
    assert forall i :: 0 <= i < |d| ==> d'[i + 1] == d[i];
    assert d'[0] == e;
    forall x | x in Keys(d') ensures x in {e.key} + Keys(d) {
      var i :| 0 <= i < |d'| && d'[i].key == x;
      if i > 0 { assert d[i - 1].key == x; }
    }
  }

  // ---------------------------------------------------------------------------
  // repr() and str()

  function HexDigit(n: nat): (c: char)
    requires n < 16
  {
    if n < 10 then ('0' as int + n) as char else ('a' as int + n - 10) as char
  }

  predicate IsHexDigit(c: char) {
    '0' <= c <= '9' || 'a' <= c <= 'f'
  }

  function HexValue(c: char): (n: nat)
    requires IsHexDigit(c)
    ensures n < 16
  {
    if '0' <= c <= '9' then c as int - '0' as int else c as int - 'a' as int + 10
  }

  /** The quote `repr` puts around a string: a double quote when the string
      holds a single quote and no double quote, otherwise a single quote. */
  function QuoteFor(s: string): (q: char)
    ensures q == '\'' || q == '"'
  {
    if '\'' in s && '"' !in s then '"' else '\''
  }

  /** How `repr` writes one character of a string quoted with `q`.
      Characters outside ASCII are written as they are. */
  function EscapeChar(c: char, q: char): string
    requires q == '\'' || q == '"'
  {
    if c == q || c == '\\' then ['\\', c]
    else if c == '\t' then "\\t"
    else if c == '\n' then "\\n"
    else if c == '\r' then "\\r"
    else if c < ' ' || c == '\U{7F}' then ['\\', 'x', HexDigit(c as int / 16), HexDigit(c as int % 16)]
    else [c]
  }

  function EscapeBody(s: string, q: char): string
    requires q == '\'' || q == '"'
  {
    if s == [] then "" else EscapeChar(s[0], q) + EscapeBody(s[1..], q)
  }

  /** `repr(s)` for a string. */
  function ReprString(s: string): (r: string)
    ensures |r| >= 2 && r[0] == r[|r| - 1] == QuoteFor(s)
  {
    var q := QuoteFor(s);
    [q] + EscapeBody(s, q) + [q]
  }

  /** Reads the body of a Python string literal back into the string it
      denotes (the escapes `repr` writes). */
  function Unescape(t: string): string
    decreases |t|
  {
    if t == [] then []
    else if t[0] == '\\' && |t| >= 2 then
      if t[1] == 't' then "\t" + Unescape(t[2..])
      else if t[1] == 'n' then "\n" + Unescape(t[2..])
      else if t[1] == 'r' then "\r" + Unescape(t[2..])
      else if t[1] == 'x' && |t| >= 4 && IsHexDigit(t[2]) && IsHexDigit(t[3]) then
        [(HexValue(t[2]) * 16 + HexValue(t[3])) as char] + Unescape(t[4..])
      else [t[1]] + Unescape(t[2..])
    else [t[0]] + Unescape(t[1..])
  }

  /** The string a quoted literal denotes, `ast.literal_eval(r)`. */
  function ParseStringLiteral(r: string): string
    requires |r| >= 2
  {
    Unescape(r[1..|r| - 1])
  }

  lemma UnescapeChar(c: char, q: char, rest: string)
    requires q == '\'' || q == '"'
    ensures Unescape(EscapeChar(c, q) + rest) == [c] + Unescape(rest)
  {
    var t := EscapeChar(c, q) + rest;
    if c == q || c == '\\' {
      assert t[2..] == rest;
    } else if c == '\t' || c == '\n' || c == '\r' {
      assert t[2..] == rest;
    } else if c < ' ' || c == '\U{7F}' {
      var n := c as int;
      assert HexValue(HexDigit(n / 16)) == n / 16;
      assert HexValue(HexDigit(n % 16)) == n % 16;
      assert t[4..] == rest;
    } else {
      assert t[1..] == rest;
    }
  }

  lemma {:induction false} UnescapeBody(s: string, q: char)
    requires q == '\'' || q == '"'
    ensures Unescape(EscapeBody(s, q)) == s
  {
    if s != [] {
      UnescapeChar(s[0], q, EscapeBody(s[1..], q));
      UnescapeBody(s[1..], q);
    }
  }

  /** Reading back the text `repr` writes for a string gives the string. */
  lemma ReprStringRoundTrip(s: string)
    ensures ParseStringLiteral(ReprString(s)) == s
  {
    var q := QuoteFor(s);
    var r := ReprString(s);
    assert r[1..|r| - 1] == EscapeBody(s, q);
    UnescapeBody(s, q);
  }

  /** A character `repr` writes as itself between single quotes. */
  predicate PlainChar(c: char) {
    c >= ' ' && c != '\U{7F}' && c != '\'' && c != '\\'
  }

  predicate PlainString(s: string) {
    forall i :: 0 <= i < |s| ==> PlainChar(s[i])
  }

  lemma {:induction false} EscapePlainBody(s: string)
    requires PlainString(s)
    ensures EscapeBody(s, '\'') == s
  {
    if s != [] {
      EscapePlainBody(s[1..]);
    }
  }

  /** A string of plain characters is shown between single quotes as it is. */
  lemma ReprPlainString(s: string)
    requires PlainString(s)
    ensures ReprString(s) == "'" + s + "'"
  {
    EscapePlainBody(s);
  }

  /** The texts `repr` gives the plain strings of a list. */
  function QuotedAll(ss: seq<string>): (r: seq<string>)
    ensures |r| == |ss|
    ensures forall i :: 0 <= i < |ss| ==> r[i] == "'" + ss[i] + "'"
  {
    if ss == [] then [] else ["'" + ss[0] + "'"] + QuotedAll(ss[1..])
  }

  /** `repr` of a list of plain strings: the quoted strings joined by ", ". */
  lemma {:induction false} ReprPlainList(ss: seq<string>)
    requires forall i :: 0 <= i < |ss| ==> PlainString(ss[i])
    ensures Repr(StrList(ss)) == "[" + Join(QuotedAll(ss), ", ") + "]"
  {
    ReprPlainItems(ss);
  }

  lemma {:induction false} ReprPlainItems(ss: seq<string>)
    requires forall i :: 0 <= i < |ss| ==> PlainString(ss[i])
    ensures ReprItems(StrList(ss).items) == Join(QuotedAll(ss), ", ")
  {
    if ss != [] {
      ReprPlainString(ss[0]);
      assert StrList(ss).items[1..] == StrList(ss[1..]).items;
      assert QuotedAll(ss)[1..] == QuotedAll(ss[1..]);
      ReprPlainItems(ss[1..]);
    }
  }

  /** The two-column case written out: `['a', 'b']`. */
  lemma ReprTwoPlain(a: string, b: string)
    requires PlainString(a) && PlainString(b)
    ensures Repr(StrList([a, b])) == "['" + a + "', '" + b + "']"
  {
    ReprPlainList([a, b]);
    var q := QuotedAll([a, b]);
    assert Join(q, ", ") == q[0] + ", " + Join(q[1..], ", ");
    assert q[1..] == [q[1]];
  }

  /** `repr(v)` */
  function Repr(v: Value): string
    decreases v, 1
  {
    match v
    case PyNone => "None"
    case PyBool(b) => if b then "True" else "False"
    case PyInt(i) => IntToString(i)
    case PyStr(s) => ReprString(s)
    case PyList(items) => "[" + ReprItems(items) + "]"
    case PyDict(entries) => "{" + ReprEntries(entries) + "}"
  }

  /** The elements of a list display, separated by ", ". */
  function ReprItems(items: seq<Value>): string
    decreases items, 0
  {
    if items == [] then ""
    else if |items| == 1 then Repr(items[0])
    else Repr(items[0]) + ", " + ReprItems(items[1..])
  }

  /** The `key: value` pairs of a dict display, separated by ", ". */
  function ReprEntries(entries: Dict): string
    decreases entries, 0
  {
    if entries == [] then ""
    else
      var e := ReprString(entries[0].key) + ": " + Repr(entries[0].value);
      if |entries| == 1 then e else e + ", " + ReprEntries(entries[1..])
  }

  /** `str(v)`, which is also what an f-string substitutes: a string stands
      for itself, anything else for its `repr`. */
  function Str(v: Value): (r: string)
    ensures v.PyStr? ==> r == v.s
    ensures !v.PyStr? ==> r == Repr(v)
  {
    if v.PyStr? then v.s else Repr(v)
  }

  /** `str(list_of_strings)`: the list display of the quoted strings. */
  function StrList(ss: seq<string>): Value {
    PyList(seq(|ss|, i requires 0 <= i < |ss| => PyStr(ss[i])))
  }
}
