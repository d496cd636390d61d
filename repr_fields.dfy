/** Reading back the `Class(label=value, label=value)` text that the node
    classes' `__repr__` write, for values without commas; it is the inverse
    the repr lemmas are stated against. */
module ReprFields {
  import opened Results
  import opened PyStrings

  /** `label=value, ` followed by the rest of the repr. */
  function Labelled(tag: string, value: string, rest: string): string {
    tag + "=" + value + ", " + rest
  }

  /** The final `label=value)` of a repr. */
  function LastLabelled(tag: string, value: string): string {
    tag + "=" + value + ")"
  }

  /** Reads `label=value, ` at the front of `t`, with the value ending at
      the first comma; gives the value and the text after the separator. */
  function ReadField(t: string, tag: string): Option<(string, string)> {
    var head := tag + "=";
    if !StartsWith(t, head) then None
    else
      var r := t[|head|..];
      if ',' !in r then None
      else
        var i := IndexOf(r, ',');
        if i + 1 < |r| && r[i + 1] == ' ' then Some((r[..i], r[i + 2..])) else None
  }

  /** Reads the final `label=value)`. */
  function ReadLast(t: string, tag: string): Option<string> {
    var head := tag + "=";
    if StartsWith(t, head) && |t| > |head| && t[|t| - 1] == ')' then Some(t[|head|..|t| - 1]) else None
  }

  lemma ReadFieldWritten(tag: string, value: string, rest: string)
    requires ',' !in value
    ensures ReadField(Labelled(tag, value, rest), tag) == Some((value, rest))
  {
    var head := tag + "=";
    var t := tag + "=" + value + ", " + rest;
    assert t == head + (value + ", " + rest);
    assert StartsWith(t, head);
    var r := t[|head|..];
    assert r == value + [','] + (" " + rest);
    IndexOfAfter(value, ',', " " + rest);
    assert r[|value| + 1] == ' ';
    assert r[..|value|] == value;
    assert r[|value| + 2..] == rest;
  }

  lemma ReadLastWritten(tag: string, value: string)
    ensures ReadLast(LastLabelled(tag, value), tag) == Some(value)
  {
    var head := tag + "=";
    var t := tag + "=" + value + ")";
    assert t == head + value + ")";
    assert StartsWith(t, head);
    assert t[|head|..|t| - 1] == value;
  }
}
