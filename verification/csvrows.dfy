/** The rows `write_metadata_to_csv` (util.py:1692-1771) writes for a list of validation or workflow
    rules: one line per rule, the sObject name first, then one quoted cell per requested column.
    Writing the bytes to the file is left to the caller, and the `urllib.parse.unquote(unescape(…))`
    applied to each cell is the parameter `decode`. */
module CsvRows {
  import opened Strings
  import opened Values

  // ----- quoting -----

  /** `s.replace('"', '""')`. */
  function Escape(s: string): (r: string)
    ensures '"' !in s ==> r == s
    decreases |s|
  {
    if |s| == 0 then "" else (if s[0] == '"' then "\"\"" else [s[0]]) + Escape(s[1..])
  }

  /** The inside of a quoted CSV field read back: a doubled quote stands for one quote, and a lone
      quote would end the field, so an inside holding one is not valid. */
  function Unescape(t: string): Option<string>
    decreases |t|
  {
    if |t| == 0 then Some("")
    else if t[0] != '"' then
      match Unescape(t[1..])
      case Some(rest) => Some([t[0]] + rest)
      case None => None
    else if |t| >= 2 && t[1] == '"' then
      match Unescape(t[2..])
      case Some(rest) => Some("\"" + rest)
      case None => None
    else None
  }

  /** A quoted CSV field read back. */
  function ReadCell(t: string): Option<string> {
    if |t| >= 2 && t[0] == '"' && t[|t| - 1] == '"' then Unescape(t[1..|t| - 1]) else None
  }

  /** The quoting of util.py:1759-1763: a cell holding a quote has it doubled; both branches wrap
      the cell in quotes, so the cell is always the quoted, escaped text. */
  function QuoteCell(s: string): (r: string)
    ensures r == "\"" + Escape(s) + "\""
  {
    if '"' in s then "\"" + Escape(s) + "\"" else "\"" + s + "\""
  }

  lemma {:induction false} UnescapeEscape(s: string)
    ensures Unescape(Escape(s)) == Some(s)
    decreases |s|
  {
    if |s| > 0 {
      UnescapeEscape(s[1..]);
      var e := Escape(s[1..]);
      if s[0] == '"' {
        assert Escape(s) == "\"\"" + e;
        assert (("\"\"" + e)[2..]) == e;
        assert "\"" + s[1..] == s;
      } else {
        assert Escape(s) == [s[0]] + e;
        assert ([s[0]] + e)[1..] == e;
        assert [s[0]] + s[1..] == s;
      }
    }
  }

  /** Every written cell reads back as exactly the text it was made from. */
  lemma QuoteRoundTrip(s: string)
    ensures ReadCell(QuoteCell(s)) == Some(s)
  {
    var q := QuoteCell(s);
    assert q[1..|q| - 1] == Escape(s);
    UnescapeEscape(s);
  }

  // ----- the text of one cell -----

  /** `" ".join(ns)`: every item must be a string. */
  function JoinWords(ns: seq<Node>): (r: Result<string>)
    ensures r.Ok? <==> forall i :: 0 <= i < |ns| ==> ns[i].Str?
  {
    if forall i :: 0 <= i < |ns| ==> ns[i].Str? then Ok(Join(" ", seq(|ns|, i requires 0 <= i < |ns| => ns[i].s)))
    else Err(TypeError("sequence item: expected str instance"))
  }

  /** The values one dictionary of a list cell contributes: an empty string for a falsy value. */
  function ItemValues(entries: seq<(string, Node)>): (r: seq<Node>)
    ensures |r| == |entries|
    ensures forall i :: 0 <= i < |entries| ==> r[i] == if Truthy(entries[i].1) then entries[i].1 else Str("")
  {
    seq(|entries|, i requires 0 <= i < |entries| => if Truthy(entries[i].1) then entries[i].1 else Str(""))
  }

  /** The loop over a list of dictionaries (util.py:1724-1732). `values` is NOT reset between
      dictionaries, so each line repeats the values of every dictionary before it. */
  function DictListFrom(items: seq<Node>, values: seq<Node>, value: string): Result<string>
    decreases |items|
  {
    if |items| == 0 then Ok(value)
    else if !items[0].Map? then Err(AttributeError("keys"))
    else
      var values' := values + ItemValues(items[0].entries);
      var line :- JoinWords(values');
      DictListFrom(items[1..], values', value + line + "\n")
  }

  /** The loop over a dictionary cell (util.py:1740-1748). */
  function DictTextFrom(entries: seq<(string, Node)>, value: string): Result<string>
    decreases |entries|
  {
    if |entries| == 0 then Ok(value)
    else
      var (key, v) := entries[0];
      if !Truthy(v) then DictTextFrom(entries[1..], value + key + ": ' '" + "\n")
      else
        var s :- AsStr(v);
        DictTextFrom(entries[1..], value + key + ": " + s + "\n")
  }

  /** `value[:-1]`. */
  function DropLast(s: string): (r: string)
    ensures |s| > 0 ==> s == r + [s[|s| - 1]]
  {
    if |s| == 0 then s else s[..|s| - 1]
  }

  /** The text of a cell before decoding and quoting (util.py:1716-1753). */
  function CellText(v: Node): Result<string> {
    match v
    case List(items) =>
      if |items| > 0 then
        if items[0].Map? then
          var value :- DictListFrom(items, [], "");
          Ok(DropLast(value))
        else
          var line :- JoinWords(items);
          Ok(DropLast(line + "\n"))
      else Ok("")
    case Map(entries) =>
      var value :- DictTextFrom(entries, "");
      Ok(DropLast(value))
    case _ => if !Truthy(v) then Ok("") else Ok(Show(v))
  }

  // ----- rows -----

  /** `[col for col in columns if col != "sobject"]`. */
  function Columns(columns: seq<string>): (r: seq<string>)
    ensures "sobject" !in r
    ensures forall c :: c in columns && c != "sobject" ==> c in r
    ensures forall c :: c in r ==> c in columns
    ensures forall c :: c != "sobject" ==> multiset(r)[c] == multiset(columns)[c]
    decreases |columns|
  {
    if |columns| == 0 then []
    else
      assert columns == [columns[0]] + columns[1..];
      (if columns[0] == "sobject" then [] else [columns[0]]) + Columns(columns[1..])
  }

  /** Filtering the columns keeps their order: the columns of a concatenation are those of its
      parts, one after the other. With the multiset count of `Columns`, this says the result is
      `columns` with every `"sobject"` removed, in order, repeats kept. */
  lemma {:induction false} ColumnsAppend(a: seq<string>, b: seq<string>)
    ensures Columns(a + b) == Columns(a) + Columns(b)
    decreases |a|
  {
    if |a| > 0 {
      assert (a + b)[1..] == a[1..] + b;
      ColumnsAppend(a[1..], b);
    } else {
      assert a + b == b;
    }
  }

  /** One cell of a rule: empty and unquoted for a missing key, otherwise the decoded text quoted.
      Asking for the keys of a rule that is not a dictionary raises. */
  function Cell(rule: Node, key: string, decode: string -> string): Result<string> {
    if !rule.Map? then Err(AttributeError("keys"))
    else if !HasKey(rule.entries, key) then Ok("")
    else
      var text :- CellText(Get(rule.entries, key));
      Ok(QuoteCell(decode(text)))
  }

  function RowCells(rule: Node, keys: seq<string>, decode: string -> string): Result<seq<string>>
    decreases |keys|
  {
    if |keys| == 0 then Ok([])
    else
      var cell :- Cell(rule, keys[0], decode);
      var rest :- RowCells(rule, keys[1..], decode);
      Ok([cell] + rest)
  }

  /** The line of one rule: the sObject name, then the cells, joined by commas. */
  function Row(rule: Node, keys: seq<string>, sobject: string, decode: string -> string): Result<string> {
    var cells :- RowCells(rule, keys, decode);
    Ok(Join(",", [sobject] + cells) + "\n")
  }

  function RowsFrom(rules: seq<Node>, keys: seq<string>, sobject: string, decode: string -> string, rows: string): Result<string>
    decreases |rules|
  {
    if |rules| == 0 then Ok(rows)
    else
      var row :- Row(rules[0], keys, sobject, decode);
      RowsFrom(rules[1..], keys, sobject, decode, rows + row)
  }

  /** The text `write_metadata_to_csv(fp, columns, metadata, sobject)` writes: a lone dictionary
      is one rule. */
  function MetadataRows(columns: seq<string>, metadata: Node, sobject: string, decode: string -> string): Result<string> {
    var rules :- Iterate(OneOrMany(metadata));
    RowsFrom(rules, Columns(columns), sobject, decode, "")
  }

  // ----- the loops -----

  /** The loop over a list of dictionaries, with its inner loop over each dictionary's keys. */
  method DictListValue(items: seq<Node>) returns (r: Result<string>)
    ensures r == DictListFrom(items, [], "")
  {
    var values: seq<Node> := [];
    var value := "";
    var i := 0;
    while i < |items|
      invariant 0 <= i <= |items|
      invariant DictListFrom(items[i..], values, value) == DictListFrom(items, [], "")
    {
      assert items[i..][0] == items[i] && items[i..][1..] == items[i + 1..];
      var cellDict := items[i];
      if !cellDict.Map? {
        return Err(AttributeError("keys"));
      }
      ghost var before := values;
      var j := 0;
      while j < |cellDict.entries|
        invariant 0 <= j <= |cellDict.entries|
        invariant values == before + ItemValues(cellDict.entries)[..j]
      {
        var (_, v) := cellDict.entries[j];
        if !Truthy(v) {
          values := values + [Str("")];
        } else {
          values := values + [v];
        }
        assert ItemValues(cellDict.entries)[..j + 1] == ItemValues(cellDict.entries)[..j] + [ItemValues(cellDict.entries)[j]];
        j := j + 1;
      }
      assert ItemValues(cellDict.entries)[..j] == ItemValues(cellDict.entries);
      var line := JoinWords(values);
      if line.Err? {
        return Err(line.exc);
      }
      value := value + line.value + "\n";
      i := i + 1;
    }
    r := Ok(value);
  }

  /** The loop over a dictionary cell. */
  method DictValue(entries: seq<(string, Node)>) returns (r: Result<string>)
    ensures r == DictTextFrom(entries, "")
  {
    var value := "";
    var i := 0;
    while i < |entries|
      invariant 0 <= i <= |entries|
      invariant DictTextFrom(entries[i..], value) == DictTextFrom(entries, "")
    {
      assert entries[i..][0] == entries[i] && entries[i..][1..] == entries[i + 1..];
      var (cellKey, v) := entries[i];
      if !Truthy(v) {
        value := value + cellKey + ": ' '" + "\n";
      } else {
        if !v.Str? {
          return AsStr(v).PropagateFailure();
        }
        value := value + cellKey + ": " + v.s + "\n";
      }
      i := i + 1;
    }
    r := Ok(value);
  }

  /** The cell of one key of one rule (util.py:1713-1764). */
  method CellValue(rule: Node, key: string, decode: string -> string) returns (r: Result<string>)
    ensures r == Cell(rule, key, decode)
  {
    if !rule.Map? {
      return Err(AttributeError("keys"));
    }
    if !HasKey(rule.entries, key) {
      return Ok("");
    }
    var cellValue := Get(rule.entries, key);
    var text: string;
    if cellValue.List? {
      if |cellValue.items| > 0 {
        var value: string;
        if cellValue.items[0].Map? {
          var joined := DictListValue(cellValue.items);
          if joined.Err? {
            return Err(joined.exc);
          }
          value := joined.value;
        } else {
          var line := JoinWords(cellValue.items);
          if line.Err? {
            return Err(line.exc);
          }
          value := line.value + "\n";
        }
        text := DropLast(value);
      } else {
        text := "";
      }
    } else if cellValue.Map? {
      var value := DictValue(cellValue.entries);
      if value.Err? {
        return Err(value.exc);
      }
      text := DropLast(value.value);
    } else if !Truthy(cellValue) {
      text := "";
    } else {
      text := Show(cellValue);
    }
    text := decode(text);
    r := Ok(QuoteCell(text));
  }

  /** The line of one rule (util.py:1711-1768). */
  method RowValue(rule: Node, keys: seq<string>, sobject: string, decode: string -> string) returns (r: Result<string>)
    ensures r == Row(rule, keys, sobject, decode)
  {
    var rowValue := [sobject];
    var j := 0;
    assert keys[0..] == keys && rowValue[1..] == [];
    match RowCells(rule, keys, decode) {
      case Ok(cells) => assert [] + cells == cells;
      case Err(_) =>
    }
    while j < |keys|
      invariant 0 <= j <= |keys|
      invariant |rowValue| >= 1 && rowValue[0] == sobject
      invariant RowCells(rule, keys, decode) ==
        match RowCells(rule, keys[j..], decode)
        case Ok(rest) => Ok(rowValue[1..] + rest)
        case Err(e) => Err(e)
    {
      assert keys[j..][0] == keys[j] && keys[j..][1..] == keys[j + 1..];
      var cell := CellValue(rule, keys[j], decode);
      if cell.Err? {
        return Err(cell.exc);
      }
      ghost var rest := RowCells(rule, keys[j + 1..], decode);
      if rest.Ok? {
        assert rowValue[1..] + ([cell.value] + rest.value) == (rowValue[1..] + [cell.value]) + rest.value;
      }
      assert (rowValue + [cell.value])[1..] == rowValue[1..] + [cell.value];
      rowValue := rowValue + [cell.value];
      j := j + 1;
    }
    assert keys[j..] == [];
    assert rowValue[1..] + [] == rowValue[1..];
    assert RowCells(rule, keys, decode) == Ok(rowValue[1..]);
    assert [sobject] + rowValue[1..] == rowValue;
    r := Ok(Join(",", rowValue) + "\n");
  }

  method WriteMetadataRows(columns: seq<string>, metadata: Node, sobject: string, decode: string -> string)
    returns (r: Result<string>)
    ensures r == MetadataRows(columns, metadata, sobject, decode)
  {
    var rules := Iterate(OneOrMany(metadata));
    if rules.Err? {
      return Err(rules.exc);
    }
    var keys := Columns(columns);
    var rowValues := "";
    var i := 0;
    while i < |rules.value|
      invariant 0 <= i <= |rules.value|
      invariant RowsFrom(rules.value[i..], keys, sobject, decode, rowValues) == MetadataRows(columns, metadata, sobject, decode)
    {
      assert rules.value[i..][0] == rules.value[i] && rules.value[i..][1..] == rules.value[i + 1..];
      var row := RowValue(rules.value[i], keys, sobject, decode);
      if row.Err? {
        return Err(row.exc);
      }
      rowValues := rowValues + row.value;
      i := i + 1;
    }
    r := Ok(rowValues);
  }

  // ----- properties -----

  /** What a row holds: one cell per column, empty for a key the rule lacks and otherwise the
      quoted, decoded text of the value; it fails exactly when the rule is not a dictionary (and
      there is a column) or the value of some column cannot be turned into text. */
  lemma {:induction false} RowCellsShape(rule: Node, keys: seq<string>, decode: string -> string)
    ensures var r := RowCells(rule, keys, decode);
      && (r.Ok? <==>
            && (|keys| == 0 || rule.Map?)
            && forall j :: 0 <= j < |keys| && rule.Map? && HasKey(rule.entries, keys[j]) ==> CellText(Get(rule.entries, keys[j])).Ok?)
      && (r.Ok? ==>
            && |r.value| == |keys|
            && forall j :: 0 <= j < |keys| ==>
                 && rule.Map?
                 && (!HasKey(rule.entries, keys[j]) ==> r.value[j] == "")
                 && (HasKey(rule.entries, keys[j]) ==> r.value[j] == QuoteCell(decode(CellText(Get(rule.entries, keys[j])).value))))
    decreases |keys|
  {
    if |keys| > 0 {
      RowCellsShape(rule, keys[1..], decode);
      assert forall j :: 1 <= j < |keys| ==> keys[1..][j - 1] == keys[j];
    }
  }

  /** Every line starts with the sObject name and ends the row with a newline. */
  lemma RowStartsWithSObject(rule: Node, keys: seq<string>, sobject: string, decode: string -> string)
    requires Row(rule, keys, sobject, decode).Ok?
    ensures StartsWith(Row(rule, keys, sobject, decode).value, sobject + (if |keys| > 0 then "," else ""))
    ensures EndsWith(Row(rule, keys, sobject, decode).value, "\n")
  {
    var cells := RowCells(rule, keys, decode).value;
    RowCellsShape(rule, keys, decode);
    var line := Join(",", [sobject] + cells);
    if |cells| > 0 {
      JoinCons(",", sobject, cells);
      assert line == sobject + "," + Join(",", cells);
    }
    assert (line + "\n")[..|sobject|] == line[..|sobject|];
    var r := line + "\n";
    assert r[|r| - 1..] == "\n";
  }

  /** A lone dictionary of rules writes the same single row as a one-element list of it. */
  lemma SingleRuleOneRow(columns: seq<string>, rule: seq<(string, Node)>, sobject: string, decode: string -> string)
    ensures MetadataRows(columns, Map(rule), sobject, decode) == MetadataRows(columns, List([Map(rule)]), sobject, decode)
    ensures MetadataRows(columns, Map(rule), sobject, decode) == Row(Map(rule), Columns(columns), sobject, decode)
  {
    var keys := Columns(columns);
    var rules := [Map(rule)];
    assert OneOrMany(Map(rule)) == List(rules) && OneOrMany(List(rules)) == List(rules);
    assert MetadataRows(columns, Map(rule), sobject, decode) == RowsFrom(rules, keys, sobject, decode, "");
    assert MetadataRows(columns, List(rules), sobject, decode) == RowsFrom(rules, keys, sobject, decode, "");
    assert rules[1..] == [];
    match Row(Map(rule), keys, sobject, decode)
    case Ok(row) =>
      assert "" + row == row;
      assert RowsFrom(rules, keys, sobject, decode, "") == RowsFrom([], keys, sobject, decode, row);
    case Err(_) =>
  }

  /** The values of a list of two dictionaries accumulate: the second line repeats the values of
      the first dictionary before those of the second. */
  lemma DictListAccumulates(a: seq<(string, Node)>, b: seq<(string, Node)>)
    requires forall i :: 0 <= i < |a| ==> a[i].1.Str?
    requires forall i :: 0 <= i < |b| ==> b[i].1.Str?
    ensures var va: seq<Node>, vb: seq<Node> := ItemValues(a), ItemValues(b);
      && JoinWords(va).Ok? && JoinWords(va + vb).Ok?
      && CellText(List([Map(a), Map(b)])) == Ok(JoinWords(va).value + "\n" + JoinWords(va + vb).value)
  {
    var va: seq<Node>, vb: seq<Node> := ItemValues(a), ItemValues(b);
    var both: seq<Node> := va + vb;
    assert forall i :: 0 <= i < |both| ==> both[i].Str?;
    var first := JoinWords(va).value;
    var second := JoinWords(both).value;
    var line1 := "" + first + "\n";
    var text := line1 + second + "\n";
    assert [] + va == va;
    assert DictListFrom([Map(a), Map(b)], [], "") == DictListFrom([Map(b)], va, line1) by {
      assert [Map(a), Map(b)][1..] == [Map(b)];
    }
    assert DictListFrom([Map(b)], va, line1) == Ok(text) by {
      assert [Map(b)][1..] == [];
    }
    var kept := first + "\n" + second;
    assert text == kept + "\n";
    assert DropLast(text) == kept by {
      assert text[..|text| - 1] == kept;
    }
  }
}
