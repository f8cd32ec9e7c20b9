/** The order export: quoted CSV with a formula guard, and the reader that inverts it. */
module Csv {
  import opened Wrappers

  type Cell = string
  type Table = seq<seq<Cell>>

  // ----- the printer

  /** A cell that a spreadsheet would run as a formula. */
  predicate Formula(s: Cell) {
    s != "" && s[0] in {'=', '+', '-', '@', '\t', '\r'}
  }

  function Guard(s: Cell): Cell { if Formula(s) then "'" + s else s }

  function DoubleQuotes(s: Cell): string {
    if s == "" then "" else (if s[0] == '"' then "\"\"" else [s[0]]) + DoubleQuotes(s[1..])
  }

  function CsvCell(s: Cell): string { "\"" + DoubleQuotes(Guard(s)) + "\"" }

  function JoinCells(cells: seq<string>): string {
    if cells == [] then "" else if |cells| == 1 then cells[0] else cells[0] + "," + JoinCells(cells[1..])
  }

  function JoinRows(rows: seq<string>): string {
    if rows == [] then "" else if |rows| == 1 then rows[0] else rows[0] + "\n" + JoinRows(rows[1..])
  }

  function RowText(row: seq<Cell>): string {
    JoinCells(seq(|row|, i requires 0 <= i < |row| => CsvCell(row[i])))
  }

  function Export(table: Table): string {
    JoinRows(seq(|table|, i requires 0 <= i < |table| => RowText(table[i])))
  }

  function GuardedRow(row: seq<Cell>): seq<Cell> { seq(|row|, i requires 0 <= i < |row| => Guard(row[i])) }

  function Guarded(table: Table): Table { seq(|table|, i requires 0 <= i < |table| => GuardedRow(table[i])) }

  // ----- a reader of quoted fields (section 2 of RFC 4180, with LF for a line break)

  /** The rest of a quoted field after its opening quote: content and what follows the closing quote. */
  function ReadQuoted(text: string): Option<(Cell, string)> {
    if text == "" then None
    else if text[0] != '"' then
      var rest := ReadQuoted(text[1..]);
      if rest.None? then None else Some(([text[0]] + rest.value.0, rest.value.1))
    else if |text| > 1 && text[1] == '"' then
      var rest := ReadQuoted(text[2..]);
      if rest.None? then None else Some(("\"" + rest.value.0, rest.value.1))
    else Some(("", text[1..]))
  }

  lemma {:induction false} ReadQuotedShrinks(text: string)
    ensures ReadQuoted(text).Some? ==> |ReadQuoted(text).value.1| < |text|
  {
    if text == "" {
    } else if text[0] != '"' {
      ReadQuotedShrinks(text[1..]);
    } else if |text| > 1 && text[1] == '"' {
      ReadQuotedShrinks(text[2..]);
    }
  }

  /** A document: quoted fields between commas, rows between line breaks, nothing else. */
  function ReadRows(text: string): Option<Table>
    decreases |text|
  {
    if text == "" || text[0] != '"' then None
    else
      var field := ReadQuoted(text[1..]);
      ReadQuotedShrinks(text[1..]);
      if field.None? then None
      else
        var (cell, rest) := field.value;
        if rest == "" then Some([[cell]])
        else if rest[0] == ',' then
          var more := ReadRows(rest[1..]);
          if more.None? || more.value == [] then None
          else Some([[cell] + more.value[0]] + more.value[1..])
        else if rest[0] == '\n' then
          var more := ReadRows(rest[1..]);
          if more.None? then None else Some([[cell]] + more.value)
        else None
  }

  // ----- the round trip

  lemma {:induction false} ReadsBackContent(s: Cell, rest: string)
    requires rest == "" || rest[0] != '"'
    ensures ReadQuoted(DoubleQuotes(s) + "\"" + rest) == Some((s, rest))
  {
    var text := DoubleQuotes(s) + "\"" + rest;
    if s == "" {
      assert text == "\"" + rest;
      assert text[1..] == rest;
    } else {
      ReadsBackContent(s[1..], rest);
      var tail := DoubleQuotes(s[1..]) + "\"" + rest;
      if s[0] == '"' {
        assert text == "\"\"" + tail;
        assert text[2..] == tail;
      } else {
        assert text == [s[0]] + tail;
        assert text[1..] == tail;
      }
      assert s == [s[0]] + s[1..];
    }
  }

  /** Reading a printed cell leaves what follows it. */
  lemma ReadsBackCell(s: Cell, rest: string)
    requires rest == "" || rest[0] != '"'
    ensures var text := CsvCell(s) + rest;
      text != "" && text[0] == '"' && ReadQuoted(text[1..]) == Some((Guard(s), rest))
  {
    ReadsBackContent(Guard(s), rest);
    assert (CsvCell(s) + rest)[1..] == DoubleQuotes(Guard(s)) + "\"" + rest;
  }

  /** What the reader makes of one printed cell and a separator after it. */
  lemma ReadRowsAfterCell(s: Cell, rest: string)
    requires rest == "" || rest[0] == ',' || rest[0] == '\n'
    ensures ReadRows(CsvCell(s) + rest) ==
      if rest == "" then Some([[Guard(s)]])
      else
        var more := ReadRows(rest[1..]);
        if more.None? || (rest[0] == ',' && more.value == []) then None
        else if rest[0] == ',' then Some([[Guard(s)] + more.value[0]] + more.value[1..])
        else Some([[Guard(s)]] + more.value)
  {
    ReadsBackCell(s, rest);
    ReadQuotedShrinks((CsvCell(s) + rest)[1..]);
  }

  lemma RowTextUnfolds(row: seq<Cell>)
    requires row != []
    ensures RowText(row) == if |row| == 1 then CsvCell(row[0]) else CsvCell(row[0]) + "," + RowText(row[1..])
  {
    var cells := seq(|row|, i requires 0 <= i < |row| => CsvCell(row[i]));
    var rest := row[1..];
    assert cells[1..] == seq(|rest|, i requires 0 <= i < |rest| => CsvCell(rest[i]));
  }

  lemma RowTextStart(row: seq<Cell>, rest: string)
    requires |row| > 1
    ensures RowText(row) + rest == CsvCell(row[0]) + ("," + (RowText(row[1..]) + rest))
  {
    RowTextUnfolds(row);
    var cell, more := CsvCell(row[0]), RowText(row[1..]);
    Reassociate(cell, ",", more, rest);
  }

  lemma Reassociate(a: string, b: string, c: string, d: string)
    ensures a + b + c + d == a + (b + (c + d))
  {
  }

  lemma ReadsBackFirstCell(cell: Cell, more: string, table: Table)
    requires ReadRows(more) == Some(table) && table != []
    ensures ReadRows(CsvCell(cell) + ("," + more)) == Some([[Guard(cell)] + table[0]] + table[1..])
  {
    assert ("," + more)[1..] == more;
    ReadRowsAfterCell(cell, "," + more);
  }

  lemma ReadsBackLastCell(cell: Cell, rest: string)
    requires rest == "" || (rest[0] == '\n' && ReadRows(rest[1..]).Some?)
    ensures ReadRows(CsvCell(cell) + rest)
         == Some([[Guard(cell)]] + (if rest == "" then [] else ReadRows(rest[1..]).value))
  {
    ReadRowsAfterCell(cell, rest);
    assert [[Guard(cell)]] + [] == [[Guard(cell)]];
  }

  /** A printed row followed by the end or by more rows reads back as its guarded cells. */
  lemma {:induction false} ReadsBackRow(row: seq<Cell>, rest: string)
    requires row != []
    requires rest == "" || (rest[0] == '\n' && ReadRows(rest[1..]).Some?)
    ensures ReadRows(RowText(row) + rest) ==
      Some([GuardedRow(row)] + (if rest == "" then [] else ReadRows(rest[1..]).value))
  {
    if |row| == 1 {
      RowTextUnfolds(row);
      ReadsBackLastCell(row[0], rest);
      assert GuardedRow(row) == [Guard(row[0])];
    } else {
      var after := if rest == "" then [] else ReadRows(rest[1..]).value;
      var others := [GuardedRow(row[1..])] + after;
      ReadsBackRow(row[1..], rest);
      RowTextStart(row, rest);
      ReadsBackFirstCell(row[0], RowText(row[1..]) + rest, others);
      assert others[0] == GuardedRow(row[1..]) && others[1..] == after;
      assert GuardedRow(row) == [Guard(row[0])] + GuardedRow(row[1..]);
    }
  }

  lemma ExportUnfolds(table: Table)
    requires table != []
    ensures Export(table) == if |table| == 1 then RowText(table[0]) else RowText(table[0]) + "\n" + Export(table[1..])
  {
    var rows := seq(|table|, i requires 0 <= i < |table| => RowText(table[i]));
    var rest := table[1..];
    assert rows[1..] == seq(|rest|, i requires 0 <= i < |rest| => RowText(rest[i]));
  }

  /** The export reads back as exactly the guarded table, whatever quotes, commas and line breaks its cells hold. */
  lemma {:induction false} ExportReadsBack(table: Table)
    requires table != [] && forall row | row in table :: row != []
    ensures ReadRows(Export(table)) == Some(Guarded(table))
  {
    ExportUnfolds(table);
    assert table[0] in table;
    if |table| == 1 {
      assert Export(table) == RowText(table[0]) + "";
      ReadsBackRow(table[0], "");
      assert Guarded(table) == [GuardedRow(table[0])] + [];
    } else {
      forall row | row in table[1..] ensures row != [] { assert row in table; }
      ExportReadsBack(table[1..]);
      var rest := "\n" + Export(table[1..]);
      assert rest[1..] == Export(table[1..]);
      assert Export(table) == RowText(table[0]) + rest;
      ReadsBackRow(table[0], rest);
      assert Guarded(table) == [GuardedRow(table[0])] + Guarded(table[1..]);
    }
  }

  /**
   No exported cell is left that a spreadsheet would run, and the guard is the only thing that can confuse two cells.
   */
  lemma GuardConfusesOnlyFormulas(a: Cell, b: Cell)
    ensures Guard(a) == if a != "" && a[0] in {'=', '+', '-', '@', '\t', '\r'} then "'" + a else a
    ensures Guard(a) == "" || Guard(a)[0] !in {'=', '+', '-', '@', '\t', '\r'}
    ensures Guard(a) == Guard(b) <==>
      a == b || (Formula(a) && b == "'" + a) || (Formula(b) && a == "'" + b)
  {
    if Guard(a) == Guard(b) && Formula(a) && Formula(b) {
      assert Guard(a)[1..] == a && Guard(b)[1..] == b;
    }
  }
}
