/** CSV output (backend/session-manager/src/reports/csv.ts) and a reader of quoted fields for it. */
module Csv {
  import opened Options

  // ---- printing ----

  predicate Dangerous(cell: string) { cell != "" && cell[0] in {'=', '+', '-', '@'} }

  /** The guard against spreadsheet formulas. */
  function Guarded(cell: string): string { if Dangerous(cell) then "'" + cell else cell }

  predicate NeedsQuotes(s: string) { '"' in s || ',' in s || '\n' in s }

  function Doubled(s: string): string {
    if s == "" then "" else (if s[0] == '"' then ['"', '"'] else [s[0]]) + Doubled(s[1..])
  }

  function Cell(cell: string): string {
    var guarded := Guarded(cell);
    if NeedsQuotes(guarded) then ['"'] + (Doubled(guarded) + ['"']) else guarded
  }

  function Row(cells: seq<string>): string {
    if cells == [] then ""
    else if |cells| == 1 then Cell(cells[0]) else Cell(cells[0]) + ("," + Row(cells[1..]))
  }

  /** toCsv */
  function ToCsv(rows: seq<seq<string>>): string {
    if rows == [] then ""
    else if |rows| == 1 then Row(rows[0]) else Row(rows[0]) + ("\n" + ToCsv(rows[1..]))
  }

  // ---- reading, with a line feed between records (section 2 of RFC 4180) ----

  datatype Field = Field(text: string, rest: string)

  /** After an opening quote: up to the closing one, two quotes standing for one. */
  function ReadQuoted(s: string): Option<Field> {
    if s == "" then None
    else if s[0] != '"' then
      var tail := ReadQuoted(s[1..]);
      if tail.None? then None else Some(Field([s[0]] + tail.value.text, tail.value.rest))
    else if |s| > 1 && s[1] == '"' then
      var tail := ReadQuoted(s[2..]);
      if tail.None? then None else Some(Field(['"'] + tail.value.text, tail.value.rest))
    else Some(Field("", s[1..]))
  }

  /** Up to the next separator; a quote has no place in a bare field. */
  function ReadBare(s: string): Option<Field> {
    if s == "" || s[0] == ',' || s[0] == '\n' then Some(Field("", s))
    else if s[0] == '"' then None
    else
      var tail := ReadBare(s[1..]);
      if tail.None? then None else Some(Field([s[0]] + tail.value.text, tail.value.rest))
  }

  function ReadField(s: string): (f: Option<Field>)
    ensures f.Some? ==> |f.value.rest| <= |s|
  {
    QuotedShrinks(s);
    BareShrinks(s);
    if s != "" && s[0] == '"' then ReadQuotedTail(s) else ReadBare(s)
  }

  function ReadQuotedTail(s: string): Option<Field>
    requires s != ""
  {
    ReadQuoted(s[1..])
  }

  lemma {:induction false} QuotedShrinks(s: string)
    ensures s != "" && ReadQuoted(s[1..]).Some? ==> |ReadQuoted(s[1..]).value.rest| <= |s|
    decreases |s|
  {
    if s != "" { ReadQuotedShrinks(s[1..]); }
  }

  lemma {:induction false} ReadQuotedShrinks(s: string)
    ensures ReadQuoted(s).Some? ==> |ReadQuoted(s).value.rest| <= |s|
  {
    if s != "" {
      if s[0] != '"' { ReadQuotedShrinks(s[1..]); }
      else if |s| > 1 && s[1] == '"' { ReadQuotedShrinks(s[2..]); }
    }
  }

  lemma {:induction false} BareShrinks(s: string)
    ensures ReadBare(s).Some? ==> |ReadBare(s).value.rest| <= |s|
  {
    if s != "" { BareShrinks(s[1..]); }
  }

  /** The records of a text; None where a quote is misplaced. */
  function Read(s: string): Option<seq<seq<string>>>
    decreases |s|
  {
    var f := ReadField(s);
    if f.None? then None
    else if f.value.rest == "" then Some([[f.value.text]])
    else if f.value.rest[0] == ',' then
      var more := Read(f.value.rest[1..]);
      if more.None? || more.value == [] then None else Some([[f.value.text] + more.value[0]] + more.value[1..])
    else if f.value.rest[0] == '\n' then
      var more := Read(f.value.rest[1..]);
      if more.None? then None else Some([[f.value.text]] + more.value)
    else None
  }

  // ---- the round trip ----

  predicate Separated(rest: string) { rest == "" || rest[0] == ',' || rest[0] == '\n' }

  lemma {:induction false} QuotedBack(s: string, rest: string)
    requires Separated(rest)
    ensures ReadQuoted(Doubled(s) + ['"'] + rest) == Some(Field(s, rest))
  {
    var text := Doubled(s) + ['"'] + rest;
    if s == "" {
      assert text == ['"'] + rest;
      assert text[1..] == rest;
    } else {
      QuotedBack(s[1..], rest);
      var tail := Doubled(s[1..]) + ['"'] + rest;
      assert s == [s[0]] + s[1..];
      if s[0] == '"' {
        assert text == ['"', '"'] + tail;
        assert text[2..] == tail;
      } else {
        assert text == [s[0]] + tail;
        assert text[1..] == tail;
      }
    }
  }

  lemma {:induction false} BareBack(s: string, rest: string)
    requires Separated(rest) && !NeedsQuotes(s)
    ensures ReadBare(s + rest) == Some(Field(s, rest))
  {
    if s == "" {
      assert s + rest == rest;
    } else {
      BareBack(s[1..], rest);
      assert (s + rest)[1..] == s[1..] + rest;
      assert s == [s[0]] + s[1..];
    }
  }

  lemma OpeningQuote(body: string)
    ensures ReadField(['"'] + body) == ReadQuoted(body)
  {
    assert (['"'] + body)[1..] == body;
  }

  lemma Associate(a: string, b: string, c: string)
    ensures (a + b) + c == a + (b + c)
  {}

  lemma QuotedCellBack(g: string, rest: string)
    requires Separated(rest)
    ensures ReadField((['"'] + (Doubled(g) + ['"'])) + rest) == Some(Field(g, rest))
  {
    QuotedBack(g, rest);
    OpeningQuote(Doubled(g) + ['"'] + rest);
    Associate(['"'], Doubled(g) + ['"'], rest);
  }

  lemma BareCellBack(g: string, rest: string)
    requires Separated(rest) && !NeedsQuotes(g)
    ensures ReadField(g + rest) == Some(Field(g, rest))
  {
    BareBack(g, rest);
    assert g != "" ==> (g + rest)[0] == g[0] && g[0] in g;
  }

  /** A printed cell is read back as its guarded text. */
  lemma CellBack(cell: string, rest: string)
    requires Separated(rest)
    ensures ReadField(Cell(cell) + rest) == Some(Field(Guarded(cell), rest))
  {
    if NeedsQuotes(Guarded(cell)) { QuotedCellBack(Guarded(cell), rest); } else { BareCellBack(Guarded(cell), rest); }
  }

  function GuardedRow(cells: seq<string>): (r: seq<string>)
    ensures |r| == |cells|
  {
    seq(|cells|, i requires 0 <= i < |cells| => Guarded(cells[i]))
  }

  predicate Table(rows: seq<seq<string>>) { rows != [] && forall i :: 0 <= i < |rows| ==> rows[i] != [] }

  function GuardedTable(rows: seq<seq<string>>): (r: seq<seq<string>>)
    ensures |r| == |rows|
  {
    seq(|rows|, i requires 0 <= i < |rows| => GuardedRow(rows[i]))
  }

  /** A field before a comma joins the record that follows; before a line feed, or at the end, it closes its own. */
  lemma FieldJoins(cell: string, tail: string, row: seq<string>, more: seq<seq<string>>)
    requires Read(tail) == Some([row] + more)
    ensures Read(Cell(cell) + ("," + tail)) == Some([[Guarded(cell)] + row] + more)
  {
    CellBack(cell, "," + tail);
    assert ("," + tail)[1..] == tail;
    assert ([row] + more)[1..] == more;
  }

  lemma FieldCloses(cell: string, tail: string, more: seq<seq<string>>)
    requires Read(tail) == Some(more)
    ensures Read(Cell(cell) + ("\n" + tail)) == Some([[Guarded(cell)]] + more)
  {
    CellBack(cell, "\n" + tail);
    assert ("\n" + tail)[1..] == tail;
  }

  lemma FieldEnds(cell: string)
    ensures Read(Cell(cell)) == Some([[Guarded(cell)]])
  {
    CellBack(cell, "");
    assert Cell(cell) + "" == Cell(cell);
  }

  /** A printed row of several cells, taken apart. */
  lemma RowParts(cells: seq<string>)
    requires |cells| > 1
    ensures Row(cells) == Cell(cells[0]) + ("," + Row(cells[1..]))
    ensures GuardedRow(cells) == [Guarded(cells[0])] + GuardedRow(cells[1..])
  {
    GuardedParts(cells);
  }

  lemma GuardedParts(cells: seq<string>)
    requires |cells| >= 1
    ensures GuardedRow(cells) == [Guarded(cells[0])] + GuardedRow(cells[1..])
  {
    assert forall i :: 1 <= i < |cells| ==> GuardedRow(cells)[i] == GuardedRow(cells[1..])[i - 1];
  }

  lemma RowOfOne(cells: seq<string>)
    requires |cells| == 1
    ensures Row(cells) == Cell(cells[0]) && GuardedRow(cells) == [Guarded(cells[0])]
  {}

  lemma Reassociate(a: string, b: string, c: string)
    ensures (a + ("," + b)) + c == a + ("," + (b + c))
  {}

  /** What reads as one record. */
  lemma {:induction false} RowEnds(cells: seq<string>)
    requires cells != []
    ensures Read(Row(cells)) == Some([GuardedRow(cells)])
    decreases |cells|
  {
    if |cells| == 1 {
      RowOfOne(cells);
      FieldEnds(cells[0]);
    } else {
      var rest := cells[1..];
      RowParts(cells);
      RowEnds(rest);
      FieldJoinsLast(cells[0], Row(rest), GuardedRow(rest));
    }
  }

  lemma FieldJoinsLast(cell: string, tail: string, row: seq<string>)
    requires Read(tail) == Some([row])
    ensures Read(Cell(cell) + ("," + tail)) == Some([[Guarded(cell)] + row])
  {
    assert [row] + [] == [row];
    FieldJoins(cell, tail, row, []);
    assert [[Guarded(cell)] + row] + [] == [[Guarded(cell)] + row];
  }

  /** What reads as a record followed by others. */
  lemma {:induction false} RowCloses(cells: seq<string>, tail: string, more: seq<seq<string>>)
    requires cells != [] && Read(tail) == Some(more)
    ensures Read(Row(cells) + ("\n" + tail)) == Some([GuardedRow(cells)] + more)
    decreases |cells|
  {
    if |cells| == 1 {
      RowOfOne(cells);
      FieldCloses(cells[0], tail, more);
    } else {
      var rest := cells[1..];
      RowParts(cells);
      RowCloses(rest, tail, more);
      FieldJoins(cells[0], Row(rest) + ("\n" + tail), GuardedRow(rest), more);
      Reassociate(Cell(cells[0]), Row(rest), "\n" + tail);
    }
  }

  /** Reading back what was printed gives the guarded cells, row by row. */
  lemma {:induction false} PrintedReadsBack(rows: seq<seq<string>>)
    requires Table(rows)
    ensures Read(ToCsv(rows)) == Some(GuardedTable(rows))
    decreases |rows|
  {
    if |rows| == 1 {
      RowEnds(rows[0]);
      assert [GuardedRow(rows[0])] == GuardedTable(rows);
    } else {
      PrintedReadsBack(rows[1..]);
      RowCloses(rows[0], ToCsv(rows[1..]), GuardedTable(rows[1..]));
      assert ToCsv(rows) == Row(rows[0]) + ("\n" + ToCsv(rows[1..]));
      assert GuardedTable(rows) == [GuardedRow(rows[0])] + GuardedTable(rows[1..]);
    }
  }

  /** No rows print like one, and a row without cells prints like one with an empty cell. */
  function Padded(rows: seq<seq<string>>): (padded: seq<seq<string>>)
    ensures Table(padded)
  {
    if rows == [] then [[""]]
    else seq(|rows|, i requires 0 <= i < |rows| => if rows[i] == [] then [""] else rows[i])
  }

  lemma EmptyCell()
    ensures Row([""]) == "" == Row([])
  {
    assert Guarded("") == "";
    assert !NeedsQuotes("");
  }

  lemma {:induction false} PaddedPrintsSame(rows: seq<seq<string>>)
    ensures ToCsv(Padded(rows)) == ToCsv(rows)
    decreases |rows|
  {
    EmptyCell();
    if |rows| > 1 {
      PaddedPrintsSame(rows[1..]);
      assert Padded(rows)[1..] == Padded(rows[1..]);
    }
  }

  /** Whatever is printed is read back, as its padded and guarded form. */
  lemma AlwaysReadsBack(rows: seq<seq<string>>)
    ensures Read(ToCsv(rows)) == Some(GuardedTable(Padded(rows)))
  {
    PaddedPrintsSame(rows);
    PrintedReadsBack(Padded(rows));
  }

  /** The guarded cells come back, row by row, exactly for tables of rows with cells. */
  lemma RoundTripExactly(rows: seq<seq<string>>)
    ensures Read(ToCsv(rows)) == Some(GuardedTable(rows)) <==> Table(rows)
  {
    AlwaysReadsBack(rows);
    var padded := Padded(rows);
    if Table(rows) {
      assert padded == rows;
    } else if rows != [] {
      var i :| 0 <= i < |rows| && rows[i] == [];
      assert |GuardedTable(padded)[i]| == 1 && |GuardedTable(rows)[i]| == 0;
    }
  }

  /** The table itself comes back exactly when it is one and no cell needed the guard. */
  lemma {:induction false} OriginalReadsBackExactly(rows: seq<seq<string>>)
    ensures Read(ToCsv(rows)) == Some(rows)
       <==> Table(rows) && forall i :: 0 <= i < |rows| ==> Unguarded(rows[i])
  {
    AlwaysReadsBack(rows);
    var padded := Padded(rows);
    if Table(rows) {
      assert padded == rows;
      forall i | 0 <= i < |rows| ensures GuardedTable(rows)[i] == rows[i] <==> Unguarded(rows[i]) {
        RowUnguardedExactly(rows[i]);
      }
      assert GuardedTable(rows) == rows <==> forall i :: 0 <= i < |rows| ==> GuardedTable(rows)[i] == rows[i];
    } else if rows != [] {
      var i :| 0 <= i < |rows| && rows[i] == [];
      assert |GuardedTable(padded)[i]| == 1;
    }
  }

  predicate Unguarded(cells: seq<string>) { forall j :: 0 <= j < |cells| ==> !Dangerous(cells[j]) }

  lemma RowUnguardedExactly(cells: seq<string>)
    ensures GuardedRow(cells) == cells <==> Unguarded(cells)
  {
    forall j | 0 <= j < |cells| ensures GuardedRow(cells)[j] == cells[j] <==> !Dangerous(cells[j]) {
      assert |Guarded(cells[j])| == |cells[j]| <==> !Dangerous(cells[j]);
    }
  }

  /** Two different cells print alike exactly when one is dangerous and the other is it with the guard typed in. */
  lemma GuardCollidesExactly(a: string, b: string)
    ensures Cell(a) == Cell(b) <==>
              a == b || (Dangerous(a) && b == "'" + a) || (Dangerous(b) && a == "'" + b)
  {
    CellBack(a, "");
    CellBack(b, "");
    assert Cell(a) + "" == Cell(a) && Cell(b) + "" == Cell(b);
    assert Cell(a) == Cell(b) <==> Guarded(a) == Guarded(b);
    if Dangerous(a) && Dangerous(b) {
      assert ("'" + a)[1..] == a && ("'" + b)[1..] == b;
    }
  }
}
