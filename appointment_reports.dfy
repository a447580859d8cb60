/** AppointmentReports: the spreadsheet export of the appointment list. Each sheet
    keeps some columns and shows cells in a fixed way. The status, priority and
    stage filters each feed a sheet, and there is one sheet per appointment month,
    in order. Column widths are clamped, and a summary sheet holds the counts.
    Fetching the list, the browser's local date text and time zone, cell styling
    and the file download are outside the model; the local date text and the
    generation time are inputs. */
module AppointmentReports {
  import opened Common

  function Max(a: int, b: int): int { if a >= b then a else b }

  function Min(a: int, b: int): int { if a <= b then a else b }

  /** A JavaScript value as the appointment list delivers it. */
  datatype Value = Null | Undefined | Str(s: string) | Num(n: int)

  /** One appointment record: its keys in object order, each with its value. */
  type Row = seq<(string, Value)>

  /** A shaped cell: the '-' placeholder, a value passed through unchanged, or a
      timestamp shown as the browser's local date text. */
  datatype Cell = Dash | Plain(v: Value) | LocalDate(text: string)

  // ---------------------------------------------------------------------
  // filterColumns

  /** `pat` occurs in `s` starting at position `i`. */
  predicate Occurs(s: string, pat: string, i: int)
  {
    0 <= i && i + |pat| <= |s| && s[i..i + |pat|] == pat
  }

  /** JavaScript's `includes` holds exactly when the pattern occurs at some position. */
  lemma {:induction false} ContainsIff(s: string, pat: string)
    ensures Contains(s, pat) <==> exists i :: Occurs(s, pat, i)
  {
    if pat <= s {
      assert Occurs(s, pat, 0);
    } else if s != [] {
      ContainsIff(s[1..], pat);
      if exists j :: Occurs(s[1..], pat, j) {
        var j :| Occurs(s[1..], pat, j);
        assert s[j + 1..j + 1 + |pat|] == s[1..][j..j + |pat|];
        assert Occurs(s, pat, j + 1);
      }
      forall i | Occurs(s, pat, i) ensures Occurs(s[1..], pat, i - 1) {
        assert s[1..][i - 1..i - 1 + |pat|] == s[i..i + |pat|];
      }
    }
  }

  /** The column test: 'id' stays; any other key whose lower-case form contains
      "_id" goes, and so do start_time and end_time. */
  predicate KeepKey(key: string)
  {
    key == "id" || (!Contains(Lower(key), "_id") && key != "start_time" && key != "end_time")
  }

  /** A key is kept exactly when it is 'id', or "_id" occurs nowhere in its
      lower-case form and it is neither start_time nor end_time. */
  lemma KeepKeySpec(key: string)
    ensures KeepKey(key) <==>
      key == "id" || (!(exists i :: Occurs(Lower(key), "_id", i)) && key != "start_time" && key != "end_time")
  {
    ContainsIff(Lower(key), "_id");
    assert KeepKey(key) <==> key == "id" || (!Contains(Lower(key), "_id") && key != "start_time" && key != "end_time");
  }

  lemma SuffixOccurs(s: string, pat: string)
    requires |pat| <= |s| && s[|s| - |pat|..] == pat
    ensures Occurs(s, pat, |s| - |pat|)
  {
    assert s[|s| - |pat|..] == s[|s| - |pat|..|s| - |pat| + |pat|];
  }

  /** A key ending in "_id", in any letter case, is dropped: foreign keys such as
      pregnancy_tracking_id never reach a sheet. */
  lemma ForeignKeysDropped(key: string)
    requires |key| >= 3 && Lower(key)[|key| - 3..] == "_id"
    ensures !KeepKey(key)
  {
    SuffixOccurs(Lower(key), "_id");
    KeepKeySpec(key);
  }

  predicate IsTimestampKey(key: string)
  {
    key == "created_at" || key == "updated_at"
  }

  /** null, undefined and the empty string. */
  predicate Blank(v: Value)
  {
    v == Null || v == Undefined || v == Str("")
  }

  /** How one kept value is shown; `localDate` is the browser's local date text
      for a timestamp. */
  function ShapeCell(key: string, v: Value, localDate: Value -> string): Cell
  {
    if IsTimestampKey(key) then LocalDate(localDate(v))
    else if Blank(v) then Dash
    else Plain(v)
  }

  /** The output for one key-value pair: one shaped cell, or nothing. */
  function KeptPair(p: (string, Value), localDate: Value -> string): seq<(string, Cell)>
  {
    if KeepKey(p.0) then [(p.0, ShapeCell(p.0, p.1, localDate))] else []
  }

  /** The filtered row, keys in their original order. */
  function FilteredRow(row: Row, localDate: Value -> string): seq<(string, Cell)>
  {
    if row == [] then []
    else FilteredRow(row[..|row| - 1], localDate) + KeptPair(row[|row| - 1], localDate)
  }

  /** `p` is the shaped pair of a kept key of the row. */
  predicate KeptIn(row: Row, p: (string, Cell), localDate: Value -> string)
  {
    KeepKey(p.0) && exists i :: 0 <= i < |row| && row[i].0 == p.0 && p.1 == ShapeCell(p.0, row[i].1, localDate)
  }

  lemma {:induction false} FilteredRowSound(row: Row, localDate: Value -> string)
    ensures forall p :: p in FilteredRow(row, localDate) ==> KeptIn(row, p, localDate)
  {
    if row != [] {
      var init := row[..|row| - 1];
      FilteredRowSound(init, localDate);
      forall p | p in FilteredRow(init, localDate) ensures KeptIn(row, p, localDate) {
        var i :| 0 <= i < |init| && init[i].0 == p.0 && p.1 == ShapeCell(p.0, init[i].1, localDate);
        assert row[i] == init[i];
      }
    }
  }

  lemma {:induction false} FilteredRowComplete(row: Row, localDate: Value -> string)
    ensures forall p :: KeptIn(row, p, localDate) ==> p in FilteredRow(row, localDate)
  {
    if row != [] {
      var init := row[..|row| - 1];
      FilteredRowComplete(init, localDate);
      forall p | KeptIn(row, p, localDate) ensures p in FilteredRow(row, localDate) {
        var i :| 0 <= i < |row| && row[i].0 == p.0 && p.1 == ShapeCell(p.0, row[i].1, localDate);
        if i < |init| {
          assert init[i] == row[i];
          assert KeptIn(init, p, localDate);
        } else {
          assert p == (row[i].0, ShapeCell(row[i].0, row[i].1, localDate));
        }
      }
    }
  }

  /** The pairs of the filtered row are exactly the kept keys of the row, each with
      its shaped value. */
  lemma FilteredRowMembers(row: Row, localDate: Value -> string)
    ensures forall p :: p in FilteredRow(row, localDate) <==>
      KeepKey(p.0) && exists i :: 0 <= i < |row| && row[i].0 == p.0 && p.1 == ShapeCell(p.0, row[i].1, localDate)
  {
    FilteredRowSound(row, localDate);
    FilteredRowComplete(row, localDate);
  }

  /** No cell of the filtered row shows a blank value: null, undefined and '' have
      become '-', and every other value outside the two timestamps is passed
      through unchanged. */
  lemma FilteredRowCells(row: Row, localDate: Value -> string)
    ensures forall p :: p in FilteredRow(row, localDate) ==> !(p.1.Plain? && Blank(p.1.v))
    ensures forall p :: p in FilteredRow(row, localDate) && !IsTimestampKey(p.0) ==>
      p.1 == Dash || p.1.Plain?
  {
    FilteredRowMembers(row, localDate);
  }

  /** Filtering never adds a column. */
  lemma {:induction false} FilteredRowLength(row: Row, localDate: Value -> string)
    ensures |FilteredRow(row, localDate)| <= |row|
  {
    if row != [] {
      FilteredRowLength(row[..|row| - 1], localDate);
    }
  }

  /** One row of filterColumns: builds the filtered row key by key. */
  method FilterRow(row: Row, localDate: Value -> string) returns (out: seq<(string, Cell)>)
    ensures out == FilteredRow(row, localDate)
  {
    out := [];
    for i := 0 to |row|
      invariant out == FilteredRow(row[..i], localDate)
    {
      var (key, v) := row[i];
      if key == "id" || (!Contains(Lower(key), "_id") && key != "start_time" && key != "end_time") {
        var cell;
        if key == "created_at" || key == "updated_at" {
          cell := LocalDate(localDate(v));
        } else if v == Null || v == Undefined || v == Str("") {
          cell := Dash;
        } else {
          cell := Plain(v);
        }
        out := out + [(key, cell)];
      }
      assert row[..i + 1][..i] == row[..i];
    }
    assert row[..|row|] == row;
  }

  /** filterColumns: every row filtered, in order. */
  method FilterColumns(data: seq<Row>, localDate: Value -> string) returns (out: seq<seq<(string, Cell)>>)
    ensures |out| == |data|
    ensures forall i :: 0 <= i < |data| ==> out[i] == FilteredRow(data[i], localDate)
  {
    out := [];
    for i := 0 to |data|
      invariant |out| == i
      invariant forall j :: 0 <= j < i ==> out[j] == FilteredRow(data[j], localDate)
    {
      var r := FilterRow(data[i], localDate);
      out := out + [r];
    }
  }

  // ---------------------------------------------------------------------
  // Header text

  function HeaderChar(c: char): char
  {
    if c == '_' then ' ' else if 'a' <= c <= 'z' then (c as int - 32) as char else c
  }

  /** `key.replace(/_/g, ' ').toUpperCase()`. */
  function HeaderText(key: string): (r: string)
    ensures |r| == |key| && forall i :: 0 <= i < |key| ==> r[i] == HeaderChar(key[i])
  {
    if key == [] then [] else [HeaderChar(key[0])] + HeaderText(key[1..])
  }

  /** A header has no underscore and no lower-case letter; every other character
      of the key is kept in place, and lower-casing the header gives the key back
      with underscores turned to spaces. */
  lemma HeaderTextSpec(key: string)
    ensures var r := HeaderText(key);
      && '_' !in r
      && (forall i :: 0 <= i < |r| ==> !('a' <= r[i] <= 'z'))
      && (forall i :: 0 <= i < |key| && key[i] != '_' && !('a' <= key[i] <= 'z') ==> r[i] == key[i])
      && (forall i :: 0 <= i < |key| ==> Lower(r)[i] == (if key[i] == '_' then ' ' else LowerChar(key[i])))
  {
  }

  // ---------------------------------------------------------------------
  // Column widths

  /** `String(n)` for an integer. */
  function IntText(n: int): string
  {
    if n < 0 then "-" + NatToString(-n) else NatToString(n)
  }

  /** JavaScript truthiness of a cell value. */
  predicate Truthy(v: Value)
  {
    (v.Str? && v.s != "") || (v.Num? && v.n != 0)
  }

  /** `value.toString()`. */
  function Text(v: Value): string
  {
    match v
    case Null => "null"
    case Undefined => "undefined"
    case Str(s) => s
    case Num(n) => IntText(n)
  }

  /** `s.split('\n')`. */
  function Lines(s: string): (r: seq<string>)
    ensures |r| >= 1
  {
    if s == [] then [""]
    else
      var t := Lines(s[..|s| - 1]);
      var c := s[|s| - 1];
      if c == '\n' then t + [""] else t[..|t| - 1] + [t[|t| - 1] + [c]]
  }

  /** `lines.join('\n')`. */
  function Join(ls: seq<string>): string
    requires |ls| >= 1
  {
    if |ls| == 1 then ls[0] else Join(ls[..|ls| - 1]) + "\n" + ls[|ls| - 1]
  }

  lemma JoinNewLine(t: seq<string>)
    requires |t| >= 1
    ensures Join(t + [""]) == Join(t) + "\n"
  {
    assert (t + [""])[..|t|] == t;
  }

  lemma JoinExtendLast(t: seq<string>, c: char)
    requires |t| >= 1
    ensures Join(t[..|t| - 1] + [t[|t| - 1] + [c]]) == Join(t) + [c]
  {
    var k := |t| - 1;
    var r := t[..k] + [t[k] + [c]];
    if k > 0 {
      assert r[..k] == t[..k] && r[k] == t[k] + [c];
      AppendAfterBreak(Join(t[..k]), t[k], c);
    } else {
      assert r == [t[0] + [c]];
    }
  }

  lemma AppendAfterBreak(j: string, last: string, c: char)
    ensures j + "\n" + (last + [c]) == (j + "\n" + last) + [c]
  {
  }

  /** Splitting at line breaks loses nothing: joining the lines gives the text back. */
  lemma {:induction false} LinesRoundTrip(s: string)
    ensures Join(Lines(s)) == s
  {
    if s != [] {
      var init := s[..|s| - 1];
      LinesRoundTrip(init);
      assert s == init + [s[|s| - 1]];
      if s[|s| - 1] == '\n' {
        JoinNewLine(Lines(init));
      } else {
        JoinExtendLast(Lines(init), s[|s| - 1]);
      }
    }
  }

  /** No line holds a break. */
  lemma {:induction false} LinesHaveNoBreak(s: string)
    ensures forall l :: l in Lines(s) ==> '\n' !in l
  {
    if s != [] {
      var init := s[..|s| - 1];
      var c := s[|s| - 1];
      var t := Lines(init);
      LinesHaveNoBreak(init);
      if c != '\n' {
        var k := |t| - 1;
        var r := t[..k] + [t[k] + [c]];
        assert Lines(s) == r;
        assert t[k] in t;
        forall l | l in r ensures '\n' !in l {
          if l != t[k] + [c] {
            assert l in t[..k];
          }
        }
      }
    }
  }

  /** Text without a break is a single line. */
  lemma {:induction false} LinesSingle(s: string)
    requires '\n' !in s
    ensures Lines(s) == [s]
  {
    if s != [] {
      var init := s[..|s| - 1];
      assert s == init + [s[|s| - 1]];
      assert '\n' !in init;
      LinesSingle(init);
    }
  }

  lemma {:induction false} JoinBoundsLines(ls: seq<string>)
    requires |ls| >= 1
    ensures forall l :: l in ls ==> |l| <= |Join(ls)|
  {
    if |ls| > 1 {
      JoinBoundsLines(ls[..|ls| - 1]);
      forall l | l in ls ensures |l| <= |Join(ls)| {
        if l != ls[|ls| - 1] {
          assert l in ls[..|ls| - 1];
        }
      }
    }
  }

  /** The length of the longest string. */
  function MaxLength(ls: seq<string>): nat
  {
    if ls == [] then 0 else Max(MaxLength(ls[..|ls| - 1]), |ls[|ls| - 1]|)
  }

  lemma {:induction false} MaxLengthBound(ls: seq<string>, n: nat)
    requires forall l :: l in ls ==> |l| <= n
    ensures MaxLength(ls) <= n
  {
    if ls != [] {
      MaxLengthBound(ls[..|ls| - 1], n);
    }
  }

  /** The length a truthy cell contributes: its longest line when it spans several
      lines, its full length otherwise; a falsy cell contributes nothing. */
  function Measure(v: Value): nat
  {
    if !Truthy(v) then 0
    else if '\n' in Text(v) then MaxLength(Lines(Text(v)))
    else |Text(v)|
  }

  /** The single-line branch is the longest-line rule applied to one line, and no
      cell measures more than its text. */
  lemma MeasureSpec(v: Value)
    ensures Truthy(v) ==> Measure(v) == MaxLength(Lines(Text(v)))
    ensures Measure(v) <= |Text(v)|
  {
    var s := Text(v);
    LinesRoundTrip(s);
    JoinBoundsLines(Lines(s));
    MaxLengthBound(Lines(s), |s|);
    if '\n' !in s {
      LinesSingle(s);
      assert [s][..0] == [];
    }
  }

  /** The longest measure in a column. */
  function MaxMeasure(cells: seq<Value>): nat
  {
    if cells == [] then 0 else Max(MaxMeasure(cells[..|cells| - 1]), Measure(cells[|cells| - 1]))
  }

  /** No cell measures more than the column's longest measure. */
  lemma {:induction false} MaxMeasureBound(cells: seq<Value>)
    ensures forall i :: 0 <= i < |cells| ==> Measure(cells[i]) <= MaxMeasure(cells)
  {
    if cells != [] {
      var init := cells[..|cells| - 1];
      MaxMeasureBound(init);
      forall i | 0 <= i < |init| ensures Measure(cells[i]) <= MaxMeasure(cells) {
        assert cells[i] == init[i];
      }
    }
  }

  /** The longest measure is zero or the measure of some cell. */
  lemma {:induction false} MaxMeasureAttained(cells: seq<Value>)
    ensures MaxMeasure(cells) == 0 || exists i :: 0 <= i < |cells| && MaxMeasure(cells) == Measure(cells[i])
  {
    if cells != [] {
      var init := cells[..|cells| - 1];
      MaxMeasureAttained(init);
      if MaxMeasure(cells) != 0 && MaxMeasure(cells) == MaxMeasure(init) {
        var i :| 0 <= i < |init| && MaxMeasure(init) == Measure(init[i]);
        assert cells[i] == init[i];
      }
    }
  }

  /** The width of a column: two more than its longest measure, kept within 15..80. */
  function ColumnWidthOf(cells: seq<Value>): (w: int)
    ensures 15 <= w <= 80
  {
    Min(Max(MaxMeasure(cells) + 2, 15), 80)
  }

  /** Every cell fits its column with two characters to spare unless the width is
      capped at 80, and the width is 15, 80 or exactly two more than some cell. */
  lemma ColumnWidthSpec(cells: seq<Value>)
    ensures forall i :: 0 <= i < |cells| ==> Measure(cells[i]) + 2 <= ColumnWidthOf(cells) || ColumnWidthOf(cells) == 80
    ensures ColumnWidthOf(cells) == 15 || ColumnWidthOf(cells) == 80 ||
      exists i :: 0 <= i < |cells| && ColumnWidthOf(cells) == Measure(cells[i]) + 2
  {
    MaxMeasureBound(cells);
    MaxMeasureAttained(cells);
  }

  /** The auto-fit loop for one column. */
  method ColumnWidth(cells: seq<Value>) returns (width: int)
    ensures width == ColumnWidthOf(cells)
  {
    var maxLength := 0;
    for i := 0 to |cells|
      invariant maxLength == MaxMeasure(cells[..i])
    {
      var cell := cells[i];
      if Truthy(cell) {
        var text := Text(cell);
        if '\n' in text {
          maxLength := Max(maxLength, MaxLength(Lines(text)));
        } else {
          maxLength := Max(maxLength, |text|);
        }
      }
      assert cells[..i + 1][..i] == cells[..i];
    }
    assert cells[..|cells|] == cells;
    width := Min(Max(maxLength + 2, 15), 80);
  }

  // ---------------------------------------------------------------------
  // addWorksheet

  datatype Sheet = Sheet(name: string, rows: seq<seq<Value>>, widths: seq<int>)

  /** The value a shaped cell writes. */
  function CellValue(c: Cell): Value
  {
    match c
    case Dash => Str("-")
    case Plain(v) => v
    case LocalDate(t) => Str(t)
  }

  function HeaderRow(fr: seq<(string, Cell)>): seq<Value>
  {
    seq(|fr|, i requires 0 <= i < |fr| => Str(HeaderText(fr[i].0)))
  }

  function RowValues(fr: seq<(string, Cell)>): seq<Value>
  {
    seq(|fr|, i requires 0 <= i < |fr| => CellValue(fr[i].1))
  }

  /** The one row of a sheet without data. */
  function EmptyMessage(title: string): string
  {
    "No " + Lower(title) + " data available"
  }

  /** The number of columns: the longest row. */
  function ColumnCount(rows: seq<seq<Value>>): nat
  {
    if rows == [] then 0 else Max(ColumnCount(rows[..|rows| - 1]), |rows[|rows| - 1]|)
  }

  /** Column `j`, with an empty cell where a row is shorter. */
  function Column(rows: seq<seq<Value>>, j: nat): seq<Value>
  {
    seq(|rows|, i requires 0 <= i < |rows| => if j < |rows[i]| then rows[i][j] else Null)
  }

  function Widths(rows: seq<seq<Value>>): seq<int>
  {
    seq(ColumnCount(rows), j requires 0 <= j < ColumnCount(rows) => ColumnWidthOf(Column(rows, j)))
  }

  /** The headers of the first filtered row, then one row of values per record. */
  function SheetRows(data: seq<Row>, localDate: Value -> string): seq<seq<Value>>
    requires data != []
  {
    [HeaderRow(FilteredRow(data[0], localDate))]
      + seq(|data|, i requires 0 <= i < |data| => RowValues(FilteredRow(data[i], localDate)))
  }

  /** The sheet addWorksheet builds. */
  function SheetOf(name: string, data: seq<Row>, title: string, localDate: Value -> string): Sheet
  {
    if data == [] then Sheet(name, [[Str(EmptyMessage(title))]], [])
    else
      var rows := SheetRows(data, localDate);
      Sheet(name, rows, Widths(rows))
  }

  /** Without data a sheet holds the single message row and keeps its default
      widths. With data it holds a header row naming the kept keys of the first
      record, then one row per record showing its filtered cells, and it has one
      width per column, each within 15..80. */
  lemma SheetShape(name: string, data: seq<Row>, title: string, localDate: Value -> string)
    ensures var sheet := SheetOf(name, data, title, localDate);
      && sheet.name == name
      && (data == [] ==> sheet.rows == [[Str(EmptyMessage(title))]] && sheet.widths == [])
      && (data != [] ==>
           && |sheet.rows| == |data| + 1
           && |sheet.rows[0]| == |FilteredRow(data[0], localDate)|
           && (forall j :: 0 <= j < |sheet.rows[0]| ==>
                 sheet.rows[0][j] == Str(HeaderText(FilteredRow(data[0], localDate)[j].0)))
           && (forall i :: 0 <= i < |data| ==> sheet.rows[i + 1] == RowValues(FilteredRow(data[i], localDate)))
           && (forall i :: 0 <= i < |sheet.rows| ==> |sheet.widths| >= |sheet.rows[i]|)
           && (forall j :: 0 <= j < |sheet.widths| ==> 15 <= sheet.widths[j] <= 80))
  {
    if data != [] {
      ColumnCountSpec(SheetRows(data, localDate));
    }
  }

  lemma {:induction false} ColumnCountSpec(rows: seq<seq<Value>>)
    ensures forall i :: 0 <= i < |rows| ==> |rows[i]| <= ColumnCount(rows)
  {
    if rows != [] {
      ColumnCountSpec(rows[..|rows| - 1]);
      forall i | 0 <= i < |rows| ensures |rows[i]| <= ColumnCount(rows) {
        if i < |rows| - 1 {
          assert rows[i] == rows[..|rows| - 1][i];
        }
      }
    }
  }

  /** addWorksheet: the message row for no data; otherwise the header row, a row
      per filtered record, and the auto-fit loop over the columns. */
  method AddWorksheet(name: string, data: seq<Row>, title: string, localDate: Value -> string)
    returns (sheet: Sheet)
    ensures sheet == SheetOf(name, data, title, localDate)
  {
    if |data| == 0 {
      return Sheet(name, [[Str("No " + Lower(title) + " data available")]], []);
    }
    var filtered := FilterColumns(data, localDate);
    var rows := DataRows(filtered);
    ghost var expected := SheetRows(data, localDate);
    assert |rows| == |expected| && rows[0] == expected[0];
    forall j | 1 <= j < |rows| ensures rows[j] == expected[j] { }
    assert rows == expected;
    var widths := ColumnWidths(rows);
    sheet := Sheet(name, rows, widths);
  }

  /** The header row named by the first filtered record, then one row of values
      per filtered record. */
  method DataRows(filtered: seq<seq<(string, Cell)>>) returns (rows: seq<seq<Value>>)
    requires filtered != []
    ensures |rows| == |filtered| + 1 && rows[0] == HeaderRow(filtered[0])
    ensures forall j :: 0 <= j < |filtered| ==> rows[j + 1] == RowValues(filtered[j])
  {
    rows := [HeaderRow(filtered[0])];
    for i := 0 to |filtered|
      invariant |rows| == i + 1 && rows[0] == HeaderRow(filtered[0])
      invariant forall j :: 0 <= j < i ==> rows[j + 1] == RowValues(filtered[j])
    {
      rows := rows + [RowValues(filtered[i])];
    }
  }

  /** One width per column, as far as the widest row reaches. */
  method ColumnWidths(rows: seq<seq<Value>>) returns (widths: seq<int>)
    ensures widths == Widths(rows)
  {
    var count := ColumnCount(rows);
    widths := [];
    for j := 0 to count
      invariant |widths| == j
      invariant forall k :: 0 <= k < j ==> widths[k] == ColumnWidthOf(Column(rows, k))
    {
      var w := ColumnWidth(Column(rows, j));
      widths := widths + [w];
    }
  }

  // ---------------------------------------------------------------------
  // Status, priority and stage filters

  type MonthNumber = m: int | 1 <= m <= 12 witness 1

  /** The appointment date as the browser reads it: none (a falsy value), an
      unparsable one, or a year and a month of the local calendar. */
  datatype Stamp = NoDate | InvalidDate | At(year: int, month: MonthNumber)

  /** An appointment of the list: its row, and the fields the filters and the
      month grouping read from it. */
  datatype Item = Item(row: Row, status: string, priority: string,
                       pregnancyStatus: Option<string>, appointmentDate: Stamp)

  /** The test of one filtered sheet. StageIs is the trimester / completed test,
      which accepts either the pregnancy status or the appointment status. */
  datatype Criterion = StatusIs(s: string) | PriorityIs(s: string) | StageIs(s: string)

  predicate Matches(x: Item, c: Criterion)
  {
    match c
    case StatusIs(s) => Lower(x.status) == s
    case PriorityIs(s) => Lower(x.priority) == s
    case StageIs(s) => (x.pregnancyStatus.Some? && Lower(x.pregnancyStatus.value) == s) || Lower(x.status) == s
  }

  /** `items.filter(...)`: the matching items, in order. */
  function Filter(items: seq<Item>, c: Criterion): seq<Item>
  {
    if items == [] then []
    else Filter(items[..|items| - 1], c) + (if Matches(items[|items| - 1], c) then [items[|items| - 1]] else [])
  }

  /** The filtered list holds exactly the matching items, and never more than the list. */
  lemma {:induction false} FilterSpec(items: seq<Item>, c: Criterion)
    ensures forall x :: x in Filter(items, c) <==> x in items && Matches(x, c)
    ensures |Filter(items, c)| <= |items|
  {
    if items != [] {
      var init := items[..|items| - 1];
      FilterSpec(init, c);
      assert items == init + [items[|items| - 1]];
    }
  }

  /** Every item with status `s` is also on the sheet of stage `s`: the Completed
      Status sheet is part of the Completed sheet. */
  lemma {:induction false} StatusWithinStage(items: seq<Item>, s: string)
    ensures forall x :: x in Filter(items, StatusIs(s)) ==> x in Filter(items, StageIs(s))
    ensures |Filter(items, StatusIs(s))| <= |Filter(items, StageIs(s))|
  {
    if items != [] {
      StatusWithinStage(items[..|items| - 1], s);
    }
  }

  /** The number of criteria of `cs` that `x` matches. */
  function Hits(x: Item, cs: seq<Criterion>): nat
  {
    if cs == [] then 0 else (if Matches(x, cs[0]) then 1 else 0) + Hits(x, cs[1..])
  }

  /** The total length of the lists the criteria select. */
  function SumCounts(items: seq<Item>, cs: seq<Criterion>): nat
  {
    if cs == [] then 0 else |Filter(items, cs[0])| + SumCounts(items, cs[1..])
  }

  lemma {:induction false} SumCountsSnoc(items: seq<Item>, x: Item, cs: seq<Criterion>)
    ensures SumCounts(items + [x], cs) == SumCounts(items, cs) + Hits(x, cs)
  {
    assert (items + [x])[..|items|] == items;
    if cs != [] {
      SumCountsSnoc(items, x, cs[1..]);
    }
  }

  lemma {:induction false} SumCountsEmpty(cs: seq<Criterion>)
    ensures SumCounts([], cs) == 0
  {
    if cs != [] {
      SumCountsEmpty(cs[1..]);
    }
  }

  /** When no item matches two of the criteria, the selected lists together hold
      at most as many items as the list. */
  lemma {:induction false} SumCountsBound(items: seq<Item>, cs: seq<Criterion>)
    requires forall i :: 0 <= i < |items| ==> Hits(items[i], cs) <= 1
    ensures SumCounts(items, cs) <= |items|
  {
    if items != [] {
      var init := items[..|items| - 1];
      assert items == init + [items[|items| - 1]];
      assert Hits(items[|items| - 1], cs) <= 1;
      SumCountsSnoc(init, items[|items| - 1], cs);
      forall i | 0 <= i < |init| ensures Hits(init[i], cs) <= 1 {
        assert init[i] == items[i];
      }
      SumCountsBound(init, cs);
      assert SumCounts(items, cs) == SumCounts(init + [items[|items| - 1]], cs);
    } else {
      SumCountsEmpty(cs);
    }
  }

  const StatusCriteria: seq<Criterion> := [StatusIs("scheduled"), StatusIs("completed"), StatusIs("missed")]

  const PriorityCriteria: seq<Criterion> :=
    [PriorityIs("high"), PriorityIs("low"), PriorityIs("priority_queue"), PriorityIs("regular_queue")]

  /** The status filters compare one lower-cased status with different words, so
      no appointment is on two status sheets: scheduled, completed and missed
      together are at most the total. */
  lemma StatusCountsBound(items: seq<Item>)
    ensures |Filter(items, StatusIs("scheduled"))| + |Filter(items, StatusIs("completed"))|
            + |Filter(items, StatusIs("missed"))| <= |items|
  {
    forall i | 0 <= i < |items| ensures Hits(items[i], StatusCriteria) <= 1 {
      var x := items[i];
      var l := Lower(x.status);
      var cs := StatusCriteria;
      assert cs[1..][1..][1..] == [];
      assert Hits(x, cs[1..][1..]) == (if l == "missed" then 1 else 0);
      assert Hits(x, cs[1..]) == (if l == "completed" then 1 else 0) + (if l == "missed" then 1 else 0);
    }
    SumCountsBound(items, StatusCriteria);
    assert StatusCriteria[1..][1..][1..] == [];
  }

  /** Likewise the four priority sheets together hold at most the total. */
  lemma PriorityCountsBound(items: seq<Item>)
    ensures |Filter(items, PriorityIs("high"))| + |Filter(items, PriorityIs("low"))|
            + |Filter(items, PriorityIs("priority_queue"))| + |Filter(items, PriorityIs("regular_queue"))| <= |items|
  {
    forall i | 0 <= i < |items| ensures Hits(items[i], PriorityCriteria) <= 1 {
      var x := items[i];
      var l := Lower(x.priority);
      var cs := PriorityCriteria;
      assert cs[1..][1..][1..][1..] == [];
      assert Hits(x, cs[1..][1..][1..]) == (if l == "regular_queue" then 1 else 0);
      assert Hits(x, cs[1..][1..]) == (if l == "priority_queue" then 1 else 0) + (if l == "regular_queue" then 1 else 0);
      assert Hits(x, cs[1..]) == (if l == "low" then 1 else 0) + (if l == "priority_queue" then 1 else 0)
        + (if l == "regular_queue" then 1 else 0);
    }
    SumCountsBound(items, PriorityCriteria);
    assert PriorityCriteria[1..][1..][1..][1..] == [];
  }

  // ---------------------------------------------------------------------
  // Grouping by month

  const MonthNames: seq<string> := ["January", "February", "March", "April", "May", "June", "July",
                                    "August", "September", "October", "November", "December"]

  predicate Dated(x: Item)
  {
    x.appointmentDate != NoDate
  }

  /** The group key `${year}-${pad2(month)}`; an unparsable date gives NaN twice. */
  function MonthKey(d: Stamp): string
    requires d != NoDate
  {
    match d
    case InvalidDate => "NaN-NaN"
    case At(y, m) => IntText(y) + "-" + PadLeft(NatToString(m), 2, '0')
  }

  /** The sheet name `${monthNames[month]} ${year}`; for an unparsable date the
      month name is undefined and the year NaN. */
  function MonthLabel(d: Stamp): string
    requires d != NoDate
  {
    match d
    case InvalidDate => "undefined NaN"
    case At(y, m) => MonthNames[m - 1] + " " + IntText(y)
  }

  /** `x` belongs in the group of key `k`. */
  predicate InGroup(x: Item, k: string)
  {
    Dated(x) && MonthKey(x.appointmentDate) == k
  }

  predicate HasKey(items: seq<Item>, k: string)
  {
    exists i :: 0 <= i < |items| && InGroup(items[i], k)
  }

  lemma HasKeySnoc(items: seq<Item>, x: Item, k: string)
    ensures HasKey(items + [x], k) <==> HasKey(items, k) || InGroup(x, k)
  {
    var s := items + [x];
    if HasKey(items, k) {
      var i :| 0 <= i < |items| && InGroup(items[i], k);
      assert s[i] == items[i];
    }
    if InGroup(x, k) {
      assert s[|items|] == x;
    }
    if HasKey(s, k) {
      var i :| 0 <= i < |s| && InGroup(s[i], k);
      if i < |items| {
        assert s[i] == items[i];
      }
    }
  }

  /** The items of the group of key `k`, in list order. */
  function MonthGroup(items: seq<Item>, k: string): seq<Item>
  {
    if items == [] then []
    else MonthGroup(items[..|items| - 1], k) + (if InGroup(items[|items| - 1], k) then [items[|items| - 1]] else [])
  }

  /** The label of a group: the one of the first item that created it. */
  function FirstLabel(items: seq<Item>, k: string): string
  {
    if items == [] then ""
    else if HasKey(items[..|items| - 1], k) then FirstLabel(items[..|items| - 1], k)
    else if InGroup(items[|items| - 1], k) then MonthLabel(items[|items| - 1].appointmentDate)
    else ""
  }

  /** The keys of the groups in the order the groups were created. */
  function FirstKeys(items: seq<Item>): seq<string>
  {
    if items == [] then []
    else
      var init := items[..|items| - 1];
      var x := items[|items| - 1];
      if Dated(x) && !HasKey(init, MonthKey(x.appointmentDate)) then FirstKeys(init) + [MonthKey(x.appointmentDate)]
      else FirstKeys(init)
  }

  predicate Distinct(s: seq<string>)
  {
    forall i, j :: 0 <= i < j < |s| ==> s[i] != s[j]
  }

  /** Every key of a dated item is created once. */
  lemma {:induction false} FirstKeysSpec(items: seq<Item>)
    ensures Distinct(FirstKeys(items))
    ensures forall k :: k in FirstKeys(items) <==> HasKey(items, k)
  {
    if items != [] {
      var init := items[..|items| - 1];
      var x := items[|items| - 1];
      FirstKeysSpec(init);
      assert items == init + [x];
      forall k ensures HasKey(items, k) <==> HasKey(init, k) || InGroup(x, k) {
        HasKeySnoc(init, x, k);
      }
    }
  }

  /** The month groups partition the dated appointments: an appointment is in the
      group of key `k` exactly when it has a date whose key is `k`, so a dated
      appointment is in exactly one group and an undated one in none; a group is
      non-empty exactly when some appointment has its key. */
  lemma {:induction false} MonthGroupSpec(items: seq<Item>, k: string)
    ensures forall x :: x in MonthGroup(items, k) <==> x in items && InGroup(x, k)
    ensures |MonthGroup(items, k)| > 0 <==> HasKey(items, k)
  {
    if items != [] {
      var init := items[..|items| - 1];
      var x := items[|items| - 1];
      MonthGroupSpec(init, k);
      assert items == init + [x];
      HasKeySnoc(init, x, k);
    }
  }

  datatype Group = Group(title: string, data: seq<Item>)

  /** The groups and their creation order hold the items of `items`. */
  ghost predicate GroupsOf(items: seq<Item>, order: seq<string>, groups: map<string, Group>)
  {
    && order == FirstKeys(items)
    && (forall k :: k in groups <==> HasKey(items, k))
    && (forall k :: k in groups ==> groups[k] == Group(FirstLabel(items, k), MonthGroup(items, k)))
  }

  /** One step of the grouping loop. */
  function Push(groups: map<string, Group>, item: Item): map<string, Group>
  {
    if !Dated(item) then groups
    else
      var key := MonthKey(item.appointmentDate);
      var g := if key in groups then groups[key] else Group(MonthLabel(item.appointmentDate), []);
      groups[key := g.(data := g.data + [item])]
  }

  function PushOrder(order: seq<string>, groups: map<string, Group>, item: Item): seq<string>
  {
    if Dated(item) && MonthKey(item.appointmentDate) !in groups then order + [MonthKey(item.appointmentDate)] else order
  }

  lemma PushSpec(prefix: seq<Item>, item: Item, order: seq<string>, groups: map<string, Group>)
    requires GroupsOf(prefix, order, groups)
    ensures GroupsOf(prefix + [item], PushOrder(order, groups, item), Push(groups, item))
  {
    var s := prefix + [item];
    assert s[..|prefix|] == prefix;
    forall k ensures HasKey(s, k) <==> HasKey(prefix, k) || InGroup(item, k) {
      HasKeySnoc(prefix, item, k);
    }
    var next := Push(groups, item);
    forall k | k in next ensures next[k] == Group(FirstLabel(s, k), MonthGroup(s, k)) {
      MonthGroupSpec(prefix, k);
      assert FirstLabel(s, k) == if HasKey(prefix, k) then FirstLabel(prefix, k)
        else if InGroup(item, k) then MonthLabel(item.appointmentDate) else "";
      assert MonthGroup(s, k) == MonthGroup(prefix, k) + (if InGroup(item, k) then [item] else []);
    }
  }

  /** The body of the grouping loop: a dated item creates its group on first
      sight, then joins it. */
  method AddToGroup(order: seq<string>, groups: map<string, Group>, item: Item)
    returns (order': seq<string>, groups': map<string, Group>)
    ensures order' == PushOrder(order, groups, item) && groups' == Push(groups, item)
  {
    order', groups' := order, groups;
    if item.appointmentDate != NoDate {
      var key := MonthKey(item.appointmentDate);
      var title := MonthLabel(item.appointmentDate);
      if key !in groups' {
        groups' := groups'[key := Group(title, [])];
        order' := order' + [key];
      }
      groups' := groups'[key := groups'[key].(data := groups'[key].data + [item])];
    }
  }

  /** The grouping loop: for each dated item, create its group on first sight and
      push the item. The keys come out in creation order, as the keys of a
      JavaScript object do. */
  method GroupByMonth(items: seq<Item>) returns (order: seq<string>, groups: map<string, Group>)
    ensures order == FirstKeys(items)
    ensures forall k :: k in groups <==> HasKey(items, k)
    ensures forall k :: k in groups ==> groups[k] == Group(FirstLabel(items, k), MonthGroup(items, k))
  {
    order := [];
    groups := map[];
    for i := 0 to |items|
      invariant GroupsOf(items[..i], order, groups)
    {
      PushSpec(items[..i], items[i], order, groups);
      order, groups := AddToGroup(order, groups, items[i]);
      assert items[..i + 1] == items[..i] + [items[i]];
    }
    assert items[..|items|] == items;
  }

  // ---------------------------------------------------------------------
  // Sorting the month keys

  predicate Sorted(s: seq<string>)
  {
    forall i, j :: 0 <= i < j < |s| ==> LexLess(s[i], s[j])
  }

  function Insert(s: seq<string>, x: string): seq<string>
  {
    if s == [] then [x]
    else if LexLess(x, s[0]) then [x] + s
    else [s[0]] + Insert(s[1..], x)
  }

  /** `keys.sort()`: JavaScript's default order, comparing code unit by code unit. */
  function SortStrings(s: seq<string>): seq<string>
  {
    if s == [] then [] else Insert(SortStrings(s[1..]), s[0])
  }

  lemma {:induction false} InsertMembers(s: seq<string>, x: string)
    ensures |Insert(s, x)| == |s| + 1
    ensures forall y :: y in Insert(s, x) <==> y in s || y == x
  {
    if s != [] && !LexLess(x, s[0]) {
      InsertMembers(s[1..], x);
      assert s == [s[0]] + s[1..];
    }
  }

  lemma SortedCons(h: string, r: seq<string>)
    requires Sorted(r) && forall y :: y in r ==> LexLess(h, y)
    ensures Sorted([h] + r)
  {
    var c := [h] + r;
    forall i, j | 0 <= i < j < |c| ensures LexLess(c[i], c[j]) {
      assert c[j] == r[j - 1];
      if i > 0 {
        assert c[i] == r[i - 1];
      }
    }
  }

  lemma SortedTail(s: seq<string>)
    requires Sorted(s) && s != []
    ensures Sorted(s[1..])
    ensures forall y :: y in s[1..] ==> LexLess(s[0], y)
  {
    var t := s[1..];
    forall i, j | 0 <= i < j < |t| ensures LexLess(t[i], t[j]) {
      assert t[i] == s[i + 1] && t[j] == s[j + 1];
    }
  }

  /** Inserting a new string into a sorted list keeps it sorted and adds exactly it. */
  lemma {:induction false} InsertSpec(s: seq<string>, x: string)
    requires Sorted(s) && x !in s
    ensures Sorted(Insert(s, x)) && |Insert(s, x)| == |s| + 1
    ensures forall y :: y in Insert(s, x) <==> y in s || y == x
  {
    InsertMembers(s, x);
    if s != [] {
      SortedTail(s);
      assert s == [s[0]] + s[1..];
      if LexLess(x, s[0]) {
        forall y | y in s ensures LexLess(x, y) {
          if y != s[0] {
            LexLessTransitive(x, s[0], y);
          }
        }
        SortedCons(x, s);
      } else {
        var t := s[1..];
        InsertSpec(t, x);
        LexLessTotal(x, s[0]);
        SortedCons(s[0], Insert(t, x));
      }
    }
  }

  lemma SortedDistinct(s: seq<string>)
    requires Sorted(s)
    ensures Distinct(s)
  {
    forall i, j | 0 <= i < j < |s| ensures s[i] != s[j] {
      LexLessIrreflexive(s[i]);
    }
  }

  /** Sorting distinct keys yields them all, each once, in ascending order. */
  lemma {:induction false} SortStringsSpec(s: seq<string>)
    requires Distinct(s)
    ensures Sorted(SortStrings(s)) && |SortStrings(s)| == |s|
    ensures forall x :: x in SortStrings(s) <==> x in s
  {
    if s != [] {
      var t := s[1..];
      assert Distinct(t) by {
        forall i, j | 0 <= i < j < |t| ensures t[i] != t[j] {
          assert t[i] == s[i + 1] && t[j] == s[j + 1];
        }
      }
      forall m | 0 <= m < |t| ensures t[m] != s[0] {
        assert t[m] == s[m + 1];
      }
      SortStringsSpec(t);
      InsertSpec(SortStrings(t), s[0]);
      assert s == [s[0]] + t;
    }
  }

  /** The order of two "YYYY-MM" strings. */
  lemma {:induction false} YearMonthTextOrder(ya: string, ma: string, yb: string, mb: string)
    requires |ya| == |yb| && |ma| == |mb|
    requires AllDigits(ya) && AllDigits(yb) && AllDigits(ma) && AllDigits(mb)
    ensures LexLess(ya + ("-" + ma), yb + ("-" + mb)) <==>
      DigitsValue(ya) < DigitsValue(yb) || (ya == yb && DigitsValue(ma) < DigitsValue(mb))
    ensures ya + ("-" + ma) == yb + ("-" + mb) <==> ya == yb && ma == mb
  {
    LexLessConcat(ya, "-" + ma, yb, "-" + mb);
    LexLessDigits(ya, yb);
    LexLessConcat("-", ma, "-", mb);
    LexLessDigits(ma, mb);
    if ya + ("-" + ma) == yb + ("-" + mb) {
      assert (ya + ("-" + ma))[..|ya|] == ya && (yb + ("-" + mb))[..|yb|] == yb;
      assert (ya + ("-" + ma))[|ya| + 1..] == ma && (yb + ("-" + mb))[|yb| + 1..] == mb;
    }
  }

  lemma KeyText(a: Stamp)
    requires a.At? && 0 <= a.year
    ensures MonthKey(a) == NatToString(a.year) + ("-" + PadLeft(NatToString(a.month), 2, '0'))
  {
  }

  /** For four-digit years the keys sort chronologically: one key sorts before
      another exactly when its year is earlier, or its year is the same and its
      month earlier; equal keys mean the same month. */
  lemma MonthKeyOrder(a: Stamp, b: Stamp)
    requires a.At? && b.At? && 1000 <= a.year <= 9999 && 1000 <= b.year <= 9999
    ensures LexLess(MonthKey(a), MonthKey(b)) <==> a.year < b.year || (a.year == b.year && a.month < b.month)
    ensures MonthKey(a) == MonthKey(b) <==> a == b
  {
    var ya, yb := NatToString(a.year), NatToString(b.year);
    var ma, mb := PadLeft(NatToString(a.month), 2, '0'), PadLeft(NatToString(b.month), 2, '0');
    FourDigits(a.year);
    FourDigits(b.year);
    NatToStringRoundTrip(a.year);
    NatToStringRoundTrip(b.year);
    TwoDigits(a.month);
    TwoDigits(b.month);
    KeyText(a);
    KeyText(b);
    YearMonthTextOrder(ya, ma, yb, mb);
  }

  /** An unparsable date's key sorts after the key of every date with a
      non-negative year, since a digit comes before 'N'. */
  lemma InvalidKeyLast(a: Stamp)
    requires a.At? && 0 <= a.year
    ensures LexLess(MonthKey(a), MonthKey(InvalidDate))
  {
    var y := NatToString(a.year);
    assert MonthKey(a)[0] == y[0];
    assert MonthKey(InvalidDate)[0] == 'N';
  }

  // ---------------------------------------------------------------------
  // Month totals

  /** The total size of the groups of the keys `ks`. */
  function GroupSizes(items: seq<Item>, ks: seq<string>): nat
  {
    if ks == [] then 0 else GroupSizes(items, ks[..|ks| - 1]) + |MonthGroup(items, ks[|ks| - 1])|
  }

  /** How many keys of `ks` the item belongs under. */
  function KeyHits(ks: seq<string>, x: Item): nat
  {
    if ks == [] then 0 else KeyHits(ks[..|ks| - 1], x) + (if InGroup(x, ks[|ks| - 1]) then 1 else 0)
  }

  /** The number of appointments with a date. */
  function DatedCount(items: seq<Item>): nat
  {
    if items == [] then 0 else DatedCount(items[..|items| - 1]) + (if Dated(items[|items| - 1]) then 1 else 0)
  }

  lemma {:induction false} GroupSizesSnoc(items: seq<Item>, x: Item, ks: seq<string>)
    ensures GroupSizes(items + [x], ks) == GroupSizes(items, ks) + KeyHits(ks, x)
  {
    assert (items + [x])[..|items|] == items;
    if ks != [] {
      GroupSizesSnoc(items, x, ks[..|ks| - 1]);
    }
  }

  lemma {:induction false} GroupSizesEmpty(ks: seq<string>)
    ensures GroupSizes([], ks) == 0
  {
    if ks != [] {
      GroupSizesEmpty(ks[..|ks| - 1]);
    }
  }

  lemma {:induction false} KeyHitsDistinct(ks: seq<string>, x: Item)
    requires Distinct(ks)
    ensures KeyHits(ks, x) == if Dated(x) && MonthKey(x.appointmentDate) in ks then 1 else 0
  {
    if ks != [] {
      var init := ks[..|ks| - 1];
      assert Distinct(init);
      KeyHitsDistinct(init, x);
      assert ks == init + [ks[|ks| - 1]];
      forall m | 0 <= m < |init| ensures init[m] != ks[|ks| - 1] {
        assert init[m] == ks[m];
      }
    }
  }

  /** Over distinct keys that cover every dated appointment, the group sizes add
      up to the number of dated appointments: each is counted exactly once. */
  lemma {:induction false} GroupSizesTotal(items: seq<Item>, ks: seq<string>)
    requires Distinct(ks)
    requires forall i :: 0 <= i < |items| && Dated(items[i]) ==> MonthKey(items[i].appointmentDate) in ks
    ensures GroupSizes(items, ks) == DatedCount(items)
  {
    if items == [] {
      GroupSizesEmpty(ks);
    } else {
      var init := items[..|items| - 1];
      var x := items[|items| - 1];
      assert items == init + [x];
      forall i | 0 <= i < |init| && Dated(init[i]) ensures MonthKey(init[i].appointmentDate) in ks {
        assert init[i] == items[i];
      }
      GroupSizesTotal(init, ks);
      GroupSizesSnoc(init, x, ks);
      KeyHitsDistinct(ks, x);
    }
  }

  /** The months of the report, sorted. */
  function SortedMonths(all: seq<Item>): seq<string>
  {
    SortStrings(FirstKeys(all))
  }

  /** The months are listed in ascending order, each once, one per key of a dated
      appointment, and their counts add up to the number of dated appointments. */
  lemma MonthTotals(all: seq<Item>)
    ensures Sorted(SortedMonths(all)) && Distinct(SortedMonths(all))
    ensures forall k :: k in SortedMonths(all) <==> HasKey(all, k)
    ensures GroupSizes(all, SortedMonths(all)) == DatedCount(all)
  {
    var months := SortedMonths(all);
    FirstKeysSpec(all);
    SortStringsSpec(FirstKeys(all));
    SortedDistinct(months);
    forall i | 0 <= i < |all| && Dated(all[i]) ensures MonthKey(all[i].appointmentDate) in months {
      assert InGroup(all[i], MonthKey(all[i].appointmentDate));
    }
    GroupSizesTotal(all, months);
  }

  // ---------------------------------------------------------------------
  // The workbook

  /** A fixed sheet: its name, the title its empty message uses, and its filter
      (None: the whole list). */
  datatype SheetSpec = SheetSpec(name: string, title: string, filter: Option<Criterion>)

  /** The fixed sheets in workbook order; the fourth sheet's name is spelled as
      the program spells it. */
  const FixedSheets: seq<SheetSpec> := [
    SheetSpec("All Data", "All Prenatal Visits", None),
    SheetSpec("Scheduled Status", "Scheduled", Some(StatusIs("scheduled"))),
    SheetSpec("Completed Status", "Completed Status", Some(StatusIs("completed"))),
    SheetSpec("Missed Appoinments", "Missed Appointments", Some(StatusIs("missed"))),
    SheetSpec("High priority", "High", Some(PriorityIs("high"))),
    SheetSpec("Low priority", "Low", Some(PriorityIs("low"))),
    SheetSpec("Priority Queue", "Priority Queue", Some(PriorityIs("priority_queue"))),
    SheetSpec("Regular Queue", "Regular Queue", Some(PriorityIs("regular_queue"))),
    SheetSpec("First Trimester", "First Trimester", Some(StageIs("first_trimester"))),
    SheetSpec("Second Trimester", "Second Trimester", Some(StageIs("second_trimester"))),
    SheetSpec("Third Trimester", "Third Trimester", Some(StageIs("third_trimester"))),
    SheetSpec("Completed", "Completed", Some(StageIs("completed")))]

  function Selected(all: seq<Item>, filter: Option<Criterion>): seq<Item>
  {
    if filter.None? then all else Filter(all, filter.value)
  }

  function Rows(items: seq<Item>): seq<Row>
  {
    seq(|items|, i requires 0 <= i < |items| => items[i].row)
  }

  function CountRow(title: string, count: nat): seq<Value>
  {
    [Str(title), Num(count)]
  }

  /** The summary's counts by status, stage and priority, up to the
      "Appointments By Month:" line. */
  function CountRows(all: seq<Item>): seq<seq<Value>>
  {
    [CountRow("Total Prenatal Visit Records", |all|),
     CountRow("Scheduled Status", |Filter(all, StatusIs("scheduled"))|),
     CountRow("Completed Status", |Filter(all, StatusIs("completed"))|),
     CountRow("Missed Appointments", |Filter(all, StatusIs("missed"))|),
     CountRow("First Trimester", |Filter(all, StageIs("first_trimester"))|),
     CountRow("Second Trimester", |Filter(all, StageIs("second_trimester"))|),
     CountRow("Third Trimester", |Filter(all, StageIs("third_trimester"))|),
     CountRow("Completed", |Filter(all, StageIs("completed"))|),
     [Str("")],
     CountRow("High Priority", |Filter(all, PriorityIs("high"))|),
     CountRow("Low Priority", |Filter(all, PriorityIs("low"))|),
     CountRow("Priority Queue", |Filter(all, PriorityIs("priority_queue"))|),
     CountRow("Regular Queue", |Filter(all, PriorityIs("regular_queue"))|),
     [Str("")],
     [Str("Appointments By Month:"), Str("")]]
  }

  /** One row per month, in sorted key order: the month's label and its count. */
  function MonthRows(all: seq<Item>): seq<seq<Value>>
  {
    var months := SortedMonths(all);
    seq(|months|, i requires 0 <= i < |months| => CountRow(FirstLabel(all, months[i]), |MonthGroup(all, months[i])|))
  }

  /** The rows of the summary sheet. */
  function SummaryRows(all: seq<Item>, generatedAt: string): seq<seq<Value>>
  {
    CountRows(all) + MonthRows(all) + [[Str("")], [Str("Report Generated:"), Str(generatedAt)]]
  }

  /** The summary sheet: the first column 30 wide, the others 15. */
  function SummarySheet(all: seq<Item>, generatedAt: string): Sheet
  {
    var rows := SummaryRows(all, generatedAt);
    Sheet("Summary", rows, seq(ColumnCount(rows), j => if j == 0 then 30 else 15))
  }

  /** The number a summary row shows (0 for a row without one). */
  function CountIn(row: seq<Value>): int
  {
    if |row| >= 2 && row[1].Num? then row[1].n else 0
  }

  function SumCountsIn(rows: seq<seq<Value>>): int
  {
    if rows == [] then 0 else SumCountsIn(rows[..|rows| - 1]) + CountIn(rows[|rows| - 1])
  }

  lemma {:induction false} MonthRowsSum(all: seq<Item>, months: seq<string>)
    ensures SumCountsIn(seq(|months|, i requires 0 <= i < |months| =>
              CountRow(FirstLabel(all, months[i]), |MonthGroup(all, months[i])|))) == GroupSizes(all, months)
  {
    if months != [] {
      var init := months[..|months| - 1];
      MonthRowsSum(all, init);
      var rows := seq(|months|, i requires 0 <= i < |months| =>
        CountRow(FirstLabel(all, months[i]), |MonthGroup(all, months[i])|));
      assert rows[..|rows| - 1] == seq(|init|, i requires 0 <= i < |init| =>
        CountRow(FirstLabel(all, init[i]), |MonthGroup(all, init[i])|));
    }
  }

  /** The counts agree with one another: the three status counts add up to at most
      the total, and so do the four priority counts, and the Completed Status
      count is at most the Completed count. */
  lemma CountRowsConsistent(all: seq<Item>)
    ensures var r := CountRows(all);
      && CountIn(r[1]) + CountIn(r[2]) + CountIn(r[3]) <= CountIn(r[0]) == |all|
      && CountIn(r[9]) + CountIn(r[10]) + CountIn(r[11]) + CountIn(r[12]) <= CountIn(r[0])
      && CountIn(r[2]) <= CountIn(r[7])
  {
    StatusCountsBound(all);
    PriorityCountsBound(all);
    StatusWithinStage(all, "completed");
  }

  /** The summary holds the count rows, then the month rows between the
      "Appointments By Month:" line and the blank line before the generation time;
      the month counts add up to the number of appointments with a date. */
  lemma SummaryMonths(all: seq<Item>, generatedAt: string)
    ensures var r := SummaryRows(all, generatedAt);
      var m := |SortedMonths(all)|;
      && |r| == 17 + m
      && r[..15] == CountRows(all)
      && r[14] == [Str("Appointments By Month:"), Str("")]
      && r[15..15 + m] == MonthRows(all)
      && SumCountsIn(MonthRows(all)) == DatedCount(all)
      && r[15 + m] == [Str("")]
  {
    MonthTotals(all);
    MonthRowsSum(all, SortedMonths(all));
  }

  datatype Report = Report(sheets: seq<Sheet>, summary: Sheet)

  /** The sheet of one fixed sheet description, built from its filtered list. */
  function FixedSheet(all: seq<Item>, spec: SheetSpec, localDate: Value -> string): Sheet
  {
    SheetOf(spec.name, Rows(Selected(all, spec.filter)), spec.title, localDate)
  }

  /** One sheet per element, in order. */
  function SheetsOf<T>(xs: seq<T>, sheet: T -> Sheet): (r: seq<Sheet>)
    ensures |r| == |xs|
  {
    if xs == [] then [] else SheetsOf(xs[..|xs| - 1], sheet) + [sheet(xs[|xs| - 1])]
  }

  lemma {:induction false} SheetsOfSpec<T>(xs: seq<T>, sheet: T -> Sheet)
    ensures forall j :: 0 <= j < |xs| ==> SheetsOf(xs, sheet)[j] == sheet(xs[j])
  {
    if xs != [] {
      var init := xs[..|xs| - 1];
      SheetsOfSpec(init, sheet);
      forall j | 0 <= j < |init| ensures xs[j] == init[j] { }
    }
  }

  /** The fixed sheets built from the descriptions `specs`. */
  function SheetsFor(all: seq<Item>, specs: seq<SheetSpec>, localDate: Value -> string): seq<Sheet>
  {
    SheetsOf(specs, spec => FixedSheet(all, spec, localDate))
  }

  lemma SheetsForSnoc(all: seq<Item>, specs: seq<SheetSpec>, i: nat, localDate: Value -> string)
    requires i < |specs|
    ensures SheetsFor(all, specs[..i + 1], localDate) == SheetsFor(all, specs[..i], localDate) + [FixedSheet(all, specs[i], localDate)]
  {
    assert specs[..i + 1][..i] == specs[..i];
  }

  function FixedSheetsOf(all: seq<Item>, localDate: Value -> string): seq<Sheet>
  {
    SheetsFor(all, FixedSheets, localDate)
  }

  /** The sheet of the month with key `k`, named by the group's label. */
  function MonthSheet(all: seq<Item>, k: string, localDate: Value -> string): Sheet
  {
    SheetOf(FirstLabel(all, k), Rows(MonthGroup(all, k)), FirstLabel(all, k), localDate)
  }

  /** The sheets of the months listed in `months`. */
  function MonthSheetsFor(all: seq<Item>, months: seq<string>, localDate: Value -> string): seq<Sheet>
  {
    SheetsOf(months, k => MonthSheet(all, k, localDate))
  }

  lemma MonthSheetsForSnoc(all: seq<Item>, months: seq<string>, i: nat, localDate: Value -> string)
    requires i < |months|
    ensures MonthSheetsFor(all, months[..i + 1], localDate) == MonthSheetsFor(all, months[..i], localDate) + [MonthSheet(all, months[i], localDate)]
  {
    assert months[..i + 1][..i] == months[..i];
  }

  function MonthSheetsOf(all: seq<Item>, localDate: Value -> string): seq<Sheet>
  {
    MonthSheetsFor(all, SortedMonths(all), localDate)
  }

  /** The workbook downloadReport builds from the list `all`. */
  function ReportOf(all: seq<Item>, localDate: Value -> string, generatedAt: string): Report
  {
    Report(FixedSheetsOf(all, localDate) + MonthSheetsOf(all, localDate), SummarySheet(all, generatedAt))
  }

  lemma MonthKeysGrouped(all: seq<Item>)
    ensures forall k :: k in SortedMonths(all) ==> HasKey(all, k)
  {
    MonthTotals(all);
  }

  /** The fixed sheets described by `specs` (the twelve of FixedSheets in the
      workbook), each from its filtered list. */
  method AddFixedSheets(all: seq<Item>, specs: seq<SheetSpec>, localDate: Value -> string) returns (sheets: seq<Sheet>)
    ensures sheets == SheetsFor(all, specs, localDate)
  {
    sheets := [];
    for i := 0 to |specs|
      invariant sheets == SheetsFor(all, specs[..i], localDate)
    {
      var spec := specs[i];
      var sheet := AddWorksheet(spec.name, Rows(Selected(all, spec.filter)), spec.title, localDate);
      SheetsForSnoc(all, specs, i, localDate);
      sheets := sheets + [sheet];
    }
    assert specs[..|specs|] == specs;
  }

  /** One sheet per listed month, each named by its group's label. */
  method AddMonthSheets(all: seq<Item>, groups: map<string, Group>, months: seq<string>, localDate: Value -> string)
    returns (sheets: seq<Sheet>)
    requires forall k :: k in months ==> k in groups && groups[k] == Group(FirstLabel(all, k), MonthGroup(all, k))
    ensures sheets == MonthSheetsFor(all, months, localDate)
  {
    sheets := [];
    for i := 0 to |months|
      invariant sheets == MonthSheetsFor(all, months[..i], localDate)
    {
      var group := groups[months[i]];
      var sheet := AddWorksheet(group.title, Rows(group.data), group.title, localDate);
      MonthSheetsForSnoc(all, months, i, localDate);
      sheets := sheets + [sheet];
    }
    assert months[..|months|] == months;
  }

  /** downloadReport without the fetch and the file download: the twelve fixed
      sheets, then one sheet per month in sorted key order, then the summary. */
  method BuildReport(all: seq<Item>, localDate: Value -> string, generatedAt: string) returns (report: Report)
    ensures report == ReportOf(all, localDate, generatedAt)
  {
    var fixed := AddFixedSheets(all, FixedSheets, localDate);
    var order, groups := GroupByMonth(all);
    var months := SortStrings(order);
    MonthKeysGrouped(all);
    var monthly := AddMonthSheets(all, groups, months, localDate);
    assert monthly == MonthSheetsOf(all, localDate);
    report := Report(fixed + monthly, SummarySheet(all, generatedAt));
  }

  /** There is one sheet per month with appointments, and a month sheet is never
      the empty-data message: it holds a header row and one row per appointment
      of the month. */
  lemma MonthSheetsShape(all: seq<Item>, localDate: Value -> string)
    ensures var sheets := MonthSheetsOf(all, localDate);
      var months := SortedMonths(all);
      && |sheets| == |months|
      && (forall j :: 0 <= j < |months| ==> |sheets[j].rows| == |MonthGroup(all, months[j])| + 1 >= 2)
      && (forall i, j :: 0 <= i < |sheets| && 0 <= j < |sheets[i].widths| ==> 15 <= sheets[i].widths[j] <= 80)
  {
    var sheets := MonthSheetsOf(all, localDate);
    var months := SortedMonths(all);
    MonthTotals(all);
    SheetsOfSpec(months, k => MonthSheet(all, k, localDate));
    forall j | 0 <= j < |months|
      ensures |sheets[j].rows| == |MonthGroup(all, months[j])| + 1 >= 2
      ensures forall w :: 0 <= w < |sheets[j].widths| ==> 15 <= sheets[j].widths[w] <= 80
    {
      MonthGroupSpec(all, months[j]);
      assert sheets[j] == MonthSheet(all, months[j], localDate);
      SheetShape(FirstLabel(all, months[j]), Rows(MonthGroup(all, months[j])), FirstLabel(all, months[j]), localDate);
    }
  }

  /** Every column width of a fixed sheet is within 15..80. */
  lemma FixedSheetsWidths(all: seq<Item>, localDate: Value -> string)
    ensures var sheets := FixedSheetsOf(all, localDate);
      && |sheets| == 12
      && forall i, j :: 0 <= i < |sheets| && 0 <= j < |sheets[i].widths| ==> 15 <= sheets[i].widths[j] <= 80
  {
    var sheets := FixedSheetsOf(all, localDate);
    SheetsOfSpec(FixedSheets, spec => FixedSheet(all, spec, localDate));
    forall i | 0 <= i < |sheets| ensures forall j :: 0 <= j < |sheets[i].widths| ==> 15 <= sheets[i].widths[j] <= 80 {
      SheetShape(FixedSheets[i].name, Rows(Selected(all, FixedSheets[i].filter)), FixedSheets[i].title, localDate);
    }
  }
}
