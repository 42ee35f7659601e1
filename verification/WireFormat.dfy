/** A reference encoder of responses, and the proof that a result set recovers what was encoded. */
module WireFormat {
  import opened ReadHelpers
  import opened TypeParser
  import opened ColumnTypes
  import opened RowBuffers
  import opened BufferedFetch

  // ---- The encoder

  predicate SendableRow(row: Row)
    decreases |row|
  {
    row == [] || (Sendable(row[0]) && SendableRow(row[1..]))
  }

  function RowBytes(row: Row): string
    requires SendableRow(row)
    decreases |row|
  {
    if row == [] then "" else FieldBytes(row[0]) + RowBytes(row[1..])
  }

  /** Rows of `n` fields. */
  predicate SendableRows(rows: seq<Row>, n: nat)
    decreases |rows|
  {
    rows == [] || (|rows[0]| == n && SendableRow(rows[0]) && SendableRows(rows[1..], n))
  }

  function RowsBytes(rows: seq<Row>, n: nat): string
    requires SendableRows(rows, n)
    decreases |rows|
  {
    if rows == [] then "" else RowBytes(rows[0]) + RowsBytes(rows[1..], n)
  }

  /** A row of the header: a title and a cell for each column. */
  datatype Line = Line(title: string, cells: seq<string>)

  function AsRow(cells: seq<string>): (row: Row)
    ensures |row| == |cells|
  {
    seq(|cells|, j requires 0 <= j < |cells| => Field(cells[j], false))
  }

  predicate SendableLine(line: Line) {
    && 0 < |line.cells| < 0x7FFF_FFFF && Sendable(Field(line.title, false)) && SendableRow(AsRow(line.cells))
  }

  predicate SendableLines(lines: seq<Line>) {
    forall line <- lines :: SendableLine(line)
  }

  function LineBytes(line: Line): string
    requires SendableLine(line)
  {
    SizeBytes(|line.cells| + 1) + (FieldBytes(Field(line.title, false)) + RowBytes(AsRow(line.cells)))
  }

  function LinesBytes(lines: seq<Line>): string
    requires SendableLines(lines)
    decreases |lines|
  {
    if lines == [] then "" else LineBytes(lines[0]) + LinesBytes(lines[1..])
  }

  function ResponseBytes(lines: seq<Line>, rows: seq<Row>, n: nat): string
    requires |lines| < 0x8000_0000 && SendableLines(lines) && SendableRows(rows, n)
  {
    SizeBytes(|lines|) + (LinesBytes(lines) + RowsBytes(rows, n))
  }

  /** `x` fills the stream from `p` to `q`. */
  predicate Spans(bytes: string, p: nat, x: string, q: nat) {
    q == p + |x| && Holds(bytes, p, x)
  }

  lemma {:induction false} SpansSplit(bytes: string, p: nat, x: string, y: string, q: nat)
    requires Spans(bytes, p, x + y, q)
    ensures Spans(bytes, p, x, p + |x|) && Spans(bytes, p + |x|, y, q)
  {
    HoldsBoth(bytes, p, x, y);
  }

  // ---- Rows

  /** The first field of a row, and the rest of it. */
  lemma {:induction false} FieldThenRow(bytes: string, p: nat, row: Row, was: Field, q: nat)
    returns (r: nat, rest: string)
    requires row != [] && SendableRow(row) && Spans(bytes, p, RowBytes(row), q) && !was.isNull
    ensures StringAt(bytes, p, was) == Got(row[0], r)
    ensures rest == RowBytes(row[1..]) && Spans(bytes, r, rest, q)
  {
    var first := FieldBytes(row[0]);
    r, rest := p + |first|, RowBytes(row[1..]);
    FieldThenRest(bytes, p, row[0], first, rest, was, q);
  }

  lemma {:induction false} FieldThenRest(
      bytes: string, p: nat, f: Field, first: string, rest: string, was: Field, q: nat)
    requires Sendable(f) && first == FieldBytes(f) && Spans(bytes, p, first + rest, q) && !was.isNull
    ensures StringAt(bytes, p, was) == Got(f, p + |first|) && Spans(bytes, p + |first|, rest, q)
  {
    SpansSplit(bytes, p, first, rest, q);
    FieldRoundTrip(bytes, p, f, was);
  }

  lemma {:induction false} FirstMoved(done: Row, row: Row)
    requires row != []
    ensures done + [row[0]] + row[1..] == done + row
  {
  }

  lemma {:induction false} RowStep(bytes: string, p: nat, n: nat, done: Row, f: Field, r: nat)
    requires |done| < n && StringAt(bytes, p, NO_FIELD) == Got(f, r)
    ensures RowFrom(bytes, p, n, done) == RowFrom(bytes, r, n, done + [f])
  {
  }

  lemma {:induction false} RowRoundTrip(
      bytes: string, p: nat, row: Row, done: Row, n: nat, x: string, q: nat, got: Read<Row>)
    requires SendableRow(row) && x == RowBytes(row) && Spans(bytes, p, x, q)
    requires |done| + |row| == n && got == RowFrom(bytes, p, n, done)
    ensures got == Got(done + row, q)
    decreases |row|
  {
    if row == [] {
      assert done + row == done;
    } else {
      var r, rest := FieldThenRow(bytes, p, row, NO_FIELD, q);
      RowStep(bytes, p, n, done, row[0], r);
      RowRoundTrip(bytes, r, row[1..], done + [row[0]], n, rest, q, got);
      FirstMoved(done, row);
    }
  }

  lemma {:induction false} FirstRow(bytes: string, p: nat, row: Row, q: nat)
    requires row != [] && SendableRow(row) && Spans(bytes, p, RowBytes(row), q)
    ensures p < q <= |bytes| && RowAt(bytes, p, |row|) == Got(row, q)
  {
    RowRoundTrip(bytes, p, row, [], |row|, RowBytes(row), q, RowAt(bytes, p, |row|));
    assert [] + row == row;
    HoldsLength(bytes, p, RowBytes(row));
  }

  lemma {:induction false} RowsRoundTrip(
      bytes: string, p: nat, rows: seq<Row>, n: nat, x: string, all: Read<seq<Row>>)
    requires 0 < n && SendableRows(rows, n) && x == RowsBytes(rows, n) && Spans(bytes, p, x, |bytes|)
    requires all == AllRows(bytes, p, n)
    ensures all == Got(rows, |bytes|)
    decreases |rows|
  {
    if rows != [] {
      var first, rest := RowBytes(rows[0]), RowsBytes(rows[1..], n);
      var q := p + |first|;
      SpansSplit(bytes, p, first, rest, |bytes|);
      FirstRow(bytes, p, rows[0], q);
      RowsRoundTrip(bytes, q, rows[1..], n, rest, AllRows(bytes, q, n));
      assert rows == [rows[0]] + rows[1..];
    }
  }

  // ---- Header rows

  /** Columns from `i` on get a cell each. */
  function WithCells(kind: HeaderKind, columns: seq<ColumnInfo>, i: nat, cells: seq<string>, unset: Meta)
    : (r: seq<ColumnInfo>)
    requires i + |cells| == |columns|
    ensures |r| == |columns|
  {
    seq(|columns|, j requires 0 <= j < |columns| =>
      if j < i then columns[j] else WithCell(kind, columns[j], cells[j - i], unset))
  }

  predicate AllReadable(cells: seq<string>, unset: Meta) {
    forall text <- cells :: Readable(text, unset)
  }

  lemma {:induction false} FirstCell(
      kind: HeaderKind, columns: seq<ColumnInfo>, i: nat, cells: seq<string>, unset: Meta)
    requires i + |cells| == |columns| && cells != []
    ensures WithCells(kind, NextCell(kind, columns, i, cells[0], unset), i + 1, cells[1..], unset)
         == WithCells(kind, columns, i, cells, unset)
  {
  }

  lemma {:induction false} AsRowRest(cells: seq<string>)
    requires cells != []
    ensures AsRow(cells)[0] == Field(cells[0], false) && AsRow(cells)[1..] == AsRow(cells[1..])
  {
  }

  /** The columns once the next cell is read. */
  function NextCell(kind: HeaderKind, columns: seq<ColumnInfo>, i: nat, text: string, unset: Meta): seq<ColumnInfo>
    requires i < |columns|
  {
    columns[i := WithCell(kind, columns[i], text, unset)]
  }

  lemma {:induction false} CellStep(
      bytes: string, p: nat, kind: HeaderKind, columns: seq<ColumnInfo>, i: nat, text: string, unset: Meta, q: nat)
    requires i < |columns| && StringAt(bytes, p, Field(CellText(kind, columns[i]), false)) == Got(Field(text, false), q)
    requires kind.TypeRow? ==> Readable(text, unset)
    ensures CellsFrom(bytes, p, kind, columns, i, unset)
         == CellsFrom(bytes, q, kind, NextCell(kind, columns, i, text, unset), i + 1, unset)
    ensures CellsReadable(bytes, p, kind, columns, i, unset)
         == CellsReadable(bytes, q, kind, NextCell(kind, columns, i, text, unset), i + 1, unset)
  {
  }

  lemma {:induction false} CellsRoundTrip(
      bytes: string, p: nat, kind: HeaderKind, columns: seq<ColumnInfo>, i: nat, cells: seq<string>, unset: Meta,
      x: string, q: nat)
    requires i + |cells| == |columns| && SendableRow(AsRow(cells))
    requires x == RowBytes(AsRow(cells)) && Spans(bytes, p, x, q)
    requires kind.TypeRow? ==> AllReadable(cells, unset)
    ensures CellsFrom(bytes, p, kind, columns, i, unset) == Got(WithCells(kind, columns, i, cells, unset), q)
    ensures CellsReadable(bytes, p, kind, columns, i, unset)
    decreases |cells|
  {
    if cells == [] {
      assert WithCells(kind, columns, i, cells, unset) == columns;
    } else {
      AsRowRest(cells);
      var r, rest := FieldThenRow(bytes, p, AsRow(cells), Field(CellText(kind, columns[i]), false), q);
      FirstCell(kind, columns, i, cells, unset);
      CellStep(bytes, p, kind, columns, i, cells[0], unset, r);
      CellsRoundTrip(bytes, r, kind, NextCell(kind, columns, i, cells[0], unset), i + 1, cells[1..], unset, rest, q);
    }
  }

  lemma {:induction false} SkippedExactly(bytes: string, p: nat, row: Row, x: string, q: nat)
    requires SendableRow(row) && x == RowBytes(row) && Spans(bytes, p, x, q)
    ensures SkippedFrom(bytes, p, |row|) == Got((), q)
    decreases |row|
  {
    if row != [] {
      var r, rest := FieldThenRow(bytes, p, row, NO_FIELD, q);
      SkippedExactly(bytes, r, row[1..], rest, q);
    }
  }

  /** What a header row makes of the columns. */
  function Applied(line: Line, columns: seq<ColumnInfo>, unset: Meta): seq<ColumnInfo> {
    if KindOf(line.title).OtherRow? then columns
    else WithCells(KindOf(line.title), Resized(columns, |line.cells|), 0, line.cells, unset)
  }

  predicate LineReadable(line: Line, unset: Meta) {
    line.title == "type" ==> AllReadable(line.cells, unset)
  }

  lemma {:induction false} HeaderRowRoundTrip(
      bytes: string, p: nat, line: Line, columns: seq<ColumnInfo>, unset: Meta, x: string, q: nat)
    requires SendableLine(line) && LineReadable(line, unset)
    requires x == RowBytes(AsRow(line.cells)) && Spans(bytes, p, x, q)
    ensures var kind := KindOf(line.title);
            && HeaderRow(bytes, p, kind, columns, |line.cells|, unset) == Got(Applied(line, columns, unset), q)
            && (!kind.OtherRow? ==> CellsReadable(bytes, p, kind, Resized(columns, |line.cells|), 0, unset))
  {
    var kind := KindOf(line.title);
    if kind.OtherRow? {
      SkippedExactly(bytes, p, AsRow(line.cells), x, q);
    } else {
      CellsRoundTrip(bytes, p, kind, Resized(columns, |line.cells|), 0, line.cells, unset, x, q);
    }
  }

  /** The length, the title and the cells of a header row. */
  lemma {:induction false} LineSplit(bytes: string, p: nat, line: Line, q: nat) returns (r: nat, cells: string)
    requires SendableLine(line) && Spans(bytes, p, LineBytes(line), q)
    ensures p + 4 <= |bytes| && SizeAt(bytes, p) == |line.cells| + 1
    ensures StringAt(bytes, p + 4, NO_FIELD) == Got(Field(line.title, false), r)
    ensures cells == RowBytes(AsRow(line.cells)) && Spans(bytes, r, cells, q)
  {
    var size, title := SizeBytes(|line.cells| + 1), Field(line.title, false);
    cells := RowBytes(AsRow(line.cells));
    r := p + 4 + |FieldBytes(title)|;
    SpansSplit(bytes, p, size, FieldBytes(title) + cells, q);
    SpansSplit(bytes, p + 4, FieldBytes(title), cells, q);
    SizeRoundTrip(bytes, p, |line.cells| + 1);
    FieldRoundTrip(bytes, p + 4, title, NO_FIELD);
  }

  lemma {:induction false} TitledRowRoundTrip(
      bytes: string, p: nat, line: Line, columns: seq<ColumnInfo>, unset: Meta, x: string, q: nat)
    requires SendableLine(line) && LineReadable(line, unset) && x == LineBytes(line) && Spans(bytes, p, x, q)
    ensures TitledRow(bytes, p, columns, unset) == Got(Header(Applied(line, columns, unset), true), q)
    ensures TitledRowReadable(bytes, p, columns, unset)
  {
    var r, cells := LineSplit(bytes, p, line, q);
    HeaderRowRoundTrip(bytes, r, line, columns, unset, cells, q);
  }

  function AppliedAll(lines: seq<Line>, columns: seq<ColumnInfo>, unset: Meta): seq<ColumnInfo>
    decreases |lines|
  {
    if lines == [] then columns else AppliedAll(lines[1..], Applied(lines[0], columns, unset), unset)
  }

  lemma {:induction false} HeaderRoundTrip(
      bytes: string, p: nat, lines: seq<Line>, columns: seq<ColumnInfo>, unset: Meta, x: string, q: nat)
    requires SendableLines(lines) && (forall line <- lines :: LineReadable(line, unset))
    requires x == LinesBytes(lines) && Spans(bytes, p, x, q)
    ensures HeaderFrom(bytes, p, columns, |lines|, unset) == Got(Header(AppliedAll(lines, columns, unset), true), q)
    ensures HeaderReadable(bytes, p, columns, |lines|, unset)
    decreases |lines|
  {
    if lines != [] {
      var first, rest := LineBytes(lines[0]), LinesBytes(lines[1..]);
      var r := p + |first|;
      SpansSplit(bytes, p, first, rest, q);
      TitledRowRoundTrip(bytes, p, lines[0], columns, unset, first, r);
      HeaderRoundTrip(bytes, r, lines[1..], Applied(lines[0], columns, unset), unset, rest, q);
    }
  }

  // ---- Headers that name and type the columns

  predicate Unknown(lines: seq<Line>) {
    forall line <- lines :: KindOf(line.title).OtherRow?
  }

  lemma {:induction false} AppliedJoin(a: seq<Line>, b: seq<Line>, columns: seq<ColumnInfo>, unset: Meta)
    ensures AppliedAll(a + b, columns, unset) == AppliedAll(b, AppliedAll(a, columns, unset), unset)
    decreases |a|
  {
    if a == [] {
      assert a + b == b;
    } else {
      assert (a + b)[1..] == a[1..] + b;
      AppliedJoin(a[1..], b, Applied(a[0], columns, unset), unset);
    }
  }

  lemma {:induction false} UnknownChangesNothing(lines: seq<Line>, columns: seq<ColumnInfo>, unset: Meta)
    requires Unknown(lines)
    ensures AppliedAll(lines, columns, unset) == columns
    decreases |lines|
  {
    if lines != [] {
      assert lines[0] in lines;
      UnknownChangesNothing(lines[1..], columns, unset);
    }
  }

  lemma {:induction false} BetweenUnknown(
      u: seq<Line>, line: Line, v: seq<Line>, columns: seq<ColumnInfo>, unset: Meta)
    requires Unknown(u)
    ensures AppliedAll(u + ([line] + v), columns, unset) == AppliedAll(v, Applied(line, columns, unset), unset)
  {
    AppliedJoin(u, [line] + v, columns, unset);
    UnknownChangesNothing(u, columns, unset);
    assert ([line] + v)[1..] == v;
  }

  /** A column of the given name and type. */
  function Column(name: string, kind: string, unset: Meta): ColumnInfo {
    DescribedBy(kind, unset, NEW_COLUMN.(name := name, kind := kind))
  }

  function Columns(names: seq<string>, kinds: seq<string>, unset: Meta): (r: seq<ColumnInfo>)
    requires |names| == |kinds|
    ensures |r| == |names|
  {
    seq(|names|, j requires 0 <= j < |names| => Column(names[j], kinds[j], unset))
  }

  /** A name row and a type row, in either order. */
  lemma {:induction false} NamedAndTyped(names: seq<string>, kinds: seq<string>, unset: Meta)
    requires |names| == |kinds|
    ensures var n, t := Line("name", names), Line("type", kinds);
            && Applied(t, Applied(n, [], unset), unset) == Columns(names, kinds, unset)
            && Applied(n, Applied(t, [], unset), unset) == Columns(names, kinds, unset)
  {
  }

  /** Header rows of other kinds, before, between and behind, change nothing. */
  lemma {:induction false} HeaderColumns(
      u: seq<Line>, v: seq<Line>, w: seq<Line>, names: seq<string>, kinds: seq<string>, unset: Meta)
    requires Unknown(u) && Unknown(v) && Unknown(w) && |names| == |kinds|
    ensures var n, t := Line("name", names), Line("type", kinds);
            && AppliedAll(u + ([n] + (v + ([t] + w))), [], unset) == Columns(names, kinds, unset)
            && AppliedAll(u + ([t] + (v + ([n] + w))), [], unset) == Columns(names, kinds, unset)
  {
    var n, t := Line("name", names), Line("type", kinds);
    NamedAndTyped(names, kinds, unset);
    BetweenUnknown(u, n, v + ([t] + w), [], unset);
    BetweenUnknown(v, t, w, Applied(n, [], unset), unset);
    BetweenUnknown(u, t, v + ([n] + w), [], unset);
    BetweenUnknown(v, n, w, Applied(t, [], unset), unset);
    UnknownChangesNothing(w, Columns(names, kinds, unset), unset);
  }

  // ---- Whole responses

  lemma {:induction false} NothingDecoded(
      bytes: string, p: nat, columns: seq<ColumnInfo>, m: Mutator)
    ensures Sound(bytes, p, columns, m, Buffers(columns, p, [], [], 0, 0), [])
  {
    assert ColumnsAfter(columns, []) == columns;
  }

  /** The parts of an encoded response. */
  lemma {:induction false} ResponseSplit(lines: seq<Line>, rows: seq<Row>, n: nat) returns (base: nat)
    requires |lines| < 0x8000_0000 && SendableLines(lines) && SendableRows(rows, n)
    ensures var bytes := ResponseBytes(lines, rows, n);
            && 4 <= |bytes| && SizeAt(bytes, 0) == |lines|
            && Spans(bytes, 4, LinesBytes(lines), base) && Spans(bytes, base, RowsBytes(rows, n), |bytes|)
  {
    var bytes := ResponseBytes(lines, rows, n);
    var x, y, z := SizeBytes(|lines|), LinesBytes(lines), RowsBytes(rows, n);
    base := 4 + |y|;
    assert bytes[0..] == bytes;
    WholeHolds(bytes, 0);
    SpansSplit(bytes, 0, x, y + z, |bytes|);
    SpansSplit(bytes, 4, y, z, |bytes|);
    SizeRoundTrip(bytes, 0, |lines|);
  }

  /** What `init` does behind a header that it can read. */
  lemma {:induction false} InitBehindHeader(
      bytes: string, base: nat, header: seq<ColumnInfo>, m: Mutator, size: nat, unset: Meta)
    returns (d: seq<Row>)
    requires 4 <= |bytes| && SizeAt(bytes, 0) != 0
    requires HeaderFrom(bytes, 4, [], HeaderRows(SizeAt(bytes, 0)), unset) == Got(Header(header, true), base)
    requires m.updateColumns(header) != [] && AllRows(bytes, base, |m.updateColumns(header)|).Got?
    ensures var first := Initialised(bytes, 0, m, size, unset);
            && first.Got? && first.value.rows == 0
            && Sound(bytes, base, m.updateColumns(header), m, first.value, d)
  {
    var columns := m.updateColumns(header);
    var b := Buffers(columns, base, [], [], 0, 0);
    NothingDecoded(bytes, base, columns, m);
    FillBlockGot(bytes, b, m, size);
    d := FillBlockSound(bytes, base, columns, m, b, [], size, NextBlock(bytes, b, m, size));
  }

  /** A response with the given header rows and rows, and the columns `init` makes of the header. */
  predicate Answers(
      bytes: string, lines: seq<Line>, rows: seq<Row>, columns: seq<ColumnInfo>, m: Mutator, unset: Meta)
  {
    && 0 < |lines| < 0x8000_0000 && SendableLines(lines) && (forall line <- lines :: LineReadable(line, unset))
    && columns == m.updateColumns(AppliedAll(lines, [], unset)) != []
    && SendableRows(rows, |columns|) && bytes == ResponseBytes(lines, rows, |columns|)
  }

  /** After `init` on an encoded response, the result set has the columns of the header, and the rows
      behind it are those encoded. */
  lemma {:induction false} InitRoundTrip(
      bytes: string, lines: seq<Line>, rows: seq<Row>, columns: seq<ColumnInfo>, m: Mutator, size: nat, unset: Meta)
    returns (d: seq<Row>, base: nat)
    requires Answers(bytes, lines, rows, columns, m, unset)
    ensures HeaderReadable(bytes, Behind(bytes, 0), [], HeaderRows(SizeAt(bytes, 0)), unset)
    ensures AllRows(bytes, base, |columns|) == Got(rows, |bytes|)
    ensures var first := Initialised(bytes, 0, m, size, unset);
            first.Got? && first.value.rows == 0 && Sound(bytes, base, columns, m, first.value, d)
  {
    base := ResponseSplit(lines, rows, |columns|);
    HeaderRoundTrip(bytes, 4, lines, [], unset, LinesBytes(lines), base);
    RowsRoundTrip(bytes, base, rows, |columns|, RowsBytes(rows, |columns|), AllRows(bytes, base, |columns|));
    d := InitBehindHeader(bytes, base, AppliedAll(lines, [], unset), m, size, unset);
  }

  /** Header rows that name and type the columns, among others of unknown kinds. */
  function NamingLines(u: seq<Line>, v: seq<Line>, w: seq<Line>, names: seq<string>, kinds: seq<string>): seq<Line> {
    u + ([Line("name", names)] + (v + ([Line("type", kinds)] + w)))
  }

  lemma {:induction false} NamingReadable(
      u: seq<Line>, v: seq<Line>, w: seq<Line>, names: seq<string>, kinds: seq<string>, unset: Meta)
    requires Unknown(u) && Unknown(v) && Unknown(w) && AllReadable(kinds, unset)
    ensures forall line <- NamingLines(u, v, w, names, kinds) :: LineReadable(line, unset)
  {
    forall line <- NamingLines(u, v, w, names, kinds)
      ensures LineReadable(line, unset)
    {
      assert line in u || line == Line("name", names) || line in v || line == Line("type", kinds) || line in w;
    }
  }

  /** Wire round trip: any names, types and rows, nulls included, sent with any header rows of other
      kinds, come back from `init` and the fetches that follow, whatever their block sizes.  `d` are the
      rows decoded so far, which the display sizes are the maxima over. */
  lemma {:induction false} WireRoundTrip(
      u: seq<Line>, v: seq<Line>, w: seq<Line>, names: seq<string>, kinds: seq<string>, rows: seq<Row>,
      m: Mutator, size: nat, sizes: seq<nat>, unset: Meta)
    returns (d: seq<Row>)
    requires Unknown(u) && Unknown(v) && Unknown(w) && 0 < |names| == |kinds|
    requires |NamingLines(u, v, w, names, kinds)| < 0x8000_0000 && SendableLines(NamingLines(u, v, w, names, kinds))
    requires AllReadable(kinds, unset) && SendableRows(rows, |names|)
    requires |m.updateColumns(Columns(names, kinds, unset))| == |names|
    requires forall i :: 0 <= i < |sizes| ==> 0 < sizes[i]
    ensures var bytes := ResponseBytes(NamingLines(u, v, w, names, kinds), rows, |names|);
            var first := Initialised(bytes, 0, m, size, unset);
            && first.Got? && first.value.rows == 0
            && var run := Fetches(bytes, first.value, m, sizes);
            && run.Got? && RunDelivers(run.value, first.value, rows, m, |sizes|)
            && run.value.buffers.columns == ColumnsAfter(m.updateColumns(Columns(names, kinds, unset)), d)
            && d <= rows && run.value.buffers.rows <= |d|
  {
    var lines := NamingLines(u, v, w, names, kinds);
    HeaderColumns(u, v, w, names, kinds, unset);
    NamingReadable(u, v, w, names, kinds, unset);
    var bytes := ResponseBytes(lines, rows, |names|);
    var columns := m.updateColumns(Columns(names, kinds, unset));
    var c, base := InitRoundTrip(bytes, lines, rows, columns, m, size, unset);
    var first := Initialised(bytes, 0, m, size, unset).value;
    d := FetchesDeliver(bytes, base, columns, m, first, c, sizes);
    AllRowsSplit(bytes, base, |columns|, d, Fetches(bytes, first, m, sizes).value.buffers.pos);
  }
}
