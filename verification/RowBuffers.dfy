/** What the two row buffers of a result set hold, as values: the rows read ahead, and the block that
    rows are handed out of. */
module RowBuffers {
  import opened ReadHelpers
  import opened TypeParser
  import opened ColumnTypes

  type Row = seq<Field>

  /** How a result is adapted; neither mutator of the driver looks at the columns to change a row. */
  datatype Mutator = Mutator(updateColumns: seq<ColumnInfo> -> seq<ColumnInfo>, updateRow: Row -> Row)

  datatype Buffers = Buffers(
    columns: seq<ColumnInfo>, pos: nat, ahead: seq<Row>, block: seq<Row>, index: nat, rows: nat)

  predicate Proper(b: Buffers) { b.index <= |b.block| }

  // ---- Rows

  /** A row of `n` fields of which `row` is already read. */
  function RowFrom(bytes: string, p: nat, n: nat, row: Row): (r: Read<Row>)
    requires |row| <= n
    ensures r.Got? ==> p + 4 * (n - |row|) <= r.pos && |r.value| == n && (|row| < n ==> r.pos <= |bytes|)
    decreases n - |row|
  {
    if |row| == n then Got(row, p)
    else
      var f := StringAt(bytes, p, NO_FIELD);
      if f.Incomplete? then Incomplete else RowFrom(bytes, f.pos, n, row + [f.value])
  }

  function RowAt(bytes: string, p: nat, n: nat): Read<Row> { RowFrom(bytes, p, n, []) }

  function Max(a: nat, b: nat): nat { if a < b then b else a }

  /** The columns with the first `n` display sizes raised to what `row` needs. */
  function WidenedBy(columns: seq<ColumnInfo>, row: Row, n: nat): (wide: seq<ColumnInfo>)
    requires n <= |columns| && n <= |row|
    ensures |wide| == |columns|
  {
    seq(|columns|, j requires 0 <= j < |columns| =>
      if j < n then columns[j].(displaySize := Max(|row[j].data|, columns[j].displaySize)) else columns[j])
  }

  function Widened(columns: seq<ColumnInfo>, row: Row): (wide: seq<ColumnInfo>)
    requires |row| == |columns|
    ensures |wide| == |columns|
  {
    WidenedBy(columns, row, |row|)
  }

  // ---- Filling the buffers

  const READ_AHEAD := 1000

  datatype Ahead = Ahead(columns: seq<ColumnInfo>, ahead: seq<Row>)

  /** Up to `limit` rows more. */
  function ReadAhead(bytes: string, p: nat, a: Ahead, limit: nat): (r: Read<Ahead>)
    ensures r.Got? ==> |r.value.columns| == |a.columns|
    decreases limit, p
  {
    if limit == 0 || |bytes| <= p then Got(a, p)
    else
      var row := RowAt(bytes, p, |a.columns|);
      if row.Incomplete? then Incomplete
      else ReadAhead(bytes, row.pos, Ahead(Widened(a.columns, row.value), a.ahead + [row.value]), limit - 1)
  }

  function Supplied(bytes: string, b: Buffers): (r: Read<Buffers>)
    ensures r.Got? ==> r.pos == r.value.pos && |r.value.columns| == |b.columns|
    ensures r.Got? ==> r.value.block == b.block && r.value.index == b.index && r.value.rows == b.rows
  {
    if b.ahead != [] then Got(b, b.pos)
    else
      var r := ReadAhead(bytes, b.pos, Ahead(b.columns, b.ahead), READ_AHEAD);
      if r.Incomplete? then Incomplete
      else Got(b.(columns := r.value.columns, ahead := r.value.ahead, pos := r.pos), r.pos)
  }

  function MoveOne(b: Buffers, m: Mutator): Buffers
    requires b.ahead != []
  {
    b.(ahead := b.ahead[1..], block := b.block + [m.updateRow(b.ahead[0])])
  }

  /** Up to `n` rows more in the block. */
  function FillBlock(bytes: string, b: Buffers, m: Mutator, n: nat): (r: Read<Buffers>)
    ensures r.Got? ==> r.value.index == b.index && r.value.rows == b.rows && |r.value.columns| == |b.columns|
    ensures r.Got? ==> |b.block| <= |r.value.block|
    decreases n
  {
    if n == 0 then Got(b, b.pos)
    else
      var s := Supplied(bytes, b);
      if s.Incomplete? then Incomplete
      else if s.value.ahead == [] then s
      else FillBlock(bytes, MoveOne(s.value, m), m, n - 1)
  }

  function NextBlock(bytes: string, b: Buffers, m: Mutator, n: nat): (r: Read<Buffers>)
    ensures r.Got? ==> r.value.index == 0 && r.value.rows == b.rows && |r.value.columns| == |b.columns|
  {
    FillBlock(bytes, b.(block := [], index := 0), m, n)
  }

  datatype Fetched = Fetched(row: Row, buffers: Buffers)

  function HandOut(b: Buffers): Fetched
    requires b.index < |b.block|
  {
    Fetched(b.block[b.index], b.(index := b.index + 1, rows := b.rows + 1))
  }

  /** The next row, with blocks of `n` rows; the empty row at the end. */
  function Fetch(bytes: string, b: Buffers, m: Mutator, n: nat): (r: Read<Fetched>)
    requires Proper(b)
    ensures r.Got? ==> Proper(r.value.buffers)
  {
    if b.columns == [] then Got(Fetched([], b), b.pos)
    else if b.index != |b.block| then Got(HandOut(b), b.pos)
    else
      var s := NextBlock(bytes, b, m, n);
      if s.Incomplete? then Incomplete
      else if s.value.block == [] then Got(Fetched([], s.value), s.pos)
      else Got(HandOut(s.value), s.pos)
  }

  // ---- The header

  datatype HeaderKind = NameRow | TypeRow | OtherRow

  function KindOf(title: string): HeaderKind {
    if title == "name" then NameRow else if title == "type" then TypeRow else OtherRow
  }

  /** `vector::resize`. */
  function Resized(columns: seq<ColumnInfo>, n: nat): (r: seq<ColumnInfo>)
    ensures |r| == n
    ensures forall j :: 0 <= j < n ==> r[j] == if j < |columns| then columns[j] else NEW_COLUMN
  {
    if n <= |columns| then columns[..n] else columns + seq(n - |columns|, _ => NEW_COLUMN)
  }

  /** The string a cell of the header is read into. */
  function CellText(kind: HeaderKind, column: ColumnInfo): string {
    match kind
    case NameRow => column.name
    case TypeRow => column.kind
    case OtherRow => ""
  }

  function WithCell(kind: HeaderKind, column: ColumnInfo, text: string, unset: Meta): ColumnInfo {
    match kind
    case NameRow => column.(name := text)
    case TypeRow => DescribedBy(text, unset, column.(kind := text))
    case OtherRow => column
  }

  /** The cells of a header row from column `i` on. */
  function CellsFrom(bytes: string, p: nat, kind: HeaderKind, columns: seq<ColumnInfo>, i: nat, unset: Meta)
    : (r: Read<seq<ColumnInfo>>)
    requires i <= |columns|
    ensures r.Got? ==> |r.value| == |columns|
    decreases |columns| - i
  {
    if i == |columns| then Got(columns, p)
    else
      var f := StringAt(bytes, p, Field(CellText(kind, columns[i]), false));
      if f.Incomplete? then Incomplete
      else
        CellsFrom(bytes, f.pos, kind, columns[i := WithCell(kind, columns[i], f.value.data, unset)], i + 1, unset)
  }

  /** The cells of a row that is skipped. */
  function SkippedFrom(bytes: string, p: nat, n: nat): Read<()>
    decreases n
  {
    if n == 0 then Got((), p)
    else
      var f := StringAt(bytes, p, NO_FIELD);
      if f.Incomplete? then Incomplete else SkippedFrom(bytes, f.pos, n - 1)
  }

  function HeaderRow(bytes: string, p: nat, kind: HeaderKind, columns: seq<ColumnInfo>, n: nat, unset: Meta)
    : Read<seq<ColumnInfo>>
  {
    if kind.OtherRow? then
      var r := SkippedFrom(bytes, p, n);
      if r.Incomplete? then Incomplete else Got(columns, r.pos)
    else CellsFrom(bytes, p, kind, Resized(columns, n), 0, unset)
  }

  /** The position behind a length. */
  function Behind(bytes: string, p: nat): nat { if p + 4 <= |bytes| then p + 4 else |bytes| }

  /** `whole` is false if a row without columns ended the header early. */
  datatype Header = Header(columns: seq<ColumnInfo>, whole: bool)

  function TitledRow(bytes: string, p: nat, columns: seq<ColumnInfo>, unset: Meta): Read<Header> {
    var size := SizeAt(bytes, p);
    if size <= 1 then Got(Header(columns, false), Behind(bytes, p))
    else
      var title := StringAt(bytes, Behind(bytes, p), NO_FIELD);
      if title.Incomplete? then Incomplete
      else
        var row := HeaderRow(bytes, title.pos, KindOf(title.value.data), columns, size - 1, unset);
        if row.Incomplete? then Incomplete else Got(Header(row.value, true), row.pos)
  }

  function HeaderFrom(bytes: string, p: nat, columns: seq<ColumnInfo>, left: nat, unset: Meta): Read<Header>
    decreases left
  {
    if left == 0 then Got(Header(columns, true), p)
    else
      var row := TitledRow(bytes, p, columns, unset);
      if row.Incomplete? || !row.value.whole then row
      else HeaderFrom(bytes, row.pos, row.value.columns, left - 1, unset)
  }

  /** Every type text in the header can be read. */
  predicate CellsReadable(bytes: string, p: nat, kind: HeaderKind, columns: seq<ColumnInfo>, i: nat, unset: Meta)
    requires i <= |columns|
    decreases |columns| - i
  {
    i < |columns| ==>
      var f := StringAt(bytes, p, Field(CellText(kind, columns[i]), false));
      f.Got? ==>
        && (kind.TypeRow? ==> Readable(f.value.data, unset))
        && CellsReadable(bytes, f.pos, kind, columns[i := WithCell(kind, columns[i], f.value.data, unset)], i + 1,
                         unset)
  }

  predicate TitledRowReadable(bytes: string, p: nat, columns: seq<ColumnInfo>, unset: Meta) {
    1 < SizeAt(bytes, p) ==>
      var title := StringAt(bytes, Behind(bytes, p), NO_FIELD);
      title.Got? && !KindOf(title.value.data).OtherRow? ==>
        CellsReadable(bytes, title.pos, KindOf(title.value.data), Resized(columns, SizeAt(bytes, p) - 1), 0, unset)
  }

  predicate HeaderReadable(bytes: string, p: nat, columns: seq<ColumnInfo>, left: nat, unset: Meta)
    decreases left
  {
    left != 0 ==>
      && TitledRowReadable(bytes, p, columns, unset)
      && var row := TitledRow(bytes, p, columns, unset);
         row.Got? && row.value.whole ==> HeaderReadable(bytes, row.pos, row.value.columns, left - 1, unset)
  }

  /** How often the loop over the header rows runs: its counter is unsigned. */
  function HeaderRows(count: int): nat
    requires IsInt32(count)
  {
    if count < 0 then count + 0x1_0000_0000_0000_0000 else count
  }

  /** A fresh result set after `init`, with blocks of `n` rows. */
  function Initialised(bytes: string, p: nat, m: Mutator, n: nat, unset: Meta): (r: Read<Buffers>)
    ensures r.Got? ==> Proper(r.value)
  {
    var empty := Buffers([], p, [], [], 0, 0);
    if |bytes| <= p then Got(empty, p)
    else if SizeAt(bytes, p) == 0 then Got(empty.(pos := Behind(bytes, p)), Behind(bytes, p))
    else
      var header := HeaderFrom(bytes, Behind(bytes, p), [], HeaderRows(SizeAt(bytes, p)), unset);
      if header.Incomplete? then Incomplete
      else
        var b := empty.(columns := header.value.columns, pos := header.pos);
        if header.value.whole then NextBlock(bytes, b.(columns := m.updateColumns(b.columns)), m, n)
        else Got(b, b.pos)
  }
}
