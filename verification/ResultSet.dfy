/** The result set: it reads its header, and then rows, from the response to a statement. */
module ResultSet {
  import opened ReadHelpers
  import opened TypeParser
  import opened ColumnTypes
  import opened RowBuffers

  /** What a result set uses of its statement. */
  class Statement {
    const input: InputStream
    var rowArraySize: nat
    /** Whether the application wants to know the number of fetched rows, and where it is told. */
    var reportsRows: bool
    var rowsFetched: nat

    constructor (input: InputStream, rowArraySize: nat, reportsRows: bool)
      ensures this.input == input && this.rowArraySize == rowArraySize && this.reportsRows == reportsRows
    {
      this.input := input;
      this.rowArraySize := rowArraySize;
      this.reportsRows := reportsRows;
      rowsFetched := 0;
    }
  }

  class ResultSet {
    const statement: Statement
    const mutator: Mutator
    /** What the category of a type happens to be before the parser sets it. */
    const unset: Meta
    var columnsInfo: seq<ColumnInfo>
    var currentBlockBuffer: seq<Row>
    var currentBlock: seq<Row>
    var iterator_: nat
    var rows: nat

    ghost predicate Valid()
      reads this, statement.input
    {
      statement.input.Valid() && iterator_ <= |currentBlock|
    }

    ghost function State(): Buffers
      reads this, statement.input
    {
      Buffers(columnsInfo, statement.input.pos, currentBlockBuffer, currentBlock, iterator_, rows)
    }

    constructor (statement: Statement, mutator: Mutator, unset: Meta)
      requires statement.input.Valid()
      ensures Valid() && this.statement == statement && this.mutator == mutator && this.unset == unset
      ensures State() == Buffers([], statement.input.pos, [], [], 0, 0)
    {
      this.statement := statement;
      this.mutator := mutator;
      this.unset := unset;
      columnsInfo, currentBlockBuffer, currentBlock, iterator_, rows := [], [], [], 0, 0;
    }

    /** One row; display sizes are raised on the way. */
    method ReadRow() returns (ok: bool, row: Row)
      requires Valid()
      modifies this`columnsInfo, statement.input
      ensures Valid()
      ensures var r := RowAt(statement.input.bytes, old(statement.input.pos), |old(columnsInfo)|);
              if r.Incomplete? then !ok
              else ok && row == r.value && statement.input.pos == r.pos
                   && columnsInfo == Widened(old(columnsInfo), row)
    {
      var n := |columnsInfo|;
      row := [];
      assert columnsInfo == WidenedBy(columnsInfo, row, 0);
      while |row| < n
        invariant Valid() && |row| <= n == |columnsInfo|
        invariant columnsInfo == WidenedBy(old(columnsInfo), row, |row|)
        invariant RowFrom(statement.input.bytes, statement.input.pos, n, row)
               == RowAt(statement.input.bytes, old(statement.input.pos), n)
      {
        var field;
        ok, field := statement.input.ReadString(NO_FIELD);
        if !ok {
          return;
        }
        var j := |row|;
        columnsInfo := columnsInfo[j := columnsInfo[j].(displaySize := Max(|field.data|, columnsInfo[j].displaySize))];
        row := row + [field];
      }
      ok := true;
    }

    method ReadNextBlockCache() returns (ok: bool, any: bool)
      requires Valid()
      modifies this`columnsInfo, this`currentBlockBuffer, statement.input
      ensures Valid()
      ensures var r := ReadAhead(statement.input.bytes, old(statement.input.pos),
                                 Ahead(old(columnsInfo), old(currentBlockBuffer)), READ_AHEAD);
              if r.Incomplete? then !ok
              else ok && Ahead(columnsInfo, currentBlockBuffer) == r.value && statement.input.pos == r.pos
                   && any == (|old(currentBlockBuffer)| < |currentBlockBuffer|)
    {
      var i, readed := 0, 0;
      var eof := statement.input.AtEnd();
      while i < READ_AHEAD && !eof
        invariant Valid() && i <= READ_AHEAD && eof == (statement.input.pos == |statement.input.bytes|)
        invariant readed == i && |currentBlockBuffer| == |old(currentBlockBuffer)| + readed
        invariant ReadAhead(statement.input.bytes, statement.input.pos, Ahead(columnsInfo, currentBlockBuffer),
                            READ_AHEAD - i)
               == ReadAhead(statement.input.bytes, old(statement.input.pos),
                            Ahead(old(columnsInfo), old(currentBlockBuffer)), READ_AHEAD)
      {
        var row;
        ok, row := ReadRow();
        if !ok {
          return ok, false;
        }
        currentBlockBuffer := currentBlockBuffer + [row];
        readed := readed + 1;
        i := i + 1;
        eof := statement.input.AtEnd();
      }
      ok, any := true, readed != 0;
    }

    /** Makes sure a row is read ahead, if there is one. */
    method Supply() returns (ok: bool, any: bool)
      requires Valid()
      modifies this`columnsInfo, this`currentBlockBuffer, statement.input
      ensures Valid()
      ensures var r := Supplied(statement.input.bytes, old(State()));
              if r.Incomplete? then !ok else ok && State() == r.value && any == (currentBlockBuffer != [])
    {
      if currentBlockBuffer != [] {
        return true, true;
      }
      ok, any := ReadNextBlockCache();
    }

    /** Moves one row into the block, if there is one. */
    method MoveRow(ghost left: nat) returns (ok: bool, more: bool)
      requires Valid() && 0 < left
      modifies this`columnsInfo, this`currentBlockBuffer, this`currentBlock, statement.input
      ensures Valid()
      ensures var r := FillBlock(statement.input.bytes, old(State()), mutator, left);
              if !ok then r.Incomplete?
              else if more then r == FillBlock(statement.input.bytes, State(), mutator, left - 1)
              else r == Got(State(), State().pos)
    {
      ok, more := Supply();
      if ok && more {
        var row := currentBlockBuffer[0];
        currentBlockBuffer := currentBlockBuffer[1..];
        currentBlock := currentBlock + [mutator.updateRow(row)];
      }
    }

    method ReadNextBlock() returns (ok: bool, any: bool)
      requires Valid()
      modifies this, statement.input
      ensures Valid()
      ensures var r := NextBlock(statement.input.bytes, old(State()), mutator, old(statement.rowArraySize));
              if r.Incomplete? then !ok else ok && State() == r.value && any == (currentBlock != [])
    {
      currentBlock, iterator_ := [], 0;
      var i, n, more := 0, statement.rowArraySize, true;
      while i < n && more
        invariant Valid() && i <= n && iterator_ == 0
        invariant var r := NextBlock(statement.input.bytes, old(State()), mutator, n);
                  if more then FillBlock(statement.input.bytes, State(), mutator, n - i) == r
                  else r == Got(State(), State().pos)
        decreases n - i, more
      {
        ok, more := MoveRow(n - i);
        if !ok {
          return ok, false;
        }
        if more {
          i := i + 1;
        }
      }
      ok, any := true, currentBlock != [];
    }

    method Fetch() returns (ok: bool, row: Row)
      requires Valid()
      modifies this, statement, statement.input
      ensures Valid() && statement.rowArraySize == old(statement.rowArraySize)
      ensures var r := RowBuffers.Fetch(statement.input.bytes, old(State()), mutator, old(statement.rowArraySize));
              if r.Incomplete? then !ok else ok && row == r.value.row && State() == r.value.buffers
      ensures statement.reportsRows == old(statement.reportsRows)
      ensures ok && statement.reportsRows && old(rows) < rows ==> statement.rowsFetched == rows
      ensures ok && rows == old(rows) ==> statement.rowsFetched == old(statement.rowsFetched)
    {
      if columnsInfo == [] {
        return true, [];
      }
      if iterator_ == |currentBlock| {
        var any;
        ok, any := ReadNextBlock();
        if !ok || !any {
          return ok, [];
        }
      }
      rows := rows + 1;
      if statement.reportsRows {
        statement.rowsFetched := rows;
      }
      row := currentBlock[iterator_];
      iterator_ := iterator_ + 1;
      ok := true;
    }

    /** The cells of a header row that names the columns or gives their types. */
    method ReadCells(kind: HeaderKind) returns (ok: bool)
      requires Valid() && !kind.OtherRow?
      requires CellsReadable(statement.input.bytes, statement.input.pos, kind, columnsInfo, 0, unset)
      modifies this`columnsInfo, statement.input
      ensures Valid()
      ensures var r := CellsFrom(statement.input.bytes, old(statement.input.pos), kind, old(columnsInfo), 0, unset);
              if r.Incomplete? then !ok else ok && columnsInfo == r.value && statement.input.pos == r.pos
    {
      var i := 0;
      while i < |columnsInfo|
        invariant Valid() && i <= |columnsInfo| == |old(columnsInfo)|
        invariant CellsReadable(statement.input.bytes, statement.input.pos, kind, columnsInfo, i, unset)
        invariant CellsFrom(statement.input.bytes, statement.input.pos, kind, columnsInfo, i, unset)
               == CellsFrom(statement.input.bytes, old(statement.input.pos), kind, old(columnsInfo), 0, unset)
      {
        var cell;
        ok, cell := statement.input.ReadString(Field(CellText(kind, columnsInfo[i]), false));
        if !ok {
          return;
        }
        if kind.NameRow? {
          columnsInfo := columnsInfo[i := columnsInfo[i].(name := cell.data)];
        } else {
          var column := DescribeColumn(columnsInfo[i].(kind := cell.data), unset);
          columnsInfo := columnsInfo[i := column];
        }
        i := i + 1;
      }
      ok := true;
    }

    method SkipCells(n: nat) returns (ok: bool)
      requires Valid()
      modifies statement.input
      ensures Valid()
      ensures var r := SkippedFrom(statement.input.bytes, old(statement.input.pos), n);
              if r.Incomplete? then !ok else ok && statement.input.pos == r.pos
    {
      var i := 0;
      while i < n
        invariant Valid() && i <= n
        invariant SkippedFrom(statement.input.bytes, statement.input.pos, n - i)
               == SkippedFrom(statement.input.bytes, old(statement.input.pos), n)
      {
        var dummy;
        ok, dummy := statement.input.ReadString(NO_FIELD);
        if !ok {
          return;
        }
        i := i + 1;
      }
      ok := true;
    }

    method ReadHeaderRow(title: string, n: nat) returns (ok: bool)
      requires Valid()
      requires !KindOf(title).OtherRow? ==>
        CellsReadable(statement.input.bytes, statement.input.pos, KindOf(title), Resized(columnsInfo, n), 0, unset)
      modifies this`columnsInfo, statement.input
      ensures Valid()
      ensures var r := HeaderRow(statement.input.bytes, old(statement.input.pos), KindOf(title),
                                 old(columnsInfo), n, unset);
              if r.Incomplete? then !ok else ok && columnsInfo == r.value && statement.input.pos == r.pos
    {
      if title == "name" || title == "type" {
        columnsInfo := Resized(columnsInfo, n);
        ok := ReadCells(KindOf(title));
      } else {
        ok := SkipCells(n);
      }
    }

    /** One turn of the loop over the header rows; `more` is false if it returns from `init`. */
    method ReadTitledRow() returns (ok: bool, more: bool)
      requires Valid() && TitledRowReadable(statement.input.bytes, statement.input.pos, columnsInfo, unset)
      modifies this`columnsInfo, statement.input
      ensures Valid()
      ensures var r := TitledRow(statement.input.bytes, old(statement.input.pos), old(columnsInfo), unset);
              if r.Incomplete? then !ok
              else ok && Header(columnsInfo, more) == r.value && statement.input.pos == r.pos
    {
      var size := statement.input.ReadSize();
      if size <= 1 {
        return true, false;
      }
      var title;
      ok, title := statement.input.ReadString(NO_FIELD);
      if ok {
        ok := ReadHeaderRow(title.data, size - 1);
      }
      more := ok;
    }

    /** The header; `whole` is false where the source returns from `init` early. */
    method ReadHeader(count: nat) returns (ok: bool, whole: bool)
      requires Valid()
      requires HeaderReadable(statement.input.bytes, statement.input.pos, columnsInfo, count, unset)
      modifies this`columnsInfo, statement.input
      ensures Valid()
      ensures var r := HeaderFrom(statement.input.bytes, old(statement.input.pos), old(columnsInfo), count, unset);
              if r.Incomplete? then !ok
              else ok && Header(columnsInfo, whole) == r.value && statement.input.pos == r.pos
    {
      hide TitledRow, TitledRowReadable;
      var i := 0;
      while i < count
        invariant Valid() && i <= count
        invariant HeaderReadable(statement.input.bytes, statement.input.pos, columnsInfo, count - i, unset)
        invariant HeaderFrom(statement.input.bytes, statement.input.pos, columnsInfo, count - i, unset)
               == HeaderFrom(statement.input.bytes, old(statement.input.pos), old(columnsInfo), count, unset)
      {
        ok, whole := ReadTitledRow();
        if !ok || !whole {
          return;
        }
        i := i + 1;
      }
      ok, whole := true, true;
    }

    method Init() returns (ok: bool)
      requires Valid() && State() == Buffers([], statement.input.pos, [], [], 0, 0)
      requires var p := statement.input.pos;
               HeaderReadable(statement.input.bytes, Behind(statement.input.bytes, p), [],
                              HeaderRows(SizeAt(statement.input.bytes, p)), unset)
      modifies this, statement.input
      ensures Valid()
      ensures var r := Initialised(statement.input.bytes, old(statement.input.pos), mutator,
                                   old(statement.rowArraySize), unset);
              if r.Incomplete? then !ok else ok && State() == r.value
    {
      var eof := statement.input.AtEnd();
      if eof {
        return true;
      }
      var count := statement.input.ReadSize();
      if count == 0 {
        return true;
      }
      var whole;
      ok, whole := ReadHeader(HeaderRows(count));
      if ok && whole {
        columnsInfo := mutator.updateColumns(columnsInfo);
        var any;
        ok, any := ReadNextBlock();
      }
    }
  }
}
