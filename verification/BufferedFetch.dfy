/** Fetching through the two buffers delivers what decoding row by row would. */
module BufferedFetch {
  import opened ReadHelpers
  import opened ColumnTypes
  import opened RowBuffers

  // ---- Decoding row by row

  /** The rows of `n` fields from `p` to `q` are `d`. */
  predicate Decodes(bytes: string, p: nat, n: nat, d: seq<Row>, q: nat)
    decreases |d|
  {
    if d == [] then p == q
    else
      && p < |bytes|
      && var row := RowAt(bytes, p, n);
         row.Got? && row.value == d[0] && Decodes(bytes, row.pos, n, d[1..], q)
  }

  /** All rows from `p` to the end. */
  function AllRows(bytes: string, p: nat, n: nat): Read<seq<Row>>
    requires 0 < n
    decreases |bytes| - p
  {
    if |bytes| <= p then Got([], p)
    else
      var row := RowAt(bytes, p, n);
      if row.Incomplete? then Incomplete
      else
        var rest := AllRows(bytes, row.pos, n);
        if rest.Incomplete? then Incomplete else Got([row.value] + rest.value, rest.pos)
  }

  lemma {:induction false} DecodesMore(bytes: string, p: nat, n: nat, d: seq<Row>, q: nat, row: Row, r: nat)
    requires Decodes(bytes, p, n, d, q) && q < |bytes| && RowAt(bytes, q, n) == Got(row, r)
    ensures Decodes(bytes, p, n, d + [row], r)
    decreases |d|
  {
    if d == [] {
      assert (d + [row])[1..] == [];
    } else {
      assert (d + [row])[1..] == d[1..] + [row];
      DecodesMore(bytes, RowAt(bytes, p, n).pos, n, d[1..], q, row, r);
    }
  }

  lemma {:induction false} AllRowsSplit(bytes: string, p: nat, n: nat, d: seq<Row>, q: nat)
    requires 0 < n && Decodes(bytes, p, n, d, q)
    ensures AllRows(bytes, p, n).Got? <==> AllRows(bytes, q, n).Got?
    ensures AllRows(bytes, p, n).Got? ==> AllRows(bytes, p, n).value == d + AllRows(bytes, q, n).value
    decreases |d|
  {
    if d == [] {
      assert AllRows(bytes, q, n).Got? ==> [] + AllRows(bytes, q, n).value == AllRows(bytes, q, n).value;
    } else {
      var r := RowAt(bytes, p, n).pos;
      AllRowsSplit(bytes, r, n, d[1..], q);
      if AllRows(bytes, q, n).Got? {
        var rest := AllRows(bytes, q, n).value;
        assert [d[0]] + (d[1..] + rest) == d + rest;
      }
    }
  }

  // ---- Display sizes

  function Length(row: Row, j: nat): nat { if j < |row| then |row[j].data| else 0 }

  /** The longest text in column `j`. */
  function Longest(d: seq<Row>, j: nat): nat {
    if d == [] then 0 else Max(Longest(d[..|d| - 1], j), Length(d[|d| - 1], j))
  }

  lemma {:induction false} LongestIsMaximum(d: seq<Row>, j: nat)
    ensures forall row <- d :: Length(row, j) <= Longest(d, j)
    ensures d != [] ==> exists row :: row in d && Length(row, j) == Longest(d, j)
  {
    if d != [] {
      var front, last := d[..|d| - 1], d[|d| - 1];
      LongestIsMaximum(front, j);
      assert forall row <- d :: row in front || row == last;
      if Longest(front, j) <= Length(last, j) {
        assert last in d;
      } else {
        var row :| row in front && Length(row, j) == Longest(front, j);
        assert row in d;
      }
    }
  }

  /** The columns after the rows `d` have been decoded. */
  function ColumnsAfter(columns: seq<ColumnInfo>, d: seq<Row>): (r: seq<ColumnInfo>)
    ensures |r| == |columns|
  {
    seq(|columns|, j requires 0 <= j < |columns| =>
      columns[j].(displaySize := Max(columns[j].displaySize, Longest(d, j))))
  }

  lemma {:induction false} ColumnsAfterRow(columns: seq<ColumnInfo>, d: seq<Row>, row: Row)
    requires |row| == |columns|
    ensures Widened(ColumnsAfter(columns, d), row) == ColumnsAfter(columns, d + [row])
  {
    assert (d + [row])[..|d|] == d;
  }

  // ---- The accounts

  /** `d` are the rows decoded so far, from `base` on: `b.rows` of them have been handed out, then
      come those left in the block, adapted, and then those read ahead. */
  ghost predicate Sound(bytes: string, base: nat, columns: seq<ColumnInfo>, m: Mutator, b: Buffers, d: seq<Row>) {
    && Decodes(bytes, base, |columns|, d, b.pos)
    && b.columns == ColumnsAfter(columns, d)
    && Proper(b)
    && b.rows + (|b.block| - b.index) + |b.ahead| == |d|
    && (forall i :: b.index <= i < |b.block| ==> b.block[i] == m.updateRow(d[b.rows + i - b.index]))
    && b.ahead == d[|d| - |b.ahead|..]
  }

  lemma {:induction false} ReadAheadSound(
      bytes: string, base: nat, columns: seq<ColumnInfo>, d: seq<Row>, p: nat, a: Ahead, limit: nat)
    returns (e: seq<Row>)
    requires Decodes(bytes, base, |columns|, d, p) && a.columns == ColumnsAfter(columns, d)
    requires ReadAhead(bytes, p, a, limit).Got?
    ensures var r := ReadAhead(bytes, p, a, limit);
            && Decodes(bytes, base, |columns|, d + e, r.pos)
            && r.value == Ahead(ColumnsAfter(columns, d + e), a.ahead + e)
            && |e| <= limit && (|e| < limit ==> |bytes| <= r.pos)
    decreases limit
  {
    if limit == 0 || |bytes| <= p {
      e := [];
      assert d + e == d && a.ahead + e == a.ahead;
    } else {
      var row := RowAt(bytes, p, |columns|);
      DecodesMore(bytes, base, |columns|, d, p, row.value, row.pos);
      ColumnsAfterRow(columns, d, row.value);
      var more := ReadAheadSound(bytes, base, columns, d + [row.value], row.pos,
        Ahead(Widened(a.columns, row.value), a.ahead + [row.value]), limit - 1);
      e := [row.value] + more;
      assert d + e == d + [row.value] + more && a.ahead + e == a.ahead + [row.value] + more;
    }
  }

  /** When no row is left, a thousand are read ahead, or all that the stream still holds. */
  lemma {:induction false} SuppliedSound(
      bytes: string, base: nat, columns: seq<ColumnInfo>, m: Mutator, b: Buffers, d: seq<Row>)
    returns (now: seq<Row>)
    requires Sound(bytes, base, columns, m, b, d) && Supplied(bytes, b).Got?
    ensures var s := Supplied(bytes, b).value;
            && Sound(bytes, base, columns, m, s, now)
            && (s.ahead == [] ==> |bytes| <= s.pos)
    ensures if b.ahead != [] then now == d
            else |d| <= |now| <= |d| + 1000 && (|now| < |d| + 1000 ==> |bytes| <= Supplied(bytes, b).value.pos)
  {
    now := d;
    if b.ahead == [] {
      var e := ReadAheadSound(bytes, base, columns, d, b.pos, Ahead(b.columns, b.ahead), READ_AHEAD);
      now := d + e;
      assert now[|d|..] == e == b.ahead + e;
    }
  }

  lemma {:induction false} MoveOneSound(
      bytes: string, base: nat, columns: seq<ColumnInfo>, m: Mutator, b: Buffers, d: seq<Row>)
    requires Sound(bytes, base, columns, m, b, d) && b.ahead != []
    ensures Sound(bytes, base, columns, m, MoveOne(b, m), d)
  {
    var k := |d| - |b.ahead|;
    assert b.ahead[0] == d[k] && b.ahead[1..] == d[k + 1..];
  }

  lemma {:induction false} FillTurnSound(
      bytes: string, base: nat, columns: seq<ColumnInfo>, m: Mutator, b: Buffers, d: seq<Row>)
    returns (now: seq<Row>)
    requires Sound(bytes, base, columns, m, b, d) && Supplied(bytes, b).Got?
    ensures var s := Supplied(bytes, b).value;
            && Sound(bytes, base, columns, m, if s.ahead == [] then s else MoveOne(s, m), now)
            && (s.ahead == [] ==> |bytes| <= s.pos)
  {
    now := SuppliedSound(bytes, base, columns, m, b, d);
    var s := Supplied(bytes, b).value;
    if s.ahead != [] {
      MoveOneSound(bytes, base, columns, m, s, now);
    }
  }

  /** The block gets `n` rows more, or all there are. */
  lemma {:induction false} FillBlockSound(
      bytes: string, base: nat, columns: seq<ColumnInfo>, m: Mutator, b: Buffers, d: seq<Row>, n: nat,
      r: Read<Buffers>)
    returns (now: seq<Row>)
    requires Sound(bytes, base, columns, m, b, d) && r == FillBlock(bytes, b, m, n) && r.Got?
    ensures Sound(bytes, base, columns, m, r.value, now)
    ensures |r.value.block| <= |b.block| + n
    ensures |r.value.block| < |b.block| + n ==> r.value.ahead == [] && |bytes| <= r.value.pos
    decreases n
  {
    now := d;
    if n != 0 {
      now := FillTurnSound(bytes, base, columns, m, b, d);
      var s := Supplied(bytes, b).value;
      if s.ahead != [] {
        now := FillBlockSound(bytes, base, columns, m, MoveOne(s, m), now, n - 1, r);
      }
    }
  }

  lemma {:induction false} HandOutSound(
      bytes: string, base: nat, columns: seq<ColumnInfo>, m: Mutator, b: Buffers, d: seq<Row>)
    requires Sound(bytes, base, columns, m, b, d) && b.index < |b.block|
    ensures Sound(bytes, base, columns, m, HandOut(b).buffers, d)
    ensures b.rows < |d| && HandOut(b).row == m.updateRow(d[b.rows])
  {
  }

  /** Once a block is handed out, the next one takes its place. */
  lemma {:induction false} NextBlockSound(
      bytes: string, base: nat, columns: seq<ColumnInfo>, m: Mutator, b: Buffers, d: seq<Row>, n: nat,
      r: Read<Buffers>)
    returns (now: seq<Row>)
    requires Sound(bytes, base, columns, m, b, d) && b.index == |b.block| && 0 < n
    requires r == NextBlock(bytes, b, m, n) && r.Got?
    ensures Sound(bytes, base, columns, m, r.value, now)
    ensures r.value.block == [] ==> b.rows == |now| && |bytes| <= r.value.pos
    ensures |r.value.block| <= n && (|r.value.block| < n ==> r.value.ahead == [] && |bytes| <= r.value.pos)
  {
    now := FillBlockSound(bytes, base, columns, m, b.(block := [], index := 0), d, n, r);
  }

  /** What one fetch is to do when `now` are the rows decoded up to its end: hand out the next one,
      adapted, or the empty row when the stream is at its end and all rows are handed out. */
  predicate HandsOut(bytes: string, rows: nat, m: Mutator, f: Fetched, now: seq<Row>) {
    if rows < |now| then f.buffers.rows == rows + 1 && f.row == m.updateRow(now[rows])
    else f.buffers.rows == rows == |now| && f.row == [] && |bytes| <= f.buffers.pos
  }

  lemma {:induction false} BlockHandsOut(
      bytes: string, base: nat, columns: seq<ColumnInfo>, m: Mutator, b: Buffers, rows: nat, now: seq<Row>)
    requires Sound(bytes, base, columns, m, b, now) && b.rows == rows
    requires b.block == [] ==> rows == |now| && |bytes| <= b.pos
    requires b.block != [] ==> b.index < |b.block|
    ensures var f := if b.block == [] then Fetched([], b) else HandOut(b);
            Sound(bytes, base, columns, m, f.buffers, now) && HandsOut(bytes, rows, m, f, now)
  {
    if b.block != [] {
      HandOutSound(bytes, base, columns, m, b, now);
    }
  }

  lemma {:induction false} NextBlockHandsOut(
      bytes: string, base: nat, columns: seq<ColumnInfo>, m: Mutator, b: Buffers, d: seq<Row>, n: nat,
      r: Read<Buffers>)
    returns (now: seq<Row>)
    requires Sound(bytes, base, columns, m, b, d) && b.index == |b.block| && 0 < n
    requires r == NextBlock(bytes, b, m, n) && r.Got?
    ensures var f := if r.value.block == [] then Fetched([], r.value) else HandOut(r.value);
            Sound(bytes, base, columns, m, f.buffers, now) && HandsOut(bytes, b.rows, m, f, now)
  {
    now := NextBlockSound(bytes, base, columns, m, b, d, n, r);
    BlockHandsOut(bytes, base, columns, m, r.value, b.rows, now);
  }

  /** One fetch keeps the accounts. */
  lemma {:induction false} FetchSound(
      bytes: string, base: nat, columns: seq<ColumnInfo>, m: Mutator, b: Buffers, d: seq<Row>, n: nat)
    returns (now: seq<Row>)
    requires Sound(bytes, base, columns, m, b, d) && columns != [] && 0 < n && Fetch(bytes, b, m, n).Got?
    ensures var f := Fetch(bytes, b, m, n).value;
            Sound(bytes, base, columns, m, f.buffers, now) && HandsOut(bytes, b.rows, m, f, now)
  {
    now := d;
    if b.index != |b.block| {
      HandOutSound(bytes, base, columns, m, b, d);
    } else {
      now := NextBlockHandsOut(bytes, base, columns, m, b, d, n, NextBlock(bytes, b, m, n));
    }
  }

  // ---- A stream of whole rows is read to the end

  lemma {:induction false} ReadAheadGot(bytes: string, p: nat, a: Ahead, limit: nat)
    requires a.columns != [] && AllRows(bytes, p, |a.columns|).Got?
    ensures ReadAhead(bytes, p, a, limit).Got?
    ensures AllRows(bytes, ReadAhead(bytes, p, a, limit).pos, |a.columns|).Got?
    decreases limit
  {
    if limit != 0 && p < |bytes| {
      var row := RowAt(bytes, p, |a.columns|);
      ReadAheadGot(bytes, row.pos, Ahead(Widened(a.columns, row.value), a.ahead + [row.value]), limit - 1);
    }
  }

  lemma {:induction false} FillBlockGot(bytes: string, b: Buffers, m: Mutator, n: nat)
    requires b.columns != [] && AllRows(bytes, b.pos, |b.columns|).Got?
    ensures FillBlock(bytes, b, m, n).Got?
    decreases n
  {
    if n != 0 {
      ReadAheadGot(bytes, b.pos, Ahead(b.columns, b.ahead), READ_AHEAD);
      var s := Supplied(bytes, b).value;
      if s.ahead != [] {
        FillBlockGot(bytes, MoveOne(s, m), m, n - 1);
      }
    }
  }

  lemma {:induction false} FetchGot(bytes: string, b: Buffers, m: Mutator, n: nat)
    requires Proper(b) && b.columns != [] && AllRows(bytes, b.pos, |b.columns|).Got?
    ensures Fetch(bytes, b, m, n).Got?
  {
    FillBlockGot(bytes, b.(block := [], index := 0), m, n);
  }

  // ---- Runs

  datatype Run = Run(fetched: seq<Row>, buffers: Buffers)

  /** Fetches, each with the block size in force at the time. */
  function Fetches(bytes: string, b: Buffers, m: Mutator, sizes: seq<nat>): Read<Run>
    requires Proper(b)
    decreases |sizes|
  {
    if sizes == [] then Got(Run([], b), b.pos)
    else
      var f := Fetch(bytes, b, m, sizes[0]);
      if f.Incomplete? then Incomplete
      else
        var rest := Fetches(bytes, f.value.buffers, m, sizes[1..]);
        if rest.Incomplete? then Incomplete
        else Got(Run([f.value.row] + rest.value.fetched, rest.value.buffers), rest.pos)
  }

  /** The `i`th row of a result, and the empty row for ever behind the last one. */
  function Delivered(all: seq<Row>, m: Mutator, i: nat): Row {
    if i < |all| then m.updateRow(all[i]) else []
  }

  /** What a run from `b` is to deliver. */
  predicate RunDelivers(run: Run, b: Buffers, all: seq<Row>, m: Mutator, count: nat) {
    && |run.fetched| == count
    && (forall k :: 0 <= k < count ==> run.fetched[k] == Delivered(all, m, b.rows + k))
    && run.buffers.rows == if b.rows + count < |all| then b.rows + count else |all|
  }

  lemma {:induction false} RunStep(f: Fetched, rest: Run, b: Buffers, all: seq<Row>, m: Mutator, count: nat)
    requires RunDelivers(rest, f.buffers, all, m, count)
    requires if b.rows < |all| then f.buffers.rows == b.rows + 1 && f.row == m.updateRow(all[b.rows])
             else f.buffers.rows == b.rows == |all| && f.row == []
    ensures RunDelivers(Run([f.row] + rest.fetched, rest.buffers), b, all, m, count + 1)
  {
    forall k | 0 <= k < count + 1
      ensures ([f.row] + rest.fetched)[k] == Delivered(all, m, b.rows + k)
    {
      if 0 < k {
        assert rest.fetched[k - 1] == Delivered(all, m, f.buffers.rows + (k - 1));
      }
    }
  }

  /** One fetch, seen from the rows of the whole stream. */
  lemma {:induction false} FetchOfAll(
      bytes: string, base: nat, columns: seq<ColumnInfo>, m: Mutator, b: Buffers, d: seq<Row>, n: nat, all: seq<Row>)
    returns (now: seq<Row>)
    requires Sound(bytes, base, columns, m, b, d) && columns != [] && 0 < n
    requires AllRows(bytes, base, |columns|).Got? && all == AllRows(bytes, base, |columns|).value
    ensures Fetch(bytes, b, m, n).Got?
    ensures var f := Fetch(bytes, b, m, n).value;
            && Sound(bytes, base, columns, m, f.buffers, now)
            && if b.rows < |all| then f.buffers.rows == b.rows + 1 && f.row == m.updateRow(all[b.rows])
               else f.buffers.rows == b.rows == |all| && f.row == []
  {
    AllRowsSplit(bytes, base, |columns|, d, b.pos);
    FetchGot(bytes, b, m, n);
    now := FetchSound(bytes, base, columns, m, b, d, n);
    AllRowsSplit(bytes, base, |columns|, now, Fetch(bytes, b, m, n).value.buffers.pos);
  }

  /** A fetch and a run behind it. */
  lemma {:induction false} OneMoreFetch(
      bytes: string, b: Buffers, m: Mutator, sizes: seq<nat>, f: Fetched, rest: Read<Run>, all: seq<Row>)
    requires Proper(b) && sizes != []
    requires Fetch(bytes, b, m, sizes[0]).Got? && f == Fetch(bytes, b, m, sizes[0]).value
    requires Proper(f.buffers) && rest == Fetches(bytes, f.buffers, m, sizes[1..]) && rest.Got?
    requires RunDelivers(rest.value, f.buffers, all, m, |sizes| - 1)
    requires if b.rows < |all| then f.buffers.rows == b.rows + 1 && f.row == m.updateRow(all[b.rows])
             else f.buffers.rows == b.rows == |all| && f.row == []
    ensures var run := Fetches(bytes, b, m, sizes);
            run.Got? && run.value.buffers == rest.value.buffers && RunDelivers(run.value, b, all, m, |sizes|)
  {
    RunStep(f, rest.value, b, all, m, |sizes| - 1);
  }

  /** Any run of fetches, with any block sizes, delivers the rows of the stream in order, each adapted
      once, and then nothing but empty rows; the count of rows is that of the deliveries. */
  lemma {:induction false} FetchesDeliver(
      bytes: string, base: nat, columns: seq<ColumnInfo>, m: Mutator, b: Buffers, d: seq<Row>, sizes: seq<nat>)
    returns (now: seq<Row>)
    requires Sound(bytes, base, columns, m, b, d) && columns != [] && AllRows(bytes, base, |columns|).Got?
    requires forall i :: 0 <= i < |sizes| ==> 0 < sizes[i]
    ensures var run := Fetches(bytes, b, m, sizes);
            && run.Got? && RunDelivers(run.value, b, AllRows(bytes, base, |columns|).value, m, |sizes|)
            && Sound(bytes, base, columns, m, run.value.buffers, now)
    decreases |sizes|
  {
    var all := AllRows(bytes, base, |columns|).value;
    if sizes == [] {
      now := d;
      AllRowsSplit(bytes, base, |columns|, d, b.pos);
    } else {
      assert forall i :: 0 <= i < |sizes[1..]| ==> sizes[1..][i] == sizes[i + 1];
      now := FetchOfAll(bytes, base, columns, m, b, d, sizes[0], all);
      var f := Fetch(bytes, b, m, sizes[0]).value;
      now := FetchesDeliver(bytes, base, columns, m, f.buffers, now, sizes[1..]);
      OneMoreFetch(bytes, b, m, sizes, f, Fetches(bytes, f.buffers, m, sizes[1..]), all);
    }
  }
}
