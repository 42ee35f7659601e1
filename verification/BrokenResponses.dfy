/** Responses that are cut off, end their header early, or hold lengths that no encoder writes. */
module BrokenResponses {
  import opened ReadHelpers
  import opened TypeParser
  import opened ColumnTypes
  import opened RowBuffers
  import opened BufferedFetch
  import opened WireFormat

  // ---- Lengths

  lemma {:induction false} OctetPadded(bytes: string, zeros: string, i: nat)
    requires forall j :: 0 <= j < |zeros| ==> zeros[j] == '\0'
    ensures Octet(bytes + zeros, i) == Octet(bytes, i)
  {
    if |bytes| <= i < |bytes| + |zeros| {
      assert (bytes + zeros)[i] == zeros[i - |bytes|];
    }
  }

  /** Bytes that are missing behind the end count as zero. */
  lemma {:induction false} SizePadded(bytes: string, p: nat)
    requires p <= |bytes|
    ensures SizeAt(bytes, p) == SizeAt(bytes + "\0\0\0\0", p)
  {
    OctetPadded(bytes, "\0\0\0\0", p);
    OctetPadded(bytes, "\0\0\0\0", p + 1);
    OctetPadded(bytes, "\0\0\0\0", p + 2);
    OctetPadded(bytes, "\0\0\0\0", p + 3);
  }

  /** A length of -1 makes the field null; any other negative length leaves it as it was. */
  lemma {:induction false} NegativeLength(bytes: string, p: nat, n: int, was: Field)
    requires -0x8000_0000 <= n < 0 && Holds(bytes, p, SizeBytes(n))
    ensures StringAt(bytes, p, was) == Got(if n == -1 then Field("", true) else was, p + 4)
  {
    SizeRoundTrip(bytes, p, n);
    HoldsLength(bytes, p, SizeBytes(n));
  }

  // ---- Rows that are cut off

  /** What is left of `x` once `k` characters have been taken from its front. */
  lemma {:induction false} HeldPrefix(bytes: string, p: nat, x: string, k: nat)
    requires k <= |x| && p + k == |bytes| && bytes[p..] == x[..k]
    ensures Holds(bytes, p, x[..k])
  {
    WholeHolds(bytes, p);
  }

  /** A field of which the end is missing is recognised. */
  lemma {:induction false} FieldCut(bytes: string, p: nat, f: Field, was: Field, k: nat)
    requires Sendable(f) && k < |FieldBytes(f)| && p + k == |bytes| && bytes[p..] == FieldBytes(f)[..k]
    ensures StringAt(bytes, p, was).Incomplete?
  {
    if 4 <= k {
      var size := SizeBytes(|f.data|);
      HeldPrefix(bytes, p, FieldBytes(f), k);
      assert FieldBytes(f)[..k] == size + f.data[..k - 4];
      HoldsBoth(bytes, p, size, f.data[..k - 4]);
      SizeRoundTrip(bytes, p, |f.data|);
    }
  }

  /** The first field of a row that is cut off behind it. */
  lemma {:induction false} FieldBeforeCut(bytes: string, p: nat, first: string, rest: string, f: Field, k: nat)
    requires Sendable(f) && first == FieldBytes(f) && |first| <= k <= |first| + |rest|
    requires p + k == |bytes| && bytes[p..] == (first + rest)[..k]
    ensures StringAt(bytes, p, NO_FIELD) == Got(f, p + |first|)
    ensures bytes[p + |first|..] == rest[..k - |first|]
  {
    HeldPrefix(bytes, p, first + rest, k);
    assert (first + rest)[..k] == first + rest[..k - |first|];
    HoldsBoth(bytes, p, first, rest[..k - |first|]);
    FieldRoundTrip(bytes, p, f, NO_FIELD);
    assert bytes[p + |first|..] == bytes[p..][|first|..];
  }

  lemma {:induction false} RowCut(
      bytes: string, p: nat, row: Row, done: Row, n: nat, x: string, k: nat, got: Read<Row>)
    requires SendableRow(row) && x == RowBytes(row) && k < |x| && p + k == |bytes| && bytes[p..] == x[..k]
    requires |done| + |row| == n && got == RowFrom(bytes, p, n, done)
    ensures got.Incomplete?
    decreases |row|
  {
    hide StringAt, FieldBytes;
    var first, rest := FieldBytes(row[0]), RowBytes(row[1..]);
    if k < |first| {
      assert x[..k] == first[..k];
      FieldCut(bytes, p, row[0], NO_FIELD, k);
    } else {
      FieldBeforeCut(bytes, p, first, rest, row[0], k);
      RowStep(bytes, p, n, done, row[0], p + |first|);
      RowCut(bytes, p + |first|, row[1..], done + [row[0]], n, rest, k - |first|, got);
    }
  }

  /** The first `k` bytes of the rows hold whole rows. */
  predicate BetweenRows(rows: seq<Row>, n: nat, k: nat)
    requires SendableRows(rows, n)
    decreases |rows|
  {
    k == 0 || (rows != [] && |RowBytes(rows[0])| <= k && BetweenRows(rows[1..], n, k - |RowBytes(rows[0])|))
  }

  lemma {:induction false} WithinFirst(
      bytes: string, p: nat, row: Row, n: nat, first: string, rest: string, k: nat)
    requires |row| == n && SendableRow(row) && first == RowBytes(row) && k < |first|
    requires p + k == |bytes| && bytes[p..] == (first + rest)[..k]
    ensures RowAt(bytes, p, n).Incomplete?
  {
    assert (first + rest)[..k] == first[..k];
    RowCut(bytes, p, row, [], n, first, k, RowAt(bytes, p, n));
  }

  lemma {:induction false} FirstBeforeCut(bytes: string, p: nat, row: Row, first: string, rest: string, k: nat)
    requires row != [] && SendableRow(row) && first == RowBytes(row) && |first| <= k <= |first| + |rest|
    requires p + k == |bytes| && bytes[p..] == (first + rest)[..k]
    ensures RowAt(bytes, p, |row|) == Got(row, p + |first|) && p < p + |first|
    ensures bytes[p + |first|..] == rest[..k - |first|]
  {
    HeldPrefix(bytes, p, first + rest, k);
    assert (first + rest)[..k] == first + rest[..k - |first|];
    HoldsBoth(bytes, p, first, rest[..k - |first|]);
    FirstRow(bytes, p, row, p + |first|);
    assert bytes[p + |first|..] == bytes[p..][|first|..];
  }

  lemma {:induction false} FirstOfAll(bytes: string, p: nat, n: nat, first: Read<Row>, all: Read<seq<Row>>)
    requires 0 < n && p < |bytes| && first == RowAt(bytes, p, n) && all == AllRows(bytes, p, n)
    ensures all.Got? <==> first.Got? && AllRows(bytes, first.pos, n).Got?
  {
  }

  lemma {:induction false} RowsRest(rows: seq<Row>, n: nat, k: nat)
    requires SendableRows(rows, n) && rows != []
    ensures |rows[0]| == n && SendableRow(rows[0]) && SendableRows(rows[1..], n)
    ensures RowsBytes(rows, n) == RowBytes(rows[0]) + RowsBytes(rows[1..], n)
    ensures 0 < k ==> BetweenRows(rows, n, k)
                        == (|RowBytes(rows[0])| <= k && BetweenRows(rows[1..], n, k - |RowBytes(rows[0])|))
  {
  }

  /** Rows that are cut off are recognised exactly unless the cut is between two rows. */
  lemma {:induction false} RowsCut(
      bytes: string, p: nat, rows: seq<Row>, n: nat, x: string, k: nat, all: Read<seq<Row>>)
    requires 0 < n && SendableRows(rows, n) && x == RowsBytes(rows, n) && k <= |x|
    requires p + k == |bytes| && bytes[p..] == x[..k] && all == AllRows(bytes, p, n)
    ensures all.Got? <==> BetweenRows(rows, n, k)
    decreases |rows|
  {
    hide RowAt, RowBytes;
    if k != 0 {
      RowsRest(rows, n, k);
      var first, rest := RowBytes(rows[0]), RowsBytes(rows[1..], n);
      FirstOfAll(bytes, p, n, RowAt(bytes, p, n), all);
      if k < |first| {
        WithinFirst(bytes, p, rows[0], n, first, rest, k);
      } else {
        FirstBeforeCut(bytes, p, rows[0], first, rest, k);
        RowsCut(bytes, p + |first|, rows[1..], n, rest, k - |first|, AllRows(bytes, p + |first|, n));
      }
    }
  }

  // ---- Headers that end early

  /** Behind header rows that are read to their end the header goes on. */
  lemma {:induction false} HeaderGoesOn(
      bytes: string, p: nat, columns: seq<ColumnInfo>, k: nat, total: nat, unset: Meta, front: Read<Header>,
      all: Read<Header>)
    requires k <= total && front == HeaderFrom(bytes, p, columns, k, unset) && front.Got? && front.value.whole
    requires all == HeaderFrom(bytes, p, columns, total, unset)
    ensures all == HeaderFrom(bytes, front.pos, front.value.columns, total - k, unset)
    decreases k
  {
    hide TitledRow;
    if k != 0 {
      var row := TitledRow(bytes, p, columns, unset);
      HeaderGoesOn(bytes, row.pos, row.value.columns, k - 1, total - 1, unset, front, all);
    }
  }

  lemma {:induction false} EarlyRow(
      bytes: string, p: nat, size: int, columns: seq<ColumnInfo>, left: nat, unset: Meta)
    requires 0 < left && -0x8000_0000 <= size <= 1 && Holds(bytes, p, SizeBytes(size))
    ensures HeaderFrom(bytes, p, columns, left, unset) == Got(Header(columns, false), p + 4)
  {
    SizeRoundTrip(bytes, p, size);
    HoldsLength(bytes, p, SizeBytes(size));
  }

  lemma {:induction false} InitEndsEarly(
      bytes: string, columns: seq<ColumnInfo>, m: Mutator, n: nat, unset: Meta, q: nat)
    requires 4 <= |bytes| && SizeAt(bytes, 0) != 0
    requires HeaderFrom(bytes, 4, [], HeaderRows(SizeAt(bytes, 0)), unset) == Got(Header(columns, false), q)
    ensures Initialised(bytes, 0, m, n, unset) == Got(Buffers(columns, q, [], [], 0, 0), q)
  {
  }

  /** A header row with no cell behind its title ends the header: the columns are those of the rows in
      front of it, unadapted, and no row is fetched.  A negative count of header rows is one that never
      runs out. */
  lemma {:induction false} HeaderEndsEarly(
      bytes: string, lines: seq<Line>, count: int, size: int, m: Mutator, n: nat, unset: Meta, x: string, q: nat)
    requires IsInt32(count) && count != 0 && (0 < count ==> |lines| < count) && |lines| < 0x8000_0000
    requires -0x8000_0000 <= size <= 1
    requires SendableLines(lines) && (forall line <- lines :: LineReadable(line, unset)) && x == LinesBytes(lines)
    requires Holds(bytes, 0, SizeBytes(count)) && Spans(bytes, 4, x, q) && Holds(bytes, q, SizeBytes(size))
    ensures Initialised(bytes, 0, m, n, unset)
         == Got(Buffers(AppliedAll(lines, [], unset), q + 4, [], [], 0, 0), q + 4)
  {
    SizeRoundTrip(bytes, 0, count);
    HoldsLength(bytes, 0, SizeBytes(count));
    HeaderRoundTrip(bytes, 4, lines, [], unset, x, q);
    EarlyBehind(bytes, |lines|, HeaderRows(count), size, unset, AppliedAll(lines, [], unset), q);
    InitEndsEarly(bytes, AppliedAll(lines, [], unset), m, n, unset, q + 4);
  }

  lemma {:induction false} EarlyBehind(
      bytes: string, k: nat, count: nat, size: int, unset: Meta, columns: seq<ColumnInfo>, q: nat)
    requires k < count && -0x8000_0000 <= size <= 1 && Holds(bytes, q, SizeBytes(size))
    requires HeaderFrom(bytes, 4, [], k, unset) == Got(Header(columns, true), q)
    ensures HeaderFrom(bytes, 4, [], count, unset) == Got(Header(columns, false), q + 4)
  {
    HeaderGoesOn(bytes, 4, [], k, count, unset, HeaderFrom(bytes, 4, [], k, unset),
                 HeaderFrom(bytes, 4, [], count, unset));
    EarlyRow(bytes, q, size, columns, count - k, unset);
  }

  /** A response without a header has no columns, and neither has an empty one. */
  lemma {:induction false} NoHeader(bytes: string, m: Mutator, n: nat, unset: Meta)
    requires bytes == "" || Holds(bytes, 0, SizeBytes(0))
    ensures Initialised(bytes, 0, m, n, unset).Got? && Initialised(bytes, 0, m, n, unset).value.columns == []
  {
    if bytes != "" {
      SizeRoundTrip(bytes, 0, 0);
    }
  }

  /** Without columns every fetch hands out the empty row, and nothing is read. */
  lemma {:induction false} NoColumnsNoRows(bytes: string, b: Buffers, m: Mutator, sizes: seq<nat>)
    requires Proper(b) && b.columns == []
    ensures var run := Fetches(bytes, b, m, sizes);
            && run.Got? && run.value.buffers == b && |run.value.fetched| == |sizes|
            && forall k :: 0 <= k < |sizes| ==> run.value.fetched[k] == []
    decreases |sizes|
  {
    if sizes != [] {
      NoColumnsNoRows(bytes, b, m, sizes[1..]);
    }
  }
}
