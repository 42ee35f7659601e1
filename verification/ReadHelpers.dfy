/** Reading lengths and length-prefixed strings from a stream of bytes.

    A byte is a character below 256; the host is little-endian. */
module ReadHelpers {

  /** What reading yields: the value and the position behind it, or the "Incomplete result" exception. */
  datatype Read<T> = Got(value: T, pos: nat) | Incomplete

  datatype Field = Field(data: string, isNull: bool)

  const NO_FIELD := Field("", false)

  // ---- What is on the wire

  /** A length is made of the low eight bits of four characters. */
  function Octet(s: string, i: nat): (u: int)
    ensures 0 <= u < 0x100
  {
    if i < |s| then s[i] as int % 0x100 else 0
  }

  predicate IsInt32(n: int) { -0x8000_0000 <= n < 0x8000_0000 }

  function Int32(u: int): int {
    if u < 0x8000_0000 then u else u - 0x1_0000_0000
  }

  /** The signed length at `p`; bytes missing at the end count as zero. */
  function SizeAt(bytes: string, p: nat): (n: int)
    ensures IsInt32(n)
  {
    Int32(Octet(bytes, p) + 0x100 * Octet(bytes, p + 1) + 0x1_0000 * Octet(bytes, p + 2)
          + 0x100_0000 * Octet(bytes, p + 3))
  }

  /** The string at `p`, read into a field that holds `was`: a length of -1 stands for null, and any
      other negative length leaves the field alone. */
  function StringAt(bytes: string, p: nat, was: Field): (r: Read<Field>)
    ensures r.Got? ==> p + 4 <= r.pos <= |bytes|
  {
    if |bytes| < p + 4 then Incomplete
    else
      var size := SizeAt(bytes, p);
      if 0 <= size then
        if |bytes| < p + 4 + size then Incomplete
        else Got(Field(bytes[p + 4..p + 4 + size], was.isNull), p + 4 + size)
      else Got(if size == -1 then Field("", true) else was, p + 4)
  }

  // ---- How it is read

  /** `std::istream` as far as it is used here. */
  class InputStream {
    const bytes: string
    var pos: nat
    var good: bool

    ghost predicate Valid()
      reads this
    {
      pos <= |bytes| && (good || pos == |bytes|)
    }

    constructor (bytes: string)
      ensures Valid() && this.bytes == bytes && pos == 0 && good
    {
      this.bytes := bytes;
      pos := 0;
      good := true;
    }

    /** Looking at the end of the stream spoils it. */
    method AtEnd() returns (eof: bool)
      requires Valid()
      modifies this
      ensures Valid() && pos == old(pos) && eof == (pos == |bytes|) && good == (old(good) && !eof)
    {
      eof := !good || pos == |bytes|;
      if eof {
        good := false;
      }
    }

    /** Reads `n` bytes, or what is left and spoils the stream. */
    method Take(n: nat) returns (chunk: string)
      requires Valid()
      modifies this
      ensures pos == if old(pos) + n <= |bytes| then old(pos) + n else |bytes|
      ensures Valid() && chunk == bytes[old(pos)..pos]
      ensures good == (old(good) && old(pos) + n <= |bytes|)
    {
      if !good {
        return "";
      }
      if pos + n <= |bytes| {
        chunk := bytes[pos..pos + n];
        pos := pos + n;
      } else {
        chunk := bytes[pos..];
        pos := |bytes|;
        good := false;
      }
    }

    method ReadSize() returns (size: int)
      requires Valid()
      modifies this
      ensures Valid() && size == SizeAt(bytes, old(pos))
      ensures pos == if old(pos) + 4 <= |bytes| then old(pos) + 4 else |bytes|
      ensures good == (old(good) && old(pos) + 4 <= |bytes|)
    {
      var chunk := Take(4);
      assert forall i: nat :: i < 4 ==> Octet(chunk, i) == Octet(bytes, old(pos) + i);
      size := SizeAt(chunk, 0);
    }

    /** `ok` is false where the source throws. */
    method ReadString(was: Field) returns (ok: bool, field: Field)
      requires Valid()
      modifies this
      ensures Valid()
      ensures var r := StringAt(bytes, old(pos), was);
              if r.Got? then ok && field == r.value && pos == r.pos && good else !ok
    {
      var size := ReadSize();
      field := was;
      if 0 <= size {
        var data := "";
        if 0 < size {
          data := Take(size);
        }
        field := Field(data, was.isNull);
      } else if size == -1 {
        field := Field("", true);
      }
      ok := good;
    }
  }

  // ---- The reference encoder

  /** A value that can be sent: null carries no text. */
  predicate Sendable(f: Field) {
    if f.isNull then f.data == "" else |f.data| < 0x8000_0000
  }

  /** The `i`th byte of a length, the lowest first. */
  function ByteOf(n: int, i: nat): char
    requires IsInt32(n) && i < 4
  {
    var u := if n < 0 then n + 0x1_0000_0000 else n;
    if i == 0 then (u % 0x100) as char
    else if i == 1 then (u / 0x100 % 0x100) as char
    else if i == 2 then (u / 0x1_0000 % 0x100) as char
    else (u / 0x100_0000) as char
  }

  function SizeBytes(n: int): (s: string)
    requires IsInt32(n)
    ensures |s| == 4
  {
    seq(4, i requires 0 <= i < 4 => ByteOf(n, i))
  }

  function FieldBytes(f: Field): string
    requires Sendable(f)
  {
    if f.isNull then SizeBytes(-1) else SizeBytes(|f.data|) + f.data
  }

  /** From `p` on the stream holds `x`. */
  predicate Holds(bytes: string, p: nat, x: string)
    decreases |x|
  {
    if x == "" then p <= |bytes| else p < |bytes| && bytes[p] == x[0] && Holds(bytes, p + 1, x[1..])
  }

  lemma {:induction false} HoldsBoth(bytes: string, p: nat, x: string, y: string)
    requires Holds(bytes, p, x + y)
    ensures Holds(bytes, p, x) && Holds(bytes, p + |x|, y)
    decreases |x|
  {
    if x == "" {
      assert x + y == y;
      HoldsLength(bytes, p, y);
    } else {
      assert (x + y)[1..] == x[1..] + y;
      HoldsBoth(bytes, p + 1, x[1..], y);
    }
  }

  lemma {:induction false} HoldsLength(bytes: string, p: nat, x: string)
    requires Holds(bytes, p, x)
    ensures p + |x| <= |bytes| && bytes[p..p + |x|] == x
    decreases |x|
  {
    if x != "" {
      HoldsLength(bytes, p + 1, x[1..]);
      assert bytes[p..p + |x|] == [bytes[p]] + bytes[p + 1..p + |x|];
    }
  }

  lemma {:induction false} WholeHolds(bytes: string, p: nat)
    requires p <= |bytes|
    ensures Holds(bytes, p, bytes[p..])
    decreases |bytes| - p
  {
    if p < |bytes| {
      assert bytes[p..][1..] == bytes[p + 1..];
      WholeHolds(bytes, p + 1);
    }
  }

  lemma {:induction false} HoldsAt(bytes: string, p: nat, x: string, i: nat)
    requires Holds(bytes, p, x) && i < |x|
    ensures p + i < |bytes| && bytes[p + i] == x[i]
  {
    HoldsLength(bytes, p, x);
    assert bytes[p..p + |x|][i] == bytes[p + i];
  }

  lemma {:induction false} OctetsOf(u: nat)
    requires u < 0x1_0000_0000
    ensures u % 0x100 + 0x100 * (u / 0x100 % 0x100) + 0x1_0000 * (u / 0x1_0000 % 0x100)
            + 0x100_0000 * (u / 0x100_0000) == u
  {
    var a, b, c := u / 0x100, u / 0x1_0000, u / 0x100_0000;
    assert a / 0x100 == b && b / 0x100 == c;
  }

  lemma {:induction false} SizeBytesValue(n: int)
    requires IsInt32(n)
    ensures n == Int32(ByteOf(n, 0) as int + 0x100 * ByteOf(n, 1) as int + 0x1_0000 * ByteOf(n, 2) as int
                       + 0x100_0000 * ByteOf(n, 3) as int)
  {
    OctetsOf(if n < 0 then n + 0x1_0000_0000 else n);
  }

  lemma {:induction false} OctetHeld(bytes: string, p: nat, n: int, i: nat)
    requires IsInt32(n) && Holds(bytes, p, SizeBytes(n)) && i < 4
    ensures Octet(bytes, p + i) == ByteOf(n, i) as int
  {
    HoldsAt(bytes, p, SizeBytes(n), i);
  }

  lemma {:induction false} SizeRoundTrip(bytes: string, p: nat, n: int)
    requires IsInt32(n) && Holds(bytes, p, SizeBytes(n))
    ensures SizeAt(bytes, p) == n
  {
    SizeBytesValue(n);
    OctetHeld(bytes, p, n, 0);
    OctetHeld(bytes, p, n, 1);
    OctetHeld(bytes, p, n, 2);
    OctetHeld(bytes, p, n, 3);
  }

  /** A field that is not null already takes the value that was sent. */
  lemma {:induction false} FieldRoundTrip(bytes: string, p: nat, f: Field, was: Field)
    requires Sendable(f) && Holds(bytes, p, FieldBytes(f)) && !was.isNull
    ensures StringAt(bytes, p, was) == Got(f, p + |FieldBytes(f)|)
  {
    if f.isNull {
      SizeRoundTrip(bytes, p, -1);
      HoldsLength(bytes, p, SizeBytes(-1));
    } else {
      HoldsBoth(bytes, p, SizeBytes(|f.data|), f.data);
      SizeRoundTrip(bytes, p, |f.data|);
      HoldsLength(bytes, p + 4, f.data);
    }
  }
}
