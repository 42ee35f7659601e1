/** Copying strings into the application's buffers, and cutting `key=value;` pairs out of a text. */
module Utils {

  // ---- fillOutputStringImpl

  datatype ReturnCode = Success | SuccessWithInfo | Error

  /** A character of the output encoding, as its `w` bytes. */
  type Symbol = string

  predicate AllWide(value: seq<Symbol>, w: nat) {
    forall i :: 0 <= i < |value| ==> |value[i]| == w
  }

  function Joined(value: seq<Symbol>): string {
    if value == [] then "" else Joined(value[..|value| - 1]) + value[|value| - 1]
  }

  function Zeros(w: nat): (z: Symbol)
    ensures |z| == w && forall i :: 0 <= i < w ==> z[i] == '\0'
  {
    seq(w, _ => '\0')
  }

  /** The string and the terminator behind it in memory. */
  function Terminated(value: seq<Symbol>, w: nat): string {
    Joined(value) + Zeros(w)
  }

  lemma {:induction false} JoinedLength(value: seq<Symbol>, w: nat)
    requires AllWide(value, w)
    ensures |Joined(value)| == |value| * w
  {
    if value != [] {
      var front, last := value[..|value| - 1], value[|value| - 1];
      JoinedLength(front, w);
      assert |value| * w == |front| * w + w;
    }
  }

  lemma {:induction false} JoinedPrefix(value: seq<Symbol>, w: nat, k: nat)
    requires AllWide(value, w) && k <= |value|
    ensures k * w <= |Joined(value)| && Joined(value)[..k * w] == Joined(value[..k])
  {
    JoinedLength(value, w);
    if k == |value| {
      assert value[..k] == value;
    } else {
      var front := value[..|value| - 1];
      JoinedPrefix(front, w, k);
      assert front[..k] == value[..k];
      assert Joined(value)[..k * w] == Joined(front)[..k * w];
    }
  }

  /** The limit in bytes. */
  function ByteLimit(maxLength: nat, w: nat, lengthInBytes: bool): nat {
    if lengthInBytes then maxLength else maxLength * w
  }

  /** How many characters of the string get into a buffer of `b` bytes. */
  function Fitting(value: seq<Symbol>, w: nat, b: nat): nat
    requires 0 < w <= b
  {
    if (|value| + 1) * w <= b then |value| else b / w - 1
  }

  lemma {:induction false} WholeSymbols(b: nat, w: nat)
    requires 0 < w <= b
    ensures 1 <= b / w && (b / w) * w <= b < (b / w) * w + w
    ensures (b / w - 1) * w == (b / w) * w - w
  {
    assert b == (b / w) * w + b % w;
  }

  /** All characters get in exactly if they fit with a terminator; otherwise as many do as fit with one. */
  lemma {:induction false} FittingBound(value: seq<Symbol>, w: nat, b: nat)
    requires 0 < w <= b
    ensures var k := Fitting(value, w, b); k <= |value| && (k + 1) * w <= b && k * w + w == (k + 1) * w
    ensures Fitting(value, w, b) == |value| <==> (|value| + 1) * w <= b
    ensures Fitting(value, w, b) < |value| ==> b < (Fitting(value, w, b) + 2) * w
  {
    WholeSymbols(b, w);
    if |value| + 1 <= b / w {
      assert (|value| + 1) * w <= (b / w) * w;
    } else if b < (|value| + 1) * w {
      assert (b / w + 1) * w == (b / w) * w + w;
    }
  }

  /** A limit of the reported length and one character more is enough. */
  lemma {:induction false} ReportedLengthSuffices(value: seq<Symbol>, w: nat, lengthInBytes: bool)
    requires 0 < w && AllWide(value, w)
    ensures var limit := if lengthInBytes then |Joined(value)| + w else |value| + 1;
            (|value| + 1) * w == ByteLimit(limit, w, lengthInBytes)
  {
    JoinedLength(value, w);
    assert (|value| + 1) * w == |value| * w + w;
  }

  /** `memcpy`. */
  method CopyBytes(out: array<char>, data: string, n: nat)
    requires n <= |data| && n <= out.Length
    modifies out
    ensures out[..] == data[..n] + old(out[..])[n..]
  {
    forall i | 0 <= i < n {
      out[i] := data[i];
    }
  }

  /** Writes a terminator as the character with index `k`. */
  method Terminate(out: array<char>, k: nat, w: nat)
    requires k * w + w <= out.Length && 0 <= k * w
    modifies out
    ensures out[..] == old(out[..])[..k * w] + Zeros(w) + old(out[..])[k * w + w..]
  {
    var at := k * w;
    forall i | at <= i < at + w {
      out[i] := '\0';
    }
  }

  /** The buffer gets the characters that fit and a terminator, and nothing behind that changes. */
  method FillOutputString(
      value: seq<Symbol>, w: nat, out: array?<char>, maxLength: int, lengthInBytes: bool)
    returns (code: ReturnCode, length: nat)
    requires 0 < w && AllWide(value, w)
    requires out != null && 0 <= maxLength ==> ByteLimit(maxLength, w, lengthInBytes) <= out.Length
    modifies out
    ensures length == if lengthInBytes then |Joined(value)| else |value|
    ensures code == if maxLength < 0 then Error
                    else if out == null || (|value| + 1) * w <= ByteLimit(maxLength, w, lengthInBytes) then Success
                    else SuccessWithInfo
    ensures out != null && (maxLength < 0 || ByteLimit(maxLength, w, lengthInBytes) < w) ==> out[..] == old(out[..])
    ensures out != null && 0 <= maxLength && w <= ByteLimit(maxLength, w, lengthInBytes) ==>
              var b := ByteLimit(maxLength, w, lengthInBytes);
              var k := if (|value| + 1) * w <= b then |value| else b / w - 1;
              && 0 <= k <= |value| && (k + 1) * w <= b <= out.Length && k == Fitting(value, w, b)
              && out[..] == Terminated(value[..k], w) + old(out[..])[(k + 1) * w..]
  {
    JoinedLength(value, w);
    length := if lengthInBytes then |value| * w else |value|;
    if maxLength < 0 {
      return Error, length;
    }
    if out == null {
      return Success, length;
    }
    var b := ByteLimit(maxLength, w, lengthInBytes);
    ghost var before := out[..];
    if (|value| + 1) * w <= b {
      assert (|value| + 1) * w == |value| * w + w;
      assert 0 < (|value| + 1) * w;
      assert w <= b by { assert 0 <= |value| * w; }
      CopyBytes(out, Terminated(value, w), |value| * w + w);
      assert value[..|value|] == value;
      return Success, length;
    }
    if w <= b {
      FillTruncated(value, w, out, b);
    } else {
      assert b < w;
    }
    code := SuccessWithInfo;
  }

  /** The branch for a buffer that is too small for the whole string. */
  method FillTruncated(value: seq<Symbol>, w: nat, out: array<char>, b: nat)
    requires 0 < w <= b <= out.Length && AllWide(value, w) && b < (|value| + 1) * w
    modifies out
    ensures var k := b / w - 1;
            && 0 <= k <= |value| && (k + 1) * w <= b
            && out[..] == Terminated(value[..k], w) + old(out[..])[(k + 1) * w..]
  {
    ghost var before := out[..];
    WholeSymbols(b, w);
    FittingBound(value, w, b);
    JoinedLength(value, w);
    assert (|value| + 1) * w == |value| * w + w;
    var k := b / w - 1;
    CopyBytes(out, Joined(value), b - w);
    JoinedPrefix(value, w, k);
    ghost var copied := out[..];
    Terminate(out, k, w);
    assert k * w <= b - w < k * w + w;
    assert copied[..k * w] == Joined(value)[..k * w];
    assert copied[k * w + w..] == before[k * w + w..];
  }

  // ---- nextKeyValuePair

  /** `memchr` from `p` on; the length of the text if there is no such character. */
  function IndexOf(text: string, c: char, p: nat): (i: nat)
    requires p <= |text|
    ensures p <= i <= |text| && c !in text[p..i] && (i < |text| ==> text[i] == c)
    decreases |text| - p
  {
    if p == |text| then p
    else if text[p] == c then p
    else
      var i := IndexOf(text, c, p + 1);
      assert text[p..i] == [text[p]] + text[p + 1..i];
      i
  }

  datatype Pair = NoPair | Pair(key: string, value: string, next: nat)

  /** The pair at `p`: the key ends at the first `=`, the value at the first `;` behind it or at the
      end of the text. */
  function NextPair(text: string, p: nat): (r: Pair)
    requires p <= |text|
    ensures r.Pair? ==> p < r.next <= |text|
  {
    var e := IndexOf(text, '=', p);
    if e == |text| then NoPair
    else
      var v := IndexOf(text, ';', e + 1);
      Pair(text[p..e], text[e + 1..v], if v < |text| then v + 1 else v)
  }

  lemma {:induction false} Around(text: string, p: nat, e: nat, v: nat)
    requires p <= e < v <= |text| && text[e] == '='
    ensures text[p..v] == text[p..e] + "=" + text[e + 1..v]
  {
  }

  /** A pair consumes itself and the semicolon behind it, if there is one; there is none exactly if no
      `=` follows. */
  lemma {:induction false} NextPairShape(text: string, p: nat)
    requires p <= |text|
    ensures var r := NextPair(text, p);
            match r
            case NoPair => '=' !in text[p..]
            case Pair(key, value, next) =>
              && '=' !in key && ';' !in value && '=' in text[p..]
              && (text[p..next] == key + "=" + value + ";"
                  || (next == |text| && text[p..next] == key + "=" + value))
  {
    var e := IndexOf(text, '=', p);
    if e == |text| {
      assert text[p..e] == text[p..];
    } else {
      var v := IndexOf(text, ';', e + 1);
      assert text[p..][e - p] == '=';
      Around(text, p, e, v);
      if v < |text| {
        assert text[p..v + 1] == text[p..v] + ";";
      }
    }
  }

  method NextKeyValuePair(text: string, data: nat) returns (r: Pair)
    requires data <= |text|
    ensures r == NextPair(text, data)
  {
    if data == |text| {
      return NoPair;
    }
    var keyEnd := IndexOf(text, '=', data);
    if keyEnd == |text| {
      return NoPair;
    }
    var valueBegin := keyEnd + 1;
    var valueEnd;
    if valueBegin == |text| {
      valueEnd := valueBegin;
    } else {
      valueEnd := IndexOf(text, ';', valueBegin);
    }
    var next := valueEnd;
    if valueEnd < |text| {
      next := valueEnd + 1;
    }
    r := Pair(text[data..keyEnd], text[valueBegin..valueEnd], next);
  }
}
