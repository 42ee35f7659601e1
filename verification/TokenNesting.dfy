/** Where the parentheses of a token sequence are closed. */
module TokenNesting {
  import opened Tokens

  function DepthAfter(d: nat, t: Token): nat
    requires 0 < d
  {
    if t.kind == LPARENT then d + 1 else if t.kind == RPARENT then d - 1 else d
  }

  /** How many tokens it takes for `d` open parentheses to be closed; 0 if they are not. */
  function Closing(ts: seq<Token>, d: nat): (n: nat)
    requires 0 < d
    ensures n <= |ts|
  {
    if ts == [] then 0
    else
      var d1 := DepthAfter(d, ts[0]);
      if d1 == 0 then 1
      else
        var n := Closing(ts[1..], d1);
        if n == 0 then 0 else n + 1
  }

  /** Closing `a + b` parentheses is closing `a` of them and then `b`. */
  lemma {:induction false} ClosingSplit(ts: seq<Token>, a: nat, b: nat)
    requires 0 < a && 0 < b
    ensures var n := Closing(ts, a);
            var m := if n == 0 then 0 else Closing(ts[n..], b);
            Closing(ts, a + b) == if m == 0 then 0 else n + m
  {
    if ts != [] {
      var a1 := DepthAfter(a, ts[0]);
      assert DepthAfter(a + b, ts[0]) == a1 + b;
      if a1 != 0 {
        ClosingSplit(ts[1..], a1, b);
        var n1 := Closing(ts[1..], a1);
        assert n1 != 0 ==> ts[1..][n1..] == ts[n1 + 1..];
      }
    }
  }

  lemma {:induction false} ClosingIsParenthesis(ts: seq<Token>, d: nat)
    requires 0 < d
    ensures var n := Closing(ts, d); n != 0 ==> ts[n - 1].kind == RPARENT
  {
    if ts != [] && DepthAfter(d, ts[0]) != 0 {
      ClosingIsParenthesis(ts[1..], DepthAfter(d, ts[0]));
    }
  }

  /** What closes within the first `k` tokens closes there. */
  lemma {:induction false} ClosingWithin(ts: seq<Token>, k: nat, d: nat)
    requires k <= |ts| && 0 < d && Closing(ts[..k], d) != 0
    ensures Closing(ts, d) == Closing(ts[..k], d)
  {
    assert ts[..k][0] == ts[0] && ts[..k][1..] == ts[1..][..k - 1];
    if DepthAfter(d, ts[0]) != 0 {
      ClosingWithin(ts[1..], k - 1, DepthAfter(d, ts[0]));
    }
  }
}
