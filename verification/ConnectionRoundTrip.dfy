/** A connection string read back gives the connection it was made from. */
module ConnectionRoundTrip {
  import opened Chars
  import opened Decimals
  import opened Utils
  import opened Connection

  // ---- Reading printed pairs

  predicate ProperPairs(pairs: Pairs) {
    pairs.More? ==> '=' !in pairs.key && ';' !in pairs.value && ProperPairs(pairs.rest)
  }

  function WithPairs(s: Settings, pairs: Pairs, parse: string -> Option<int>): Option<Settings>
    decreases pairs
  {
    match pairs
    case Done => Some(s)
    case More(key, value, rest) =>
      var r := WithPair(s, KeyOf(ToLower(key)), value, parse);
      if r.None? then None else WithPairs(r.value, rest, parse)
  }

  lemma {:induction false} IndexFound(text: string, c: char, p: nat, i: nat)
    requires p <= i < |text| && c !in text[p..i] && text[i] == c
    ensures IndexOf(text, c, p) == i
    decreases i - p
  {
    if p < i {
      assert text[p] == text[p..i][0];
      assert text[p + 1..i] == text[p..i][1..];
      IndexFound(text, c, p + 1, i);
    }
  }

  /** The text behind `p` is `x` up to the first `c`. */
  lemma {:induction false} FoundBehind(text: string, p: nat, x: string, c: char, rest: string)
    requires p <= |text| && text[p..] == x + ([c] + rest) && c !in x
    ensures var i := p + |x|;
            i < |text| && IndexOf(text, c, p) == i && text[p..i] == x && text[i + 1..] == rest
  {
    var i := p + |x|;
    var tail := text[p..];
    assert |text| - p == |x| + 1 + |rest|;
    assert text[p..i] == tail[..|x|] == x;
    assert text[i] == tail[|x|] == c;
    assert text[i + 1..] == tail[|x| + 1..] == rest;
    IndexFound(text, c, p, i);
  }

  lemma {:induction false} PairParts(key: string, value: string, rest: string)
    ensures PairText(key, value) + rest == key + (['='] + (value + ([';'] + rest)))
  {
  }

  lemma {:induction false} PairFound(text: string, p: nat, key: string, value: string, rest: string)
    requires p <= |text| && text[p..] == PairText(key, value) + rest && '=' !in key && ';' !in value
    ensures var q := p + |key| + |value| + 2;
            q <= |text| && text[q..] == rest && NextPair(text, p) == Pair(key, value, q)
  {
    PairParts(key, value, rest);
    FoundBehind(text, p, key, '=', value + ([';'] + rest));
    FoundBehind(text, p + |key| + 1, value, ';', rest);
  }

  lemma {:induction false} ReadStep(
      text: string, p: nat, key: string, value: string, q: nat, s: Settings, parse: string -> Option<int>)
    requires p <= |text| && NextPair(text, p) == Pair(key, value, q)
    ensures var r := WithPair(s, KeyOf(ToLower(key)), value, parse);
            ReadFrom(text, p, s, parse) == if r.None? then None else ReadFrom(text, q, r.value, parse)
  {
  }

  /** Reading one printed pair. */
  lemma {:induction false} ReadOne(
      text: string, p: nat, key: string, value: string, rest: string, s: Settings, parse: string -> Option<int>)
    returns (q: nat)
    requires p <= |text| && text[p..] == PairText(key, value) + rest && '=' !in key && ';' !in value
    ensures q <= |text| && text[q..] == rest
    ensures var r := WithPair(s, KeyOf(ToLower(key)), value, parse);
            ReadFrom(text, p, s, parse) == if r.None? then None else ReadFrom(text, q, r.value, parse)
  {
    PairFound(text, p, key, value, rest);
    q := p + |key| + |value| + 2;
    ReadStep(text, p, key, value, q, s, parse);
  }

  lemma {:induction false} ReadPairs(
      text: string, p: nat, pairs: Pairs, s: Settings, parse: string -> Option<int>, x: string, all: Option<Settings>)
    requires p <= |text| && text[p..] == x == PairsText(pairs) && ProperPairs(pairs)
    requires all == ReadFrom(text, p, s, parse)
    ensures all == WithPairs(s, pairs, parse)
    decreases pairs
  {
    match pairs
    case Done =>
      NextPairShape(text, p);
    case More(key, value, rest) =>
      var q := ReadOne(text, p, key, value, PairsText(rest), s, parse);
      var r := WithPair(s, KeyOf(ToLower(key)), value, parse);
      if r.Some? {
        ReadPairs(text, q, rest, r.value, parse, PairsText(rest), all);
      }
  }

  /** The pairs in the order in which they are printed; an empty password is left out. */
  lemma {:induction false} PrintedText(s: Settings, end: string)
    requires 0 <= s.port && end == if s.password == "" then "" else PairText("PWD", s.password)
    ensures PairsText(Printed(s))
         == PairText("DSN", s.dataSource) + (PairText("DATABASE", s.database) + (PairText("PROTO", s.proto)
            + (PairText("SERVER", s.server) + (PairText("PORT", Decimal(s.port)) + (PairText("UID", s.user) + end)))))
  {
    var password := if s.password == "" then Done else More("PWD", s.password, Done);
    assert PairsText(password) == end by {
      assert end + "" == end;
    }
    assert PairsText(More("UID", s.user, password)) == PairText("UID", s.user) + end;
    var port := More("PORT", Decimal(s.port), More("UID", s.user, password));
    assert PairsText(port) == PairText("PORT", Decimal(s.port)) + (PairText("UID", s.user) + end);
    var proto := More("PROTO", s.proto, More("SERVER", s.server, port));
    assert PairsText(proto) == PairText("PROTO", s.proto) + (PairText("SERVER", s.server) + PairsText(port));
  }

  // ---- Values that can be printed

  /** No text that is printed holds a semicolon. */
  predicate NoSemicolons(s: Settings) {
    && ';' !in s.dataSource && ';' !in s.database && ';' !in s.proto && ';' !in s.server
    && ';' !in s.user && ';' !in s.password
  }

  predicate Recovers(r: Option<Settings>, s: Settings) {
    && r.Some?
    && r.value.dataSource == s.dataSource && r.value.database == s.database && r.value.proto == s.proto
    && r.value.server == s.server && r.value.user == s.user && r.value.password == s.password
    && r.value.port == s.port
  }

  lemma {:induction false} PrintedKeys()
    ensures KeyOf(ToLower("DSN")) == DataSourceKey && KeyOf(ToLower("DATABASE")) == DatabaseKey
    ensures KeyOf(ToLower("PROTO")) == ProtoKey && KeyOf(ToLower("SERVER")) == ServerKey
    ensures KeyOf(ToLower("PORT")) == PortKey && KeyOf(ToLower("UID")) == UserKey
    ensures KeyOf(ToLower("PWD")) == PasswordKey
  {
    assert ToLower("DSN") == "dsn";
    assert ToLower("DATABASE") == "database";
    assert ToLower("PROTO") == "proto";
    assert ToLower("SERVER") == "server";
    assert ToLower("PORT") == "port";
    assert ToLower("UID") == "uid";
    assert ToLower("PWD") == "pwd";
  }

  lemma {:induction false} NumeralClean(n: nat)
    ensures ';' !in Decimal(n)
  {
    assert forall c <- Decimal(n) :: IsDigit(c);
  }

  /** What reading the printed pairs into a new connection yields, from the port on. */
  lemma {:induction false} PrintedEnd(s: Settings, before: Settings, parse: string -> Option<int>)
    requires 0 <= s.port < 0x1_0000 && parse(Decimal(s.port)) == Some(s.port) && before.password == ""
    ensures WithPairs(before, Printed(s).rest.rest.rest.rest, parse)
         == Some(before.(port := s.port, user := s.user, password := s.password))
  {
    PortRead(s, before, parse);
    PrintedUser(s, before.(port := s.port), parse);
  }

  lemma {:induction false} PortRead(s: Settings, before: Settings, parse: string -> Option<int>)
    requires 0 <= s.port < 0x1_0000 && parse(Decimal(s.port)) == Some(s.port)
    ensures WithPair(before, KeyOf(ToLower("PORT")), Decimal(s.port), parse) == Some(before.(port := s.port))
  {
    PrintedKeys();
  }

  /** The same from the user on. */
  lemma {:induction false} PrintedUser(s: Settings, before: Settings, parse: string -> Option<int>)
    requires 0 <= s.port && before.password == ""
    ensures WithPairs(before, Printed(s).rest.rest.rest.rest.rest, parse)
         == Some(before.(user := s.user, password := s.password))
  {
    PrintedKeys();
    var s6 := before.(user := s.user);
    assert WithPairs(s6, Printed(s).rest.rest.rest.rest.rest.rest, parse) == Some(s6.(password := s.password));
  }

  lemma {:induction false} PrintedPairs(s: Settings, parse: string -> Option<int>)
    requires 0 <= s.port < 0x1_0000 && parse(Decimal(s.port)) == Some(s.port)
    ensures Recovers(WithPairs(FRESH, Printed(s), parse), s)
  {
    PrintedKeys();
    var s1 := FRESH.(dataSource := s.dataSource);
    var s2 := s1.(database := s.database);
    var s3 := s2.(proto := s.proto);
    var s4 := s3.(server := s.server);
    var p1 := Printed(s).rest;
    PrintedEnd(s, s4, parse);
    assert WithPairs(s2, p1.rest, parse) == WithPairs(s4, p1.rest.rest.rest, parse);
    assert WithPairs(FRESH, Printed(s), parse) == WithPairs(s2, p1.rest, parse);
  }

  lemma {:induction false} WithPairClean(s: Settings, key: Key, value: string, parse: string -> Option<int>)
    requires NoSemicolons(s) && ';' !in value && WithPair(s, key, value, parse).Some?
    ensures NoSemicolons(WithPair(s, key, value, parse).value)
  {
    assert ';' !in "https";
  }

  /** No setting that was read holds a semicolon. */
  lemma {:induction false} ReadClean(text: string, p: nat, s: Settings, parse: string -> Option<int>)
    requires p <= |text| && NoSemicolons(s) && ReadFrom(text, p, s, parse).Some?
    ensures NoSemicolons(ReadFrom(text, p, s, parse).value)
    decreases |text| - p
  {
    var pair := NextPair(text, p);
    if pair.Pair? {
      NextPairShape(text, p);
      var r := WithPair(s, KeyOf(ToLower(pair.key)), pair.value, parse);
      WithPairClean(s, KeyOf(ToLower(pair.key)), pair.value, parse);
      ReadClean(text, pair.next, r.value, parse);
    }
  }

  /** Reading back the connection string of a connection recovers its settings exactly if no value
      holds a semicolon, whatever other characters they hold. */
  lemma {:induction false} ConnectionStringRoundTrips(s: Settings, parse: string -> Option<int>)
    requires 0 <= s.port < 0x1_0000 && parse(Decimal(s.port)) == Some(s.port)
    ensures Recovers(ReadFrom(PairsText(Printed(s)), 0, FRESH, parse), s) <==> NoSemicolons(s)
  {
    var text := PairsText(Printed(s));
    var r := ReadFrom(text, 0, FRESH, parse);
    if NoSemicolons(s) {
      assert text[0..] == text;
      PrintedProper(s);
      ReadPairs(text, 0, Printed(s), FRESH, parse, text, r);
      PrintedPairs(s, parse);
    } else if r.Some? {
      ReadClean(text, 0, FRESH, parse);
    }
  }

  lemma {:induction false} PrintedProper(s: Settings)
    requires 0 <= s.port && NoSemicolons(s)
    ensures ProperPairs(Printed(s))
  {
    NumeralClean(s.port);
    var p1 := Printed(s).rest;
    var p3 := p1.rest.rest;
    var p5 := p3.rest.rest;
    assert ProperPairs(p5);
    assert ProperPairs(p3);
    assert ProperPairs(p1);
  }
}
