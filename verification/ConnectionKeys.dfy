/** What each key of a connection string sets. */
module ConnectionKeys {
  import opened Chars
  import opened Utils
  import opened Connection
  import opened ConnectionRoundTrip

  /** Reading a text of the one pair `key=value` into `s`; `lower` is the key in lower case. */
  predicate OnePair(text: string, key: string, lower: string, value: string) {
    '=' !in key && ';' !in value && ToLower(key) == lower && text == key + "=" + value
  }

  lemma {:induction false} PairRead(
      text: string, key: string, lower: string, value: string, s: Settings, parse: string -> Option<int>)
    requires OnePair(text, key, lower, value)
    ensures ReadFrom(text, 0, s, parse) == WithPair(s, KeyOf(lower), value, parse)
  {
    var e := |key|;
    assert text[0..e] == key && text[e] == '=' && text[e + 1..] == value;
    IndexFound(text, '=', 0, e);
    NoFurther(text, ';', e + 1, value);
    var pair := Pair(key, value, |text|);
    assert text[e + 1..|text|] == value;
    assert NextPair(text, 0) == pair;
    assert IndexOf(text, '=', |text|) == |text|;
    ReadStep(text, 0, key, value, |text|, s, parse);
  }

  lemma {:induction false} NoFurther(text: string, c: char, p: nat, rest: string)
    requires p <= |text| && text[p..] == rest && c !in rest
    ensures IndexOf(text, c, p) == |text|
    decreases |text| - p
  {
    if p < |text| {
      assert rest[0] == text[p] && rest[1..] == text[p + 1..];
      NoFurther(text, c, p + 1, rest[1..]);
    }
  }

  lemma {:induction false} AccountKeys(
      text: string, key: string, lower: string, value: string, s: Settings, parse: string -> Option<int>)
    requires OnePair(text, key, lower, value)
    ensures lower == "uid" ==> ReadFrom(text, 0, s, parse) == Some(s.(user := value))
    ensures lower == "pwd" ==> ReadFrom(text, 0, s, parse) == Some(s.(password := value))
    ensures lower == "proto" ==> ReadFrom(text, 0, s, parse) == Some(s.(proto := value))
    ensures lower == "url" ==> ReadFrom(text, 0, s, parse) == Some(s.(url := value))
  {
    PairRead(text, key, lower, value, s, parse);
  }

  lemma {:induction false} PlaceKeys(
      text: string, key: string, lower: string, value: string, s: Settings, parse: string -> Option<int>)
    requires OnePair(text, key, lower, value)
    ensures lower == "host" || lower == "server" ==> ReadFrom(text, 0, s, parse) == Some(s.(server := value))
    ensures lower == "database" ==> ReadFrom(text, 0, s, parse) == Some(s.(database := value))
    ensures lower == "dsn" ==> ReadFrom(text, 0, s, parse) == Some(s.(dataSource := value))
  {
    PairRead(text, key, lower, value, s, parse);
  }

  lemma {:induction false} FileKeys(
      text: string, key: string, lower: string, value: string, s: Settings, parse: string -> Option<int>)
    requires OnePair(text, key, lower, value)
    ensures lower == "privatekeyfile" ==> ReadFrom(text, 0, s, parse) == Some(s.(privateKeyFile := value))
    ensures lower == "certificatefile" ==> ReadFrom(text, 0, s, parse) == Some(s.(certificateFile := value))
    ensures lower == "calocation" ==> ReadFrom(text, 0, s, parse) == Some(s.(caLocation := value))
  {
    PairRead(text, key, lower, value, s, parse);
  }

  /** Three modes ask for https, and one of them for strictness; any other changes nothing. */
  lemma {:induction false} SslModes(
      text: string, key: string, lower: string, value: string, s: Settings, parse: string -> Option<int>)
    requires OnePair(text, key, lower, value) && lower == "sslmode"
    ensures ReadFrom(text, 0, s, parse)
         == if value == "require" then Some(s.(proto := "https", sslStrict := true))
            else if value == "allow" || value == "prefer" then Some(s.(proto := "https"))
            else Some(s)
  {
    PairRead(text, key, lower, value, s, parse);
  }

  /** Numbers: the timeout is set twice, the port keeps sixteen bits, and reading stops at what is none. */
  lemma {:induction false} NumberKeys(
      text: string, key: string, lower: string, value: string, s: Settings, parse: string -> Option<int>)
    requires OnePair(text, key, lower, value)
    requires lower == "port" || lower == "timeout" || lower == "stringmaxlength"
    ensures ReadFrom(text, 0, s, parse)
         == match parse(value)
            case None => None
            case Some(n) =>
              if lower == "port" then Some(s.(port := n % 0x1_0000))
              else if lower == "timeout" then Some(s.(connectionTimeout := n, timeout := n))
              else Some(s.(stringMaxLength := n))
  {
    PairRead(text, key, lower, value, s, parse);
  }

  const KEYS := {
    "uid", "pwd", "proto", "sslmode", "url", "host", "server", "port", "database", "timeout", "stringmaxlength",
    "dsn", "privatekeyfile", "certificatefile", "calocation"
  }

  /** Any other key is passed over. */
  lemma {:induction false} OtherKeys(
      text: string, key: string, lower: string, value: string, s: Settings, parse: string -> Option<int>)
    requires OnePair(text, key, lower, value) && lower !in KEYS
    ensures ReadFrom(text, 0, s, parse) == Some(s)
  {
    PairRead(text, key, lower, value, s, parse);
  }
}
