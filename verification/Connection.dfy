/** A connection's settings and their form as a connection string. */
module Connection {
  import opened Chars
  import opened Decimals
  import opened Utils

  datatype Option<T> = None | Some(value: T)

  /** The fields of a connection that a connection string can set. */
  datatype Settings = Settings(
    dataSource: string, url: string, proto: string, server: string, user: string, password: string,
    database: string, privateKeyFile: string, certificateFile: string, caLocation: string,
    port: int, timeout: int, connectionTimeout: int, stringMaxLength: int, sslStrict: bool)

  /** A new connection. */
  const FRESH := Settings("", "", "", "", "", "", "", "", "", "", 0, 0, 0, 0, false)

  datatype Key =
    | UserKey | PasswordKey | ProtoKey | SslModeKey | UrlKey | ServerKey | PortKey | DatabaseKey | TimeoutKey
    | StringMaxLengthKey | DataSourceKey | PrivateKeyFileKey | CertificateFileKey | CaLocationKey | OtherKey

  function KeyOf(lower: string): Key {
    if lower == "uid" then UserKey
    else if lower == "pwd" then PasswordKey
    else if lower == "proto" then ProtoKey
    else if lower == "sslmode" then SslModeKey
    else if lower == "url" then UrlKey
    else if lower == "host" || lower == "server" then ServerKey
    else if lower == "port" then PortKey
    else if lower == "database" then DatabaseKey
    else if lower == "timeout" then TimeoutKey
    else if lower == "stringmaxlength" then StringMaxLengthKey
    else if lower == "dsn" then DataSourceKey
    else if lower == "privatekeyfile" then PrivateKeyFileKey
    else if lower == "certificatefile" then CertificateFileKey
    else if lower == "calocation" then CaLocationKey
    else OtherKey
  }

  /** The low sixteen bits. */
  function Uint16(n: int): int { n % 0x1_0000 }

  function WithNumber(s: Settings, key: Key, n: int): Settings {
    match key
    case PortKey => s.(port := Uint16(n))
    case TimeoutKey => s.(connectionTimeout := n, timeout := n)
    case StringMaxLengthKey => s.(stringMaxLength := n)
    case _ => s
  }

  predicate IsNumber(key: Key) { key.PortKey? || key.TimeoutKey? || key.StringMaxLengthKey? }

  function WithText(s: Settings, key: Key, value: string): Settings {
    match key
    case UserKey => s.(user := value)
    case PasswordKey => s.(password := value)
    case ProtoKey => s.(proto := value)
    case SslModeKey =>
      if value == "allow" || value == "prefer" then s.(proto := "https")
      else if value == "require" then s.(proto := "https", sslStrict := true)
      else s
    case UrlKey => s.(url := value)
    case ServerKey => s.(server := value)
    case DatabaseKey => s.(database := value)
    case DataSourceKey => s.(dataSource := value)
    case PrivateKeyFileKey => s.(privateKeyFile := value)
    case CertificateFileKey => s.(certificateFile := value)
    case CaLocationKey => s.(caLocation := value)
    case _ => s
  }

  /** One pair; `None` where the source throws because a number cannot be read. */
  function WithPair(s: Settings, key: Key, value: string, parse: string -> Option<int>): Option<Settings> {
    if IsNumber(key) then
      var n := parse(value);
      if n.None? then None else Some(WithNumber(s, key, n.value))
    else Some(WithText(s, key, value))
  }

  /** The settings after the pairs from `p` on. */
  function ReadFrom(text: string, p: nat, s: Settings, parse: string -> Option<int>): Option<Settings>
    requires p <= |text|
    decreases |text| - p
  {
    var pair := NextPair(text, p);
    if pair.NoPair? then Some(s)
    else
      var r := WithPair(s, KeyOf(ToLower(pair.key)), pair.value, parse);
      if r.None? then None else ReadFrom(text, pair.next, r.value, parse)
  }

  // ---- Printing

  /** Pairs as they are printed: key, value, and the rest. */
  datatype Pairs = Done | More(key: string, value: string, rest: Pairs)

  function PairText(key: string, value: string): string { key + "=" + value + ";" }

  function PairsText(pairs: Pairs): string {
    match pairs
    case Done => ""
    case More(key, value, rest) => PairText(key, value) + PairsText(rest)
  }

  function Printed(s: Settings): Pairs
    requires 0 <= s.port
  {
    More("DSN", s.dataSource, More("DATABASE", s.database, More("PROTO", s.proto, More("SERVER", s.server,
      More("PORT", Decimal(s.port), More("UID", s.user,
        if s.password == "" then Done else More("PWD", s.password, Done)))))))
  }

  // ---- The connection

  /** One more pair at the end. */
  lemma {:induction false} AppendPair(ret: string, key: string, value: string, rest: Pairs)
    ensures ret + PairsText(More(key, value, rest)) == (ret + PairText(key, value)) + PairsText(rest)
  {
  }

  class Connection {
    var dataSource: string
    var url: string
    var proto: string
    var server: string
    var user: string
    var password: string
    var database: string
    var privateKeyFile: string
    var certificateFile: string
    var caLocation: string
    var port: int
    var timeout: int
    var connectionTimeout: int
    var stringMaxLength: int
    var sslStrict: bool

    ghost function State(): Settings
      reads this
    {
      Settings(dataSource, url, proto, server, user, password, database, privateKeyFile, certificateFile,
               caLocation, port, timeout, connectionTimeout, stringMaxLength, sslStrict)
    }

    constructor ()
      ensures State() == FRESH
    {
      dataSource, url, proto, server, user, password, database := "", "", "", "", "", "", "";
      privateKeyFile, certificateFile, caLocation := "", "", "";
      port, timeout, connectionTimeout, stringMaxLength, sslStrict := 0, 0, 0, 0, false;
    }

    method ConnectionString() returns (ret: string)
      requires 0 <= port
      ensures ret == PairsText(Printed(State()))
    {
      ghost var all := PairsText(Printed(State()));
      ghost var rest := Printed(State());
      ret := "";
      AppendPair(ret, rest.key, rest.value, rest.rest);
      ret, rest := ret + PairText("DSN", dataSource), rest.rest;
      AppendPair(ret, rest.key, rest.value, rest.rest);
      ret, rest := ret + PairText("DATABASE", database), rest.rest;
      AppendPair(ret, rest.key, rest.value, rest.rest);
      ret, rest := ret + PairText("PROTO", proto), rest.rest;
      AppendPair(ret, rest.key, rest.value, rest.rest);
      ret, rest := ret + PairText("SERVER", server), rest.rest;
      AppendPair(ret, rest.key, rest.value, rest.rest);
      ret, rest := ret + PairText("PORT", Decimal(port)), rest.rest;
      AppendPair(ret, rest.key, rest.value, rest.rest);
      ret, rest := ret + PairText("UID", user), rest.rest;
      assert ret + PairsText(rest) == all;
      if password != "" {
        AppendPair(ret, rest.key, rest.value, rest.rest);
        ret := ret + PairText("PWD", password);
      }
    }

    /** Settings that are numbers. */
    method SetNumber(key: Key, value: string, parse: string -> Option<int>) returns (ok: bool)
      requires IsNumber(key)
      modifies this
      ensures var r := WithPair(old(State()), key, value, parse);
              ok == r.Some? && State() == if ok then r.value else old(State())
    {
      var n := parse(value);
      if n.None? {
        return false;
      }
      if key == PortKey {
        port := Uint16(n.value);
      } else if key == TimeoutKey {
        connectionTimeout, timeout := n.value, n.value;
      } else {
        stringMaxLength := n.value;
      }
      ok := true;
    }

    method SetText(key: Key, value: string)
      requires !IsNumber(key)
      modifies this
      ensures State() == WithText(old(State()), key, value)
    {
      match key {
        case UserKey => user := value;
        case PasswordKey => password := value;
        case ProtoKey => proto := value;
        case SslModeKey =>
          if value == "allow" || value == "prefer" || value == "require" {
            proto := "https";
            if value == "require" {
              sslStrict := true;
            }
          }
        case UrlKey => url := value;
        case ServerKey => server := value;
        case DatabaseKey => database := value;
        case DataSourceKey => dataSource := value;
        case PrivateKeyFileKey => privateKeyFile := value;
        case CertificateFileKey => certificateFile := value;
        case CaLocationKey => caLocation := value;
        case _ =>
      }
    }

    /** The loop of `init` over a connection string; `ok` is false where it throws. */
    method ReadConnectionString(text: string, parse: string -> Option<int>) returns (ok: bool)
      modifies this
      ensures var r := ReadFrom(text, 0, old(State()), parse);
              ok == r.Some? && (ok ==> State() == r.value)
    {
      var pair := NextKeyValuePair(text, 0);
      ghost var p := 0;
      while pair.Pair?
        invariant p <= |text| && pair == NextPair(text, p)
        invariant ReadFrom(text, p, State(), parse) == ReadFrom(text, 0, old(State()), parse)
        decreases |text| - p
      {
        var key := KeyOf(ToLower(pair.key));
        if IsNumber(key) {
          var read := SetNumber(key, pair.value, parse);
          if !read {
            return false;
          }
        } else {
          SetText(key, pair.value);
        }
        p := pair.next;
        pair := NextKeyValuePair(text, pair.next);
      }
      ok := true;
    }
  }
}
