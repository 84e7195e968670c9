/** The flagfile the server is started with, and the reading of its text line by line, each split at its first "=". */
module ServerConfig {
  import opened Machines
  import opened Strings
  import opened Sorting

  /** The part of a SereneDB spec the flagfile is made from; zero numbers and empty strings are unset. */
  datatype Spec = Spec(
    port: nat, sslMode: string, httpEnabled: bool, httpPort: nat, corsOrigins: string,
    tls: bool, minVersion: string, logLevel: string,
    maxConnections: int, cpuThreads: int, ioThreads: int, backgroundThreads: int, maxMessageBytes: int,
    authTimeout: string, idleSessionTimeout: string, hba: string, extraFlags: seq<string>)

  datatype Flag =
    | Listen | LogStorage | LogLevel | MaxConnections | CpuThreads | IoThreads | BackgroundThreads
    | AuthTimeout | IdleSessionTimeout | MaxMessageBytes | CorsOrigins | TlsCert | TlsKey | TlsMinVersion | HbaConfig

  function FlagName(flag: Flag): string
  {
    match flag
    case Listen => "--listen"
    case LogStorage => "--log_storage"
    case LogLevel => "--log_level"
    case MaxConnections => "--max_connections"
    case CpuThreads => "--cpu_threads"
    case IoThreads => "--io_threads"
    case BackgroundThreads => "--background_threads"
    case AuthTimeout => "--auth_timeout"
    case IdleSessionTimeout => "--idle_session_timeout"
    case MaxMessageBytes => "--pg_max_message_bytes"
    case CorsOrigins => "--http_cors_origins"
    case TlsCert => "--tls_cert"
    case TlsKey => "--tls_key"
    case TlsMinVersion => "--tls_min_version"
    case HbaConfig => "--hba_config"
  }

  function FlagOf(name: string): Option<Flag>
  {
    if name == "--listen" then Some(Listen)
    else if name == "--log_storage" then Some(LogStorage)
    else if name == "--log_level" then Some(LogLevel)
    else if name == "--max_connections" then Some(MaxConnections)
    else if name == "--cpu_threads" then Some(CpuThreads)
    else if name == "--io_threads" then Some(IoThreads)
    else if name == "--background_threads" then Some(BackgroundThreads)
    else if name == "--auth_timeout" then Some(AuthTimeout)
    else if name == "--idle_session_timeout" then Some(IdleSessionTimeout)
    else if name == "--pg_max_message_bytes" then Some(MaxMessageBytes)
    else if name == "--http_cors_origins" then Some(CorsOrigins)
    else if name == "--tls_cert" then Some(TlsCert)
    else if name == "--tls_key" then Some(TlsKey)
    else if name == "--tls_min_version" then Some(TlsMinVersion)
    else if name == "--hba_config" then Some(HbaConfig)
    else None
  }

  lemma FlagNamesRead(flag: Flag)
    ensures FlagOf(FlagName(flag)) == Some(flag)
  {
  }

  lemma FlagNamesHaveNoEquals(flag: Flag)
    ensures '=' !in FlagName(flag)
  {
  }

  lemma FlagNamesHaveNoNewline(flag: Flag)
    ensures '\n' !in FlagName(flag)
  {
  }

  // Defaults and the listeners.

  function OrDefault(value: string, fallback: string): string
  {
    if value != "" then value else fallback
  }

  function PostgresPort(spec: Spec): nat
  {
    if spec.port != 0 then spec.port else 7890
  }

  function HttpPort(spec: Spec): nat
  {
    if spec.httpPort != 0 then spec.httpPort else 9200
  }

  const HOST := "://0.0.0.0:"

  datatype Listener = Listener(scheme: string, port: nat, query: string)

  function Address(scheme: string, port: nat): string
  {
    scheme + HOST + Decimal(port)
  }

  function ListenerText(l: Listener): string
  {
    Address(l.scheme, l.port) + QueryText(l.query)
  }

  function QueryText(query: string): string
  {
    if query == "" then "" else "?" + query
  }

  function ListText(first: Listener, second: Option<Listener>): string
  {
    if second.None? then ListenerText(first) else ListenerText(first) + "," + ListenerText(second.value)
  }

  function Postgres(spec: Spec): Listener
  {
    Listener("postgres", PostgresPort(spec), if spec.sslMode == "" then "" else "sslmode=" + spec.sslMode)
  }

  function Http(spec: Spec): Option<Listener>
  {
    if spec.httpEnabled then Some(Listener(if spec.tls then "https" else "http", HttpPort(spec), "api=es")) else None
  }

  function ListenValue(spec: Spec): string
  {
    ListText(Postgres(spec), Http(spec))
  }

  method ListenText(spec: Spec) returns (value: string)
    ensures value == ListenValue(spec)
  {
    value := Address("postgres", PostgresPort(spec));
    if spec.sslMode != "" {
      value := value + "?" + "sslmode=" + spec.sslMode;
    }
    assert value == ListenerText(Postgres(spec));
    if !spec.httpEnabled {
      return;
    }
    var scheme := "http";
    if spec.tls {
      scheme := "https";
    }
    value := value + "," + (Address(scheme, HttpPort(spec)) + "?" + "api=es");
  }

  function ReadListener(s: string): Option<Listener>
  {
    var n := Until(s, ':');
    if |s| < n + |HOST| || s[n..][..|HOST|] != HOST then None
    else
      var rest := s[n..][|HOST|..];
      var m := Until(rest, '?');
      Some(Listener(s[..n], DecimalValue(rest[..m]), if m < |rest| then rest[m + 1..] else ""))
  }

  function ReadListeners(s: string): (listeners: seq<Option<Listener>>)
    ensures listeners != []
    decreases |s|
  {
    var n := Until(s, ',');
    [ReadListener(s[..n])] + if n == |s| then [] else ReadListeners(s[n + 1..])
  }

  lemma TailReads(port: nat, query: string)
    ensures var tail := Decimal(port) + QueryText(query);
            var m := Until(tail, '?');
            DecimalValue(tail[..m]) == port && (if m < |tail| then tail[m + 1..] else "") == query
  {
    DecimalReads(port);
    UntilOf(Decimal(port), '?', QueryText(query));
  }

  lemma ListenerSplits(l: Listener)
    ensures ListenerText(l) == l.scheme + (HOST + (Decimal(l.port) + QueryText(l.query)))
  {
  }

  lemma ListenerReads(l: Listener)
    requires ':' !in l.scheme
    ensures ReadListener(ListenerText(l)) == Some(l)
  {
    var tail := Decimal(l.port) + QueryText(l.query);
    var rest := HOST + tail;
    ListenerSplits(l);
    UntilOf(l.scheme, ':', rest);
    Prefix(HOST, tail);
    TailReads(l.port, l.query);
  }

  lemma Prefix(a: string, b: string)
    ensures (a + b)[..|a|] == a && (a + b)[|a|..] == b
  {
  }

  lemma ListenerHasNoComma(l: Listener)
    requires ',' !in l.scheme && ',' !in l.query
    ensures ',' !in ListenerText(l)
  {
    DecimalReads(l.port);
    assert ',' !in HOST;
  }

  lemma FirstListenerReads(first: string, rest: string)
    requires ',' !in first
    ensures ReadListeners(first) == [ReadListener(first)]
    ensures ReadListeners(first + "," + rest) == [ReadListener(first)] + ReadListeners(rest)
  {
    assert first + "" == first;
    UntilOf(first, ',', "");
    assert first + "," + rest == first + ("," + rest);
    UntilOf(first, ',', "," + rest);
    assert (first + "," + rest)[|first| + 1..] == rest;
  }

  predicate Plain(l: Listener)
  {
    ':' !in l.scheme && ',' !in l.scheme && ',' !in l.query
  }

  lemma ListReads(first: Listener, second: Option<Listener>)
    requires Plain(first) && (second.Some? ==> Plain(second.value))
    ensures ReadListeners(ListText(first, second)) == Listeners(first, second)
  {
    ListenerReads(first);
    ListenerHasNoComma(first);
    if second.Some? {
      ListenerReads(second.value);
      ListenerHasNoComma(second.value);
      FirstListenerReads(ListenerText(first), ListenerText(second.value));
      FirstListenerReads(ListenerText(second.value), "");
    } else {
      FirstListenerReads(ListenerText(first), "");
    }
  }

  lemma CommaCutsList(first: Listener, second: Option<Listener>, query: string, rest: string)
    requires Plain(first.(query := query)) && query != "" && first.query == query + "," + rest
    ensures ReadListeners(ListText(first, second))[..1] != Listeners(first, second)[..1]
  {
    var cut := first.(query := query);
    var after := if second.None? then rest else rest + "," + ListenerText(second.value);
    CutText(first, second, query, rest, after);
    CutReads(cut, after);
    assert |query| < |first.query|;
  }

  lemma CutReads(l: Listener, rest: string)
    requires Plain(l)
    ensures ReadListeners(ListenerText(l) + "," + rest)[..1] == [Some(l)]
  {
    ListenerReads(l);
    ListenerHasNoComma(l);
    FirstListenerReads(ListenerText(l), rest);
  }

  lemma CutText(first: Listener, second: Option<Listener>, query: string, rest: string, after: string)
    requires query != "" && first.query == query + "," + rest
    requires after == if second.None? then rest else rest + "," + ListenerText(second.value)
    ensures ListText(first, second) == ListenerText(first.(query := query)) + "," + after
  {
    WithQuery(first);
    WithQuery(first.(query := query));
    CutQuery(Address(first.scheme, first.port), query, rest);
    if second.Some? {
      CutMore(ListenerText(first.(query := query)), rest, ListenerText(second.value));
    }
  }

  lemma WithQuery(l: Listener)
    requires l.query != ""
    ensures ListenerText(l) == Address(l.scheme, l.port) + ("?" + l.query)
  {
  }

  lemma CutQuery(address: string, query: string, rest: string)
    ensures address + ("?" + (query + "," + rest)) == address + ("?" + query) + "," + rest
  {
  }

  lemma CutMore(first: string, rest: string, more: string)
    ensures first + "," + rest + "," + more == first + "," + (rest + "," + more)
  {
  }

  function Listeners(first: Listener, second: Option<Listener>): seq<Option<Listener>>
  {
    [Some(first)] + if second.Some? then [second] else []
  }

  lemma ListenersArePlain(spec: Spec)
    ensures ',' !in spec.sslMode ==> Plain(Postgres(spec))
    ensures Http(spec).Some? ==> Plain(Http(spec).value)
  {
    assert ',' !in "sslmode=";
  }

  /** A comma in the TLS mode cuts the first listener short; otherwise the listeners are read back. */
  lemma ListenReadsExactlyWhen(spec: Spec)
    ensures ReadListeners(ListenValue(spec)) == Listeners(Postgres(spec), Http(spec)) <==> ',' !in spec.sslMode
  {
    ListenersArePlain(spec);
    if ',' in spec.sslMode {
      var k := Until(spec.sslMode, ',');
      assert k < |spec.sslMode| by {
        assert spec.sslMode[..|spec.sslMode|] == spec.sslMode;
      }
      assert spec.sslMode == spec.sslMode[..k] + "," + spec.sslMode[k + 1..];
      ListenersArePlain(spec.(sslMode := spec.sslMode[..k]));
      assert Plain(Postgres(spec).(query := "sslmode=" + spec.sslMode[..k])) by {
        assert ',' !in "sslmode=";
      }
      CommaCutsList(Postgres(spec), Http(spec), "sslmode=" + spec.sslMode[..k], spec.sslMode[k + 1..]);
    } else {
      ListReads(Postgres(spec), Http(spec));
    }
  }

  // The lines.

  function ReadLines(s: string): seq<string>
    decreases |s|
  {
    var n := Until(s, '\n');
    if n == |s| then [] else [s[..n]] + ReadLines(s[n + 1..])
  }

  predicate OneLine(s: string)
  {
    '\n' !in s
  }

  lemma LineReads(line: string, rest: string)
    requires OneLine(line)
    ensures ReadLines(line + "\n" + rest) == [line] + ReadLines(rest)
  {
    assert line + "\n" + rest == line + ("\n" + rest);
    UntilOf(line, '\n', "\n" + rest);
    assert (line + "\n" + rest)[|line| + 1..] == rest;
  }

  lemma {:induction false} LinesRead(lines: seq<string>, rest: string)
    requires lines != [] && forall line | line in lines :: OneLine(line)
    ensures ReadLines(Join(lines, "\n") + "\n" + rest) == lines + ReadLines(rest)
  {
    var front, last := lines[..|lines| - 1], lines[|lines| - 1];
    assert lines == front + [last];
    LineReads(last, rest);
    if front != [] {
      LinesRead(front, last + "\n" + rest);
      JoinedLines(Join(front, "\n"), last, rest);
      Regrouped(front, last, ReadLines(rest));
    }
  }

  lemma JoinedLines(front: string, last: string, rest: string)
    ensures front + "\n" + last + "\n" + rest == front + "\n" + (last + "\n" + rest)
  {
  }

  lemma Regrouped(front: seq<string>, last: string, rest: seq<string>)
    ensures front + ([last] + rest) == front + [last] + rest
  {
  }

  /** A flag given twice, an unknown flag or a line without "=" makes the reading fail. */
  function ReadFlags(lines: seq<string>): Option<map<Flag, string>>
  {
    if lines == [] then Some(map[])
    else
      match ReadFlags(lines[..|lines| - 1])
      case None => None
      case Some(flags) => WithLine(flags, lines[|lines| - 1])
  }

  function WithLine(flags: map<Flag, string>, line: string): Option<map<Flag, string>>
  {
    var n := Until(line, '=');
    var flag := FlagOf(line[..n]);
    if n == |line| || flag.None? || flag.value in flags then None else Some(flags[flag.value := line[n + 1..]])
  }

  function FlagLine(flag: Flag, value: string): string
  {
    FlagName(flag) + "=" + value
  }

  lemma FlagLineReads(flags: map<Flag, string>, flag: Flag, value: string)
    requires flag !in flags
    ensures WithLine(flags, FlagLine(flag, value)) == Some(flags[flag := value])
    ensures OneLine(value) ==> OneLine(FlagLine(flag, value))
  {
    FlagNamesRead(flag);
    FlagNamesHaveNoEquals(flag);
    FlagNamesHaveNoNewline(flag);
    assert FlagLine(flag, value) == FlagName(flag) + ("=" + value);
    UntilOf(FlagName(flag), '=', "=" + value);
  }

  function NonZero(n: int): Option<string>
  {
    if n == 0 then None else Some(Integer(n))
  }

  function NonEmpty(s: string): Option<string>
  {
    if s == "" then None else Some(s)
  }

  /** What the spec asks of each flag; None leaves it to the server. */
  function Wanted(spec: Spec, flag: Flag): Option<string>
  {
    match flag
    case Listen => Some(ListenValue(spec))
    case LogStorage => Some("stdout")
    case LogLevel => Some(OrDefault(spec.logLevel, "info"))
    case MaxConnections => NonZero(spec.maxConnections)
    case CpuThreads => NonZero(spec.cpuThreads)
    case IoThreads => NonZero(spec.ioThreads)
    case BackgroundThreads => NonZero(spec.backgroundThreads)
    case AuthTimeout => Some(OrDefault(spec.authTimeout, "30s"))
    case IdleSessionTimeout => Some(OrDefault(spec.idleSessionTimeout, "75s"))
    case MaxMessageBytes => NonZero(spec.maxMessageBytes)
    case CorsOrigins => if spec.httpEnabled then NonEmpty(spec.corsOrigins) else None
    case TlsCert => if spec.tls then Some("/etc/serenedb-tls/tls.crt") else None
    case TlsKey => if spec.tls then Some("/etc/serenedb-tls/tls.key") else None
    case TlsMinVersion => if spec.tls then Some(OrDefault(spec.minVersion, "1.2")) else None
    case HbaConfig => if spec.hba == "" then None else Some("/etc/serenedb/pg_hba.conf")
  }

  function Demands(spec: Spec): Flag -> Option<string>
  {
    flag => Wanted(spec, flag)
  }

  function Assigned(wanted: Flag -> Option<string>, flags: seq<Flag>): map<Flag, string>
  {
    map flag | flag in flags && wanted(flag).Some? :: wanted(flag).value
  }

  datatype Line = Assign(flag: Flag, value: string) | Verbatim(text: string)

  function LineText(line: Line): string
  {
    match line
    case Assign(flag, value) => FlagLine(flag, value)
    case Verbatim(text) => text
  }

  function Texts(lines: seq<Line>): seq<string>
  {
    seq(|lines|, i requires 0 <= i < |lines| => LineText(lines[i]))
  }

  /** Lines in the order of `flags`, none for a flag of which nothing is wanted. */
  function LinesFor(wanted: Flag -> Option<string>, flags: seq<Flag>): seq<Line>
  {
    if flags == [] then [] else
    LinesFor(wanted, flags[..|flags| - 1]) + LineFor(wanted, flags[|flags| - 1])
  }

  function LineFor(wanted: Flag -> Option<string>, flag: Flag): seq<Line>
  {
    if wanted(flag).None? then [] else [Assign(flag, wanted(flag).value)]
  }

  lemma {:induction false} FlagsRead(wanted: Flag -> Option<string>, flags: seq<Flag>)
    requires Distinct(flags)
    ensures ReadFlags(Texts(LinesFor(wanted, flags))) == Some(Assigned(wanted, flags))
  {
    if flags == [] {
      assert Assigned(wanted, flags) == map[];
    } else {
      var front, last := flags[..|flags| - 1], flags[|flags| - 1];
      var before, lines := Assigned(wanted, front), LinesFor(wanted, front);
      assert flags == front + [last];
      FlagsRead(wanted, front);
      NextAssigned(wanted, front, last);
      if wanted(last).None? {
        assert LinesFor(wanted, flags) == lines;
      } else {
        NextText(wanted, flags);
        NextReads(Texts(lines), before, last, wanted(last).value);
      }
    }
  }

  lemma NextAssigned(wanted: Flag -> Option<string>, front: seq<Flag>, last: Flag)
    ensures Assigned(wanted, front + [last])
            == if wanted(last).None? then Assigned(wanted, front)
               else Assigned(wanted, front)[last := wanted(last).value]
  {
  }

  lemma NextText(wanted: Flag -> Option<string>, flags: seq<Flag>)
    requires flags != [] && wanted(flags[|flags| - 1]).Some?
    ensures var last := flags[|flags| - 1];
            Texts(LinesFor(wanted, flags))
            == Texts(LinesFor(wanted, flags[..|flags| - 1])) + [FlagLine(last, wanted(last).value)]
  {
    var last := flags[|flags| - 1];
    TextsAppend(LinesFor(wanted, flags[..|flags| - 1]), Assign(last, wanted(last).value));
  }

  lemma TextsAppend(lines: seq<Line>, line: Line)
    ensures Texts(lines + [line]) == Texts(lines) + [LineText(line)]
  {
  }

  lemma NextReads(lines: seq<string>, flags: map<Flag, string>, flag: Flag, value: string)
    requires ReadFlags(lines) == Some(flags) && flag !in flags
    ensures ReadFlags(lines + [FlagLine(flag, value)]) == Some(flags[flag := value])
  {
    assert (lines + [FlagLine(flag, value)])[..|lines|] == lines;
    FlagLineReads(flags, flag, value);
  }

  predicate FreeOfNewlines(spec: Spec)
  {
    && OneLine(spec.sslMode) && OneLine(spec.corsOrigins) && OneLine(spec.minVersion) && OneLine(spec.logLevel)
    && OneLine(spec.authTimeout) && OneLine(spec.idleSessionTimeout)
    && forall line | line in spec.extraFlags :: OneLine(line)
  }

  lemma WantedIsOneLine(spec: Spec, flag: Flag)
    requires FreeOfNewlines(spec) && Wanted(spec, flag).Some?
    ensures OneLine(Wanted(spec, flag).value)
  {
    match flag {
      case Listen => ListenIsOneLine(spec);
      case MaxConnections => IntegerIsOneLine(spec.maxConnections);
      case CpuThreads => IntegerIsOneLine(spec.cpuThreads);
      case IoThreads => IntegerIsOneLine(spec.ioThreads);
      case BackgroundThreads => IntegerIsOneLine(spec.backgroundThreads);
      case MaxMessageBytes => IntegerIsOneLine(spec.maxMessageBytes);
      case _ =>
    }
  }

  lemma IntegerIsOneLine(i: int)
    ensures OneLine(Integer(i))
  {
    if i < 0 {
      DecimalIsOneLine(-i);
    } else {
      DecimalIsOneLine(i);
    }
  }

  lemma {:induction false} DecimalIsOneLine(n: nat)
    ensures OneLine(Decimal(n))
  {
    if n >= 10 {
      DecimalIsOneLine(n / 10);
    }
  }

  lemma ListenerIsOneLine(l: Listener)
    requires OneLine(l.scheme) && OneLine(l.query)
    ensures OneLine(ListenerText(l))
  {
    DecimalReads(l.port);
    assert OneLine(HOST);
  }

  lemma ListenIsOneLine(spec: Spec)
    requires OneLine(spec.sslMode)
    ensures OneLine(ListenValue(spec))
  {
    assert OneLine("sslmode=") && OneLine("postgres");
    ListenerIsOneLine(Postgres(spec));
    if spec.httpEnabled {
      assert OneLine("http") && OneLine("https") && OneLine("api=es");
      ListenerIsOneLine(Http(spec).value);
    }
  }

  /** The flags in the order of their lines. */
  const FLAGS: seq<Flag> := [
    Listen, LogStorage, LogLevel, MaxConnections, CpuThreads, IoThreads, BackgroundThreads, AuthTimeout,
        IdleSessionTimeout,
    MaxMessageBytes, CorsOrigins, TlsCert, TlsKey, TlsMinVersion, HbaConfig]

  lemma FlagsDiffer()
    ensures Distinct(FLAGS)
  {
  }

  function AppendNonZero(lines: seq<Line>, flag: Flag, value: int): seq<Line>
  {
    if value == 0 then lines else lines + [Assign(flag, Integer(value))]
  }

  function LinesUpTo(spec: Spec, k: nat): seq<Line>
    requires k <= |FLAGS|
  {
    LinesFor(Demands(spec), FLAGS[..k])
  }

  lemma NextAssign(spec: Spec, k: nat, flag: Flag, value: string)
    requires k < |FLAGS| && FLAGS[k] == flag && Wanted(spec, flag) == Some(value)
    ensures LinesUpTo(spec, k + 1) == LinesUpTo(spec, k) + [Assign(flag, value)]
  {
    assert FLAGS[..k + 1][..k] == FLAGS[..k];
  }

  lemma NextNumber(spec: Spec, k: nat, flag: Flag, n: int, lines: seq<Line>)
    requires k < |FLAGS| && FLAGS[k] == flag && Wanted(spec, flag) == NonZero(n) && lines == LinesUpTo(spec, k)
    ensures AppendNonZero(lines, flag, n) == LinesUpTo(spec, k + 1)
  {
    assert FLAGS[..k + 1][..k] == FLAGS[..k];
  }

  lemma NextUnset(spec: Spec, k: nat, flag: Flag)
    requires k < |FLAGS| && FLAGS[k] == flag && Wanted(spec, flag) == None
    ensures LinesUpTo(spec, k + 1) == LinesUpTo(spec, k)
  {
    assert FLAGS[..k + 1][..k] == FLAGS[..k];
  }

  method OperatorLines(spec: Spec) returns (lines: seq<Line>)
    ensures lines == LinesUpTo(spec, 15)
    ensures var read := ReadFlags(Texts(lines)); read.Some? && SaysSpec(read.value, spec)
  {
    lines := LogLines(spec);
    lines := ThreadLines(spec, lines);
    lines := TimeoutLines(spec, lines);
    lines := CorsLines(spec, lines);
    lines := TlsLines(spec, lines);
    lines := HbaLines(spec, lines);
    OperatorLinesRead(spec);
  }

  method CorsLines(spec: Spec, before: seq<Line>) returns (lines: seq<Line>)
    requires before == LinesUpTo(spec, 10)
    ensures lines == LinesUpTo(spec, 11)
  {
    lines := before;
    if spec.httpEnabled && spec.corsOrigins != "" {
      NextAssign(spec, 10, CorsOrigins, spec.corsOrigins);
      lines := lines + [Assign(CorsOrigins, spec.corsOrigins)];
    } else {
      NextUnset(spec, 10, CorsOrigins);
    }
  }

  method HbaLines(spec: Spec, before: seq<Line>) returns (lines: seq<Line>)
    requires before == LinesUpTo(spec, 14)
    ensures lines == LinesUpTo(spec, 15)
  {
    lines := before;
    if spec.hba != "" {
      NextAssign(spec, 14, HbaConfig, "/etc/serenedb/pg_hba.conf");
      lines := lines + [Assign(HbaConfig, "/etc/serenedb/pg_hba.conf")];
    } else {
      NextUnset(spec, 14, HbaConfig);
    }
  }

  method LogLines(spec: Spec) returns (lines: seq<Line>)
    ensures lines == LinesUpTo(spec, 3)
  {
    var listen := ListenText(spec);
    var level := OrDefault(spec.logLevel, "info");
    lines := [Assign(Listen, listen), Assign(LogStorage, "stdout"), Assign(LogLevel, level)];
    NextAssign(spec, 0, Listen, listen);
    NextAssign(spec, 1, LogStorage, "stdout");
    NextAssign(spec, 2, LogLevel, level);
    assert lines == [Assign(Listen, listen)] + [Assign(LogStorage, "stdout")] + [Assign(LogLevel, level)];
  }

  method ThreadLines(spec: Spec, before: seq<Line>) returns (lines: seq<Line>)
    requires before == LinesUpTo(spec, 3)
    ensures lines == LinesUpTo(spec, 7)
  {
    lines := LimitLines(spec, before);
    NextNumber(spec, 5, IoThreads, spec.ioThreads, lines);
    lines := AppendNonZero(lines, IoThreads, spec.ioThreads);
    NextNumber(spec, 6, BackgroundThreads, spec.backgroundThreads, lines);
    lines := AppendNonZero(lines, BackgroundThreads, spec.backgroundThreads);
  }

  method LimitLines(spec: Spec, before: seq<Line>) returns (lines: seq<Line>)
    requires before == LinesUpTo(spec, 3)
    ensures lines == LinesUpTo(spec, 5)
  {
    NextNumber(spec, 3, MaxConnections, spec.maxConnections, before);
    lines := AppendNonZero(before, MaxConnections, spec.maxConnections);
    NextNumber(spec, 4, CpuThreads, spec.cpuThreads, lines);
    lines := AppendNonZero(lines, CpuThreads, spec.cpuThreads);
  }

  method TimeoutLines(spec: Spec, before: seq<Line>) returns (lines: seq<Line>)
    requires before == LinesUpTo(spec, 7)
    ensures lines == LinesUpTo(spec, 10)
  {
    NextAssign(spec, 7, AuthTimeout, OrDefault(spec.authTimeout, "30s"));
    lines := before + [Assign(AuthTimeout, OrDefault(spec.authTimeout, "30s"))];
    NextAssign(spec, 8, IdleSessionTimeout, OrDefault(spec.idleSessionTimeout, "75s"));
    lines := lines + [Assign(IdleSessionTimeout, OrDefault(spec.idleSessionTimeout, "75s"))];
    NextNumber(spec, 9, MaxMessageBytes, spec.maxMessageBytes, lines);
    lines := AppendNonZero(lines, MaxMessageBytes, spec.maxMessageBytes);
  }

  method TlsLines(spec: Spec, before: seq<Line>) returns (lines: seq<Line>)
    requires before == LinesUpTo(spec, 11)
    ensures lines == LinesUpTo(spec, 14)
  {
    lines := before;
    if spec.tls {
      NextAssign(spec, 11, TlsCert, "/etc/serenedb-tls/tls.crt");
      NextAssign(spec, 12, TlsKey, "/etc/serenedb-tls/tls.key");
      NextAssign(spec, 13, TlsMinVersion, OrDefault(spec.minVersion, "1.2"));
      lines := lines + [
        Assign(TlsCert, "/etc/serenedb-tls/tls.crt"),
        Assign(TlsKey, "/etc/serenedb-tls/tls.key"),
        Assign(TlsMinVersion, OrDefault(spec.minVersion, "1.2"))
      ];
    } else {
      NoTls(spec);
    }
  }

  lemma NoTls(spec: Spec)
    requires !spec.tls
    ensures LinesUpTo(spec, 14) == LinesUpTo(spec, 11)
  {
    NextUnset(spec, 11, TlsCert);
    NextUnset(spec, 12, TlsKey);
    NextUnset(spec, 13, TlsMinVersion);
  }

  /** What is read of a flagfile whose last `extra` lines are not the operator's. */
  function Read(text: string, extra: nat): Option<(map<Flag, string>, seq<string>)>
  {
    var lines := ReadLines(text);
    if |lines| < extra then None
    else
      match ReadFlags(lines[..|lines| - extra])
      case None => None
      case Some(flags) => Some((flags, lines[|lines| - extra..]))
  }

  function Verbatims(texts: seq<string>): seq<Line>
  {
    seq(|texts|, i requires 0 <= i < |texts| => Verbatim(texts[i]))
  }

  lemma OperatorLinesRead(spec: Spec)
    ensures ReadFlags(Texts(LinesUpTo(spec, 15))) == Some(Assigned(Demands(spec), FLAGS))
    ensures SaysSpec(Assigned(Demands(spec), FLAGS), spec)
  {
    FlagsDiffer();
    assert FLAGS[..15] == FLAGS;
    FlagsRead(Demands(spec), FLAGS);
    AssignedSaysSpec(spec);
  }

  // What the flags are to say, in the terms of the spec alone.

  /** The listeners, the logging and the timeouts, with the defaults of the operator. */
  predicate SaysTexts(flags: map<Flag, string>, spec: Spec)
  {
    && Listen in flags
    && flags[Listen] == "postgres://0.0.0.0:" + Decimal(if spec.port == 0 then 7890 else spec.port)
                        + (if spec.sslMode == "" then "" else "?sslmode=" + spec.sslMode)
                        + (if !spec.httpEnabled then ""
                           else "," + (if spec.tls then "https" else "http") + "://0.0.0.0:"
                                + Decimal(if spec.httpPort == 0 then 9200 else spec.httpPort) + "?api=es")
    && LogStorage in flags && flags[LogStorage] == "stdout"
    && LogLevel in flags && flags[LogLevel] == (if spec.logLevel == "" then "info" else spec.logLevel)
    && AuthTimeout in flags && flags[AuthTimeout] == (if spec.authTimeout == "" then "30s" else spec.authTimeout)
    && IdleSessionTimeout in flags
    && flags[IdleSessionTimeout] == (if spec.idleSessionTimeout == "" then "75s" else spec.idleSessionTimeout)
  }

  predicate SaysNumber(flags: map<Flag, string>, flag: Flag, n: int)
  {
    if n == 0 then flag !in flags else flag in flags && IntegerValue(flags[flag]) == n
  }

  predicate SaysNumbers(flags: map<Flag, string>, spec: Spec)
  {
    && SaysNumber(flags, MaxConnections, spec.maxConnections) && SaysNumber(flags, CpuThreads, spec.cpuThreads)
    && SaysNumber(flags, IoThreads, spec.ioThreads) && SaysNumber(flags, BackgroundThreads, spec.backgroundThreads)
    && SaysNumber(flags, MaxMessageBytes, spec.maxMessageBytes)
  }

  predicate SaysFiles(flags: map<Flag, string>, spec: Spec)
  {
    && (CorsOrigins in flags <==> spec.httpEnabled && spec.corsOrigins != "")
    && (CorsOrigins in flags ==> flags[CorsOrigins] == spec.corsOrigins)
    && (TlsCert in flags <==> spec.tls) && (TlsKey in flags <==> spec.tls) && (TlsMinVersion in flags <==> spec.tls)
    && (spec.tls ==> flags[TlsCert] == "/etc/serenedb-tls/tls.crt" && flags[TlsKey] == "/etc/serenedb-tls/tls.key"
                     && flags[TlsMinVersion] == if spec.minVersion == "" then "1.2" else spec.minVersion)
    && (HbaConfig in flags <==> spec.hba != "")
    && (HbaConfig in flags ==> flags[HbaConfig] == "/etc/serenedb/pg_hba.conf")
  }

  predicate SaysSpec(flags: map<Flag, string>, spec: Spec)
  {
    SaysTexts(flags, spec) && SaysNumbers(flags, spec) && SaysFiles(flags, spec)
  }

  /** What is wanted of the flags is what the spec says. */
  lemma AssignedSaysSpec(spec: Spec)
    ensures SaysSpec(Assigned(Demands(spec), FLAGS), spec)
  {
    var flags := Assigned(Demands(spec), FLAGS);
    AssignedGives(spec);
    GivesTexts(flags, spec);
    GivesNumbers(flags, spec);
    GivesFiles(flags, spec);
  }

  lemma GivesTexts(flags: map<Flag, string>, spec: Spec)
    requires Gives(flags, spec)
    ensures SaysTexts(flags, spec)
  {
    ListenSpelled(spec);
    assert Text(flags, Listen).Some? && Text(flags, LogStorage).Some? && Text(flags, LogLevel).Some?;
    assert Text(flags, AuthTimeout).Some? && Text(flags, IdleSessionTimeout).Some?;
  }

  lemma ListenSpelled(spec: Spec)
    ensures ListenValue(spec)
            == "postgres://0.0.0.0:" + Decimal(if spec.port == 0 then 7890 else spec.port)
               + (if spec.sslMode == "" then "" else "?sslmode=" + spec.sslMode)
               + (if !spec.httpEnabled then ""
                  else "," + (if spec.tls then "https" else "http") + "://0.0.0.0:"
                       + Decimal(if spec.httpPort == 0 then 9200 else spec.httpPort) + "?api=es")
  {
    var first := "postgres://0.0.0.0:" + Decimal(if spec.port == 0 then 7890 else spec.port)
                 + (if spec.sslMode == "" then "" else "?sslmode=" + spec.sslMode);
    FirstSpelled(spec, first);
    if spec.httpEnabled {
      SecondSpelled(spec);
      CommaJoins(first, if spec.tls then "https" else "http",
                 Decimal(if spec.httpPort == 0 then 9200 else spec.httpPort));
    } else {
      assert first + "" == first;
    }
  }

  lemma FirstSpelled(spec: Spec, first: string)
    requires first == "postgres://0.0.0.0:" + Decimal(if spec.port == 0 then 7890 else spec.port)
                      + (if spec.sslMode == "" then "" else "?sslmode=" + spec.sslMode)
    ensures ListenerText(Postgres(spec)) == first
  {
    assert "postgres" + HOST == "postgres://0.0.0.0:";
    assert "?" + ("sslmode=" + spec.sslMode) == "?sslmode=" + spec.sslMode;
  }

  lemma SecondSpelled(spec: Spec)
    requires spec.httpEnabled
    ensures Http(spec).Some?
    ensures ListenerText(Http(spec).value)
            == (if spec.tls then "https" else "http") + "://0.0.0.0:"
               + Decimal(if spec.httpPort == 0 then 9200 else spec.httpPort) + "?api=es"
  {
    assert "?" + "api=es" == "?api=es";
  }

  lemma CommaJoins(first: string, scheme: string, port: string)
    ensures first + "," + (scheme + "://0.0.0.0:" + port + "?api=es")
            == first + ("," + scheme + "://0.0.0.0:" + port + "?api=es")
  {
  }

  lemma GivesNumbers(flags: map<Flag, string>, spec: Spec)
    requires Gives(flags, spec)
    ensures SaysNumbers(flags, spec)
  {
    GivesNumber(flags, spec, MaxConnections);
    GivesNumber(flags, spec, CpuThreads);
    GivesNumber(flags, spec, IoThreads);
    GivesNumber(flags, spec, BackgroundThreads);
    GivesNumber(flags, spec, MaxMessageBytes);
  }

  lemma GivesNumber(flags: map<Flag, string>, spec: Spec, flag: Flag)
    requires Gives(flags, spec) && flag in NUMBERS
    ensures SaysNumber(flags, flag, NumberIn(spec, flag))
  {
    NumberWanted(spec, flag);
    NumberSaid(flags, flag, NumberIn(spec, flag));
  }

  lemma NumberSaid(flags: map<Flag, string>, flag: Flag, n: int)
    requires Text(flags, flag) == NonZero(n)
    ensures SaysNumber(flags, flag, n)
  {
    IntegerReads(n);
  }

  lemma GivesFiles(flags: map<Flag, string>, spec: Spec)
    requires Gives(flags, spec)
    ensures SaysFiles(flags, spec)
  {
    assert Text(flags, CorsOrigins) == Wanted(spec, CorsOrigins) && Text(flags, HbaConfig) == Wanted(spec, HbaConfig);
    assert Text(flags, TlsCert) == Wanted(spec, TlsCert) && Text(flags, TlsKey) == Wanted(spec, TlsKey);
    assert Text(flags, TlsMinVersion) == Wanted(spec, TlsMinVersion);
  }

  /** Every flag of the operator's occurs at most once and says what the spec says of it, none it leaves to the server
      occurs, and the extra flags end the file in their order. */
  method Flagfile(spec: Spec) returns (text: string)
    ensures FreeOfNewlines(spec) ==>
              Read(text, |spec.extraFlags|) == Some((Assigned(Demands(spec), FLAGS), spec.extraFlags))
    ensures FreeOfNewlines(spec) ==>
              var read := Read(text, |spec.extraFlags|);
              read.Some? && SaysSpec(read.value.0, spec) && read.value.1 == spec.extraFlags
  {
    var lines := OperatorLines(spec);
    ghost var own := lines;
    lines := lines + Verbatims(spec.extraFlags);
    text := Join(Texts(lines), "\n") + "\n";
    if FreeOfNewlines(spec) {
      OwnLines(spec);
      FileReads(own, spec.extraFlags, Assigned(Demands(spec), FLAGS), text);
      AssignedSaysSpec(spec);
    }
  }

  lemma OwnLines(spec: Spec)
    requires FreeOfNewlines(spec)
    ensures var own := LinesUpTo(spec, 15);
            && own != [] && ReadFlags(Texts(own)) == Some(Assigned(Demands(spec), FLAGS))
            && forall line | line in Texts(own) :: OneLine(line)
  {
    FlagsDiffer();
    assert FLAGS[..15] == FLAGS;
    FlagsRead(Demands(spec), FLAGS);
    forall flag | Wanted(spec, flag).Some? ensures OneLine(Wanted(spec, flag).value) {
      WantedIsOneLine(spec, flag);
    }
    LinesAreOneLine(Demands(spec), FLAGS);
    NextAssign(spec, 0, Listen, ListenValue(spec));
    LinesGrow(Demands(spec), FLAGS, 1);
  }

  lemma {:induction false} LinesAreOneLine(wanted: Flag -> Option<string>, flags: seq<Flag>)
    requires forall flag | wanted(flag).Some? :: OneLine(wanted(flag).value)
    ensures forall line | line in Texts(LinesFor(wanted, flags)) :: OneLine(line)
  {
    if flags != [] {
      var front, last := flags[..|flags| - 1], flags[|flags| - 1];
      LinesAreOneLine(wanted, front);
      if wanted(last).Some? {
        FlagLineReads(map[], last, wanted(last).value);
        NextText(wanted, flags);
      } else {
        assert LinesFor(wanted, flags) == LinesFor(wanted, front);
      }
    }
  }

  lemma {:induction false} LinesGrow(wanted: Flag -> Option<string>, flags: seq<Flag>, n: nat)
    requires n <= |flags|
    ensures |LinesFor(wanted, flags[..n])| <= |LinesFor(wanted, flags)|
  {
    if n == |flags| {
      assert flags[..n] == flags;
    } else {
      assert flags[..|flags| - 1][..n] == flags[..n];
      LinesGrow(wanted, flags[..|flags| - 1], n);
    }
  }

  lemma FileReads(own: seq<Line>, extra: seq<string>, flags: map<Flag, string>, text: string)
    requires own != [] && ReadFlags(Texts(own)) == Some(flags)
    requires forall line | line in Texts(own) || line in extra :: OneLine(line)
    requires text == Join(Texts(own + Verbatims(extra)), "\n") + "\n"
    ensures Read(text, |extra|) == Some((flags, extra))
  {
    var lines := Texts(own + Verbatims(extra));
    AllTexts(own, extra);
    LinesRead(lines, "");
    assert text + "" == text && ReadLines("") == [] && lines + [] == lines;
  }

  lemma AllTexts(own: seq<Line>, extra: seq<string>)
    ensures var lines := Texts(own + Verbatims(extra));
            && lines == Texts(own) + extra && |lines| >= |extra|
            && lines[..|lines| - |extra|] == Texts(own) && lines[|lines| - |extra|..] == extra
  {
  }

  // What the flags mean.

  const NUMBERS := {MaxConnections, CpuThreads, IoThreads, BackgroundThreads, MaxMessageBytes}

  datatype Settings = Settings(
    listeners: seq<Option<Listener>>, logLevel: Option<string>, numbers: map<Flag, int>,
    authTimeout: Option<string>, idleSessionTimeout: Option<string>,
    corsOrigins: Option<string>, minVersion: Option<string>, hba: bool)

  function Text(flags: map<Flag, string>, flag: Flag): Option<string>
  {
    if flag in flags then Some(flags[flag]) else None
  }

  /** An absent number is zero. */
  function NumberOf(flags: map<Flag, string>, flag: Flag): int
  {
    if flag in flags then IntegerValue(flags[flag]) else 0
  }

  function Understood(flags: map<Flag, string>): Settings
  {
    Settings(
      if Listen in flags then ReadListeners(flags[Listen]) else [], Text(flags, LogLevel),
      map flag | flag in NUMBERS :: NumberOf(flags, flag),
      Text(flags, AuthTimeout), Text(flags, IdleSessionTimeout),
      Text(flags, CorsOrigins), Text(flags, TlsMinVersion), HbaConfig in flags)
  }

  function NumberIn(spec: Spec, flag: Flag): int
  {
    match flag
    case MaxConnections => spec.maxConnections
    case CpuThreads => spec.cpuThreads
    case IoThreads => spec.ioThreads
    case BackgroundThreads => spec.backgroundThreads
    case MaxMessageBytes => spec.maxMessageBytes
    case _ => 0
  }

  /** The spec with its defaults. */
  function Effective(spec: Spec): Settings
  {
    Settings(
      Listeners(Postgres(spec), Http(spec)), Some(if spec.logLevel == "" then "info" else spec.logLevel),
      map flag | flag in NUMBERS :: NumberIn(spec, flag),
      Some(if spec.authTimeout == "" then "30s" else spec.authTimeout),
      Some(if spec.idleSessionTimeout == "" then "75s" else spec.idleSessionTimeout),
      if spec.httpEnabled && spec.corsOrigins != "" then Some(spec.corsOrigins) else None,
      if spec.tls then Some(if spec.minVersion == "" then "1.2" else spec.minVersion) else None,
      spec.hba != "")
  }

  ghost predicate Gives(flags: map<Flag, string>, spec: Spec)
  {
    forall flag :: Text(flags, flag) == Wanted(spec, flag)
  }

  lemma AssignedGives(spec: Spec)
    ensures Gives(Assigned(Demands(spec), FLAGS), spec)
  {
    forall flag ensures Text(Assigned(Demands(spec), FLAGS), flag) == Wanted(spec, flag) {
      FlagIsListed(flag);
    }
  }

  lemma NumbersUnderstood(spec: Spec, flags: map<Flag, string>)
    requires Gives(flags, spec)
    ensures forall flag | flag in NUMBERS :: NumberOf(flags, flag) == NumberIn(spec, flag)
  {
    forall flag | flag in NUMBERS ensures NumberOf(flags, flag) == NumberIn(spec, flag) {
      NumberWanted(spec, flag);
      NumberReads(flags, flag, NumberIn(spec, flag));
    }
  }

  lemma NumberWanted(spec: Spec, flag: Flag)
    requires flag in NUMBERS
    ensures Wanted(spec, flag) == NonZero(NumberIn(spec, flag))
  {
  }

  lemma TextsUnderstood(spec: Spec, flags: map<Flag, string>)
    requires Gives(flags, spec)
    ensures Text(flags, Listen) == Some(ListenValue(spec))
    ensures Text(flags, LogLevel) == Some(OrDefault(spec.logLevel, "info"))
    ensures Text(flags, AuthTimeout) == Some(OrDefault(spec.authTimeout, "30s"))
    ensures Text(flags, IdleSessionTimeout) == Some(OrDefault(spec.idleSessionTimeout, "75s"))
    ensures Text(flags, CorsOrigins) == if spec.httpEnabled then NonEmpty(spec.corsOrigins) else None
    ensures Text(flags, TlsMinVersion) == if spec.tls then Some(OrDefault(spec.minVersion, "1.2")) else None
    ensures Text(flags, HbaConfig).Some? <==> spec.hba != ""
  {
  }

  /** The flags say what the spec says exactly when its TLS mode has no comma. */
  lemma UnderstoodExactlyWhen(spec: Spec)
    ensures Understood(Assigned(Demands(spec), FLAGS)) == Effective(spec) <==> ',' !in spec.sslMode
  {
    AssignedGives(spec);
    UnderstoodButListeners(spec, Assigned(Demands(spec), FLAGS));
    ListenReadsExactlyWhen(spec);
  }

  lemma UnderstoodButListeners(spec: Spec, flags: map<Flag, string>)
    requires Gives(flags, spec)
    ensures Understood(flags) == Effective(spec).(listeners := ReadListeners(ListenValue(spec)))
  {
    NumbersUnderstood(spec, flags);
    TextsUnderstood(spec, flags);
  }

  lemma FlagIsListed(flag: Flag)
    ensures flag in FLAGS
  {
    var k := match flag
      case Listen => 0
      case LogStorage => 1
      case LogLevel => 2
      case MaxConnections => 3
      case CpuThreads => 4
      case IoThreads => 5
      case BackgroundThreads => 6
      case AuthTimeout => 7
      case IdleSessionTimeout => 8
      case MaxMessageBytes => 9
      case CorsOrigins => 10
      case TlsCert => 11
      case TlsKey => 12
      case TlsMinVersion => 13
      case HbaConfig => 14;
    assert FLAGS[k] == flag;
  }

  lemma NumberReads(flags: map<Flag, string>, flag: Flag, n: int)
    requires Text(flags, flag) == NonZero(n)
    ensures NumberOf(flags, flag) == n
  {
    IntegerReads(n);
  }
}
