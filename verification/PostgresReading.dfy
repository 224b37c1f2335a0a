/** What the standby commands say, read as docker, `find`, `pg_basebackup` and `pg_rewind` read them. */
module PostgresReading {
  import opened Integers
  import opened Wrappers
  import opened Text
  import opened TemplatedParams
  import opened Runner
  import opened Standby

  // ---- The helper container

  /** A one-shot helper container with another one's volumes: a host it is told of, what it runs, with which words. */
  datatype Helper = Helper(container: string, host: string, image: string, tool: string, words: seq<string>)

  /** `docker run --rm --volumes-from <container> [--add-host <host>] <image> <tool> <word>...`. */
  function ReadHelper(argv: seq<string>): Option<Helper> {
    if |argv| < 6 || argv[..3] != ["run", "--rm", "--volumes-from"] then None
    else if argv[4] == "--add-host" then
      if |argv| < 8 then None else Some(Helper(argv[3], argv[5], argv[6], argv[7], argv[8..]))
    else Some(Helper(argv[3], "", argv[4], argv[5], argv[6..]))
  }

  // ---- Options

  /** The options of `pg_basebackup` that take a value. */
  predicate TakesValue(option: string) {
    option == "-h" || option == "-p" || option == "-U" || option == "-D" || option == "-X"
  }

  /** An option line, as `getopt` reads it: a value belongs to its option whatever it looks like. */
  function ReadOptions(words: seq<string>): Option<seq<Pair>>
    decreases |words|
  {
    if words == [] then Some([])
    else if !TakesValue(words[0]) then
      match ReadOptions(words[1..])
      case None => None
      case Some(rest) => Some([(words[0], "")] + rest)
    else if |words| == 1 then None
    else
      match ReadOptions(words[2..])
      case None => None
      case Some(rest) => Some([(words[0], words[1])] + rest)
  }

  lemma ReadValued(option: string, value: string, rest: seq<string>)
    requires TakesValue(option) && ReadOptions(rest).Some?
    ensures ReadOptions([option, value] + rest) == Some([(option, value)] + ReadOptions(rest).value)
  {
    assert ([option, value] + rest)[2..] == rest;
  }

  lemma ReadPlain(option: string, rest: seq<string>)
    requires !TakesValue(option) && ReadOptions(rest).Some?
    ensures ReadOptions([option] + rest) == Some([(option, "")] + ReadOptions(rest).value)
  {
    assert ([option] + rest)[1..] == rest;
  }

  lemma OptionKinds()
    ensures TakesValue("-h") && TakesValue("-p") && TakesValue("-U") && TakesValue("-D") && TakesValue("-X")
    ensures !TakesValue("-R") && !TakesValue("--no-password")
  {
    assert "-R"[1] == 'R' && |"--no-password"| == 13;
  }

  lemma TwoValued(a: string, x: string, b: string, y: string, rest: seq<string>)
    requires TakesValue(a) && TakesValue(b) && ReadOptions(rest).Some?
    ensures ReadOptions([a, x, b, y] + rest) == Some([(a, x), (b, y)] + ReadOptions(rest).value)
  {
    hide ReadOptions, TakesValue;
    ReadValued(b, y, rest);
    ReadValued(a, x, [b, y] + rest);
    assert [a, x] + ([b, y] + rest) == [a, x, b, y] + rest;
    assert [(a, x)] + ([(b, y)] + ReadOptions(rest).value) == [(a, x), (b, y)] + ReadOptions(rest).value;
  }

  lemma FlagsRead(r: string, x: string, stream: string, n: string)
    requires !TakesValue(r) && TakesValue(x) && !TakesValue(n)
    ensures ReadOptions([r, x, stream, n]) == Some([(r, ""), (x, stream), (n, "")])
  {
    assert ReadOptions([]) == Some([]);
    hide ReadOptions, TakesValue;
    ReadPlain(n, []);
    assert [n] + [] == [n] && [(n, "")] + [] == [(n, "")];
    ReadValued(x, stream, [n]);
    assert [x, stream] + [n] == [x, stream, n] && [(x, stream)] + [(n, "")] == [(x, stream), (n, "")];
    ReadPlain(r, [x, stream, n]);
    assert [r] + [x, stream, n] == [r, x, stream, n];
    assert [(r, "")] + [(x, stream), (n, "")] == [(r, ""), (x, stream), (n, "")];
  }

  lemma BackupOptions(host: string, port: string, user: string, dir: string)
    ensures ReadOptions(["-h", host, "-p", port, "-U", user, "-D", dir] + ["-R", "-X", "stream", "--no-password"])
         == Some([("-h", host), ("-p", port), ("-U", user), ("-D", dir)]
                 + [("-R", ""), ("-X", "stream"), ("--no-password", "")])
  {
    hide ReadOptions, TakesValue;
    OptionKinds();
    FlagsRead("-R", "-X", "stream", "--no-password");
    FourValued("-h", host, "-p", port, "-U", user, "-D", dir, ["-R", "-X", "stream", "--no-password"]);
  }

  lemma FourValued(a: string, x: string, b: string, y: string, c: string, z: string, d: string, u: string,
                   rest: seq<string>)
    requires TakesValue(a) && TakesValue(b) && TakesValue(c) && TakesValue(d) && ReadOptions(rest).Some?
    ensures ReadOptions([a, x, b, y, c, z, d, u] + rest)
         == Some([(a, x), (b, y), (c, z), (d, u)] + ReadOptions(rest).value)
  {
    hide ReadOptions, TakesValue;
    TwoValued(c, z, d, u, rest);
    TwoValued(a, x, b, y, [c, z, d, u] + rest);
    assert [a, x, b, y] + ([c, z, d, u] + rest) == [a, x, b, y, c, z, d, u] + rest;
    assert [(a, x), (b, y)] + ([(c, z), (d, u)] + ReadOptions(rest).value)
        == [(a, x), (b, y), (c, z), (d, u)] + ReadOptions(rest).value;
  }

  // ---- Connection strings

  /** What ends a value in a connection string: the blanks of C's `isspace`. */
  predicate ConnBlank(c: char) {
    c == ' ' || '\t' <= c <= '\r'
  }

  function BlankFrom(s: string, k: nat): (i: nat)
    requires k <= |s|
    ensures k <= i <= |s| && (i < |s| ==> ConnBlank(s[i])) && forall j :: k <= j < i ==> !ConnBlank(s[j])
    decreases |s| - k
  {
    if k == |s| || ConnBlank(s[k]) then k else BlankFrom(s, k + 1)
  }

  predicate NoConnBlank(s: string) {
    forall i :: 0 <= i < |s| ==> !ConnBlank(s[i])
  }

  type Pair = (string, string)

  /** The first `name=value` of a connection string, the value up to the next blank, and what stands behind that. */
  function NextPair(s: string): (r: Option<(Pair, string)>)
    ensures r.Some? ==> NoConnBlank(r.value.0.1) && |r.value.1| < |s|
  {
    match SplitOnce(s, '=')
    case None => None
    case Some((name, more)) =>
      var i := BlankFrom(more, 0);
      Some(((name, more[..i]), if i == |more| then "" else more[i + 1..]))
  }

  /** A connection string as its pairs. */
  function ReadConn(s: string): Option<seq<Pair>>
    decreases |s|
  {
    if s == "" then Some([])
    else
      match NextPair(s)
      case None => None
      case Some((pair, more)) =>
        match ReadConn(more)
        case None => None
        case Some(rest) => Some([pair] + rest)
  }

  lemma BlankBehind(value: string, rest: string)
    requires NoConnBlank(value)
    ensures var more := value + [' '] + rest;
            BlankFrom(more, 0) == |value| && more[..|value|] == value && more[|value| + 1..] == rest
    ensures BlankFrom(value, 0) == |value|
  {
    var more := value + [' '] + rest;
    assert more[|value|] == ' ' && forall j :: 0 <= j < |value| ==> more[j] == value[j];
  }

  lemma NextPairOf(name: string, value: string, rest: string)
    requires Lacks(name, '=') && NoConnBlank(value)
    ensures NextPair(name + ['='] + (value + [' '] + rest)) == Some(((name, value), rest))
    ensures NextPair(name + ['='] + value) == Some(((name, value), ""))
  {
    hide SplitOnce, Lacks, NoConnBlank, BlankFrom;
    BlankBehind(value, rest);
    SplitOnceAfter(name, '=', value + [' '] + rest);
    SplitOnceAfter(name, '=', value);
    assert value[..|value|] == value;
  }

  lemma ReadPair(name: string, value: string, rest: string)
    requires Lacks(name, '=') && NoConnBlank(value) && ReadConn(rest).Some?
    ensures ReadConn(name + "=" + value + " " + rest) == Some([(name, value)] + ReadConn(rest).value)
  {
    hide NextPair, NoConnBlank, Lacks;
    var s := name + ['='] + (value + [' '] + rest);
    NextPairOf(name, value, rest);
    assert name + "=" + value + " " + rest == s && s != "";
  }

  lemma ReadLastPair(name: string, value: string)
    requires Lacks(name, '=') && NoConnBlank(value)
    ensures ReadConn(name + "=" + value) == Some([(name, value)])
  {
    hide NextPair, NoConnBlank, Lacks;
    var s := name + ['='] + value;
    NextPairOf(name, value, "");
    assert name + "=" + value == s && s != "" && [(name, value)] + [] == [(name, value)];
  }

  lemma FirstValueNoBlank(s: string)
    ensures ReadConn(s).Some? && ReadConn(s).value != [] ==> NoConnBlank(ReadConn(s).value[0].1)
  {
  }

  lemma ConnNames()
    ensures Lacks("host", '=') && Lacks("port", '=') && Lacks("user", '=')
  {
  }

  lemma PortPlain(port: nat)
    ensures NoConnBlank(Decimal(port))
  {
    forall i | 0 <= i < |Decimal(port)| ensures !ConnBlank(Decimal(port)[i]) {
      assert IsDigit(Decimal(port)[i]);
    }
  }

  lemma ThreePairs(a: string, x: string, b: string, y: string, c: string, z: string)
    requires Lacks(a, '=') && Lacks(b, '=') && Lacks(c, '=') && NoConnBlank(y) && NoConnBlank(z)
    ensures ReadConn(a + "=" + x + " " + (b + "=" + y + " " + (c + "=" + z))) == Some([(a, x), (b, y), (c, z)])
            <==> NoConnBlank(x)
  {
    hide ReadConn, NoConnBlank, Lacks;
    var last := c + "=" + z;
    var middle := b + "=" + y + " " + last;
    FirstValueNoBlank(a + "=" + x + " " + middle);
    ReadLastPair(c, z);
    ReadPair(b, y, last);
    if NoConnBlank(x) {
      ReadPair(a, x, middle);
      assert [(a, x)] + ([(b, y)] + [(c, z)]) == [(a, x), (b, y), (c, z)];
    }
  }

  lemma ConnLiterals()
    ensures "host=" == "host" + "=" && " port=" == " " + ("port" + "=") && " user=" == " " + ("user" + "=")
  {
  }

  lemma PairRegroup(before: string, sep: string, name: string, value: string)
    ensures before + (sep + name) + value == before + sep + (name + value)
  {
  }

  lemma ConnPieces(host: string, port: string, user: string)
    ensures "host=" + host + " port=" + port + " user=" + user
         == "host" + "=" + host + " " + ("port" + "=" + port + " " + ("user" + "=" + user))
  {
    ConnLiterals();
    Conn("host" + "=" + host, " ", "port" + "=", port, "user" + "=", user);
  }

  lemma Conn(first: string, sep: string, b: string, y: string, c: string, z: string)
    ensures first + (sep + b) + y + (sep + c) + z == first + sep + (b + y + sep + (c + z))
  {
    PairRegroup(first, sep, b, y);
    PairRegroup(first + sep + (b + y), sep, c, z);
    assert first + sep + (b + y) + sep + (c + z) == first + sep + (b + y + sep + (c + z));
  }

  /** Host, port and user are read back if and only if the host has no blank in it. */
  lemma ConnReadExactly(host: string, port: nat, user: string)
    requires UserAllowed(user)
    ensures ReadConn("host=" + host + " port=" + Decimal(port) + " user=" + user)
            == Some([("host", host), ("port", Decimal(port)), ("user", user)])
            <==> NoConnBlank(host)
  {
    assert NoConnBlank(user);
    hide ReadConn, Decimal, UserAllowed, NoConnBlank, Lacks;
    ConnNames();
    PortPlain(port);
    ConnPieces(host, Decimal(port), user);
    ThreePairs("host", host, "port", Decimal(port), "user", user);
  }

  // ---- The requests

  /** A standby template. */
  predicate ForStandby(t: Template) {
    t.PgStandbyBootstrap? || t.PgStandbyFollow?
  }

  /** The connection that a request names: host without blanks around, port 5432 and user `nucleus` by default. */
  ghost predicate Names(p: Params, host: string, port: nat, user: string) {
    && host == Trim(p.primaryHost) && port == (if p.primaryPort == 0 then 5432 else p.primaryPort)
    && user == (if Trim(p.user) == "" then "nucleus" else Trim(p.user))
  }

  lemma StandbyDefaults(t: Template)
    requires ForStandby(t)
    ensures Connects(t) && PortByDefault(t) == 5432 && RequiresPrimaryConn(t) && DefaultUser(t).Some?
  {
  }

  lemma NormalisedNames(p: Params, t: Template)
    requires Valid(p, t) && ForStandby(t)
    ensures var v := Normalised(p, t);
            Names(p, v.primaryHost, v.primaryPort, v.user) && UserAllowed(v.user) && HostAllowed(v.primaryHost)
  {
    StandbyDefaults(t);
    hide Trim, HostAllowed, UserAllowed, Valid, Normalised, Connects, PortByDefault;
    ValidatedSafe(p, t);
    DefaultsExactly(p, t);
  }

  const DATA_DIRECTORY := "/var/lib/postgresql/data"
  const POSTGRES := "docker.io/library/postgres:16"
  const GATEWAY := "host.docker.internal:host-gateway"
  const SOURCE_SERVER := "--source-server="

  /** A command that empties the data directory of a container, the directory itself aside. */
  predicate Clears(argv: seq<string>, c: string) {
    ReadHelper(argv) == Some(Helper(c, "", POSTGRES, "find", [DATA_DIRECTORY, "-mindepth", "1", "-delete"]))
  }

  /** A command that fills it from a primary: streamed, with the standby settings, without asking for a password. */
  predicate BacksUp(argv: seq<string>, c: string, host: string, port: nat, user: string) {
    var h := ReadHelper(argv);
    && h.Some? && h == Some(Helper(c, GATEWAY, POSTGRES, "pg_basebackup", h.value.words))
    && ReadOptions(h.value.words)
       == Some([("-h", host), ("-p", Decimal(port)), ("-U", user), ("-D", DATA_DIRECTORY)]
               + [("-R", ""), ("-X", "stream"), ("--no-password", "")])
  }

  /** A command that rewinds it to a primary. */
  predicate Rewinds(argv: seq<string>, c: string, host: string, port: nat, user: string) {
    var h := ReadHelper(argv);
    && h.Some? && h == Some(Helper(c, GATEWAY, POSTGRES, "pg_rewind", h.value.words)) && |h.value.words| == 3
    && h.value.words[0] == "--target-pgdata=" + DATA_DIRECTORY && h.value.words[2] == "--no-password"
    && SOURCE_SERVER <= h.value.words[1]
    && ReadConn(h.value.words[1][|SOURCE_SERVER|..])
       == Some([("host", host), ("port", Decimal(port)), ("user", user)])
  }

  lemma LongHelper(c: string, host: string, image: string, tool: string, words: seq<string>)
    ensures ReadHelper(["run", "--rm", "--volumes-from", c, "--add-host", host, image, tool] + words)
         == Some(Helper(c, host, image, tool, words))
  {
    var argv := ["run", "--rm", "--volumes-from", c, "--add-host", host, image, tool] + words;
    assert argv[..3] == ["run", "--rm", "--volumes-from"] && argv[8..] == words;
  }

  lemma ShortHelper(c: string, image: string, tool: string, words: seq<string>)
    requires image != "--add-host"
    ensures ReadHelper(["run", "--rm", "--volumes-from", c, image, tool] + words)
         == Some(Helper(c, "", image, tool, words))
  {
    var argv := ["run", "--rm", "--volumes-from", c, image, tool] + words;
    assert argv[..3] == ["run", "--rm", "--volumes-from"] && argv[6..] == words;
  }

  lemma ClearReads(c: string)
    ensures Clears(ClearArgv(c), c)
  {
    var words := [DATA_DIRECTORY, "-mindepth", "1", "-delete"];
    assert |POSTGRES| == 29 && |"--add-host"| == 10;
    hide ReadHelper;
    ShortHelper(c, POSTGRES, "find", words);
    assert ClearArgv(c) == ["run", "--rm", "--volumes-from", c, POSTGRES, "find"] + words;
  }

  lemma BackupReads(c: string, v: Params)
    ensures BacksUp(BasebackupArgv(c, v), c, v.primaryHost, v.primaryPort, v.user)
  {
    hide ReadHelper, ReadOptions, Decimal;
    var valued := ["-h", v.primaryHost, "-p", Decimal(v.primaryPort), "-U", v.user, "-D", DATA_DIRECTORY];
    var flags := ["-R", "-X", "stream", "--no-password"];
    LongHelper(c, GATEWAY, POSTGRES, "pg_basebackup", valued + flags);
    BackupOptions(v.primaryHost, Decimal(v.primaryPort), v.user, DATA_DIRECTORY);
    assert BasebackupArgv(c, v)
        == ["run", "--rm", "--volumes-from", c, "--add-host", GATEWAY, POSTGRES, "pg_basebackup"] + (valued + flags);
  }

  lemma RewindReads(c: string, v: Params)
    requires UserAllowed(v.user)
    ensures Rewinds(RewindArgv(c, v), c, v.primaryHost, v.primaryPort, v.user) <==> NoConnBlank(v.primaryHost)
  {
    hide ReadHelper, ReadConn, Decimal, UserAllowed, NoConnBlank;
    var source := "host=" + v.primaryHost + " port=" + Decimal(v.primaryPort) + " user=" + v.user;
    var words := ["--target-pgdata=" + DATA_DIRECTORY, SOURCE_SERVER + source, "--no-password"];
    LongHelper(c, GATEWAY, POSTGRES, "pg_rewind", words);
    assert RewindArgv(c, v)
        == ["run", "--rm", "--volumes-from", c, "--add-host", GATEWAY, POSTGRES, "pg_rewind"] + words;
    assert (SOURCE_SERVER + source)[|SOURCE_SERVER|..] == source;
    ConnReadExactly(v.primaryHost, v.primaryPort, v.user);
  }

  /**
   * For accepted parameters of a standby template, the commands stop, clear, fill and start that very container from
   * the requested primary. The rewind does so too if and only if the host holds no vertical tab and no form feed, which
   * validation lets through and which end a value in a connection string.
   */
  lemma CommandsSayTheRequest(c: string, p: Params, t: Template, host: string, port: nat, user: string)
    requires Valid(p, t) && ForStandby(t) && Names(p, host, port, user)
    ensures var v := Normalised(p, t);
            && StopArgv(c) == ["stop", c] && StartArgv(c) == ["start", c] && Clears(ClearArgv(c), c)
            && BacksUp(BasebackupArgv(c, v), c, host, port, user)
            && (Rewinds(RewindArgv(c, v), c, host, port, user) <==>
                  Lacks(host, '\U{000B}') && Lacks(host, '\U{000C}'))
  {
    hide Clears, BacksUp, Rewinds, ClearArgv, BasebackupArgv, RewindArgv, UserAllowed, Valid, Normalised;
    NormalisedNames(p, t);
    ClearReads(c);
    BackupReads(c, Normalised(p, t));
    RewindReads(c, Normalised(p, t));
    AllowedBlanks(host);
  }

  /** Of the blanks that end a value, an accepted host may hold only these two. */
  lemma AllowedBlanks(host: string)
    requires HostAllowed(host)
    ensures NoConnBlank(host) <==> Lacks(host, '\U{000B}') && Lacks(host, '\U{000C}')
  {
    assert forall i :: 0 <= i < |host| ==> !Forbidden(host[i]);
  }
}
