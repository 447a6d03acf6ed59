/**
 * The SQL Server (`sqlcmd`) argument translator: one left-to-right pass
 * over sqlcmd's own flags, which accept both `-U name` and `-Uname`, fills the
 * connection descriptor, the query and the help switch, drops the flags the
 * pod supplies itself, and escapes everything else for the command line.
 */
module SqlServer {
  import opened Wrappers
  import opened Strs
  import opened DbCommander

  const Sqlcmd := "/opt/mssql-tools/bin/sqlcmd"

  const HelpCommand := "/opt/mssql-tools/bin/sqlcmd -?"

  /** Where the batch command reads its script: the ConfigMap key mounted under /sql. */
  const QueryFile := "/sql/query.sql"

  const ContainerImage := "mcr.microsoft.com/mssql-tools"

  /** Container environment variable name -> key of the basic-auth secret. */
  const SecretEnvKV: map<string, string> :=
    map["SECRET_DB_USER" := "username", "SECRET_DB_PASSWORD" := "password"]

  /** The flags that take a value, in the order parseArgs tests them. */
  datatype ValueFlag = Server | User | Password | Database | QueryLower | QueryUpper

  /** The two-character spelling of a value flag. */
  function Spelling(f: ValueFlag): string {
    match f
    case Server => "-S"
    case User => "-U"
    case Password => "-P"
    case Database => "-d"
    case QueryLower => "-q"
    case QueryUpper => "-Q"
  }

  /** What one token means, following the order of the cases in parseArgs. */
  datatype Token =
    | Help                                     // -? or --help
    | Separated(flag: ValueFlag)               // -U name: the value is the next token
    | Joined(flag: ValueFlag, value: string)   // -Uname
    | Dropped                                  // -D..., -i...: supplied by the pod
    | PassThrough(escaped: string)             // forwarded to sqlcmd, escaped
    | TooShort                                 // "-": the Go code slices past its end

  function Classify(arg: string): Token {
    if arg == "-?" || arg == "--help" then Help
    else if HasPrefix(arg, "-S") then
      (if arg == "-S" then Separated(Server) else Joined(Server, TrimPrefix(arg, "-S")))
    else if HasPrefix(arg, "-U") then
      (if arg == "-U" then Separated(User) else Joined(User, TrimPrefix(arg, "-U")))
    else if HasPrefix(arg, "-P") then
      (if arg == "-P" then Separated(Password) else Joined(Password, TrimPrefix(arg, "-P")))
    else if HasPrefix(arg, "-d") then
      (if arg == "-d" then Separated(Database) else Joined(Database, TrimPrefix(arg, "-d")))
    else if HasPrefix(arg, "-q") then
      (if arg == "-q" then Separated(QueryLower) else Joined(QueryLower, TrimPrefix(arg, "-q")))
    else if HasPrefix(arg, "-Q") then
      (if arg == "-Q" then Separated(QueryUpper) else Joined(QueryUpper, TrimPrefix(arg, "-Q")))
    else if HasPrefix(arg, "-D") then Dropped
    else if HasPrefix(arg, "-i") then Dropped
    else if HasPrefix(arg, "-") then
      (if |arg| < 2 then TooShort
       else if |arg| == 2 then PassThrough(arg)
       else PassThrough(arg[..2] + "\"" + arg[2..] + "\""))
    else PassThrough("\"" + arg + "\"")
  }

  /** The translator's state: the fields of SqlServerCommander that parseArgs fills. */
  datatype SqlServerState = SqlServerState(
    connectInfo: ConnectInfo, query: string, escapedArgs: seq<string>, help: bool)

  /** The state NewSqlServerCommander starts parsing from: no default port. */
  const Initial := SqlServerState(ConnectInfo("", "", "", "", ""), "", [], false)

  /** The host part of a `-S` value: the text before the first ',', without a leading "tcp:". */
  function HostOf(v: string): string {
    var first := Split(v, ',')[0];
    if HasPrefix(first, "tcp:") then first[4..] else first
  }

  /** The assignment one value flag performs. */
  function Assign(st: SqlServerState, f: ValueFlag, v: string): SqlServerState {
    match f
    case Server =>
      var serverPort := Split(v, ',');
      var ci := st.connectInfo.(server := HostOf(v));
      st.(connectInfo := if |serverPort| > 1 then ci.(port := serverPort[1]) else ci)
    case User => st.(connectInfo := st.connectInfo.(user := v))
    case Password => st.(connectInfo := st.connectInfo.(password := v))
    case Database => st.(connectInfo := st.connectInfo.(dbName := v))
    case QueryLower => st.(query := v)
    case QueryUpper => st.(query := v)
  }

  /** The pass over `args`, starting from `st`: the specification of ParseArgs. */
  function ParseFrom(args: seq<string>, st: SqlServerState): Result<SqlServerState, ParseError>
    decreases |args|
  {
    if args == [] then Success(st)
    else
      match Classify(args[0])
      case Help => ParseFrom(args[1..], st.(help := true))
      case Separated(f) =>
        if |args| < 2 then Failure(MissingValue(args[0]))
        else ParseFrom(args[2..], Assign(st, f, args[1]))
      case Joined(f, v) => ParseFrom(args[1..], Assign(st, f, v))
      case Dropped => ParseFrom(args[1..], st)
      case PassThrough(e) => ParseFrom(args[1..], st.(escapedArgs := st.escapedArgs + [e]))
      case TooShort => Failure(ShortFlag(args[0]))
  }

  function Parse(args: seq<string>): Result<SqlServerState, ParseError> {
    ParseFrom(args, Initial)
  }

  /** The `-S` argument: `Server,Port` when a port was given, the bare server otherwise. */
  function ServerArg(ci: ConnectInfo): string {
    if ci.port != "" then ci.server + "," + ci.port else ci.server
  }

  function ConnectionArgs(ci: ConnectInfo): seq<string> {
    [Sqlcmd, "-S", ServerArg(ci), "-U", "$SECRET_DB_USER", "-P", "$SECRET_DB_PASSWORD"]
  }

  function DatabaseArgs(ci: ConnectInfo): seq<string> {
    if ci.dbName != "" then ["-d", ci.dbName] else []
  }

  predicate IsInteractiveState(st: SqlServerState) {
    st.query == "" && !st.help
  }

  function InteractiveCommandOf(st: SqlServerState): string {
    Join(ConnectionArgs(st.connectInfo) + DatabaseArgs(st.connectInfo) + st.escapedArgs, " ")
  }

  function BatchCommandOf(st: SqlServerState): string {
    if st.help then HelpCommand
    else
      Join(ConnectionArgs(st.connectInfo) + ["-i", QueryFile]
        + DatabaseArgs(st.connectInfo) + st.escapedArgs, " ")
  }

  /** The action's argument list: `-?` when the user gave none. */
  function ActionArgs(args: seq<string>): seq<string> {
    if |args| == 0 then ["-?"] else args
  }

  class SqlServerCommander {
    var originalArgs: seq<string>
    var escapedArgs: seq<string>
    var connectInfo: ConnectInfo
    var query: string
    var help: bool

    function State(): SqlServerState
      reads this
    {
      SqlServerState(connectInfo, query, escapedArgs, help)
    }

    constructor (args: seq<string>)
      ensures originalArgs == args && State() == Initial
    {
      originalArgs := args;
      escapedArgs := [];
      connectInfo := ConnectInfo("", "", "", "", "");
      query := "";
      help := false;
    }

    /** The assignment one value flag performs; `-S` splits its value at ','. */
    method AssignFlag(f: ValueFlag, v: string)
      modifies this
      ensures originalArgs == old(originalArgs)
      ensures State() == Assign(old(State()), f, v)
    {
      match f {
        case Server =>
          var serverPort := Split(v, ',');
          if HasPrefix(serverPort[0], "tcp:") {
            serverPort := serverPort[0 := serverPort[0][4..]];
          }
          connectInfo := connectInfo.(server := serverPort[0]);
          if |serverPort| > 1 {
            connectInfo := connectInfo.(port := serverPort[1]);
          }
        case User => connectInfo := connectInfo.(user := v);
        case Password => connectInfo := connectInfo.(password := v);
        case Database => connectInfo := connectInfo.(dbName := v);
        case QueryLower => query := v;
        case QueryUpper => query := v;
      }
    }

    /** One pass over the tokens; a separated flag consumes the next token. */
    method ParseArgs(args: seq<string>) returns (err: Option<ParseError>)
      modifies this
      ensures originalArgs == old(originalArgs)
      ensures ParseFrom(args, old(State())).Success? ==>
        err == None && State() == ParseFrom(args, old(State())).value
      ensures ParseFrom(args, old(State())).Failure? ==>
        err == Some(ParseFrom(args, old(State())).error)
    {
      var i := 0;
      while i < |args|
        invariant 0 <= i <= |args|
        invariant originalArgs == old(originalArgs)
        invariant ParseFrom(args[i..], State()) == ParseFrom(args, old(State()))
        decreases |args| - i
      {
        var arg := args[i];
        ParseStep(args, i, State());
        match Classify(arg) {
          case Help =>
            help := true;
          case Separated(f) =>
            if i + 1 >= |args| {
              return Some(MissingValue(arg));
            }
            i := i + 1;
            AssignFlag(f, args[i]);
          case Joined(f, v) =>
            AssignFlag(f, v);
          case Dropped =>
          case PassThrough(e) =>
            escapedArgs := escapedArgs + [e];
          case TooShort =>
            return Some(ShortFlag(arg));
        }
        i := i + 1;
      }
      return None;
    }

    predicate IsInteractive()
      reads this
    {
      query == "" && !help
    }

    function InteractiveCommand(): string
      reads this
    {
      InteractiveCommandOf(State())
    }

    function Command(): string
      reads this
    {
      BatchCommandOf(State())
    }
  }

  /** NewSqlServerCommander; a Failure stands for the index-out-of-range the Go code hits. */
  method NewSqlServerCommander(args: seq<string>) returns (r: Result<SqlServerCommander, ParseError>)
    ensures r.Success? <==> Parse(args).Success?
    ensures r.Success? ==>
      fresh(r.value) && r.value.originalArgs == args && r.value.State() == Parse(args).value
    ensures r.Failure? ==> r.error == Parse(args).error
  {
    var c := new SqlServerCommander(args);
    var err := c.ParseArgs(args);
    if err.Some? {
      return Failure(err.value);
    }
    return Success(c);
  }

  /** One step of ParseFrom on the suffix that starts at token `i`. */
  lemma ParseStep(args: seq<string>, i: nat, st: SqlServerState)
    requires i < |args|
    ensures Classify(args[i]).Help? ==>
      ParseFrom(args[i..], st) == ParseFrom(args[i + 1..], st.(help := true))
    ensures Classify(args[i]).Separated? && i + 1 >= |args| ==>
      ParseFrom(args[i..], st) == Failure(MissingValue(args[i]))
    ensures Classify(args[i]).Separated? && i + 1 < |args| ==>
      ParseFrom(args[i..], st) == ParseFrom(args[i + 2..], Assign(st, Classify(args[i]).flag, args[i + 1]))
    ensures Classify(args[i]).Joined? ==>
      ParseFrom(args[i..], st) == ParseFrom(args[i + 1..], Assign(st, Classify(args[i]).flag, Classify(args[i]).value))
    ensures Classify(args[i]).Dropped? ==> ParseFrom(args[i..], st) == ParseFrom(args[i + 1..], st)
    ensures Classify(args[i]).PassThrough? ==>
      ParseFrom(args[i..], st) == ParseFrom(args[i + 1..], st.(escapedArgs := st.escapedArgs + [Classify(args[i]).escaped]))
    ensures Classify(args[i]).TooShort? ==> ParseFrom(args[i..], st) == Failure(ShortFlag(args[i]))
  {
    assert args[i..][0] == args[i];
    assert args[i..][1..] == args[i + 1..];
    if i + 1 < |args| {
      assert args[i..][1] == args[i + 1] && args[i..][2..] == args[i + 2..];
    }
  }

  /** The pass over `a + b` is the pass over `b` resumed from where `a` left off. */
  lemma {:induction false} ParseAppend(a: seq<string>, b: seq<string>, st: SqlServerState)
    requires ParseFrom(a, st).Success?
    ensures ParseFrom(a + b, st) == ParseFrom(b, ParseFrom(a, st).value)
    decreases |a|
  {
    if a == [] {
      assert a + b == b;
    } else {
      assert (a + b)[0] == a[0];
      match Classify(a[0])
      case Help =>
        assert (a + b)[1..] == a[1..] + b;
        ParseAppend(a[1..], b, st.(help := true));
      case Separated(f) =>
        assert (a + b)[1] == a[1] && (a + b)[2..] == a[2..] + b;
        ParseAppend(a[2..], b, Assign(st, f, a[1]));
      case Joined(f, v) =>
        assert (a + b)[1..] == a[1..] + b;
        ParseAppend(a[1..], b, Assign(st, f, v));
      case Dropped =>
        assert (a + b)[1..] == a[1..] + b;
        ParseAppend(a[1..], b, st);
      case PassThrough(e) =>
        assert (a + b)[1..] == a[1..] + b;
        ParseAppend(a[1..], b, st.(escapedArgs := st.escapedArgs + [e]));
    }
  }

  /** A value flag is recognised alone as the separated form and with text attached as the joined form. */
  lemma ClassifyValueFlag(f: ValueFlag, v: string)
    ensures Classify(Spelling(f)) == Separated(f)
    ensures v != "" ==> Classify(Spelling(f) + v) == Joined(f, v)
  {
    var a := Spelling(f) + v;
    assert a[..2] == Spelling(f) && a[2..] == v;
    assert a[0] == '-' && a[1] == Spelling(f)[1];
    if v != "" {
      assert a != "-?";
      DiffersAt(a, "--help", 1);
      match f
      case Server =>
      case User => DiffersAt(a, "-S", 1);
      case Password => DiffersAt(a, "-S", 1); DiffersAt(a, "-U", 1);
      case Database => DiffersAt(a, "-S", 1); DiffersAt(a, "-U", 1); DiffersAt(a, "-P", 1);
      case QueryLower =>
        DiffersAt(a, "-S", 1); DiffersAt(a, "-U", 1); DiffersAt(a, "-P", 1); DiffersAt(a, "-d", 1);
      case QueryUpper =>
        DiffersAt(a, "-S", 1); DiffersAt(a, "-U", 1); DiffersAt(a, "-P", 1); DiffersAt(a, "-d", 1);
        DiffersAt(a, "-q", 1);
    }
  }

  /** `-U name` and `-Uname` (and likewise for every value flag) parse the same. */
  lemma SeparatedAndJoinedAgree(f: ValueFlag, v: string, rest: seq<string>, st: SqlServerState)
    requires v != ""
    ensures ParseFrom([Spelling(f), v] + rest, st) == ParseFrom([Spelling(f) + v] + rest, st)
  {
    ClassifyValueFlag(f, v);
    assert ([Spelling(f), v] + rest)[2..] == rest;
    assert ([Spelling(f) + v] + rest)[1..] == rest;
  }

  /** Appending a value flag to a well-formed argument list performs its assignment last. */
  lemma ValueFlagAppended(a: seq<string>, f: ValueFlag, x: string)
    requires Parse(a).Success?
    ensures Parse(a + [Spelling(f), x]) == Success(Assign(Parse(a).value, f, x))
  {
    ParseAppend(a, [Spelling(f), x], Initial);
    ClassifyValueFlag(f, x);
    assert [Spelling(f), x][2..] == [];
  }

  /**
   * A separated flag written as the last token has no value, and a lone "-"
   * has no second character: the pass fails at either (the Go code indexes
   * past the end of the list, or slices past the end of the token).
   */
  lemma ParseFailures(a: seq<string>, f: ValueFlag, b: seq<string>)
    requires Parse(a).Success?
    ensures Parse(a + [Spelling(f)]) == Failure(MissingValue(Spelling(f)))
    ensures Parse(a + ["-"] + b) == Failure(ShortFlag("-"))
  {
    ClassifyValueFlag(f, "");
    ParseAppend(a, [Spelling(f)], Initial);
    assert a + ["-"] + b == a + (["-"] + b);
    ParseAppend(a, ["-"] + b, Initial);
    assert Classify("-") == TooShort;
    assert (["-"] + b)[0] == "-";
  }

  /** A later -U/-P/-d/-q/-Q overrides any earlier one; -q and -Q set the same query. */
  lemma LastOccurrenceWins(st: SqlServerState, f: ValueFlag, g: ValueFlag, x: string, y: string)
    requires f != Server
    requires f == g || (f in {QueryLower, QueryUpper} && g in {QueryLower, QueryUpper})
    ensures Assign(Assign(st, f, x), g, y) == Assign(st, g, y)
    ensures Assign(st, QueryLower, y) == Assign(st, QueryUpper, y)
  {
  }

  /** The connection field or the query that a value flag writes (`-S` writes the server, and the port only when given). */
  function FieldOf(st: SqlServerState, f: ValueFlag): string {
    match f
    case Server => st.connectInfo.server
    case User => st.connectInfo.user
    case Password => st.connectInfo.password
    case Database => st.connectInfo.dbName
    case QueryLower => st.query
    case QueryUpper => st.query
  }

  /** `a` is a spelling of a flag that writes `f`'s field: `-q` and `-Q` share the query. */
  predicate SpellsField(a: string, f: ValueFlag) {
    if f == QueryLower || f == QueryUpper then HasPrefix(a, "-q") || HasPrefix(a, "-Q")
    else HasPrefix(a, Spelling(f))
  }

  /** A token that spells no flag writing `f`'s field leaves that field alone, whatever it does. */
  lemma TokenKeepsField(a: string, v: string, st: SqlServerState, f: ValueFlag)
    requires !SpellsField(a, f)
    ensures Classify(a).Separated? ==> FieldOf(Assign(st, Classify(a).flag, v), f) == FieldOf(st, f)
    ensures Classify(a).Joined? ==> FieldOf(Assign(st, Classify(a).flag, Classify(a).value), f) == FieldOf(st, f)
  {
    if Classify(a).Separated? || Classify(a).Joined? {
      var g := Classify(a).flag;
      assert HasPrefix(a, Spelling(g));
      assert g != f && !(f in {QueryLower, QueryUpper} && g in {QueryLower, QueryUpper});
    }
  }

  /** A field that no token spells keeps the value it had before the pass. */
  lemma {:induction false} UnspelledFieldKept(args: seq<string>, st: SqlServerState, f: ValueFlag)
    requires forall i :: 0 <= i < |args| ==> !SpellsField(args[i], f)
    requires ParseFrom(args, st).Success?
    ensures FieldOf(ParseFrom(args, st).value, f) == FieldOf(st, f)
    decreases |args|
  {
    if args != [] {
      var t := Classify(args[0]);
      assert forall i :: 0 <= i < |args[1..]| ==> args[1..][i] == args[i + 1];
      if t.Help? {
        UnspelledFieldKept(args[1..], st.(help := true), f);
      } else if t.Separated? {
        TokenKeepsField(args[0], args[1], st, f);
        assert forall i :: 0 <= i < |args[2..]| ==> args[2..][i] == args[i + 2];
        UnspelledFieldKept(args[2..], Assign(st, t.flag, args[1]), f);
      } else if t.Joined? {
        TokenKeepsField(args[0], "", st, f);
        UnspelledFieldKept(args[1..], Assign(st, t.flag, t.value), f);
      } else if t.Dropped? {
        UnspelledFieldKept(args[1..], st, f);
      } else if t.PassThrough? {
        UnspelledFieldKept(args[1..], st.(escapedArgs := st.escapedArgs + [t.escaped]), f);
      }
    }
  }

  /**
   * The last flag writing a field decides it, whatever tokens follow that
   * do not spell such a flag; the joined spelling agrees with the separated one.
   */
  lemma LastFlagWins(a: seq<string>, f: ValueFlag, x: string, b: seq<string>)
    requires Parse(a).Success?
    requires forall i :: 0 <= i < |b| ==> !SpellsField(b[i], f)
    ensures Parse(a + [Spelling(f), x] + b) == ParseFrom(b, Assign(Parse(a).value, f, x))
    ensures Parse(a + [Spelling(f), x] + b).Success? ==>
      FieldOf(Parse(a + [Spelling(f), x] + b).value, f) == if f == Server then HostOf(x) else x
    ensures x != "" ==> Parse(a + [Spelling(f) + x] + b) == Parse(a + [Spelling(f), x] + b)
  {
    var st := Parse(a).value;
    assert a + [Spelling(f), x] + b == a + ([Spelling(f), x] + b);
    ParseAppend(a, [Spelling(f), x] + b, Initial);
    ClassifyValueFlag(f, x);
    assert ([Spelling(f), x] + b)[0] == Spelling(f);
    assert ([Spelling(f), x] + b)[1] == x;
    assert ([Spelling(f), x] + b)[2..] == b;
    var r := ParseFrom(b, Assign(st, f, x));
    if r.Success? {
      UnspelledFieldKept(b, Assign(st, f, x), f);
    }
    if x != "" {
      assert a + [Spelling(f) + x] + b == a + ([Spelling(f) + x] + b);
      ParseAppend(a, [Spelling(f) + x] + b, Initial);
      assert ([Spelling(f) + x] + b)[0] == Spelling(f) + x;
      assert ([Spelling(f) + x] + b)[1..] == b;
    }
  }

  /** A later `-S` without a port replaces the server but keeps the port an earlier `-S` gave. */
  lemma LaterServerWithoutPortKeepsPort(st: SqlServerState, h: string, p: string, h2: string)
    requires ',' !in h && ',' !in p && ',' !in h2
    requires !HasPrefix(h, "tcp:") && !HasPrefix(h2, "tcp:")
    ensures Assign(Assign(st, Server, h + "," + p), Server, h2).connectInfo
      == st.connectInfo.(server := h2, port := p)
  {
    ServerWithPort(st, h, p);
    ServerWithoutPort(Assign(st, Server, h + "," + p), h2);
  }

  /** `-S host,port` sets both, a leading "tcp:" is stripped from the host, and nothing else changes. */
  lemma ServerWithPort(st: SqlServerState, h: string, p: string)
    requires ',' !in h && ',' !in p
    ensures !HasPrefix(h, "tcp:") ==>
      Assign(st, Server, h + "," + p) == st.(connectInfo := st.connectInfo.(server := h, port := p))
    ensures Assign(st, Server, "tcp:" + h + "," + p) == Assign(st, Server, h + "," + p)
      || HasPrefix(h, "tcp:")
  {
    ServerValuePieces(h, p);
    var t := "tcp:" + h;
    assert ',' !in t;
    ServerValuePieces(t, p);
    assert HasPrefix(t, "tcp:") && t[4..] == h;
  }

  /** A `host,port` value with comma-free parts splits into exactly those parts. */
  lemma ServerValuePieces(h: string, p: string)
    requires ',' !in h && ',' !in p
    ensures |Split(h + "," + p, ',')| >= 2
    ensures Split(h + "," + p, ',')[0] == h && Split(h + "," + p, ',')[1] == p
  {
    assert h + [','] + p == h + "," + p;
    SplitAtFirst(h, ',', p);
    SplitWithoutSep(p, ',');
  }

  /** `-S host` sets the server only: a port from an earlier `-S` survives. */
  lemma ServerWithoutPort(st: SqlServerState, h: string)
    requires ',' !in h
    ensures !HasPrefix(h, "tcp:") ==>
      Assign(st, Server, h) == st.(connectInfo := st.connectInfo.(server := h))
    ensures HasPrefix(h, "tcp:") ==>
      Assign(st, Server, h) == st.(connectInfo := st.connectInfo.(server := h[4..]))
  {
    SplitWithoutSep(h, ',');
  }

  /**
   * The `-S` argument the commands print parses back to the same server and
   * port, for a server name without ',' or a "tcp:" prefix.
   */
  lemma ServerArgRoundTrip(st: SqlServerState, ci: ConnectInfo)
    requires ',' !in ci.server && ',' !in ci.port && !HasPrefix(ci.server, "tcp:")
    ensures ci.port != "" ==>
      Assign(st, Server, ServerArg(ci)).connectInfo == st.connectInfo.(server := ci.server, port := ci.port)
    ensures ci.port == "" ==>
      Assign(st, Server, ServerArg(ci)).connectInfo == st.connectInfo.(server := ci.server)
  {
    if ci.port != "" {
      ServerWithPort(st, ci.server, ci.port);
    } else {
      ServerWithoutPort(st, ci.server);
    }
  }

  /** `-D...` and `-i...` are dropped: the pod supplies the input file and takes no DSN. */
  lemma DroppedFlags(d: string, rest: seq<string>, st: SqlServerState)
    requires HasPrefix(d, "-D") || HasPrefix(d, "-i")
    ensures ParseFrom([d] + rest, st) == ParseFrom(rest, st)
  {
    assert d[0] == '-' && (d[1] == 'D' || d[1] == 'i');
    assert d != "-?";
    DiffersAt(d, "--help", 1);
    DiffersAt(d, "-S", 1); DiffersAt(d, "-U", 1); DiffersAt(d, "-P", 1);
    DiffersAt(d, "-d", 1); DiffersAt(d, "-q", 1); DiffersAt(d, "-Q", 1);
    if d[1] == 'i' {
      DiffersAt(d, "-D", 1);
    }
    assert ([d] + rest)[1..] == rest;
  }
  /**
   * A dropped flag does not consume the next token: a value written after
   * it (`-D x`) is forwarded to sqlcmd as a quoted positional.
   */
  lemma DroppedFlagValueForwarded(d: string, v: string, rest: seq<string>, st: SqlServerState)
    requires HasPrefix(d, "-D") || HasPrefix(d, "-i")
    requires !HasPrefix(v, "-")
    ensures ParseFrom([d, v] + rest, st)
      == ParseFrom(rest, st.(escapedArgs := st.escapedArgs + ["\"" + v + "\""]))
  {
    assert [d, v] + rest == [d] + ([v] + rest);
    DroppedFlags(d, [v] + rest, st);
    PositionalIsQuoted(v);
    assert ([v] + rest)[0] == v && ([v] + rest)[1..] == rest;
  }

  /** A token that does not start with '-' is forwarded in double quotes. */
  lemma PositionalIsQuoted(v: string)
    requires !HasPrefix(v, "-")
    ensures Classify(v) == PassThrough("\"" + v + "\"")
  {
    if |v| >= 1 {
      assert v[..1] == [v[0]];
      DiffersAt(v, "-S", 0); DiffersAt(v, "-U", 0); DiffersAt(v, "-P", 0);
      DiffersAt(v, "-d", 0); DiffersAt(v, "-q", 0); DiffersAt(v, "-Q", 0);
      DiffersAt(v, "-D", 0); DiffersAt(v, "-i", 0);
      assert v != "-?" && v != "--help";
    }
  }

  /** Removes the quotes the escaping adds. */
  function Unescape(e: string): string {
    if |e| >= 2 && e[0] == '"' then e[1..|e| - 1]
    else if |e| >= 4 then e[..2] + e[3..|e| - 1]
    else e
  }

  /** Escaping loses nothing: every forwarded token's text is recovered by removing the quotes. */
  lemma EscapingRoundTrip(a: string)
    requires Classify(a).PassThrough?
    ensures Unescape(Classify(a).escaped) == a
  {
    PassThroughForm(a);
    if !HasPrefix(a, "-") {
      UnescapeQuoted(a);
    } else if |a| > 2 {
      UnescapeDashed(a);
    }
  }

  /** How a forwarded token is escaped: quoted whole, or quoted after its two-character flag. */
  lemma PassThroughForm(a: string)
    requires Classify(a).PassThrough?
    ensures !HasPrefix(a, "-") ==> Classify(a).escaped == "\"" + a + "\""
    ensures HasPrefix(a, "-") ==> |a| >= 2 && a[0] == '-'
    ensures HasPrefix(a, "-") && |a| == 2 ==> Classify(a).escaped == a
    ensures HasPrefix(a, "-") && |a| > 2 ==> Classify(a).escaped == a[..2] + "\"" + a[2..] + "\""
  {
    if HasPrefix(a, "-") {
      assert a[..1][0] == a[0];
    }
  }

  lemma UnescapeQuoted(a: string)
    ensures Unescape("\"" + a + "\"") == a
  {
    var e := "\"" + a + "\"";
    assert e[1..|e| - 1] == a;
  }

  lemma UnescapeDashed(a: string)
    requires |a| > 2 && a[0] == '-'
    ensures Unescape(a[..2] + "\"" + a[2..] + "\"") == a
  {
    var e := a[..2] + "\"" + a[2..] + "\"";
    assert e[0] == '-';
    assert e[..2] == a[..2] && e[3..|e| - 1] == a[2..];
    assert a[..2] + a[2..] == a;
  }

  /** Once a help flag has been seen the pass keeps the help switch on. */
  lemma {:induction false} HelpSticky(args: seq<string>, st: SqlServerState)
    requires st.help && ParseFrom(args, st).Success?
    ensures ParseFrom(args, st).value.help
    decreases |args|
  {
    if args != [] {
      match Classify(args[0])
      case Help => HelpSticky(args[1..], st.(help := true));
      case Separated(f) => HelpSticky(args[2..], Assign(st, f, args[1]));
      case Joined(f, v) => HelpSticky(args[1..], Assign(st, f, v));
      case Dropped => HelpSticky(args[1..], st);
      case PassThrough(e) => HelpSticky(args[1..], st.(escapedArgs := st.escapedArgs + [e]));
    }
  }

  /** A `-?` anywhere makes the run a batch run of `sqlcmd -?`, whatever else is given. */
  lemma HelpAnywhere(a: seq<string>, b: seq<string>)
    requires Parse(a).Success?
    requires Parse(a + ["-?"] + b).Success?
    ensures !IsInteractiveState(Parse(a + ["-?"] + b).value)
    ensures BatchCommandOf(Parse(a + ["-?"] + b).value) == HelpCommand
  {
    assert a + ["-?"] + b == a + (["-?"] + b);
    ParseAppend(a, ["-?"] + b, Initial);
    assert (["-?"] + b)[0] == "-?" && (["-?"] + b)[1..] == b;
    HelpSticky(b, Parse(a).value.(help := true));
  }

  /** Without a help flag and without a query flag the run is interactive. */
  lemma {:induction false} NoQueryNoHelpIsInteractive(args: seq<string>, st: SqlServerState)
    requires forall i :: 0 <= i < |args| ==> NeitherQueryNorHelp(args[i])
    requires IsInteractiveState(st)
    requires ParseFrom(args, st).Success?
    ensures IsInteractiveState(ParseFrom(args, st).value)
    decreases |args|
  {
    if args != [] {
      var t := Classify(args[0]);
      KeepsInteractive(args[0]);
      assert forall i :: 0 <= i < |args[1..]| ==> args[1..][i] == args[i + 1];
      if t.Separated? {
        assert forall i :: 0 <= i < |args[2..]| ==> args[2..][i] == args[i + 2];
        NoQueryNoHelpIsInteractive(args[2..], Assign(st, t.flag, args[1]));
      } else if t.Joined? {
        NoQueryNoHelpIsInteractive(args[1..], Assign(st, t.flag, t.value));
      } else if t.Dropped? {
        NoQueryNoHelpIsInteractive(args[1..], st);
      } else if t.PassThrough? {
        NoQueryNoHelpIsInteractive(args[1..], st.(escapedArgs := st.escapedArgs + [t.escaped]));
      }
    }
  }

  /** A token that is neither a help flag nor a query flag. */
  predicate NeitherQueryNorHelp(a: string) {
    a != "-?" && a != "--help" && !HasPrefix(a, "-q") && !HasPrefix(a, "-Q")
  }

  /** Such a token is not a help request and sets no query. */
  lemma KeepsInteractive(a: string)
    requires NeitherQueryNorHelp(a)
    ensures !Classify(a).Help?
    ensures Classify(a).Separated? || Classify(a).Joined? ==>
      Classify(a).flag != QueryLower && Classify(a).flag != QueryUpper
  {
  }

  lemma ConnectionArgsJoined(ci: ConnectInfo)
    ensures Join(ConnectionArgs(ci), " ") ==
      Sqlcmd + " " + "-S" + " " + ServerArg(ci) + " " + "-U" + " " + "$SECRET_DB_USER"
      + " " + "-P" + " " + "$SECRET_DB_PASSWORD"
  {
    JoinSeven(Sqlcmd, "-S", ServerArg(ci), "-U", "$SECRET_DB_USER", "-P", "$SECRET_DB_PASSWORD", " ");
  }

  /**
   * The batch command is the interactive command with `-i /sql/query.sql`
   * inserted after the credentials, unless help was asked for.
   */
  lemma CommandLayout(st: SqlServerState)
    ensures var base := Join(ConnectionArgs(st.connectInfo), " ");
      var tail := DatabaseArgs(st.connectInfo) + st.escapedArgs;
      var rest := if tail == [] then "" else " " + Join(tail, " ");
      InteractiveCommandOf(st) == base + rest
      && (!st.help ==> BatchCommandOf(st) == base + " " + "-i" + " " + QueryFile + rest)
  {
    var ci := st.connectInfo;
    var base := ConnectionArgs(ci);
    var tail := DatabaseArgs(ci) + st.escapedArgs;
    var input := ["-i", QueryFile];
    JoinCons("-i", [QueryFile], " ");
    assert base + DatabaseArgs(ci) + st.escapedArgs == base + tail;
    assert base + input + DatabaseArgs(ci) + st.escapedArgs == base + input + tail;
    JoinAround(base, input, tail, " ");
  }

  /** Joining `base`, an optional middle and `tail` puts one separator between non-empty parts. */
  lemma JoinAround(base: seq<string>, input: seq<string>, tail: seq<string>, sep: string)
    requires |base| >= 1 && |input| >= 1
    ensures var rest := if tail == [] then "" else sep + Join(tail, sep);
      Join(base + tail, sep) == Join(base, sep) + rest
      && Join(base + input + tail, sep) == Join(base, sep) + sep + Join(input, sep) + rest
  {
    JoinAppend(base, input, sep);
    JoinOptional(base, tail, sep);
    JoinOptional(base + input, tail, sep);
  }

  /** The password never reaches either command line; the client reads it from SECRET_DB_PASSWORD. */
  lemma CommandsOmitPassword(st: SqlServerState, password: string)
    ensures var other := st.(connectInfo := st.connectInfo.(password := password));
      InteractiveCommandOf(other) == InteractiveCommandOf(st) && BatchCommandOf(other) == BatchCommandOf(st)
    ensures SecretEnvKV["SECRET_DB_PASSWORD"] == "password"
  {
  }

  /** With no arguments the action runs `sqlcmd -?` as a batch run. */
  lemma NoArgumentsRunsHelp()
    ensures Parse(ActionArgs([])) == Success(Initial.(help := true))
    ensures !IsInteractiveState(Parse(ActionArgs([])).value)
    ensures BatchCommandOf(Parse(ActionArgs([])).value) == HelpCommand
  {
    assert ["-?"][1..] == [];
  }
}
