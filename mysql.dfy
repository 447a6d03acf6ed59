/**
 * The MySQL argument translator: one left-to-right pass over the client's
 * own flags that fills the connection descriptor and the query and keeps
 * every other flag, escaped for the shell, for the `mysql` command line.
 */
module Mysql {
  import opened Wrappers
  import opened Strs
  import opened DbCommander

  const DefaultPort := "3306"

  /** Where the batch command reads its script: the ConfigMap key mounted under /sql. */
  const QueryFile := "/sql/query.sql"

  const ContainerImage := "mysql:8.0"

  /** Container environment variable name -> key of the basic-auth secret. */
  const SecretEnvKV: map<string, string> := map["SECRET_DB_USER" := "username", "MYSQL_PWD" := "password"]

  /** The descriptor field, or the query, that a recognised flag sets. */
  datatype Target = Host | Port | User | Password | Database | Execute

  /** The short spelling of a recognised flag (value in the next token). */
  function ShortFlag(t: Target): string {
    match t
    case Host => "-h"
    case Port => "-P"
    case User => "-u"
    case Password => "-p"
    case Database => "-D"
    case Execute => "-e"
  }

  /** The long spelling; `LongFlag(t) + "=" + value` is the joined form. */
  function LongFlag(t: Target): string {
    match t
    case Host => "--host"
    case Port => "--port"
    case User => "--user"
    case Password => "--password"
    case Database => "--database"
    case Execute => "--execute"
  }

  /** The prefix of the joined form, `LongFlag(t) + "="`. */
  function JoinedPrefix(t: Target): (p: string)
    ensures p == LongFlag(t) + "="
  {
    match t
    case Host => "--host="
    case Port => "--port="
    case User => "--user="
    case Password => "--password="
    case Database => "--database="
    case Execute => "--execute="
  }

  /** `arg` is one of the spellings of target `t`. */
  predicate Spells(arg: string, t: Target) {
    arg == ShortFlag(t) || arg == LongFlag(t) || HasPrefix(arg, JoinedPrefix(t))
  }

  /** A token that starts with `p` has the characters of `p` at their positions. */
  lemma PrefixChars(a: string, p: string)
    requires HasPrefix(a, p)
    ensures forall k :: 0 <= k < |p| ==> a[k] == p[k]
  {
    forall k | 0 <= k < |p| ensures a[k] == p[k] {
      assert a[..|p|][k] == a[k];
    }
  }

  /** What one token means, following the order of the cases in parseArgs. */
  datatype Token =
    | Separated(target: Target)             // the value is the next token
    | Joined(target: Target, value: string)  // --flag=value
    | PassThrough(escaped: string)           // forwarded to the client, escaped

  /** The value of a joined token: the text between its first and second '='. */
  function JoinedValue(arg: string, prefix: string): string
    requires HasPrefix(arg, prefix) && |prefix| > 0 && prefix[|prefix| - 1] == '='
  {
    assert arg[..|prefix|][|prefix| - 1] == arg[|prefix| - 1];
    Split(arg, '=')[1]
  }

  function Classify(arg: string): Token {
    if arg == "-h" || arg == "--host" then Separated(Host)
    else if HasPrefix(arg, "--host=") then Joined(Host, JoinedValue(arg, "--host="))
    else if arg == "-P" || arg == "--port" then Separated(Port)
    else if HasPrefix(arg, "--port=") then Joined(Port, JoinedValue(arg, "--port="))
    else if arg == "-u" || arg == "--user" then Separated(User)
    else if HasPrefix(arg, "--user=") then Joined(User, JoinedValue(arg, "--user="))
    else if arg == "-p" || arg == "--password" then Separated(Password)
    else if HasPrefix(arg, "--password=") then Joined(Password, JoinedValue(arg, "--password="))
    else if arg == "-D" || arg == "--database" then Separated(Database)
    else if HasPrefix(arg, "--database=") then Joined(Database, JoinedValue(arg, "--database="))
    else if HasPrefix(arg, "--execute=") then Joined(Execute, JoinedValue(arg, "--execute="))
    else if arg == "-e" || arg == "--execute" then Separated(Execute)
    else if HasPrefix(arg, "--") && '=' in arg then
      var parts := Split(arg, '=');
      PassThrough(parts[0] + "=\"" + parts[1] + "\"")
    else if HasPrefix(arg, "-") then PassThrough(arg)
    else PassThrough("\"" + arg + "\"")
  }

  /** The translator's state: the fields of MysqlCommander that parseArgs fills. */
  datatype MysqlState = MysqlState(connectInfo: ConnectInfo, query: string, escapedArgs: seq<string>)

  /** The state NewMysqlCommander starts parsing from. */
  const Initial := MysqlState(ConnectInfo("", DefaultPort, "", "", ""), "", [])

  function Field(st: MysqlState, t: Target): string {
    match t
    case Host => st.connectInfo.server
    case Port => st.connectInfo.port
    case User => st.connectInfo.user
    case Password => st.connectInfo.password
    case Database => st.connectInfo.dbName
    case Execute => st.query
  }

  /** Assigns `v` to the field of target `t`. */
  function Set(st: MysqlState, t: Target, v: string): (r: MysqlState)
    ensures Field(r, t) == v && r.escapedArgs == st.escapedArgs
    ensures forall u :: u != t ==> Field(r, u) == Field(st, u)
  {
    match t
    case Host => st.(connectInfo := st.connectInfo.(server := v))
    case Port => st.(connectInfo := st.connectInfo.(port := v))
    case User => st.(connectInfo := st.connectInfo.(user := v))
    case Password => st.(connectInfo := st.connectInfo.(password := v))
    case Database => st.(connectInfo := st.connectInfo.(dbName := v))
    case Execute => st.(query := v)
  }

  /** The pass over `args`, starting from `st`: the specification of ParseArgs. */
  function ParseFrom(args: seq<string>, st: MysqlState): Result<MysqlState, ParseError>
    decreases |args|
  {
    if args == [] then Success(st)
    else
      match Classify(args[0])
      case Separated(t) =>
        if |args| < 2 then Failure(MissingValue(args[0]))
        else ParseFrom(args[2..], Set(st, t, args[1]))
      case Joined(t, v) => ParseFrom(args[1..], Set(st, t, v))
      case PassThrough(e) => ParseFrom(args[1..], st.(escapedArgs := st.escapedArgs + [e]))
  }

  function Parse(args: seq<string>): Result<MysqlState, ParseError> {
    ParseFrom(args, Initial)
  }

  /** The fixed part of both command lines; `-D` only when a database was given. */
  function ConnectionArgs(ci: ConnectInfo): seq<string> {
    ["mysql", "-h", ci.server, "-P", ci.port, "-u", "$SECRET_DB_USER"]
      + (if ci.dbName != "" then ["-D", ci.dbName] else [])
  }

  function InteractiveCommandOf(st: MysqlState): string {
    Join(ConnectionArgs(st.connectInfo) + st.escapedArgs, " ")
  }

  function BatchCommandOf(st: MysqlState): string {
    Join(ConnectionArgs(st.connectInfo) + st.escapedArgs, " ") + " < " + QueryFile
  }

  /** The action's argument list: `--help` when the user gave none. */
  function ActionArgs(args: seq<string>): seq<string> {
    if |args| == 0 then ["--help"] else args
  }

  class MysqlCommander {
    var originalArgs: seq<string>
    var escapedArgs: seq<string>
    var connectInfo: ConnectInfo
    var query: string

    function State(): MysqlState
      reads this
    {
      MysqlState(connectInfo, query, escapedArgs)
    }

    constructor (args: seq<string>)
      ensures originalArgs == args && State() == Initial
    {
      originalArgs := args;
      escapedArgs := [];
      connectInfo := ConnectInfo("", DefaultPort, "", "", "");
      query := "";
    }

    /** The assignment one recognised flag performs. */
    method Assign(t: Target, v: string)
      modifies this
      ensures originalArgs == old(originalArgs)
      ensures State() == Set(old(State()), t, v)
    {
      match t
      case Host => connectInfo := connectInfo.(server := v);
      case Port => connectInfo := connectInfo.(port := v);
      case User => connectInfo := connectInfo.(user := v);
      case Password => connectInfo := connectInfo.(password := v);
      case Database => connectInfo := connectInfo.(dbName := v);
      case Execute => query := v;
    }

    /** One pass over the tokens; a separated flag consumes the next token. */
    method ParseArgs(args: seq<string>) returns (err: Option<ParseError>)
      modifies this
      ensures originalArgs == old(originalArgs)
      ensures ParseFrom(args, old(State())).Success? ==>
        err == None && State() == ParseFrom(args, old(State())).value
      ensures ParseFrom(args, old(State())).Failure? ==>
        err == Some(ParseFrom(args, old(State())).error)
    {
      var i := 0;
      while i < |args|
        invariant 0 <= i <= |args|
        invariant originalArgs == old(originalArgs)
        invariant ParseFrom(args[i..], State()) == ParseFrom(args, old(State()))
        decreases |args| - i
      {
        var arg := args[i];
        ParseStep(args, i, State());
        match Classify(arg) {
          case Separated(t) =>
            if i + 1 >= |args| {
              return Some(MissingValue(arg));
            }
            i := i + 1;
            Assign(t, args[i]);
          case Joined(t, v) =>
            Assign(t, v);
          case PassThrough(e) =>
            escapedArgs := escapedArgs + [e];
        }
        i := i + 1;
      }
      return None;
    }

    predicate IsInteractive()
      reads this
    {
      query == ""
    }

    function InteractiveCommand(): string
      reads this
    {
      InteractiveCommandOf(State())
    }

    function Command(): string
      reads this
    {
      BatchCommandOf(State())
    }
  }

  /** NewMysqlCommander; a Failure stands for the index-out-of-range the Go code hits. */
  method NewMysqlCommander(args: seq<string>) returns (r: Result<MysqlCommander, ParseError>)
    ensures r.Success? <==> Parse(args).Success?
    ensures r.Success? ==>
      fresh(r.value) && r.value.originalArgs == args && r.value.State() == Parse(args).value
    ensures r.Failure? ==> r.error == Parse(args).error
  {
    var c := new MysqlCommander(args);
    var err := c.ParseArgs(args);
    if err.Some? {
      return Failure(err.value);
    }
    return Success(c);
  }

  /** One step of ParseFrom on the suffix that starts at token `i`. */
  lemma ParseStep(args: seq<string>, i: nat, st: MysqlState)
    requires i < |args|
    ensures Classify(args[i]).Separated? && i + 1 >= |args| ==>
      ParseFrom(args[i..], st) == Failure(MissingValue(args[i]))
    ensures Classify(args[i]).Separated? && i + 1 < |args| ==>
      ParseFrom(args[i..], st) == ParseFrom(args[i + 2..], Set(st, Classify(args[i]).target, args[i + 1]))
    ensures Classify(args[i]).Joined? ==>
      ParseFrom(args[i..], st) == ParseFrom(args[i + 1..], Set(st, Classify(args[i]).target, Classify(args[i]).value))
    ensures Classify(args[i]).PassThrough? ==>
      ParseFrom(args[i..], st) == ParseFrom(args[i + 1..], st.(escapedArgs := st.escapedArgs + [Classify(args[i]).escaped]))
  {
    assert args[i..][0] == args[i];
    assert args[i..][1..] == args[i + 1..];
    if i + 1 < |args| {
      assert args[i..][1] == args[i + 1] && args[i..][2..] == args[i + 2..];
    }
  }

  /** Parsing a complete prefix and then the rest is parsing the whole list. */
  lemma {:induction false} ParseAppend(a: seq<string>, b: seq<string>, st: MysqlState)
    requires ParseFrom(a, st).Success?
    ensures ParseFrom(a + b, st) == ParseFrom(b, ParseFrom(a, st).value)
    decreases |a|
  {
    if a == [] {
      assert a + b == b;
    } else {
      assert (a + b)[0] == a[0];
      match Classify(a[0])
      case Separated(t) =>
        assert (a + b)[1] == a[1] && (a + b)[2..] == a[2..] + b;
        ParseAppend(a[2..], b, Set(st, t, a[1]));
      case Joined(t, v) =>
        assert (a + b)[1..] == a[1..] + b;
        ParseAppend(a[1..], b, Set(st, t, v));
      case PassThrough(e) =>
        assert (a + b)[1..] == a[1..] + b;
        ParseAppend(a[1..], b, st.(escapedArgs := st.escapedArgs + [e]));
    }
  }

  /**
   * A token is recognised exactly when it spells one of the six targets;
   * a separated token is the short or long flag of its target, and a joined
   * one starts with its joined prefix and carries the text between its
   * first and second '='.
   */
  lemma ClassifyMeaning(a: string)
    ensures Classify(a).PassThrough? <==> forall t :: !Spells(a, t)
    ensures Classify(a).Separated? ==>
      a == ShortFlag(Classify(a).target) || a == LongFlag(Classify(a).target)
    ensures Classify(a).Joined? ==>
      HasPrefix(a, JoinedPrefix(Classify(a).target)) && '=' in a
      && Classify(a).value == Split(a, '=')[1]
  {
    if Classify(a).PassThrough? {
      forall t ensures !Spells(a, t) {
        UnrecognisedSpellsNothing(a, t);
      }
    } else if Classify(a).Joined? {
      JoinedTokenMeaning(a);
    } else {
      SeparatedTokenMeaning(a);
    }
  }

  /** A separated token is the short or the long flag of its target. */
  lemma SeparatedTokenMeaning(a: string)
    requires Classify(a).Separated?
    ensures a == ShortFlag(Classify(a).target) || a == LongFlag(Classify(a).target)
    ensures Spells(a, Classify(a).target)
  {
  }

  /** A joined token spells its target, and its value is the text after its first '='. */
  lemma JoinedTokenMeaning(a: string)
    requires Classify(a).Joined?
    ensures Spells(a, Classify(a).target)
    ensures HasPrefix(a, JoinedPrefix(Classify(a).target)) && '=' in a
    ensures Classify(a).value == Split(a, '=')[1]
  {
    var p := JoinedPrefix(Classify(a).target);
    JoinedTokenForm(a);
    PrefixChars(a, p);
    assert a[|p| - 1] == '=';
  }

  /** A joined token starts with the joined prefix of its target. */
  lemma JoinedTokenForm(a: string)
    requires Classify(a).Joined?
    ensures HasPrefix(a, JoinedPrefix(Classify(a).target))
    ensures Classify(a).value == JoinedValue(a, JoinedPrefix(Classify(a).target))
  {
  }

  /** A token that falls through to the pass-through cases spells no target. */
  lemma UnrecognisedSpellsNothing(a: string, t: Target)
    ensures Classify(a).PassThrough? ==> !Spells(a, t)
  {
    match t
    case Host =>
    case Port =>
    case User =>
    case Password =>
    case Database =>
    case Execute =>
  }

  /** Escaping of an unrecognised token, as forwarded to the client. */
  lemma EscapingOfUnrecognised(a: string)
    requires forall t :: !Spells(a, t)
    ensures HasPrefix(a, "--") && '=' in a ==>
      Classify(a) == PassThrough(Split(a, '=')[0] + "=\"" + Split(a, '=')[1] + "\"")
    ensures !(HasPrefix(a, "--") && '=' in a) && HasPrefix(a, "-") ==> Classify(a) == PassThrough(a)
    ensures !HasPrefix(a, "-") ==> Classify(a) == PassThrough("\"" + a + "\"")
  {
    assert !Spells(a, Host) && !Spells(a, Port) && !Spells(a, User);
    assert !Spells(a, Password) && !Spells(a, Database) && !Spells(a, Execute);
  }

  /** A token with a joined prefix spells no other target. */
  lemma JoinedPrefixExcludes(a: string, t: Target, u: Target)
    requires HasPrefix(a, JoinedPrefix(t)) && u != t
    ensures !Spells(a, u)
  {
    PrefixChars(a, JoinedPrefix(t));
    assert a[2] == JoinedPrefix(t)[2] && a[3] == JoinedPrefix(t)[3];
    assert a[|JoinedPrefix(t)| - 1] == '=';
  }

  /** A token with a joined prefix is the joined form of that target. */
  lemma ClassifyJoinedPrefix(a: string, t: Target)
    requires HasPrefix(a, JoinedPrefix(t))
    ensures '=' in a && Classify(a) == Joined(t, Split(a, '=')[1])
  {
    ClassifyMeaning(a);
    assert Spells(a, t);
    var u := Classify(a).target;
    if u != t {
      JoinedPrefixExcludes(a, t, u);
      assert Spells(a, u);
      assert false;
    }
    assert |a| >= |JoinedPrefix(t)| > |LongFlag(t)| > |ShortFlag(t)|;
  }

  /**
   * The joined form of every recognised flag carries the text up to the
   * next '=', so `--password=a=b` gives "a".
   */
  lemma ClassifyJoined(t: Target, v: string, tail: string)
    requires '=' !in v
    requires tail == [] || tail[0] == '='
    ensures Classify(JoinedPrefix(t) + v + tail) == Joined(t, v)
  {
    var a := JoinedPrefix(t) + v + tail;
    assert '=' !in LongFlag(t) by {
      match t
      case Host =>
      case Port =>
      case User =>
      case Password =>
      case Database =>
      case Execute =>
    }
    assert a == LongFlag(t) + ['='] + v + tail;
    SplitSecondPiece(LongFlag(t), '=', v, tail);
    assert HasPrefix(a, JoinedPrefix(t)) by {
      assert a[..|JoinedPrefix(t)|] == JoinedPrefix(t);
    }
    ClassifyJoinedPrefix(a, t);
  }

  /** Both plain spellings of a flag are separated flags of their target. */
  lemma ClassifySeparated(t: Target)
    ensures Classify(ShortFlag(t)) == Separated(t)
    ensures Classify(LongFlag(t)) == Separated(t)
  {
    ClassifyShort(t);
    ClassifyLong(t);
  }

  lemma ClassifyShort(t: Target)
    ensures Classify(ShortFlag(t)) == Separated(t)
  {
    match t
    case Host =>
    case Port =>
    case User =>
    case Password =>
    case Database =>
    case Execute =>
  }

  lemma ClassifyLong(t: Target)
    ensures Classify(LongFlag(t)) == Separated(t)
  {
    match t
    case Host =>
    case Port =>
    case User =>
    case Password =>
      DiffersAt("--password", "--host=", 2);
      DiffersAt("--password", "--port=", 3);
      DiffersAt("--password", "--user=", 2);
    case Database =>
      DiffersAt("--database", "--host=", 2);
      DiffersAt("--database", "--port=", 2);
      DiffersAt("--database", "--user=", 2);
    case Execute =>
      DiffersAt("--execute", "--host=", 2);
      DiffersAt("--execute", "--port=", 2);
      DiffersAt("--execute", "--user=", 2);
  }

  /** One step of the pass over a separated flag and its value. */
  lemma ParseSeparatedStep(f: string, x: string, rest: seq<string>, st: MysqlState)
    requires Classify(f).Separated?
    ensures ParseFrom([f, x] + rest, st) == ParseFrom(rest, Set(st, Classify(f).target, x))
  {
    assert ([f, x] + rest)[2..] == rest;
  }

  /** One step of the pass over a joined flag. */
  lemma ParseJoinedStep(a: string, rest: seq<string>, st: MysqlState)
    requires Classify(a).Joined?
    ensures ParseFrom([a] + rest, st) == ParseFrom(rest, Set(st, Classify(a).target, Classify(a).value))
  {
    assert ([a] + rest)[1..] == rest;
  }

  /** Both separated spellings and the joined spelling set the same field the same way. */
  lemma SeparatedAndJoinedAgree(t: Target, x: string, rest: seq<string>, st: MysqlState)
    requires '=' !in x
    ensures ParseFrom([ShortFlag(t), x] + rest, st) == ParseFrom([JoinedPrefix(t) + x] + rest, st)
    ensures ParseFrom([LongFlag(t), x] + rest, st) == ParseFrom([JoinedPrefix(t) + x] + rest, st)
  {
    ClassifyJoined(t, x, "");
    assert JoinedPrefix(t) + x + "" == JoinedPrefix(t) + x;
    ClassifySeparated(t);
    ParseSeparatedStep(ShortFlag(t), x, rest, st);
    ParseSeparatedStep(LongFlag(t), x, rest, st);
    ParseJoinedStep(JoinedPrefix(t) + x, rest, st);
  }

  /** The last occurrence of a flag decides its field; the other fields are those before it. */
  lemma LastOccurrenceWins(a: seq<string>, t: Target, x: string)
    requires Parse(a).Success?
    ensures Parse(a + [ShortFlag(t), x]).Success?
    ensures Field(Parse(a + [ShortFlag(t), x]).value, t) == x
    ensures forall u :: u != t ==>
      Field(Parse(a + [ShortFlag(t), x]).value, u) == Field(Parse(a).value, u)
    ensures '=' !in x ==> Parse(a + [JoinedPrefix(t) + x]) == Parse(a + [ShortFlag(t), x])
  {
    ParseAppend(a, [ShortFlag(t), x], Initial);
    ClassifySeparated(t);
    ParseSeparatedStep(ShortFlag(t), x, [], Parse(a).value);
    assert [ShortFlag(t), x] + [] == [ShortFlag(t), x];
    if '=' !in x {
      ParseAppend(a, [JoinedPrefix(t) + x], Initial);
      SeparatedAndJoinedAgree(t, x, [], Parse(a).value);
      assert [JoinedPrefix(t) + x] + [] == [JoinedPrefix(t) + x];
    }
  }

  /**
   * A separated flag written as the last token has no value: the pass fails
   * there (the Go code indexes past the end of the list).
   */
  lemma TrailingFlagWithoutValue(a: seq<string>, t: Target)
    requires Parse(a).Success?
    ensures Parse(a + [ShortFlag(t)]) == Failure(MissingValue(ShortFlag(t)))
    ensures Parse(a + [LongFlag(t)]) == Failure(MissingValue(LongFlag(t)))
  {
    ClassifySeparated(t);
    ParseAppend(a, [ShortFlag(t)], Initial);
    ParseAppend(a, [LongFlag(t)], Initial);
  }

  /** A field that no token spells keeps the value it had before the pass. */
  lemma {:induction false} UnspelledFieldKept(args: seq<string>, st: MysqlState, t: Target)
    requires forall i :: 0 <= i < |args| ==> !Spells(args[i], t)
    requires ParseFrom(args, st).Success?
    ensures Field(ParseFrom(args, st).value, t) == Field(st, t)
    decreases |args|
  {
    if args != [] {
      ClassifyMeaning(args[0]);
      match Classify(args[0])
      case Separated(u) =>
        assert u != t;
        UnspelledFieldKept(args[2..], Set(st, u, args[1]), t);
      case Joined(u, v) =>
        assert u != t;
        UnspelledFieldKept(args[1..], Set(st, u, v), t);
      case PassThrough(e) =>
        UnspelledFieldKept(args[1..], st.(escapedArgs := st.escapedArgs + [e]), t);
    }
  }

  /** Port is "3306" unless a port flag appears; the other fields and the query default to "". */
  lemma Defaults(args: seq<string>, t: Target)
    requires forall i :: 0 <= i < |args| ==> !Spells(args[i], t)
    requires Parse(args).Success?
    ensures Field(Parse(args).value, t) == if t == Port then "3306" else ""
  {
    UnspelledFieldKept(args, Initial, t);
  }

  /** With no execute flag the invocation is interactive. */
  lemma NoExecuteIsInteractive(args: seq<string>)
    requires forall i :: 0 <= i < |args| ==> !Spells(args[i], Execute)
    requires Parse(args).Success?
    ensures Parse(args).value.query == ""
  {
    Defaults(args, Execute);
  }

  /**
   * Unrecognised tokens are appended to the pass-through list in input
   * order, one escaped entry per token, and change nothing else.
   */
  lemma {:induction false} PassThroughInOrder(args: seq<string>, st: MysqlState)
    requires forall i :: 0 <= i < |args| ==> Classify(args[i]).PassThrough?
    ensures ParseFrom(args, st).Success?
    ensures var r := ParseFrom(args, st).value;
      && r.connectInfo == st.connectInfo && r.query == st.query
      && |r.escapedArgs| == |st.escapedArgs| + |args|
      && r.escapedArgs[..|st.escapedArgs|] == st.escapedArgs
      && forall i :: 0 <= i < |args| ==>
           r.escapedArgs[|st.escapedArgs| + i] == Classify(args[i]).escaped
    decreases |args|
  {
    if args != [] {
      var st' := st.(escapedArgs := st.escapedArgs + [Classify(args[0]).escaped]);
      PassThroughInOrder(args[1..], st');
      var r := ParseFrom(args, st).value;
      assert r == ParseFrom(args[1..], st').value;
      assert r.escapedArgs[..|st'.escapedArgs|] == st'.escapedArgs;
      assert r.escapedArgs[..|st.escapedArgs|] == st'.escapedArgs[..|st.escapedArgs|];
      forall i | 0 <= i < |args|
        ensures r.escapedArgs[|st.escapedArgs| + i] == Classify(args[i]).escaped
      {
        if i == 0 {
          assert r.escapedArgs[|st.escapedArgs|] == r.escapedArgs[..|st'.escapedArgs|][|st.escapedArgs|];
        } else {
          assert args[1..][i - 1] == args[i];
        }
      }
    }
  }

  /**
   * The interactive command in words: `mysql -h S -P Port -u $SECRET_DB_USER`,
   * then `-D db` only for a non-empty database, then the escaped arguments;
   * the batch command adds the redirect from the mounted script.
   */
  lemma CommandLayout(st: MysqlState)
    ensures InteractiveCommandOf(st) ==
      "mysql -h " + st.connectInfo.server + " -P " + st.connectInfo.port + " -u $SECRET_DB_USER"
      + (if st.connectInfo.dbName != "" then " -D " + st.connectInfo.dbName else "")
      + (if st.escapedArgs != [] then " " + Join(st.escapedArgs, " ") else "")
    ensures BatchCommandOf(st) == InteractiveCommandOf(st) + " < /sql/query.sql"
  {
    var ci := st.connectInfo;
    var conn := ConnectionArgs(ci);
    var head := "mysql -h " + ci.server + " -P " + ci.port + " -u $SECRET_DB_USER"
      + (if ci.dbName != "" then " -D " + ci.dbName else "");
    ConnectionArgsJoined(ci);
    if st.escapedArgs != [] {
      JoinAppend(conn, st.escapedArgs, " ");
    } else {
      assert conn + st.escapedArgs == conn;
    }
  }

  lemma ConnectionArgsJoined(ci: ConnectInfo)
    ensures Join(ConnectionArgs(ci), " ") ==
      "mysql -h " + ci.server + " -P " + ci.port + " -u $SECRET_DB_USER"
      + (if ci.dbName != "" then " -D " + ci.dbName else "")
  {
    var base := ["mysql", "-h", ci.server, "-P", ci.port, "-u", "$SECRET_DB_USER"];
    var h := "mysql -h " + ci.server + " -P " + ci.port + " -u $SECRET_DB_USER";
    HostArgsJoined(ci.server, ci.port);
    if ci.dbName != "" {
      JoinAppend(base, ["-D", ci.dbName], " ");
      JoinCons("-D", [ci.dbName], " ");
      assert h + " " + ("-D" + " " + ci.dbName) == h + (" -D " + ci.dbName);
    } else {
      assert ConnectionArgs(ci) == base + [] == base;
      assert h + "" == h;
    }
  }

  /** The fixed head of the connection arguments, joined. */
  lemma HostArgsJoined(server: string, port: string)
    ensures Join(["mysql", "-h", server, "-P", port, "-u", "$SECRET_DB_USER"], " ") ==
      "mysql -h " + server + " -P " + port + " -u $SECRET_DB_USER"
  {
    JoinSeven("mysql", "-h", server, "-P", port, "-u", "$SECRET_DB_USER", " ");
  }

  /** The password never reaches either command line; the client reads it from MYSQL_PWD. */
  lemma CommandsOmitPassword(st: MysqlState, password: string)
    ensures var other := st.(connectInfo := st.connectInfo.(password := password));
      InteractiveCommandOf(other) == InteractiveCommandOf(st) && BatchCommandOf(other) == BatchCommandOf(st)
    ensures SecretEnvKV["MYSQL_PWD"] == "password"
  {
  }

  /** With no arguments the action runs `mysql ... --help` interactively. */
  lemma NoArgumentsRunsHelpInteractively()
    ensures Parse(ActionArgs([])) == Success(Initial.(escapedArgs := ["--help"]))
  {
    assert '=' !in "--help";
    assert Classify("--help") == PassThrough("--help");
    assert ["--help"][1..] == [];
    assert Initial.escapedArgs + ["--help"] == ["--help"];
  }
}
