/**
 * The DBCommander interface: what the pod code asks of an engine's
 * translator, dispatched to the MySQL or the SQL Server commander.
 */
module Engines {
  import opened Wrappers
  import opened Strs
  import opened DbCommander
  import Mysql
  import SqlServer

  datatype Commander =
    | MysqlEngine(m: Mysql.MysqlCommander)
    | SqlServerEngine(s: SqlServer.SqlServerCommander)
  {
    /** The commander object whose fields the answers read. */
    function Obj(): object {
      match this
      case MysqlEngine(m) => m
      case SqlServerEngine(s) => s
    }

    function Type(): CommandType {
      match this
      case MysqlEngine(_) => MySQL
      case SqlServerEngine(_) => SQLCmd
    }

    function ConnectInfo(): ConnectInfo
      reads Obj()
    {
      match this
      case MysqlEngine(m) => m.connectInfo
      case SqlServerEngine(s) => s.connectInfo
    }

    function Query(): string
      reads Obj()
    {
      match this
      case MysqlEngine(m) => m.query
      case SqlServerEngine(s) => s.query
    }

    predicate IsInteractive()
      reads Obj()
    {
      match this
      case MysqlEngine(m) => m.IsInteractive()
      case SqlServerEngine(s) => s.IsInteractive()
    }

    function Command(): string
      reads Obj()
    {
      match this
      case MysqlEngine(m) => m.Command()
      case SqlServerEngine(s) => s.Command()
    }

    function InteractiveCommand(): string
      reads Obj()
    {
      match this
      case MysqlEngine(m) => m.InteractiveCommand()
      case SqlServerEngine(s) => s.InteractiveCommand()
    }

    function ContainerImage(): string {
      match this
      case MysqlEngine(_) => Mysql.ContainerImage
      case SqlServerEngine(_) => SqlServer.ContainerImage
    }

    function SecretEnvKV(): map<string, string> {
      match this
      case MysqlEngine(_) => Mysql.SecretEnvKV
      case SqlServerEngine(_) => SqlServer.SecretEnvKV
    }

    /** The interface's answers at this moment, as one value. */
    function View(): EngineView
      reads Obj()
    {
      EngineView(Type(), ConnectInfo(), Query(), Command(), InteractiveCommand(),
        ContainerImage(), SecretEnvKV())
    }
  }

  /** What the pod code reads from a DBCommander; the commanders do not change once built. */
  datatype EngineView = EngineView(
    commandType: CommandType, connectInfo: ConnectInfo, query: string,
    command: string, interactiveCommand: string,
    containerImage: string, secretEnvKV: map<string, string>)

  /** The key of the ConfigMap entry that carries the query, and where its volume is mounted. */
  const QueryKey := "query.sql"
  const QueryMountPath := "/sql"

  /** Both engines' batch commands read the query from the mounted ConfigMap entry. */
  lemma QueryFileIsMountedKey()
    ensures Mysql.QueryFile == QueryMountPath + "/" + QueryKey
    ensures SqlServer.QueryFile == QueryMountPath + "/" + QueryKey
  {
  }

  /** `sub` occurs in any string that has it in the middle. */
  lemma ContainsMiddle(a: string, sub: string, b: string)
    ensures Contains(a + sub + b, sub)
  {
    var s := a + sub + b;
    assert s[|a|..|a| + |sub|] == sub;
    assert OccursAt(s, sub, |a|);
    ContainsIffOccurs(s, sub);
  }

  /**
   * A batch run's command reads the query file from the mounted ConfigMap
   * entry, unless it is sqlcmd's help command.
   */
  lemma BatchCommandReadsQueryFile(c: Commander)
    ensures c.MysqlEngine? ==> Contains(c.Command(), QueryMountPath + "/" + QueryKey)
    ensures c.SqlServerEngine? && !c.s.help ==> Contains(c.Command(), QueryMountPath + "/" + QueryKey)
    ensures c.SqlServerEngine? && c.s.help ==> c.Command() == SqlServer.HelpCommand
  {
    QueryFileIsMountedKey();
    match c
    case MysqlEngine(m) =>
      Mysql.CommandLayout(m.State());
      ContainsMiddle(m.InteractiveCommand() + " < ", Mysql.QueryFile, "");
      assert m.InteractiveCommand() + " < " + Mysql.QueryFile + "" == m.Command();
    case SqlServerEngine(s) =>
      if !s.help {
        var st := s.State();
        SqlServer.CommandLayout(st);
        var base := Join(SqlServer.ConnectionArgs(st.connectInfo), " ");
        var tail := SqlServer.DatabaseArgs(st.connectInfo) + st.escapedArgs;
        var rest := if tail == [] then "" else " " + Join(tail, " ");
        ContainsMiddle(base + " " + "-i" + " ", SqlServer.QueryFile, rest);
        assert base + " " + "-i" + " " + SqlServer.QueryFile + rest
            == (base + " " + "-i" + " ") + SqlServer.QueryFile + rest;
      }
  }

  /** Every variable of `kv` reads one of the two keys of a basic-auth secret. */
  predicate ReadsBasicAuthKeys(kv: map<string, string>) {
    forall k :: k in kv ==> kv[k] in {"username", "password"}
  }

  /** Every secret-derived variable reads one of the two keys of the basic-auth secret. */
  lemma SecretKeysAreBasicAuth(c: Commander)
    ensures ReadsBasicAuthKeys(c.SecretEnvKV())
    ensures "SECRET_DB_USER" in c.SecretEnvKV() && c.SecretEnvKV()["SECRET_DB_USER"] == "username"
  {
  }

  /** The four engine tags name the engines, and the two commanders report distinct ones. */
  lemma EngineTags(c: Commander)
    ensures c.MysqlEngine? ==> c.Type().String() == "mysql"
    ensures c.SqlServerEngine? ==> c.Type().String() == "sqlcmd"
  {
  }
}
