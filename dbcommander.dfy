/**
 * The engine tags, the connection descriptor shared by every translator, and
 * the classifier from a connection string to an engine.
 */
module DbCommander {
  import opened Strs

  /** The four engine tags; each stands for the Go string constant it prints as. */
  datatype CommandType = MySQL | SQLCmd | PostgreSQL | Unknown {

    /** The tag as text: the value of the Go constant. */
    function String(): (s: string)
      ensures s != ""
    {
      match this
      case MySQL => "mysql"
      case SQLCmd => "sqlcmd"
      case PostgreSQL => "postgresql"
      case Unknown => "unknown"
    }
  }

  /** Distinct tags print differently, so the text identifies the tag. */
  lemma StringInjective(a: CommandType, b: CommandType)
    ensures a.String() == b.String() <==> a == b
  {
  }

  /** Endpoint and credentials gathered from the arguments. */
  datatype ConnectInfo = ConnectInfo(
    server: string,
    port: string,
    user: string,
    password: string,
    dbName: string)

  /**
   * The argument lists on which the Go parsers panic: a separated-form flag
   * that is the last token (an index past the end of the list), and, for
   * sqlcmd, a lone "-" (a slice past the end of the token).
   */
  datatype ParseError =
    | MissingValue(flag: string)
    | ShortFlag(arg: string)

  /** Classifies a connection string by the first engine keyword found, in priority order. */
  function DetermineDatabaseType(connectionString: string): CommandType
  {
    if connectionString == "" then Unknown
    else if Contains(connectionString, "mysql") then MySQL
    else if Contains(connectionString, "sqlserver") then SQLCmd
    else if Contains(connectionString, "postgresql") then PostgreSQL
    else Unknown
  }

  /**
   * The classification in closed form: the empty-string test is subsumed by
   * the keyword tests, and each tag holds exactly when its keyword is present
   * and no higher-priority keyword is.
   */
  lemma ClassificationByKeyword(cs: string)
    ensures cs == "" ==> DetermineDatabaseType(cs) == Unknown
    ensures DetermineDatabaseType(cs) == MySQL <==> Contains(cs, "mysql")
    ensures DetermineDatabaseType(cs) == SQLCmd <==>
      !Contains(cs, "mysql") && Contains(cs, "sqlserver")
    ensures DetermineDatabaseType(cs) == PostgreSQL <==>
      !Contains(cs, "mysql") && !Contains(cs, "sqlserver") && Contains(cs, "postgresql")
    ensures DetermineDatabaseType(cs) == Unknown <==>
      !Contains(cs, "mysql") && !Contains(cs, "sqlserver") && !Contains(cs, "postgresql")
  {
    if cs == "" {
      assert !Contains(cs, "mysql") && !Contains(cs, "sqlserver") && !Contains(cs, "postgresql");
    }
  }
}
