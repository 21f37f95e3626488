/**
 * What the two database scripts share: how a run of a script ends, and the
 * rule that turns the DATABASE_URL environment variable into a file path.
 */
module SqliteUrl {
  import opened Wrappers
  import opened Text

  const SqlitePrefix: string := "sqlite:///"
  const DatabaseUrlVar: string := "DATABASE_URL"
  const DefaultDatabaseUrl: string := "sqlite:///data/game.db"

  /**
   * How a call ends: it returns a value, it calls `sys.exit(code)`, or an
   * exception escapes it (the interpreter then prints a traceback).
   */
  datatype Termination<T> = Returned(value: T) | Exited(code: int) | Crashed(error: string)

  /** The process exit status a script's `main` ends with: an uncaught exception gives 1. */
  function ExitStatus(t: Termination<int>): (status: int)
    ensures t.Crashed? ==> status == 1
    ensures !t.Crashed? ==> status == if t.Returned? then t.value else t.code
  {
    match t
    case Returned(code) => code
    case Exited(code) => code
    case Crashed(_) => 1
  }

  /** `os.environ.get("DATABASE_URL", "sqlite:///data/game.db")`. */
  function DatabaseUrl(env: map<string, string>): string {
    if DatabaseUrlVar in env then env[DatabaseUrlVar] else DefaultDatabaseUrl
  }

  /**
   * The path named by an SQLite URL: only URLs that start with `sqlite:///`
   * are accepted, and the path is the URL with every occurrence of
   * `sqlite:///` removed (`url.replace("sqlite:///", "")`).
   */
  function SqlitePath(url: string): (r: Option<string>)
    ensures r.Some? <==> SqlitePrefix <= url
    ensures r.Some? ==> |r.value| <= |url| - |SqlitePrefix|
  {
    if SqlitePrefix <= url then
      RemoveAllLeading(SqlitePrefix, url[|SqlitePrefix|..]);
      assert url == SqlitePrefix + url[|SqlitePrefix|..];
      Some(RemoveAll(url, SqlitePrefix))
    else None
  }

  /** Prefixing a path that does not mention `sqlite:///` and parsing it back gives the path. */
  lemma SqlitePathRoundTrip(path: string)
    requires !Contains(path, SqlitePrefix)
    ensures SqlitePath(SqlitePrefix + path) == Some(path)
  {
    RemoveAllLeading(SqlitePrefix, path);
    RemoveAllAbsent(path, SqlitePrefix);
  }

  /** The default URL names `data/game.db`. */
  lemma DefaultSqlitePath()
    ensures SqlitePath(DefaultDatabaseUrl) == Some("data/game.db")
  {
    assert DefaultDatabaseUrl == SqlitePrefix + "data/game.db";
    NotContainsWithoutFirstChar("data/game.db", SqlitePrefix);
    SqlitePathRoundTrip("data/game.db");
  }

  /** Every occurrence is removed, not only the leading one. */
  lemma SqlitePathRepeatedPrefix(path: string)
    requires !Contains(path, SqlitePrefix)
    ensures SqlitePath(SqlitePrefix + SqlitePrefix + path) == Some(path)
  {
    assert SqlitePrefix + SqlitePrefix + path == SqlitePrefix + (SqlitePrefix + path);
    RemoveAllLeading(SqlitePrefix, SqlitePrefix + path);
    RemoveAllLeading(SqlitePrefix, path);
    RemoveAllAbsent(path, SqlitePrefix);
  }
}
