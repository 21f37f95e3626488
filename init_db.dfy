/**
 * The database initialisation script: the DATABASE_URL rule, the
 * INSERT OR IGNORE seeding of the six default rows of `game_settings`, and
 * how `init_database` and `main` end. The settings table is a map from key
 * to row; whether the data directory, the connection and the statements
 * succeed are parameters.
 */
module InitDb {
  import opened Wrappers
  import opened SqliteUrl

  /** `get_db_path`: exits with status 1 unless DATABASE_URL is an SQLite URL. */
  function GetDbPath(env: map<string, string>): (r: Termination<string>)
    ensures r.Returned? <==> SqlitePrefix <= DatabaseUrl(env)
    ensures !r.Returned? ==> r == Exited(1)
    ensures r.Returned? ==> Some(r.value) == SqlitePath(DatabaseUrl(env))
  {
    match SqlitePath(DatabaseUrl(env))
    case None => Exited(1)
    case Some(path) => Returned(path)
  }

  /** With no environment set, the database is `data/game.db`. */
  lemma DefaultDbPath()
    ensures GetDbPath(map[]) == Returned("data/game.db")
  {
    DefaultSqlitePath();
  }

  /** A row of `game_settings` besides its key. */
  datatype Setting = Setting(value: string, description: string, updatedAt: string)

  datatype DefaultSetting = DefaultSetting(key: string, value: string, description: string)

  const DefaultSettings: seq<DefaultSetting> := [
    DefaultSetting("star_base_value", "1", "Base value for regular stars"),
    DefaultSetting("star_special_value", "5", "Value for special stars"),
    DefaultSetting("xp_per_star", "10", "XP awarded per star"),
    DefaultSetting("max_player_level", "30", "Maximum player level"),
    DefaultSetting("challenge_duration_hours", "24", "Duration of daily challenges in hours"),
    DefaultSetting("daily_challenges_count", "3", "Number of daily challenges to generate")
  ]

  function KeysOf(rows: seq<DefaultSetting>): (keys: set<string>)
    ensures forall i :: 0 <= i < |rows| ==> rows[i].key in keys
    ensures forall k :: k in keys ==> exists i :: 0 <= i < |rows| && rows[i].key == k
  {
    set i | 0 <= i < |rows| :: rows[i].key
  }

  predicate DistinctKeys(rows: seq<DefaultSetting>) {
    forall i, j :: 0 <= i < j < |rows| ==> rows[i].key != rows[j].key
  }

  function Stamped(row: DefaultSetting, now: string): Setting {
    Setting(row.value, row.description, now)
  }

  /** One `INSERT OR IGNORE`: a row whose key is taken is dropped. */
  function InsertOrIgnoreRow(table: map<string, Setting>, row: DefaultSetting, now: string): map<string, Setting> {
    if row.key in table then table else table[row.key := Stamped(row, now)]
  }

  /** The table after `INSERT OR IGNORE` of `rows`, in order. */
  function Seeded(table: map<string, Setting>, rows: seq<DefaultSetting>, now: string): map<string, Setting>
    decreases |rows|
  {
    if rows == [] then table
    else InsertOrIgnoreRow(Seeded(table, rows[..|rows| - 1], now), rows[|rows| - 1], now)
  }

  /** `cursor.executemany("INSERT OR IGNORE INTO game_settings ...", rows)`. */
  method InsertOrIgnore(table: map<string, Setting>, rows: seq<DefaultSetting>, now: string)
    returns (result: map<string, Setting>)
    ensures result == Seeded(table, rows, now)
  {
    result := table;
    for i := 0 to |rows|
      invariant result == Seeded(table, rows[..i], now)
    {
      assert rows[..i + 1][..i] == rows[..i];
      var row := rows[i];
      if row.key !in result {
        result := result[row.key := Setting(row.value, row.description, now)];
      }
    }
    assert rows[..|rows|] == rows;
  }

  /** Seeding keeps every existing row as it is and adds exactly the missing keys. */
  lemma {:induction false} SeededKeepsAndAdds(table: map<string, Setting>, rows: seq<DefaultSetting>, now: string)
    ensures Seeded(table, rows, now).Keys == table.Keys + KeysOf(rows)
    ensures forall k :: k in table ==> Seeded(table, rows, now)[k] == table[k]
    decreases |rows|
  {
    if rows != [] {
      var init := rows[..|rows| - 1];
      SeededKeepsAndAdds(table, init, now);
      assert KeysOf(rows) == KeysOf(init) + {rows[|rows| - 1].key} by {
        forall k | k in KeysOf(rows) ensures k in KeysOf(init) + {rows[|rows| - 1].key} {
          var i :| 0 <= i < |rows| && rows[i].key == k;
          if i < |rows| - 1 { assert init[i].key == k; }
        }
      }
    }
  }

  /** A key that was missing gets its default row, stamped with the time of seeding. */
  lemma {:induction false} SeededNewRows(table: map<string, Setting>, rows: seq<DefaultSetting>, now: string)
    requires DistinctKeys(rows)
    ensures forall i :: 0 <= i < |rows| && rows[i].key !in table ==>
              rows[i].key in Seeded(table, rows, now) && Seeded(table, rows, now)[rows[i].key] == Stamped(rows[i], now)
    decreases |rows|
  {
    if rows != [] {
      var init, last := rows[..|rows| - 1], rows[|rows| - 1];
      SeededNewRows(table, init, now);
      SeededKeepsAndAdds(table, init, now);
      SeededKeepsAndAdds(table, rows, now);
      forall i | 0 <= i < |rows| && rows[i].key !in table
        ensures rows[i].key in Seeded(table, rows, now) && Seeded(table, rows, now)[rows[i].key] == Stamped(rows[i], now)
      {
        if i < |rows| - 1 {
          assert init[i] == rows[i];
          assert rows[i].key != last.key;
        } else {
          assert last.key !in KeysOf(init);
        }
      }
    }
  }

  /** Rows whose keys are all present already change nothing. */
  lemma {:induction false} SeededNoop(table: map<string, Setting>, rows: seq<DefaultSetting>, now: string)
    requires KeysOf(rows) <= table.Keys
    ensures Seeded(table, rows, now) == table
    decreases |rows|
  {
    if rows != [] {
      var init := rows[..|rows| - 1];
      assert KeysOf(init) <= KeysOf(rows) by {
        forall k | k in KeysOf(init) ensures k in KeysOf(rows) {
          var i :| 0 <= i < |init| && init[i].key == k;
          assert rows[i].key == k;
        }
      }
      SeededNoop(table, init, now);
    }
  }

  /** Seeding a second time, at any time, changes nothing: re-running the script is harmless. */
  lemma SeedingIdempotent(table: map<string, Setting>, rows: seq<DefaultSetting>, now: string, later: string)
    ensures Seeded(Seeded(table, rows, now), rows, later) == Seeded(table, rows, now)
  {
    SeededKeepsAndAdds(table, rows, now);
    SeededNoop(Seeded(table, rows, now), rows, later);
  }

  /** After seeding, all six default keys are present; absent ones hold their default value. */
  lemma DefaultsPresent(table: map<string, Setting>, now: string)
    ensures forall i :: 0 <= i < |DefaultSettings| ==> DefaultSettings[i].key in Seeded(table, DefaultSettings, now)
    ensures forall i :: 0 <= i < |DefaultSettings| && DefaultSettings[i].key !in table ==>
              Seeded(table, DefaultSettings, now)[DefaultSettings[i].key] == Stamped(DefaultSettings[i], now)
  {
    SeededKeepsAndAdds(table, DefaultSettings, now);
    DefaultKeysDistinct();
    SeededNewRows(table, DefaultSettings, now);
  }

  /** The six default keys differ (their lengths already do). */
  lemma DefaultKeysDistinct()
    ensures DistinctKeys(DefaultSettings)
  {
  }

  // ---------------------------------------------------------------------------
  // init_database and main
  // ---------------------------------------------------------------------------

  /**
   * `init_database`. A bad URL or a data directory that cannot be created
   * exits with status 1. A failing `sqlite3.connect` is caught and calls
   * `sys.exit(1)`, but the `finally` clause then reads the unbound local
   * `conn` and raises UnboundLocalError instead. A failing statement after
   * the connection exits with status 1 without committing, so the table is
   * unchanged. Otherwise the defaults are seeded and committed.
   */
  method InitDatabase(env: map<string, string>, dirCreated: bool, connected: bool, statementsOk: bool,
                      table: map<string, Setting>, now: string)
    returns (outcome: Termination<()>, newTable: map<string, Setting>)
    ensures outcome.Returned? <==> GetDbPath(env).Returned? && dirCreated && connected && statementsOk
    ensures outcome.Returned? ==> newTable == Seeded(table, DefaultSettings, now)
    ensures !outcome.Returned? ==> newTable == table
    ensures outcome.Crashed? <==> GetDbPath(env).Returned? && dirCreated && !connected
    ensures outcome.Exited? ==> outcome.code == 1
  {
    newTable := table;
    var dbPath := GetDbPath(env);
    if !dbPath.Returned? {
      return Exited(1), newTable;
    }
    if !dirCreated {
      return Exited(1), newTable;
    }
    if !connected {
      return Crashed("UnboundLocalError: conn"), newTable;
    }
    if !statementsOk {
      return Exited(1), newTable;
    }
    newTable := InsertOrIgnore(table, DefaultSettings, now);
    outcome := Returned(());
  }

  /** `main`: returns 0 once `init_database` has returned. */
  method RunInit(env: map<string, string>, dirCreated: bool, connected: bool, statementsOk: bool,
                 table: map<string, Setting>, now: string)
    returns (status: Termination<int>, newTable: map<string, Setting>)
    ensures ExitStatus(status) == 0 <==> GetDbPath(env).Returned? && dirCreated && connected && statementsOk
    ensures status.Returned? ==> status.value == 0 && newTable == Seeded(table, DefaultSettings, now)
    ensures !status.Returned? ==> newTable == table
  {
    var outcome;
    outcome, newTable := InitDatabase(env, dirCreated, connected, statementsOk, table, now);
    match outcome
    case Returned(_) => status := Returned(0);
    case Exited(code) => status := Exited(code);
    case Crashed(error) => status := Crashed(error);
  }
}
