/**
 * The database backup script: where the database and the backups live, the
 * name a backup gets, which old backups are deleted, and how `main` ends.
 * File-system effects are parameters: whether the database exists and its
 * size, whether the backup directory can be created, whether the copy
 * succeeds, and what `os.listdir` returns.
 */
module Backup {
  import opened Wrappers
  import opened Text
  import opened SqliteUrl

  const BackupDirVar: string := "DATABASE_BACKUP_DIR"
  const DefaultBackupDir: string := "./data/backups"
  const BackupPrefix: string := "game_backup_"
  const BackupSuffix: string := ".db"
  /** The number of backups `main` keeps. */
  const DefaultKeep: int := 5

  datatype DbPaths = DbPaths(dbPath: string, backupDir: string)

  /** `get_db_paths`: exits with status 1 unless DATABASE_URL is an SQLite URL. */
  function GetDbPaths(env: map<string, string>): (r: Termination<DbPaths>)
    ensures r.Returned? <==> SqlitePrefix <= DatabaseUrl(env)
    ensures !r.Returned? ==> r == Exited(1)
    ensures r.Returned? ==> Some(r.value.dbPath) == SqlitePath(DatabaseUrl(env))
    ensures r.Returned? ==> r.value.backupDir == if BackupDirVar in env then env[BackupDirVar] else DefaultBackupDir
  {
    match SqlitePath(DatabaseUrl(env))
    case None => Exited(1)
    case Some(path) =>
      Returned(DbPaths(path, if BackupDirVar in env then env[BackupDirVar] else DefaultBackupDir))
  }

  /** With no environment set, the database is `data/game.db` and backups go to `./data/backups`. */
  lemma DefaultDbPaths()
    ensures GetDbPaths(map[]) == Returned(DbPaths("data/game.db", "./data/backups"))
  {
    DefaultSqlitePath();
  }

  // ---------------------------------------------------------------------------
  // Backup file names
  // ---------------------------------------------------------------------------

  /** A local date and time, as `datetime.now()` gives it, to the second. */
  datatype DateTime = DateTime(year: int, month: int, day: int, hour: int, minute: int, second: int)

  predicate IsLeapYear(y: int) {
    y % 4 == 0 && (y % 100 != 0 || y % 400 == 0)
  }

  function DaysInMonth(y: int, m: int): int
    requires 1 <= m <= 12
  {
    if m == 2 then (if IsLeapYear(y) then 29 else 28)
    else if m == 4 || m == 6 || m == 9 || m == 11 then 30
    else 31
  }

  /** A valid `datetime` whose year has four digits. */
  predicate ValidDateTime(t: DateTime) {
    && 1000 <= t.year <= 9999
    && 1 <= t.month <= 12
    && 1 <= t.day <= DaysInMonth(t.year, t.month)
    && 0 <= t.hour < 24
    && 0 <= t.minute < 60
    && 0 <= t.second < 60
  }

  /** Chronological order of two date-times. */
  predicate Before(a: DateTime, b: DateTime) {
    || a.year < b.year
    || (a.year == b.year && a.month < b.month)
    || (a.year == b.year && a.month == b.month && a.day < b.day)
    || (a.year == b.year && a.month == b.month && a.day == b.day && a.hour < b.hour)
    || (a.year == b.year && a.month == b.month && a.day == b.day && a.hour == b.hour && a.minute < b.minute)
    || (a.year == b.year && a.month == b.month && a.day == b.day && a.hour == b.hour && a.minute == b.minute
        && a.second < b.second)
  }

  /** `strftime("%Y%m%d_%H%M%S")`, followed by `rest`. */
  function TimestampThen(t: DateTime, rest: string): (r: string)
    requires ValidDateTime(t)
    ensures |r| == 15 + |rest|
  {
    Pad(t.year, 4) + (Pad(t.month, 2) + (Pad(t.day, 2) + ("_" + (Pad(t.hour, 2) + (Pad(t.minute, 2)
      + (Pad(t.second, 2) + rest))))))
  }

  /** `f"game_backup_{timestamp}.db"`. */
  function BackupFileName(t: DateTime): (name: string)
    requires ValidDateTime(t)
    ensures |name| == 30
    ensures IsBackupName(name)
  {
    var name := BackupPrefix + TimestampThen(t, BackupSuffix);
    assert name[|name| - 3..] == BackupSuffix;
    name
  }

  /** The names cleanup considers: `f.startswith("game_backup_") and f.endswith(".db")`. */
  predicate IsBackupName(f: string) {
    BackupPrefix <= f && EndsWith(f, BackupSuffix)
  }

  lemma LexLessSamePrefix(p: string, a: string, b: string)
    ensures LexLess(p + a, p + b) <==> LexLess(a, b)
  {
    LexLessConcat(p, a, p, b);
    LexLessIrreflexive(p);
  }

  /** One zero-padded field followed by the rest: the field decides unless equal. */
  lemma LexLessField(a: nat, b: nat, w: nat, ra: string, rb: string)
    requires a < Pow10(w) && b < Pow10(w)
    ensures LexLess(Pad(a, w) + ra, Pad(b, w) + rb) <==> a < b || (a == b && LexLess(ra, rb))
  {
    LexLessConcat(Pad(a, w), ra, Pad(b, w), rb);
    PadOrder(a, b, w);
  }

  lemma TimestampOrder(a: DateTime, b: DateTime, ra: string, rb: string)
    requires ValidDateTime(a) && ValidDateTime(b)
    ensures LexLess(TimestampThen(a, ra), TimestampThen(b, rb))
        <==> Before(a, b) || (a == b && LexLess(ra, rb))
  {
    assert Pow10(2) == 100 && Pow10(4) == 10000;
    var s1, s2 := Pad(a.second, 2) + ra, Pad(b.second, 2) + rb;
    LexLessField(a.second, b.second, 2, ra, rb);
    var mi1, mi2 := Pad(a.minute, 2) + s1, Pad(b.minute, 2) + s2;
    LexLessField(a.minute, b.minute, 2, s1, s2);
    var h1, h2 := Pad(a.hour, 2) + mi1, Pad(b.hour, 2) + mi2;
    LexLessField(a.hour, b.hour, 2, mi1, mi2);
    LexLessSamePrefix("_", h1, h2);
    var d1, d2 := Pad(a.day, 2) + ("_" + h1), Pad(b.day, 2) + ("_" + h2);
    assert DaysInMonth(a.year, a.month) <= 31 && DaysInMonth(b.year, b.month) <= 31;
    LexLessField(a.day, b.day, 2, "_" + h1, "_" + h2);
    var mo1, mo2 := Pad(a.month, 2) + d1, Pad(b.month, 2) + d2;
    LexLessField(a.month, b.month, 2, d1, d2);
    LexLessField(a.year, b.year, 4, mo1, mo2);
  }

  lemma BeforeTotal(a: DateTime, b: DateTime)
    ensures a == b || Before(a, b) || Before(b, a)
  {
  }

  /**
   * Backup names sort like the times they were taken: one name is smaller
   * than another exactly when its time is earlier. So the greatest names
   * are the newest backups.
   */
  lemma BackupNameOrder(a: DateTime, b: DateTime)
    requires ValidDateTime(a) && ValidDateTime(b)
    ensures LexLess(BackupFileName(a), BackupFileName(b)) <==> Before(a, b)
  {
    var ta, tb := TimestampThen(a, BackupSuffix), TimestampThen(b, BackupSuffix);
    assert BackupFileName(a) == BackupPrefix + ta && BackupFileName(b) == BackupPrefix + tb;
    LexLessSamePrefix(BackupPrefix, ta, tb);
    TimestampOrder(a, b, BackupSuffix, BackupSuffix);
    LexLessIrreflexive(BackupSuffix);
  }

  /** Two different times never share a backup name. */
  lemma BackupNameInjective(a: DateTime, b: DateTime)
    requires ValidDateTime(a) && ValidDateTime(b)
    ensures BackupFileName(a) == BackupFileName(b) <==> a == b
  {
    if BackupFileName(a) == BackupFileName(b) && a != b {
      BeforeTotal(a, b);
      BackupNameOrder(a, b);
      BackupNameOrder(b, a);
      LexLessIrreflexive(BackupFileName(a));
    }
  }

  /** `os.path.join(directory, name)` for a relative `name`. */
  function JoinPath(directory: string, name: string): (path: string)
    ensures EndsWith(path, name)
  {
    var path := if directory == [] || directory[|directory| - 1] == '/' then directory + name
                else directory + "/" + name;
    assert path[|path| - |name|..] == name;
    path
  }

  // ---------------------------------------------------------------------------
  // backup_database
  // ---------------------------------------------------------------------------

  /** The database file as `os.path.exists` and `os.path.getsize` see it. */
  datatype DbFile = Missing | Present(size: nat)

  /**
   * `backup_database`. A missing database gives None and no backup. A failed
   * directory creation exits with status 1. A failed copy of a non-empty
   * database is caught and gives None; a failed copy of an EMPTY database is
   * not caught, because the `except sqlite3.Error` clause then names the
   * local `sqlite3`, which is bound only on the non-empty branch, and raises
   * UnboundLocalError.
   */
  function BackupDatabase(env: map<string, string>, db: DbFile, dirCreated: bool, copied: bool,
                          now: DateTime): (r: Termination<Option<string>>)
    requires ValidDateTime(now)
    ensures r == Returned(None) <==>
      GetDbPaths(env).Returned? && (db.Missing? || (dirCreated && !copied && db.size > 0))
    ensures (r.Returned? && r.value.Some?) <==>
      GetDbPaths(env).Returned? && db.Present? && dirCreated && copied
    ensures r.Returned? && r.value.Some? ==>
      r.value.value == JoinPath(GetDbPaths(env).value.backupDir, BackupFileName(now))
    ensures r.Crashed? <==> GetDbPaths(env).Returned? && db == Present(0) && dirCreated && !copied
    ensures r.Exited? ==> r.code == 1
  {
    match GetDbPaths(env)
    case Exited(code) => Exited(code)
    case Crashed(e) => Crashed(e)
    case Returned(paths) =>
      if db.Missing? then Returned(None)
      else if !dirCreated then Exited(1)
      else
        var path := JoinPath(paths.backupDir, BackupFileName(now));
        if copied then Returned(Some(path))
        else if db.size > 0 then Returned(None)
        else Crashed("UnboundLocalError: sqlite3")
  }

  // ---------------------------------------------------------------------------
  // cleanup_old_backups
  // ---------------------------------------------------------------------------

  /** No name twice, as in a directory listing. */
  predicate Distinct(s: seq<string>) {
    forall i, j :: 0 <= i < j < |s| ==> s[i] != s[j]
  }

  lemma {:induction false} DistinctOccursOnce(s: seq<string>, x: string)
    requires Distinct(s)
    ensures multiset(s)[x] <= 1
  {
    if s != [] {
      var init, last := s[..|s| - 1], s[|s| - 1];
      assert s == init + [last];
      DistinctOccursOnce(init, x);
      if last == x {
        assert x !in init;
        assert multiset(init)[x] == 0;
      }
    }
  }

  /** The listing's backup names, in listing order. */
  function BackupCandidates(names: seq<string>): (r: seq<string>)
    ensures forall f :: f in r <==> f in names && IsBackupName(f)
    ensures Distinct(names) ==> Distinct(r)
    ensures |r| <= |names|
  {
    if names == [] then []
    else
      var rest := BackupCandidates(names[..|names| - 1]);
      assert names == names[..|names| - 1] + [names[|names| - 1]];
      if IsBackupName(names[|names| - 1]) then rest + [names[|names| - 1]] else rest
  }

  /** Where Python's slice `files[keep:]` starts, for a list of length `n`. */
  function SliceStart(n: nat, keep: int): (start: nat)
    ensures start <= n
  {
    if keep >= 0 then (if keep < n then keep else n)
    else if n + keep > 0 then n + keep else 0
  }

  /** The candidates newest first, as `backup_files.sort(reverse=True)` leaves them. */
  function SortedBackups(names: seq<string>): seq<string> {
    SortDescending(BackupCandidates(names))
  }

  function KeptBackups(names: seq<string>, keep: int): seq<string> {
    var sorted := SortedBackups(names);
    sorted[..SliceStart(|sorted|, keep)]
  }

  function RemovedBackups(names: seq<string>, keep: int): seq<string> {
    var sorted := SortedBackups(names);
    sorted[SliceStart(|sorted|, keep)..]
  }

  /**
   * `cleanup_old_backups`: the names `os.remove` deletes, in order, and whether
   * the cleanup completed. `failAt` is the position, in removal order, of the
   * first `os.remove` that raises; the outer handler catches it, so the loop ends
   * there and the later old backups stay. When the directory cannot be listed the
   * error is caught in the same way and nothing is removed.
   */
  method CleanupOldBackups(listing: Option<seq<string>>, keep: int, failAt: Option<nat>)
    returns (removed: seq<string>, completed: bool)
    ensures listing.None? ==> removed == [] && !completed
    ensures listing.Some? ==> removed <= RemovedBackups(listing.value, keep)
    ensures listing.Some? ==>
      (completed <==> failAt.None? || failAt.value >= |RemovedBackups(listing.value, keep)|)
    ensures listing.Some? && completed ==> removed == RemovedBackups(listing.value, keep)
    ensures listing.Some? && failAt.Some? && !completed ==> |removed| == failAt.value
  {
    if listing.None? {
      return [], false;
    }
    var backupFiles := BackupCandidates(listing.value);
    backupFiles := SortDescending(backupFiles);
    removed, completed := RemoveFrom(backupFiles, SliceStart(|backupFiles|, keep), failAt);
  }

  /** The removal loop over `backupFiles[start..]`, stopped by the first failing `os.remove`. */
  method RemoveFrom(backupFiles: seq<string>, start: nat, failAt: Option<nat>)
    returns (removed: seq<string>, completed: bool)
    requires start <= |backupFiles|
    ensures removed <= backupFiles[start..]
    ensures completed <==> failAt.None? || failAt.value >= |backupFiles| - start
    ensures completed ==> removed == backupFiles[start..]
    ensures failAt.Some? && !completed ==> |removed| == failAt.value
  {
    removed := [];
    var i := start;
    while i < |backupFiles|
      invariant start <= i <= |backupFiles|
      invariant removed == backupFiles[start..i]
      invariant failAt.Some? ==> failAt.value >= i - start
    {
      if failAt == Some(i - start) {
        return removed, false;
      }
      removed := removed + [backupFiles[i]];
      i := i + 1;
    }
    completed := true;
  }

  /** Kept and removed split the sorted candidates at the slice start. */
  lemma RetentionSplit(names: seq<string>, keep: int)
    ensures KeptBackups(names, keep) + RemovedBackups(names, keep) == SortedBackups(names)
    ensures multiset(KeptBackups(names, keep)) + multiset(RemovedBackups(names, keep))
         == multiset(BackupCandidates(names))
  {
    var sorted := SortedBackups(names);
    var start := SliceStart(|sorted|, keep);
    assert sorted == sorted[..start] + sorted[start..];
  }

  /** Cleanup removes only backup names from the listing. */
  lemma RemovedAreBackups(names: seq<string>, keep: int)
    ensures forall f :: f in RemovedBackups(names, keep) ==> f in names && IsBackupName(f)
  {
    RetentionSplit(names, keep);
    forall f | f in RemovedBackups(names, keep) ensures f in names && IsBackupName(f) {
      assert f in multiset(BackupCandidates(names));
    }
  }

  /** Every kept name is at least as great as every removed one. */
  lemma KeptNotOlder(names: seq<string>, keep: int)
    ensures forall i, j :: 0 <= i < |KeptBackups(names, keep)| && 0 <= j < |RemovedBackups(names, keep)|
              ==> !LexLess(KeptBackups(names, keep)[i], RemovedBackups(names, keep)[j])
  {
    var sorted := SortedBackups(names);
    var start := SliceStart(|sorted|, keep);
    forall i, j | 0 <= i < |sorted[..start]| && 0 <= j < |sorted[start..]|
      ensures !LexLess(sorted[..start][i], sorted[start..][j])
    {
      assert sorted[..start][i] == sorted[i] && sorted[start..][j] == sorted[start + j];
    }
  }

  /** For `keep >= 0`, min(keep, n) names are kept and max(0, n - keep) removed. */
  lemma RetentionCounts(names: seq<string>, keep: int)
    requires keep >= 0
    ensures var n := |BackupCandidates(names)|;
      && |KeptBackups(names, keep)| == (if keep < n then keep else n)
      && |RemovedBackups(names, keep)| == (if n - keep > 0 then n - keep else 0)
  {
    assert |SortedBackups(names)| == |multiset(SortedBackups(names))|;
  }

  /** In a descending list, an element greater than all others comes first, and only once if it occurs once. */
  lemma GreatestFirst(sorted: seq<string>, x: string)
    requires SortedDescending(sorted) && x in sorted && multiset(sorted)[x] <= 1
    requires forall y :: y in sorted && y != x ==> LexLess(y, x)
    ensures sorted[0] == x && x !in sorted[1..]
  {
    var k :| 0 <= k < |sorted| && sorted[k] == x;
    if k != 0 {
      assert !LexLess(sorted[0], sorted[k]);
    }
    assert sorted == [sorted[0]] + sorted[1..];
  }

  /**
   * The backup just written survives cleanup: when its name is greater than
   * every other backup name in the directory and at least one backup is kept,
   * it is not removed.
   */
  lemma NewestBackupKept(names: seq<string>, newest: string, keep: int)
    requires Distinct(names) && newest in names && IsBackupName(newest) && keep >= 1
    requires forall f :: f in names && IsBackupName(f) && f != newest ==> LexLess(f, newest)
    ensures newest in KeptBackups(names, keep)
    ensures newest !in RemovedBackups(names, keep)
  {
    var candidates := BackupCandidates(names);
    var sorted := SortDescending(candidates);
    var start := SliceStart(|sorted|, keep);
    DistinctOccursOnce(candidates, newest);
    forall y | y in sorted && y != newest ensures LexLess(y, newest) {
      assert y in multiset(sorted);
    }
    assert newest in multiset(sorted);
    GreatestFirst(sorted, newest);
    assert sorted[..start][0] == newest;
    assert sorted[start..] == sorted[1..][start - 1..];
  }

  // ---------------------------------------------------------------------------
  // main
  // ---------------------------------------------------------------------------

  /**
   * `main`: back up; when a backup path comes back, clean the backup
   * directory keeping five and return 0, otherwise return 1. `listing` is what
   * `os.listdir` gives for the backup directory once the backup is written;
   * `removed` is None when cleanup does not run.
   */
  method RunBackup(env: map<string, string>, db: DbFile, dirCreated: bool, copied: bool, now: DateTime,
                   listDir: string -> Option<seq<string>>, failAt: Option<nat>)
    returns (status: Termination<int>, removed: Option<seq<string>>)
    requires ValidDateTime(now)
    ensures status == Returned(0) <==> GetDbPaths(env).Returned? && db.Present? && dirCreated && copied
    ensures removed.Some? <==> status == Returned(0)
    ensures removed.Some? ==>
      var listing := listDir(GetDbPaths(env).value.backupDir);
      && (listing.None? ==> removed.value == [])
      && (listing.Some? ==> removed.value <= RemovedBackups(listing.value, DefaultKeep))
      && (listing.Some? && failAt.None? ==> removed.value == RemovedBackups(listing.value, DefaultKeep))
    ensures status.Returned? ==> status.value == 0 || status.value == 1
    ensures status.Exited? ==> status.code == 1
    ensures ExitStatus(status) == 0 <==> status == Returned(0)
  {
    var backupPath := BackupDatabase(env, db, dirCreated, copied, now);
    match backupPath
    case Exited(code) =>
      status, removed := Exited(code), None;
    case Crashed(error) =>
      status, removed := Crashed(error), None;
    case Returned(path) =>
      if path.Some? && path.value != "" {
        var paths := GetDbPaths(env);
        assert paths.Returned?;
        var r, _ := CleanupOldBackups(listDir(paths.value.backupDir), DefaultKeep, failAt);
        status, removed := Returned(0), Some(r);
      } else {
        status, removed := Returned(1), None;
      }
  }

  /** Names without the `game_backup_` prefix are never cleanup candidates, whatever else is listed. */
  lemma UnprefixedNameIgnored(names: seq<string>, f: string)
    requires !(BackupPrefix <= f)
    ensures f !in BackupCandidates(names)
  {
  }

  /** A plain game database such as `game_20250510_120000.db` is not a backup name. */
  lemma PlainDatabaseIgnored(names: seq<string>)
    ensures "game_20250510_120000.db" !in BackupCandidates(names)
  {
    assert "game_20250510_120000.db"[5] != BackupPrefix[5];
    UnprefixedNameIgnored(names, "game_20250510_120000.db");
  }
}
