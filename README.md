# Sky Squad server core in Dafny

This project models the server-side core of the Sky Squad flight simulator:

- **Progression engine** (`server/progression.py`, module `Progression`): experience and levels over the
  fixed `LEVEL_THRESHOLDS` table, the `ACHIEVEMENTS` catalogue, per-user records in `players_cache`
  (the map field `playersCache` of class `PlayerProgression`), star-collection counters, the daily
  login streak and the active daily challenges. Every state-changing method of `PlayerProgression`
  is proved against a function on user records (`Unlock`, `Gain`, `TrackStars`, `Login`,
  `Refreshed`), and the properties the engine promises are proved about those functions. The class
  invariant is that every cached record is consistent: its level matches its experience, its
  achievements are distinct catalogue ids, and every star and streak threshold it has reached has
  its achievement.
- **Game state** (`server/main.py`, module `Game`): the global `users`, `players`, `connections`,
  `stars` and `score` as class `GameState`; `compute_new_position`; `check_stars`, which runs over a
  snapshot of the stars; the message dispatch of the WebSocket endpoint (connect, join, move, other,
  disconnect); and `register_user`.
- **Backup script** (`server/backup_db.py`, module `Backup`): the `DATABASE_URL` rule, the backup file
  name `game_backup_%Y%m%d_%H%M%S.db`, `backup_database`'s outcomes, the retention rule of
  `cleanup_old_backups`, and how `main` ends.
- **Initialisation script** (`server/init_db.py`, module `InitDb`): the `DATABASE_URL` rule, the
  INSERT OR IGNORE seeding of the six default `game_settings` rows as a map merge, and how
  `init_database` and `main` end.
- Shared modules: `Wrappers` (Option), `Text` (Python's `in` on strings, `str.replace(p, "")`, string
  `<`, zero padding, `sort(reverse=True)`) and `SqliteUrl` (the URL rule shared by both scripts, and
  `Termination`: return, `sys.exit(code)` or an uncaught exception).

Time is an integer clock in seconds, and a calendar day is `now / 86400`. Coordinates are exact
reals. The random values (`spawn_star`, challenge picks, uuids) and file-system outcomes (whether the
database exists, whether `makedirs` and the copy succeed, the directory listing, which `os.remove`
fails first) are parameters.

Where the tests disagree with the code, the model follows the code:

- `tests/backend/test_progression.py` expects level 5 at 1050 experience. The code gives 6
  (`Progression.LevelOf1050`), because thresholds 5 and 6 are both 1000, so level 5 is never
  produced (`Progression.LevelNeverFive`).
- `tests/backend/test_db_utils.py` uses backup names without the `game_backup_` prefix. The code
  never treats such names as backups (`Backup.UnprefixedNameIgnored`, `Backup.PlainDatabaseIgnored`).
- `tests/backend/test_main.py` imports functions that `server/main.py` does not define. Only the
  functions that exist are modelled.

## Model

| member | source | states |
|---|---|---|
| SqliteUrl.ExitStatus | server/backup_db.py:198-199 | `sys.exit(main())` ends with the returned or exit code; an uncaught exception ends with status 1 |
| SqliteUrl.SqlitePath | server/backup_db.py:33-41 | a path is produced exactly when the URL starts with `sqlite:///`, and it is no longer than the URL without the prefix |
| SqliteUrl.SqlitePathRoundTrip | server/backup_db.py:41 | prefixing `sqlite:///` to a path that does not contain it and parsing it back gives the path |
| SqliteUrl.DefaultSqlitePath | server/backup_db.py:32-41 | the default URL `sqlite:///data/game.db` names `data/game.db` |
| SqliteUrl.SqlitePathRepeatedPrefix | server/backup_db.py:41 | `replace` removes every occurrence of the prefix, so a doubled prefix is removed twice |
| Text.ContainsIffOccurs | server/progression.py:360-362 | Python's `sub in s` holds exactly when some window of `s` equals `sub` |
| Text.SortDescending | server/backup_db.py:163 | `sort(reverse=True)` gives a list in descending string order that is a permutation of its input |
| Backup.GetDbPaths | server/backup_db.py:30-47 | exits with status 1 unless `DATABASE_URL` (default `sqlite:///data/game.db`) starts with `sqlite:///`; otherwise the database path is the URL with the prefix removed and the backup directory is `DATABASE_BACKUP_DIR` or `./data/backups` |
| Backup.DefaultDbPaths | server/backup_db.py:32-42 | with no environment the paths are `data/game.db` and `./data/backups` |
| Backup.TimestampThen | server/backup_db.py:87 | `%Y%m%d_%H%M%S` of a four-digit-year date-time is 15 characters long |
| Backup.BackupFileName | server/backup_db.py:87-88 | the name is 30 characters long and passes cleanup's prefix and suffix test |
| Backup.TimestampOrder | server/backup_db.py:87 | the fixed-width timestamp orders as strings exactly as the times order chronologically |
| Backup.BackupNameOrder | server/backup_db.py:87-88 | one backup name is less than another exactly when its time is earlier |
| Backup.BackupNameInjective | server/backup_db.py:87-88 | two backup names are equal exactly when their times are equal |
| Backup.JoinPath | server/backup_db.py:89 | the joined path ends with the file name |
| Backup.BackupDatabase | server/backup_db.py:66-146 | returns None exactly for a missing database or a failed copy of a non-empty one; returns the joined backup path exactly when the copy succeeds; a failed copy of an empty database escapes as an exception; a bad URL or directory failure exits with status 1 |
| Backup.BackupCandidates | server/backup_db.py:159-160 | the candidates are exactly the listed names that start with `game_backup_` and end with `.db`, and no name appears twice |
| Backup.SliceStart | server/backup_db.py:166 | Python's slice start for `[keep:]`, negative `keep` included, lies within the list |
| Backup.CleanupOldBackups | server/backup_db.py:149-182 | removes a prefix of the sorted candidates from position `keep` on, in order: all of them and completing when no `os.remove` fails, otherwise exactly those before the first failing one, which the outer handler stops at; an unlistable directory removes nothing |
| Backup.RemoveFrom | server/backup_db.py:166-172 | the removal loop deletes the names from the slice start on, in order, and stops at the first failing `os.remove` with exactly the names before it deleted |
| Backup.RetentionSplit | server/backup_db.py:163-166 | kept and removed names together are the sorted candidates, and as multisets exactly the candidates |
| Backup.RemovedAreBackups | server/backup_db.py:159-168 | every removed name is a listed name that passes the backup-name test, so no other file is removed |
| Backup.KeptNotOlder | server/backup_db.py:163-166 | every kept name is at least as great as every removed one |
| Backup.RetentionCounts | server/backup_db.py:176 | for `keep >= 0`, min(keep, n) names are kept and max(0, n - keep) removed |
| Backup.NewestBackupKept | server/backup_db.py:185-192 | the backup just written, if its name is the greatest backup name, survives a cleanup that keeps at least one |
| Backup.RunBackup | server/backup_db.py:185-195 | `main` returns 0 and runs cleanup with keep 5 on the listing of the configured backup directory exactly when a backup path came back; otherwise it ends with 1, from a return, an exit or an exception |
| Backup.UnprefixedNameIgnored | server/backup_db.py:159-160 | a name without the `game_backup_` prefix is not a cleanup candidate, whatever else is listed |
| Backup.PlainDatabaseIgnored | server/backup_db.py:159-160 | the plain database name `game_20250510_120000.db` is never a cleanup candidate |
| InitDb.GetDbPath | server/init_db.py:27-39 | exits with status 1 unless the URL starts with `sqlite:///`; otherwise returns the URL with the prefix removed |
| InitDb.DefaultDbPath | server/init_db.py:29-38 | with no environment the path is `data/game.db` |
| InitDb.KeysOf | server/init_db.py:124-131 | the key set is exactly the keys of the rows |
| InitDb.InsertOrIgnore | server/init_db.py:133-136 | `executemany` of INSERT OR IGNORE leaves the table given by row-by-row seeding |
| InitDb.SeededKeepsAndAdds | server/init_db.py:133-136 | seeding keeps every existing row unchanged and its keys are the old keys plus the rows' keys |
| InitDb.SeededNewRows | server/init_db.py:133-136 | a key that was missing gets its default value and description, stamped with the seeding time |
| InitDb.SeededNoop | server/init_db.py:133-136 | rows whose keys are all present change nothing |
| InitDb.SeedingIdempotent | server/init_db.py:133-136 | seeding again, at any later time, changes nothing |
| InitDb.DefaultKeysDistinct | server/init_db.py:124-131 | the six default keys are distinct |
| InitDb.DefaultsPresent | server/init_db.py:124-136 | after seeding all six default keys are present, and the absent ones hold their defaults |
| InitDb.InitDatabase | server/init_db.py:57-157 | the table is seeded exactly when the URL, directory, connection and statements succeed, and is unchanged otherwise; a failed connection escapes as an exception from the `finally` clause; other failures exit with status 1 |
| InitDb.RunInit | server/init_db.py:159-165 | the process status is 0 exactly when `init_database` returns, and the table is then seeded |
| Game.ComputeNewPosition | server/main.py:56-66 | up/down move `y` by +0.1/-0.1 and left/right move `x` by -0.1/+0.1, with the other coordinate and the username kept; any other command gives an equal copy |
| Game.OppositeMovesCancel | server/main.py:56-66 | opposite commands undo each other |
| Game.RepeatedMoves | server/main.py:56-66 | n equal commands move exactly n steps, since positions are never clamped |
| Game.CollisionIsBoxNotDisc | server/main.py:72-75 | contact is an axis-aligned box: a star more than 0.5 away is still collected |
| Game.Uncollected | server/main.py:71-76 | no star left behind touches the player, and no stars are added |
| Game.UncollectedMembers | server/main.py:71-76 | a star present at the start is left exactly when the player does not touch it |
| Game.CollectionPartition | server/main.py:71-77 | every star of the snapshot is either collected or left |
| Game.Spawned | server/main.py:53-54 | the k-th star spawned is `spawn(k)` |
| Game.RemoveFirst | server/main.py:76 | `list.remove` shortens the list by one |
| Game.RemoveFirstCounts | server/main.py:126 | `list.remove` takes away exactly one copy of the element |
| Game.RemoveFirstAt | server/main.py:76 | `list.remove` deletes the first equal element and keeps the rest in order |
| Game.ScoreStep | server/main.py:77 | adding 10 per star keeps the score a non-negative multiple of 10 |
| Game.CollectionKeepsValid | server/main.py:75-78 | after a pass the star count is unchanged, and the score is still a non-negative multiple of 10 |
| Game.PendingEnds | server/main.py:71 | before the loop only the snapshot is pending; after it, the untouched stars and the replacements |
| Game.CollectStep | server/main.py:71-78 | removing a touched star and appending a replacement moves the loop to the next snapshot position |
| Game.KeepStep | server/main.py:71-75 | an untouched star changes nothing |
| Game.GameState.constructor | server/main.py:40-54 | at start the tables are empty, the score is 0 and exactly three spawned stars exist |
| Game.GameState.CheckStars | server/main.py:68-78 | the stars become the untouched stars of the snapshot followed by one replacement per touched star; the score rises by 10 per touched star; nothing else changes, and three stars and a score that is a multiple of 10 stay so |
| Game.GameState.CollectionPass | server/main.py:71-78 | the loop over the snapshot leaves the untouched stars followed by the replacements, and adds 10 per touched star |
| Game.GameState.CollectionTurn | server/main.py:72-78 | one turn removes the first occurrence of a touched star, adds 10 and appends one replacement; an untouched star changes nothing |
| Game.GameState.Connect | server/main.py:109-111 | a new connection adds a player at (0.0, 0.0) with username "" and records the socket |
| Game.GameState.HandleMessage | server/main.py:113-121 | `join` sets only the username (default ""); `move` moves the player and then collects stars; any other type changes nothing; the score never decreases |
| Game.GameState.Disconnect | server/main.py:125-127 | the socket is removed once and the player is dropped |
| Game.GameState.RegisterUser | server/main.py:129-136 | a missing or empty username raises ValueError and leaves `users` unchanged; otherwise the entry is written, replacing any earlier one, with missing email and password as "" |
| Progression.ThresholdsMonotone | server/progression.py:83 | the threshold table never decreases |
| Progression.Reached | server/progression.py:223-228 | at most n of the thresholds 1..n are reached |
| Progression.ReachedBrackets | server/progression.py:223-228 | the count of reached thresholds brackets the experience |
| Progression.LevelBrackets | server/progression.py:223-228 | the level lies in 0..10, its threshold is reached and the next is not |
| Progression.LevelIs | server/progression.py:223-228 | a bracketing level is the level |
| Progression.LevelCharacterization | server/progression.py:223-228 | level l is computed exactly when threshold l is reached and threshold l + 1 is not |
| Progression.LevelExtremes | server/progression.py:223-228 | below 100 experience the level is 0, and from 3250 it is 10 |
| Progression.LevelMonotone | server/progression.py:223-228 | more experience never gives a lower level |
| Progression.LevelNeverFive | server/progression.py:223-228 | with thresholds 5 and 6 both 1000, level 5 is never produced, and 1000 to 1749 is level 6 |
| Progression.LevelOf1050 | server/progression.py:223-228 | 1050 experience is level 6 |
| Progression.CalculateLevel | server/progression.py:223-228 | the climbing loop computes the level |
| Progression.NextLevelXp | server/progression.py:230-234 | -1 from level 10 on, a positive threshold for levels 0..9, and Python's negative indexing down to -12 with an IndexError below |
| Progression.NextLevelXpIsLeast | server/progression.py:230-234 | below level 10, the next-level value is the least experience with a higher level |
| Progression.FindIn | server/progression.py:287 | `next(...)` finds an entry with the id, and finds nothing exactly when no entry has it |
| Progression.FindFrom | server/progression.py:287 | the search from position k finds an entry with the id, or nothing exactly when no later entry has it |
| Progression.FindSkips | server/progression.py:287 | the search passes over a prefix of other ids |
| Progression.GetAchievements | server/progression.py:168-170 | the catalogue has ten entries with distinct ids, positive points and none hidden |
| Progression.CatalogFind | server/progression.py:86-97 | looking up the id of catalogue entry k finds entry k, which awards positive points |
| Progression.NamedEntries | server/progression.py:86-97 | each id the engine asks for by name is in the catalogue |
| Progression.FoundPointsPositive | server/progression.py:86-97 | every achievement found awards positive points |
| Progression.ExpiryIsFinal | server/progression.py:60-62 | expiry is strictly after the end time and is permanent |
| Progression.GenerateDailyChallenges | server/progression.py:134-155 | three challenges, one per pick, named `<template id>_<now>`, with goal and reward in the template's ranges, lasting 24 hours, with distinct ids |
| Progression.TemplateIdsDistinct | server/progression.py:100-109 | distinct templates give distinct challenge ids |
| Progression.RefreshIdempotent | server/progression.py:157-161 | after a refresh nothing has expired and the list is non-empty, so a second refresh at the same instant changes nothing |
| Progression.NewUserOk | server/progression.py:243-250 | the default record is consistent |
| Progression.UnlockOutcome | server/progression.py:270-319 | an unlock returns None exactly for a held or unknown id and then changes nothing; otherwise it returns the catalogue entry, appends the id, adds its points and recomputes the level, changing nothing else |
| Progression.UnlockIdempotent | server/progression.py:282-284 | unlocking the same id again returns None and changes nothing |
| Progression.UnlockHolds | server/progression.py:292-295 | after an unlock of a catalogue id the id is held, and nothing held is lost |
| Progression.HeldPersists | server/progression.py:292-295 | holding more achievements with the same counters keeps the threshold rules |
| Progression.UnlockKeepsCore | server/progression.py:282-301 | an unlock keeps a record consistent and never adds an id twice |
| Progression.AttemptEffects | server/progression.py:207-211 | a conditional unlock never loses an achievement, never lowers experience, raises it exactly when something is unlocked, and keeps consistency |
| Progression.Gain | server/progression.py:186-191 | the returned total is the old experience plus the amount, and the returned level is its level |
| Progression.AttemptTwiceEffects | server/progression.py:207-211 | two conditional unlocks keep consistency and leave every catalogue id they tried held |
| Progression.GainSteps | server/progression.py:194-211 | the level attempts happen only on a level-up, on the record with the new experience and level stored |
| Progression.GainReturnedXp | server/progression.py:190-213 | the returned total can trail the stored one by the points of a level achievement unlocked in the same call; without a level-up nothing is unlocked |
| Progression.LevelIdsFound | server/progression.py:93-94 | `level_5` and `level_10` are in the catalogue |
| Progression.LevelUpAwards | server/progression.py:207-211 | a level-up to 5 or more leaves `level_5` held, and to 10 also `level_10` |
| Progression.GainKeepsOk | server/progression.py:172-213 | `add_experience` keeps a record consistent |
| Progression.LevelFiveMissed | server/progression.py:298-301 | from a consistent record at 995 experience, the first star's achievement points cross level 5 without `level_5`, and a later gain without a level-up does not award it |
| Progression.FirstStarAt995 | server/progression.py:334-355 | the first star of a record at 995 experience unlocks `first_star` alone, giving 1000 experience and level 6 |
| Progression.UnlockChecksStep | server/progression.py:351-355 | one more check extends the result of the checks before it |
| Progression.ExtendsByStep | server/progression.py:352-355 | one attempted unlock appends at most the attempted id and adds at most its points |
| Progression.UnlockChecksAppends | server/progression.py:351-355 | the returned achievements are exactly the ids appended, in check order, and the experience rises by exactly their points |
| Progression.UnlockChecksKeepsCore | server/progression.py:351-355 | the checks keep a record consistent and lose no achievement |
| Progression.UnlockChecksHold | server/progression.py:351-355 | every check whose condition holds and whose id is in the catalogue ends up held |
| Progression.BumpedCounts | server/progression.py:358-363 | each challenge id's progress rises by the number of its advancing collection challenges |
| Progression.TrackStarsCounts | server/progression.py:334-363 | a star raises the total by 1 and the special count by 1 exactly for a value above 1; unlocked achievements are appended and their points added; challenge progress is bumped; streak and last login are kept |
| Progression.TrackStarsKeepsOk | server/progression.py:334-355 | after a star every star threshold reached has its achievement |
| Progression.NextStreak | server/progression.py:386-398 | an empty last login gives 1, a gap of one day adds 1, the same day keeps the streak, any other gap gives 1 |
| Progression.Login | server/progression.py:400-402 | the new streak and the login instant are stored |
| Progression.StreakIdsFound | server/progression.py:95-96 | `streak_3` and `streak_7` are in the catalogue |
| Progression.LoginSteps | server/progression.py:400-409 | the streak attempts run on the record with the new streak stored |
| Progression.LoginKeepsOk | server/progression.py:400-409 | after a login a streak of 3 or 7 has its achievement |
| Progression.ConsecutiveLogins | server/progression.py:390-392 | logging in on n consecutive days raises the streak by n |
| Progression.FirstLoginSameDay | server/progression.py:243-250 | a new record already holds its creation time as the last login, so a login that day leaves the streak at 0 and one the next day gives 1 |
| Progression.StoreOk | server/progression.py:236-252 | the record `_get_user` reads from a consistent cache is consistent, and storing a consistent record keeps it so |
| Progression.UnlockCacheOk | server/progression.py:282-301 | an unlock for any user keeps a consistent cache consistent |
| Progression.GainCacheOk | server/progression.py:186-211 | an experience gain for any user keeps a consistent cache consistent |
| Progression.TrackCacheOk | server/progression.py:334-363 | a collected star for any user keeps a consistent cache consistent |
| Progression.LoginCacheOk | server/progression.py:386-409 | a login for any user keeps a consistent cache consistent |
| Progression.PlayerProgression.constructor | server/progression.py:111-132 | an empty cache and a fresh set of daily challenges |
| Progression.PlayerProgression.GetUser | server/progression.py:236-252 | returns the cached record, or caches and returns a new default record |
| Progression.PlayerProgression.UpdateUserProgression | server/progression.py:254-268 | stores the given experience and level and returns True |
| Progression.PlayerProgression.UnlockAchievement | server/progression.py:270-319 | the cache and result are those of `Unlock`, and the cache stays consistent |
| Progression.PlayerProgression.AddExperience | server/progression.py:172-221 | the cache and the returned total, level and achievement are those of `Gain`, and the cache stays consistent |
| Progression.PlayerProgression.TrackStarCollection | server/progression.py:321-365 | the cache and the returned list are those of `TrackStars`, and the cache stays consistent |
| Progression.PlayerProgression.AttemptChecks | server/progression.py:351-355 | the achievement loop unlocks each check whose condition holds, in order, and returns the successes |
| Progression.PlayerProgression.AdvancedProgress | server/progression.py:358-363 | the challenge loop advances every collection challenge that matches this star, in list order |
| Progression.PlayerProgression.UpdateLoginStreak | server/progression.py:367-424 | the cache and achievement are those of `Login`, the returned streak is the new streak, and the cache stays consistent |
| Progression.PlayerProgression.RefreshChallenges | server/progression.py:157-161 | the list is regenerated exactly when it is empty or something in it has expired, and is otherwise left as it is |

## Left out

- Async/await, the WebSocket accept and receive loop, and `broadcast_state`: network I/O and concurrency. The dispatch is modelled as one sequential step per message.
- `register` (the FastAPI `/register` endpoint) and `get_stats`: the HTTP layer only. `register_user` is modelled.
- A WebSocket message whose payload is not a JSON object: `data.get` raises `AttributeError`, and the `finally` clause disconnects the player. Messages are modelled as objects only; `Disconnect` is the step that follows such a failure.
- Floating-point rounding: coordinates are exact reals, so `0.1` steps are exact in the model.
- `random` and `uuid`: spawned stars, challenge picks and player ids are parameters.
- `datetime.now()` and ISO-format parsing: time is an integer clock in seconds, and the calendar day is `now / 86400` (UTC days, not the server's local days). `init_db` calls `datetime.utcnow()` once per seeded row; the model stamps all six rows with one instant.
- Progression.PlayerProgression.GetUser: the default record has no `total_stars`, `special_stars` or `challenge_*` keys; the model stores 0 and an empty map, which every reader treats the same way through `dict.get(key, 0)`.
- `Achievement.to_dict` and the titles, descriptions and icons of achievements: display text only. The unlock methods return the achievement itself instead of its dictionary.
- `get_challenges`, `Challenge.to_dict` and `get_user_progress`: they serialise state and compute float-valued remaining hours and percentages.
- The unreachable `if not user` branches and the `except Exception` handlers of the progression engine: `_get_user` always returns a record, and no modelled step can raise.
- sqlite3, `os` and `shutil` effects (table DDL, the backup API copy, `makedirs`, `os.remove`): their outcomes are parameters, and cleanup returns the names it removed before the first failing `os.remove`.
- Logging setup and messages.
- Backup.ValidDateTime: only four-digit years are modelled, since the name format assumes them.
