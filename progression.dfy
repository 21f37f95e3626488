/**
 * The player progression engine: experience and levels over a fixed
 * threshold table, a catalogue of achievements that award points once,
 * star-collection counters, a daily login streak and the set of active
 * daily challenges. Per-user records live in the `players_cache`
 * dictionary, here the map field `playersCache` of `PlayerProgression`.
 *
 * Time is a single integer clock `now` in seconds; the calendar day of an
 * instant is `now / 86400`. The random choices made when daily challenges
 * are generated are a parameter `picks`.
 */
module Progression {
  import opened Wrappers
  import opened Text

  // ---------------------------------------------------------------------------
  // Levels
  // ---------------------------------------------------------------------------

  /** `LEVEL_THRESHOLDS`: the experience needed for each level; levels 5 and 6 share 1000. */
  const LevelThresholds: seq<int> := [0, 100, 250, 450, 700, 1000, 1000, 1750, 2200, 2700, 3250]

  const MaxLevel: nat := 10

  /** The thresholds never decrease. */
  lemma ThresholdsMonotone(i: int, j: int)
    requires 0 <= i <= j <= MaxLevel
    ensures LevelThresholds[i] <= LevelThresholds[j]
  {
    var t := LevelThresholds;
    assert forall k :: 0 <= k < MaxLevel ==> t[k] <= t[k + 1];
    var k := i;
    while k < j
      invariant i <= k <= j
      invariant t[i] <= t[k]
    {
      k := k + 1;
    }
  }

  /** How many of the thresholds 1..n the experience `xp` reaches. */
  function Reached(xp: int, n: nat): (r: nat)
    requires n <= MaxLevel
    ensures r <= n
  {
    if n == 0 then 0
    else Reached(xp, n - 1) + (if LevelThresholds[n] <= xp then 1 else 0)
  }

  /** The level of `xp`: the number of thresholds above level 0 it reaches. */
  function Level(xp: int): nat {
    Reached(xp, MaxLevel)
  }

  /**
   * The count of reached thresholds brackets `xp`: it reaches the threshold
   * of that count and not the next one.
   */
  lemma {:induction false} ReachedBrackets(xp: int, n: nat)
    requires n <= MaxLevel
    ensures var r := Reached(xp, n);
      && (r == 0 || LevelThresholds[r] <= xp)
      && (r == n || xp < LevelThresholds[r + 1])
  {
    if n > 0 {
      ReachedBrackets(xp, n - 1);
      var r := Reached(xp, n - 1);
      if LevelThresholds[n] <= xp && r < n - 1 {
        ThresholdsMonotone(r + 1, n);
        assert false;
      }
    }
  }

  /** A level is bracketed by its own threshold and the next one. */
  lemma LevelBrackets(xp: int)
    ensures Level(xp) <= MaxLevel
    ensures Level(xp) == 0 || LevelThresholds[Level(xp)] <= xp
    ensures Level(xp) == MaxLevel || xp < LevelThresholds[Level(xp) + 1]
  {
    ReachedBrackets(xp, MaxLevel);
  }

  /** Only one level brackets `xp`, so the level is exactly the bracketing one. */
  lemma LevelIs(xp: int, l: int)
    requires 0 <= l <= MaxLevel
    requires l == 0 || LevelThresholds[l] <= xp
    requires l == MaxLevel || xp < LevelThresholds[l + 1]
    ensures Level(xp) == l
  {
    LevelBrackets(xp);
    var m := Level(xp);
    if l < m {
      ThresholdsMonotone(l + 1, m);
    } else if m < l {
      ThresholdsMonotone(m + 1, l);
    }
  }

  /** The level of `xp` is `l` exactly when `xp` reaches threshold `l` and not threshold `l + 1`. */
  lemma LevelCharacterization(xp: int, l: int)
    requires 0 <= l <= MaxLevel
    ensures Level(xp) == l <==>
      (l == 0 || LevelThresholds[l] <= xp) && (l == MaxLevel || xp < LevelThresholds[l + 1])
  {
    LevelBrackets(xp);
    if (l == 0 || LevelThresholds[l] <= xp) && (l == MaxLevel || xp < LevelThresholds[l + 1]) {
      LevelIs(xp, l);
    }
  }

  /** Below 100 experience the level is 0; from 3250 on it is 10. */
  lemma LevelExtremes(xp: int)
    ensures xp < 100 ==> Level(xp) == 0
    ensures xp >= 3250 ==> Level(xp) == MaxLevel
  {
    if xp < 100 {
      LevelIs(xp, 0);
    }
    if xp >= 3250 {
      LevelIs(xp, MaxLevel);
    }
  }

  /** More experience never means a lower level. */
  lemma LevelMonotone(xp1: int, xp2: int)
    requires xp1 <= xp2
    ensures Level(xp1) <= Level(xp2)
  {
    LevelBrackets(xp1);
    LevelBrackets(xp2);
    var a, b := Level(xp1), Level(xp2);
    if b < a {
      ThresholdsMonotone(b + 1, a);
    }
  }

  /** Because thresholds 5 and 6 are both 1000, level 5 is never reached: 1000 to 1749 is level 6. */
  lemma LevelNeverFive(xp: int)
    ensures Level(xp) != 5
    ensures 1000 <= xp < 1750 <==> Level(xp) == 6
  {
    LevelCharacterization(xp, 5);
    LevelCharacterization(xp, 6);
  }

  /** 1050 experience is level 6, not 5. */
  lemma LevelOf1050()
    ensures Level(1050) == 6
  {
    LevelIs(1050, 6);
  }

  /**
   * `_calculate_level`: climbs from level 0 while the next threshold is
   * reached, and stops at level 10.
   */
  method CalculateLevel(xp: int) returns (level: int)
    ensures level == Level(xp)
  {
    level := 0;
    while level < |LevelThresholds| - 1 && xp >= LevelThresholds[level + 1]
      invariant 0 <= level <= MaxLevel
      invariant level == 0 || LevelThresholds[level] <= xp
    {
      level := level + 1;
    }
    LevelIs(xp, level);
  }

  /**
   * `get_next_level_xp`: -1 from level 10 on; otherwise the entry at
   * `level + 1` of the table, with Python's negative indexing for levels
   * -12 to -1 and an IndexError (None) below that.
   */
  function NextLevelXp(level: int): (r: Option<int>)
    ensures r.None? <==> level < -12
    ensures level >= MaxLevel ==> r == Some(-1)
    ensures 0 <= level < MaxLevel ==> r.Some? && r.value > 0
  {
    if level >= |LevelThresholds| - 1 then Some(-1)
    else if level + 1 >= 0 then Some(LevelThresholds[level + 1])
    else if level + 1 >= -|LevelThresholds| then Some(LevelThresholds[|LevelThresholds| + level + 1])
    else None
  }

  /**
   * Below level 10 the next-level experience is the least experience whose
   * level is above `l`.
   */
  lemma NextLevelXpIsLeast(l: int, xp: int)
    requires 0 <= l < MaxLevel
    ensures NextLevelXp(l).Some?
    ensures Level(NextLevelXp(l).value) > l
    ensures xp < NextLevelXp(l).value ==> Level(xp) <= l
  {
    var next := LevelThresholds[l + 1];
    LevelBrackets(next);
    var m := Level(next);
    if m <= l {
      ThresholdsMonotone(m + 1, l + 1);
    }
    LevelBrackets(xp);
    var n := Level(xp);
    if xp < next && n > l {
      ThresholdsMonotone(l + 1, n);
    }
  }

  // ---------------------------------------------------------------------------
  // Achievements
  // ---------------------------------------------------------------------------

  /**
   * An achievement definition: its id, the experience it awards and whether
   * it is hidden. Titles, descriptions and icons are display text only.
   */
  datatype Achievement = Achievement(id: string, points: int, hidden: bool)

  /** `ACHIEVEMENTS`, in declaration order; none is hidden. */
  function Catalog(): seq<Achievement> {
    [Achievement("first_star", 5, false), Achievement("collector_10", 10, false),
     Achievement("collector_50", 20, false), Achievement("collector_100", 30, false),
     Achievement("special_5", 15, false), Achievement("special_20", 30, false),
     Achievement("level_5", 20, false), Achievement("level_10", 50, false),
     Achievement("streak_3", 15, false), Achievement("streak_7", 25, false)]
  }

  /** The first entry of `catalog` with the given id, as `next(...)` finds it. */
  function FindIn(catalog: seq<Achievement>, id: string): (r: Option<Achievement>)
    ensures r.Some? ==> r.value in catalog && r.value.id == id
    ensures r.None? <==> forall j :: 0 <= j < |catalog| ==> catalog[j].id != id
  {
    FindFrom(catalog, id, 0)
  }

  /** The first entry with the given id at position `k` of `catalog` or later. */
  function FindFrom(catalog: seq<Achievement>, id: string, k: nat): (r: Option<Achievement>)
    decreases |catalog| - k
    ensures r.Some? ==> r.value in catalog && r.value.id == id
    ensures r.None? <==> forall j :: k <= j < |catalog| ==> catalog[j].id != id
  {
    if k >= |catalog| then None
    else if catalog[k].id == id then Some(catalog[k])
    else FindFrom(catalog, id, k + 1)
  }

  function FindAchievement(id: string): Option<Achievement> {
    FindIn(Catalog(), id)
  }

  /** `get_achievements`: the whole catalogue, ten entries with distinct ids and positive points. */
  function GetAchievements(): (r: seq<Achievement>)
    ensures |r| == 10
    ensures forall i, j :: 0 <= i < j < |r| ==> r[i].id != r[j].id
    ensures forall a :: a in r ==> a.points > 0 && !a.hidden
  {
    Catalog()
  }

  /** The search skips a prefix whose ids all differ. */
  lemma {:induction false} FindSkips(catalog: seq<Achievement>, k: nat, id: string)
    requires k <= |catalog|
    requires forall j :: 0 <= j < k ==> catalog[j].id != id
    ensures FindIn(catalog, id) == FindFrom(catalog, id, k)
  {
    if k > 0 {
      FindSkips(catalog, k - 1, id);
    }
  }

  /** Catalogue ids are distinct, so looking up the id of entry `k` finds entry `k`. */
  lemma CatalogFind(k: nat)
    requires k < |Catalog()|
    ensures FindAchievement(Catalog()[k].id) == Some(Catalog()[k])
    ensures Catalog()[k].points > 0
  {
    var ids := GetAchievements();
    FindSkips(Catalog(), k, Catalog()[k].id);
  }

  /** The ids the engine asks for by name, with their catalogue entries. */
  lemma NamedEntries()
    ensures FindAchievement("first_star") == Some(Catalog()[0])
    ensures FindAchievement("collector_10") == Some(Catalog()[1])
    ensures FindAchievement("collector_50") == Some(Catalog()[2])
    ensures FindAchievement("collector_100") == Some(Catalog()[3])
    ensures FindAchievement("special_5") == Some(Catalog()[4])
    ensures FindAchievement("special_20") == Some(Catalog()[5])
    ensures FindAchievement("level_5") == Some(Catalog()[6])
    ensures FindAchievement("level_10") == Some(Catalog()[7])
    ensures FindAchievement("streak_3") == Some(Catalog()[8])
    ensures FindAchievement("streak_7") == Some(Catalog()[9])
  {
    CatalogFind(0); CatalogFind(1); CatalogFind(2); CatalogFind(3); CatalogFind(4);
    CatalogFind(5); CatalogFind(6); CatalogFind(7); CatalogFind(8); CatalogFind(9);
  }

  /** Every achievement found awards positive points. */
  lemma FoundPointsPositive(id: string)
    ensures FindAchievement(id).Some? ==> FindAchievement(id).value.points > 0
  {
    var all := GetAchievements();
  }

  // ---------------------------------------------------------------------------
  // Challenges
  // ---------------------------------------------------------------------------

  const SecondsPerHour: int := 3600
  const DefaultDurationHours: int := 24
  const DailyChallengeCount: nat := 3

  /** A challenge started at `startTime` that ends `durationHours` hours later. */
  datatype Challenge = Challenge(id: string, title: string, description: string, goal: int,
                                 reward: int, category: string, durationHours: int, startTime: int)

  function EndTime(c: Challenge): int {
    c.startTime + SecondsPerHour * c.durationHours
  }

  /** `Challenge.is_expired`: strictly after the end time. */
  predicate IsExpired(c: Challenge, now: int) {
    now > EndTime(c)
  }

  /** Expiry is permanent, and the end instant itself is not yet expired. */
  lemma ExpiryIsFinal(c: Challenge, t1: int, t2: int)
    requires t1 <= t2
    ensures IsExpired(c, t1) ==> IsExpired(c, t2)
    ensures !IsExpired(c, EndTime(c)) && IsExpired(c, EndTime(c) + 1)
  {
  }

  /** A challenge template: `{goal}` in the description sits between `before` and `after`. */
  datatype Template = Template(id: string, title: string, before: string, after: string,
                               goalLow: int, goalHigh: int, rewardLow: int, rewardHigh: int,
                               category: string)

  /** `CHALLENGE_TEMPLATES`. */
  const Templates: seq<Template> := [
    Template("collect_stars", "Star Collector", "Collect ", " stars", 10, 30, 20, 50, "collection"),
    Template("collect_special", "Special Hunter", "Collect ", " special stars", 3, 10, 30, 80, "collection"),
    Template("play_time", "Flight Time", "Play for ", " minutes", 5, 20, 15, 40, "engagement"),
    Template("high_score", "High Flyer", "Get a score of ", " in one session", 50, 200, 30, 100, "performance")
  ]

  /** One random choice: which template, and the goal and reward drawn for it. */
  datatype Pick = Pick(template: nat, goal: int, reward: int)

  /**
   * What `random.sample` and `random.randint` can produce: three distinct
   * template indices, each goal and reward inside its template's inclusive range.
   */
  predicate ValidPicks(picks: seq<Pick>) {
    && |picks| == DailyChallengeCount
    && (forall k :: 0 <= k < |picks| ==> picks[k].template < |Templates|)
    && (forall i, j :: 0 <= i < j < |picks| ==> picks[i].template != picks[j].template)
    && (forall k :: 0 <= k < |picks| ==> PickInRange(picks[k]))
  }

  predicate PickInRange(p: Pick) {
    p.template < |Templates|
    && Templates[p.template].goalLow <= p.goal <= Templates[p.template].goalHigh
    && Templates[p.template].rewardLow <= p.reward <= Templates[p.template].rewardHigh
  }

  /** The challenge made from one pick at time `now`. */
  function MakeChallenge(p: Pick, now: int): Challenge
    requires p.template < |Templates|
  {
    var t := Templates[p.template];
    Challenge(t.id + "_" + IntToString(now), t.title, t.before + IntToString(p.goal) + t.after,
              p.goal, p.reward, t.category, DefaultDurationHours, now)
  }

  /**
   * `_generate_daily_challenges`: one challenge per pick, in pick order, each
   * named after its template and the current second, lasting 24 hours from now.
   */
  function GenerateDailyChallenges(picks: seq<Pick>, now: int): (r: seq<Challenge>)
    requires ValidPicks(picks)
    ensures |r| == DailyChallengeCount
    ensures forall k :: 0 <= k < |r| ==>
      var t := Templates[picks[k].template];
      && r[k].id == t.id + "_" + IntToString(now)
      && r[k].category == t.category
      && t.goalLow <= r[k].goal <= t.goalHigh
      && t.rewardLow <= r[k].reward <= t.rewardHigh
      && r[k].startTime == now && EndTime(r[k]) == now + 24 * SecondsPerHour
    ensures forall i, j :: 0 <= i < j < |r| ==> r[i].id != r[j].id
  {
    var r := seq(|picks|, k requires 0 <= k < |picks| => MakeChallenge(picks[k], now));
    forall i, j | 0 <= i < j < |r|
      ensures r[i].id != r[j].id
    {
      TemplateIdsDistinct(picks[i].template, picks[j].template, "_" + IntToString(now));
    }
    r
  }

  /** Distinct templates give distinct challenge ids for the same suffix. */
  lemma TemplateIdsDistinct(a: nat, b: nat, suffix: string)
    requires a < |Templates| && b < |Templates| && a != b
    ensures Templates[a].id + suffix != Templates[b].id + suffix
  {
  }

  /** The list is regenerated when it is empty or some challenge in it has expired. */
  predicate NeedsRefresh(challenges: seq<Challenge>, now: int) {
    challenges == [] || exists c :: c in challenges && IsExpired(c, now)
  }

  /** The list `refresh_challenges` leaves behind. */
  function Refreshed(challenges: seq<Challenge>, picks: seq<Pick>, now: int): seq<Challenge>
    requires ValidPicks(picks)
  {
    if NeedsRefresh(challenges, now) then GenerateDailyChallenges(picks, now) else challenges
  }

  /**
   * After a refresh the list is non-empty and nothing in it has expired, so
   * a second refresh at the same instant changes nothing, whatever it would pick.
   */
  lemma RefreshIdempotent(challenges: seq<Challenge>, picks: seq<Pick>, again: seq<Pick>, now: int)
    requires ValidPicks(picks) && ValidPicks(again)
    ensures !NeedsRefresh(Refreshed(challenges, picks, now), now)
    ensures Refreshed(Refreshed(challenges, picks, now), again, now) == Refreshed(challenges, picks, now)
  {
    var r := Refreshed(challenges, picks, now);
    if NeedsRefresh(challenges, now) {
      assert r == GenerateDailyChallenges(picks, now);
      forall c | c in r
        ensures !IsExpired(c, now)
      {
        var k :| 0 <= k < |r| && r[k] == c;
        assert EndTime(r[k]) == now + 24 * SecondsPerHour;
      }
    }
  }

  // ---------------------------------------------------------------------------
  // Player records
  // ---------------------------------------------------------------------------

  const SecondsPerDay: int := 86400

  /**
   * A player's entry in `players_cache`. `lastLogin` is None for an empty
   * `last_login`; `progress` maps a challenge id to the value of the
   * record's `challenge_<id>` key. Missing counters read as 0.
   */
  datatype UserRecord = UserRecord(id: int, experience: int, level: int, achievements: seq<string>,
                                   loginStreak: int, lastLogin: Option<int>,
                                   totalStars: int, specialStars: int, progress: map<string, int>)

  /** The default record `_get_user` creates: last login is the creation instant. */
  function NewUser(uid: int, now: int): UserRecord {
    UserRecord(uid, 0, 0, [], 0, Some(now), 0, 0, map[])
  }

  /** The record `_get_user` returns: the cached one, or a new default one. */
  function Known(cache: map<int, UserRecord>, uid: int, now: int): UserRecord {
    if uid in cache then cache[uid] else NewUser(uid, now)
  }

  predicate NoDuplicates(s: seq<string>) {
    forall i, j :: 0 <= i < j < |s| ==> s[i] != s[j]
  }

  /** Every achievement a record holds is one of the catalogue's. */
  predicate AllKnown(ids: seq<string>) {
    forall k :: 0 <= k < |ids| ==> FindAchievement(ids[k]).Some?
  }

  /** The parts of a consistent record that every operation keeps at every step. */
  predicate CoreOk(u: UserRecord) {
    && u.level == Level(u.experience)
    && NoDuplicates(u.achievements)
    && AllKnown(u.achievements)
    && 0 <= u.specialStars <= u.totalStars
  }

  /** Every star threshold reached has its achievement. */
  predicate StarAchievementsHeld(u: UserRecord) {
    && (u.totalStars >= 1 ==> "first_star" in u.achievements)
    && (u.totalStars >= 10 ==> "collector_10" in u.achievements)
    && (u.totalStars >= 50 ==> "collector_50" in u.achievements)
    && (u.totalStars >= 100 ==> "collector_100" in u.achievements)
    && (u.specialStars >= 5 ==> "special_5" in u.achievements)
    && (u.specialStars >= 20 ==> "special_20" in u.achievements)
  }

  /** Every streak threshold reached has its achievement. */
  predicate StreakAchievementsHeld(u: UserRecord) {
    && (u.loginStreak >= 3 ==> "streak_3" in u.achievements)
    && (u.loginStreak >= 7 ==> "streak_7" in u.achievements)
  }

  /** A consistent record, as the engine's operations leave it between calls. */
  predicate UserOk(u: UserRecord) {
    CoreOk(u) && StarAchievementsHeld(u) && StreakAchievementsHeld(u)
  }

  /** The default record is consistent. */
  lemma NewUserOk(uid: int, now: int)
    ensures UserOk(NewUser(uid, now))
  {
    LevelExtremes(0);
  }

  /** Achievements are only added: everything held before is held after. */
  predicate Grows(u: UserRecord, v: UserRecord) {
    forall id :: id in u.achievements ==> id in v.achievements
  }

  // ---------------------------------------------------------------------------
  // unlock_achievement
  // ---------------------------------------------------------------------------

  /** A record after an unlock attempt, with the achievement unlocked if any. */
  datatype Unlocked = Unlocked(user: UserRecord, achievement: Option<Achievement>)

  /**
   * `unlock_achievement` on one record: nothing happens for an id already
   * held or not in the catalogue; otherwise the id is appended and the
   * achievement's points are added, with the level recomputed.
   */
  function Unlock(u: UserRecord, aid: string): Unlocked {
    if aid in u.achievements then Unlocked(u, None)
    else match FindAchievement(aid)
      case None => Unlocked(u, None)
      case Some(a) =>
        var xp := u.experience + a.points;
        Unlocked(u.(achievements := u.achievements + [aid], experience := xp, level := Level(xp)), Some(a))
  }

  /**
   * An unlock returns None exactly for a held or unknown id, and then
   * changes nothing; otherwise it returns the catalogue entry, appends the
   * id once, adds the entry's points and recomputes the level. Nothing else
   * in the record changes.
   */
  lemma UnlockOutcome(u: UserRecord, aid: string)
    ensures var r := Unlock(u, aid);
      && (r.achievement.None? <==> aid in u.achievements || FindAchievement(aid).None?)
      && (r.achievement.None? ==> r.user == u)
      && (r.achievement.Some? ==>
            && r.achievement == FindAchievement(aid)
            && r.user.achievements == u.achievements + [aid]
            && r.user.experience == u.experience + r.achievement.value.points
            && r.user.level == Level(r.user.experience))
      && r.user.(achievements := u.achievements, experience := u.experience, level := u.level) == u
  {
  }

  /** A second unlock of the same id does nothing and returns None. */
  lemma UnlockIdempotent(u: UserRecord, aid: string)
    ensures Unlock(Unlock(u, aid).user, aid) == Unlocked(Unlock(u, aid).user, None)
  {
  }

  /** After an unlock of a catalogue id the id is held, and nothing held was lost. */
  lemma UnlockHolds(u: UserRecord, aid: string)
    ensures Grows(u, Unlock(u, aid).user)
    ensures FindAchievement(aid).Some? ==> aid in Unlock(u, aid).user.achievements
  {
  }

  /** Holding more achievements with the same counters keeps the threshold rules. */
  lemma HeldPersists(u: UserRecord, v: UserRecord)
    requires Grows(u, v)
    requires v.totalStars == u.totalStars && v.specialStars == u.specialStars && v.loginStreak == u.loginStreak
    ensures StarAchievementsHeld(u) ==> StarAchievementsHeld(v)
    ensures StreakAchievementsHeld(u) ==> StreakAchievementsHeld(v)
  {
  }

  /** An unlock keeps a record consistent, and never lets a held id appear twice. */
  lemma UnlockKeepsCore(u: UserRecord, aid: string)
    requires CoreOk(u)
    ensures CoreOk(Unlock(u, aid).user)
    ensures UserOk(u) ==> UserOk(Unlock(u, aid).user)
  {
    var r := Unlock(u, aid);
    if r.achievement.Some? {
      var s := r.user.achievements;
      assert s == u.achievements + [aid];
      forall i, j | 0 <= i < j < |s|
        ensures s[i] != s[j]
      {
        if j == |s| - 1 {
          assert s[i] in u.achievements;
        }
      }
      assert s[|s| - 1] == aid;
    }
    UnlockHolds(u, aid);
    HeldPersists(u, r.user);
  }

  /** An unlock attempted only when `when` holds; otherwise the earlier outcome stands. */
  function Attempt(x: Unlocked, when: bool, aid: string): Unlocked {
    if when then Unlock(x.user, aid) else x
  }

  /**
   * An attempt never loses an achievement, keeps a record consistent, never
   * lowers experience, raises it exactly when it unlocks something, and
   * leaves a catalogue id it tried held.
   */
  lemma AttemptEffects(x: Unlocked, when: bool, aid: string)
    ensures var y := Attempt(x, when, aid);
      && Grows(x.user, y.user)
      && y.user.experience >= x.user.experience
      && (y.user.achievements == x.user.achievements ==> y.user.experience == x.user.experience)
      && (when && y.achievement.Some? ==> y.user.experience > x.user.experience
                                          && y.user.achievements != x.user.achievements)
      && (CoreOk(x.user) ==> CoreOk(y.user))
      && (UserOk(x.user) ==> UserOk(y.user))
      && (when && FindAchievement(aid).Some? ==> aid in y.user.achievements)
      && y.user.totalStars == x.user.totalStars && y.user.specialStars == x.user.specialStars
      && y.user.loginStreak == x.user.loginStreak && y.user.lastLogin == x.user.lastLogin
  {
    if when {
      UnlockHolds(x.user, aid);
      FoundPointsPositive(aid);
      if CoreOk(x.user) {
        UnlockKeepsCore(x.user, aid);
      }
      var y := Unlock(x.user, aid);
      if y.achievement.Some? {
        assert |y.user.achievements| == |x.user.achievements| + 1;
      }
    }
  }

  // ---------------------------------------------------------------------------
  // add_experience
  // ---------------------------------------------------------------------------

  /** What `add_experience` returns and leaves behind. */
  datatype Gained = Gained(user: UserRecord, xp: int, level: int, achievement: Option<Achievement>)

  /**
   * `add_experience` on one record: the new total and its level are stored
   * and returned; on a level-up, `level_5` is attempted from level 5 and
   * `level_10` from level 10, the later attempt's result replacing the earlier.
   */
  function Gain(u: UserRecord, amount: int): (r: Gained)
    ensures r.xp == u.experience + amount && r.level == Level(r.xp)
  {
    var xp := u.experience + amount;
    var level := Level(xp);
    var stored := u.(experience := xp, level := level);
    if level > u.level then
      var awarded := AttemptTwice(stored, level >= 5, "level_5", level >= 10, "level_10");
      Gained(awarded.user, xp, level, awarded.achievement)
    else
      Gained(stored, xp, level, None)
  }

  /** Two attempts in a row, starting from a record with no result yet. */
  function AttemptTwice(u: UserRecord, first: bool, a: string, second: bool, b: string): Unlocked {
    Attempt(Attempt(Unlocked(u, None), first, a), second, b)
  }

  /** Two attempts keep a record consistent and never lower its experience. */
  lemma AttemptTwiceEffects(u: UserRecord, first: bool, a: string, second: bool, b: string)
    ensures var y := AttemptTwice(u, first, a, second, b);
      && (UserOk(u) ==> UserOk(y.user))
      && Grows(u, y.user)
      && y.user.experience >= u.experience
      && (y.user.achievements == u.achievements ==> y.user.experience == u.experience)
      && (y.achievement.Some? ==> y.user.experience > u.experience)
      && (first && FindAchievement(a).Some? ==> a in y.user.achievements)
      && (second && FindAchievement(b).Some? ==> b in y.user.achievements)
      && y.user.totalStars == u.totalStars && y.user.specialStars == u.specialStars
      && y.user.loginStreak == u.loginStreak && y.user.lastLogin == u.lastLogin
      && (CoreOk(u) ==> CoreOk(y.user))
  {
    var x := Unlocked(u, None);
    var once := Attempt(x, first, a);
    AttemptEffects(x, first, a);
    AttemptEffects(once, second, b);
  }

  /** `Gain` on a level-up is the two level attempts on the stored record. */
  lemma GainSteps(u: UserRecord, amount: int)
    ensures var xp := u.experience + amount;
      var stored := u.(experience := xp, level := Level(xp));
      var r := Gain(u, amount);
      if Level(xp) > u.level then
        var y := AttemptTwice(stored, Level(xp) >= 5, "level_5", Level(xp) >= 10, "level_10");
        r.user == y.user && r.achievement == y.achievement
      else
        r.user == stored && r.achievement.None?
  {
  }

  /**
   * The returned total can trail the stored one: the points of a level
   * achievement unlocked in the same call are added after it was computed.
   * Without a level-up no achievement is added.
   */
  lemma GainReturnedXp(u: UserRecord, amount: int)
    ensures var r := Gain(u, amount);
      && r.user.experience >= r.xp
      && (r.user.achievements == u.achievements ==> r.user.experience == r.xp)
      && (r.achievement.Some? ==> r.user.experience > r.xp)
      && (r.level <= u.level ==> r.user.achievements == u.achievements && r.achievement.None?)
  {
    var xp := u.experience + amount;
    var level := Level(xp);
    var stored := u.(experience := xp, level := level);
    GainSteps(u, amount);
    if level > u.level {
      AttemptTwiceEffects(stored, level >= 5, "level_5", level >= 10, "level_10");
    }
  }

  /** The level achievements are in the catalogue. */
  lemma LevelIdsFound()
    ensures FindAchievement("level_5").Some? && FindAchievement("level_10").Some?
  {
    CatalogFind(6);
    CatalogFind(7);
  }

  /** A level-up to 5 or beyond leaves `level_5` held; to 10, `level_10` as well. */
  lemma LevelUpAwards(u: UserRecord, amount: int)
    requires Gain(u, amount).level > u.level
    ensures Gain(u, amount).level >= 5 ==> "level_5" in Gain(u, amount).user.achievements
    ensures Gain(u, amount).level >= 10 ==> "level_10" in Gain(u, amount).user.achievements
  {
    var xp := u.experience + amount;
    var level := Level(xp);
    GainSteps(u, amount);
    LevelIdsFound();
    AttemptTwiceEffects(u.(experience := xp, level := level), level >= 5, "level_5", level >= 10, "level_10");
  }

  /** `add_experience` keeps a record consistent. */
  lemma GainKeepsOk(u: UserRecord, amount: int)
    requires UserOk(u)
    ensures UserOk(Gain(u, amount).user)
  {
    var xp := u.experience + amount;
    var level := Level(xp);
    var stored := u.(experience := xp, level := level);
    GainSteps(u, amount);
    assert UserOk(stored);
    if level > u.level {
      AttemptTwiceEffects(stored, level >= 5, "level_5", level >= 10, "level_10");
    }
  }

  /**
   * Level achievements are attempted only by `add_experience`: a consistent
   * record with 995 experience and no stars collects its first star, the 5
   * points of `first_star` reach level 6 without `level_5`, and a later gain
   * that does not raise the level does not award it.
   */
  lemma LevelFiveMissed()
    ensures var u := UserRecord(1, 995, 4, [], 0, None, 0, 0, map[]);
      var v := TrackStars(u, [], 1).user;
      && UserOk(u)
      && v.level == 6 && "level_5" !in v.achievements
      && "level_5" !in Gain(v, 0).user.achievements
  {
    LevelIs(995, 4);
    LevelIs(1000, 6);
    FirstStarAt995();
  }

  /** The first star of a record at 995 experience unlocks `first_star` alone. */
  lemma FirstStarAt995()
    ensures TrackStars(UserRecord(1, 995, 4, [], 0, None, 0, 0, map[]), [], 1).user
         == UserRecord(1, 1000, Level(1000), ["first_star"], 0, None, 1, 0, map[])
  {
    var c := Counted(UserRecord(1, 995, 4, [], 0, None, 0, 0, map[]), 1);
    var checks := StarChecks(1, 0);
    CatalogFind(0);
    assert checks[..0] == [];
    UnlockChecksStep(c, checks, 0);
    var b1 := UnlockChecks(c, checks[..1]);
    assert b1.user == UserRecord(1, 1000, Level(1000), ["first_star"], 0, None, 1, 0, map[]);
    UnlockChecksStep(c, checks, 1);
    UnlockChecksStep(c, checks, 2);
    UnlockChecksStep(c, checks, 3);
    UnlockChecksStep(c, checks, 4);
    UnlockChecksStep(c, checks, 5);
    assert checks[..6] == checks;
  }

  // ---------------------------------------------------------------------------
  // track_star_collection
  // ---------------------------------------------------------------------------

  /** The record with its star counters raised: every star counts, values above 1 are special. */
  function Counted(u: UserRecord, starValue: int): UserRecord {
    u.(totalStars := u.totalStars + 1, specialStars := u.specialStars + (if starValue > 1 then 1 else 0))
  }

  /** The achievement checks, in the order they are tried. */
  function StarChecks(total: int, special: int): seq<(string, bool)> {
    [("first_star", total >= 1), ("collector_10", total >= 10), ("collector_50", total >= 50),
     ("collector_100", total >= 100), ("special_5", special >= 5), ("special_20", special >= 20)]
  }

  /** A record after several unlock attempts, with the achievements unlocked in order. */
  datatype Batch = Batch(user: UserRecord, unlocked: seq<Achievement>)

  /** The checks whose condition holds are attempted in order; successes are collected. */
  function UnlockChecks(u: UserRecord, checks: seq<(string, bool)>): Batch {
    if checks == [] then Batch(u, [])
    else
      var b := UnlockChecks(u, checks[..|checks| - 1]);
      var check := checks[|checks| - 1];
      if check.1 then
        var x := Unlock(b.user, check.0);
        Batch(x.user, b.unlocked + (if x.achievement.Some? then [x.achievement.value] else []))
      else b
  }

  /** One more check extends the batch of the checks before it. */
  lemma UnlockChecksStep(u: UserRecord, checks: seq<(string, bool)>, i: nat)
    requires i < |checks|
    ensures var b := UnlockChecks(u, checks[..i]);
      var x := Unlock(b.user, checks[i].0);
      UnlockChecks(u, checks[..i + 1]) ==
        if checks[i].1 then Batch(x.user, b.unlocked + (if x.achievement.Some? then [x.achievement.value] else []))
        else b
  {
    assert checks[..i + 1][..i] == checks[..i];
  }

  function IdsOf(s: seq<Achievement>): (r: seq<string>)
    ensures |r| == |s| && forall k :: 0 <= k < |s| ==> r[k] == s[k].id
  {
    if s == [] then [] else IdsOf(s[..|s| - 1]) + [s[|s| - 1].id]
  }

  function PointsOf(s: seq<Achievement>): int {
    if s == [] then 0 else PointsOf(s[..|s| - 1]) + s[|s| - 1].points
  }

  /**
   * `b` extends `u` by the achievements it unlocked: their ids are appended
   * in order and their points added, and nothing else but the level changes.
   */
  predicate ExtendsBy(u: UserRecord, b: Batch) {
    && b.user.achievements == u.achievements + IdsOf(b.unlocked)
    && b.user.experience == u.experience + PointsOf(b.unlocked)
    && b.user.(achievements := u.achievements, experience := u.experience, level := u.level) == u
  }

  /** One successful or failed unlock on top of a batch keeps the batch an extension. */
  lemma ExtendsByStep(u: UserRecord, b: Batch, x: Unlocked, id: string)
    requires ExtendsBy(u, b)
    requires x.achievement.None? ==> x.user == b.user
    requires x.achievement.Some? ==>
      && x.achievement.value.id == id
      && x.user.achievements == b.user.achievements + [id]
      && x.user.experience == b.user.experience + x.achievement.value.points
    requires x.user.(achievements := b.user.achievements, experience := b.user.experience, level := b.user.level) == b.user
    ensures ExtendsBy(u, Batch(x.user, b.unlocked + (if x.achievement.Some? then [x.achievement.value] else [])))
  {
    if x.achievement.Some? {
      var got := b.unlocked + [x.achievement.value];
      assert got[..|got| - 1] == b.unlocked;
      assert PointsOf(got) == PointsOf(b.unlocked) + x.achievement.value.points;
      assert IdsOf(got) == IdsOf(b.unlocked) + [id];
    } else {
      assert b.unlocked + [] == b.unlocked;
    }
  }

  /**
   * The unlocked achievements are exactly the ones appended to the record,
   * in order, and the experience rises by exactly their points; nothing
   * else in the record changes apart from the level.
   */
  lemma {:induction false} UnlockChecksAppends(u: UserRecord, checks: seq<(string, bool)>)
    ensures var b := UnlockChecks(u, checks);
      && b.user.achievements == u.achievements + IdsOf(b.unlocked)
      && b.user.experience == u.experience + PointsOf(b.unlocked)
      && b.user.(achievements := u.achievements, experience := u.experience, level := u.level) == u
  {
    if checks != [] {
      var init := checks[..|checks| - 1];
      var last := checks[|checks| - 1];
      UnlockChecksAppends(u, init);
      var b := UnlockChecks(u, init);
      if last.1 {
        var x := Unlock(b.user, last.0);
        UnlockOutcome(b.user, last.0);
        ExtendsByStep(u, b, x, last.0);
        assert UnlockChecks(u, checks)
            == Batch(x.user, b.unlocked + (if x.achievement.Some? then [x.achievement.value] else []));
      } else {
        assert UnlockChecks(u, checks) == b;
      }
    }
  }

  /** Attempting checks keeps a record consistent and loses nothing. */
  lemma {:induction false} UnlockChecksKeepsCore(u: UserRecord, checks: seq<(string, bool)>)
    requires CoreOk(u)
    ensures CoreOk(UnlockChecks(u, checks).user)
    ensures Grows(u, UnlockChecks(u, checks).user)
  {
    if checks != [] {
      var init := checks[..|checks| - 1];
      UnlockChecksKeepsCore(u, init);
      var b := UnlockChecks(u, init);
      UnlockKeepsCore(b.user, checks[|checks| - 1].0);
      UnlockHolds(b.user, checks[|checks| - 1].0);
    }
  }

  /** Every check whose condition holds and whose id is in the catalogue ends up held. */
  lemma {:induction false} UnlockChecksHold(u: UserRecord, checks: seq<(string, bool)>, k: nat)
    requires k < |checks| && checks[k].1 && FindAchievement(checks[k].0).Some?
    ensures checks[k].0 in UnlockChecks(u, checks).user.achievements
  {
    var init := checks[..|checks| - 1];
    var b := UnlockChecks(u, init);
    var last := checks[|checks| - 1];
    if k == |checks| - 1 {
      UnlockHolds(b.user, last.0);
    } else {
      assert init[k] == checks[k];
      UnlockChecksHold(u, init, k);
      UnlockHolds(b.user, last.0);
    }
  }

  /** A collection challenge advances on every star if its id contains `collect_stars`, else on special stars if it contains `collect_special`. */
  predicate Advances(c: Challenge, starValue: int) {
    c.category == "collection"
    && (Contains(c.id, "collect_stars") || (Contains(c.id, "collect_special") && starValue > 1))
  }

  /** `dict.get(key, 0)`. */
  function Get(progress: map<string, int>, id: string): int {
    if id in progress then progress[id] else 0
  }

  /** Challenge progress after one star, each advancing challenge adding 1 in list order. */
  function Bumped(progress: map<string, int>, challenges: seq<Challenge>, starValue: int): map<string, int> {
    if challenges == [] then progress
    else
      var before := Bumped(progress, challenges[..|challenges| - 1], starValue);
      var c := challenges[|challenges| - 1];
      if Advances(c, starValue) then before[c.id := Get(before, c.id) + 1] else before
  }

  /** How many challenges with id `id` advance. */
  function AdvanceCount(challenges: seq<Challenge>, id: string, starValue: int): nat {
    if challenges == [] then 0
    else
      var c := challenges[|challenges| - 1];
      AdvanceCount(challenges[..|challenges| - 1], id, starValue)
        + (if c.id == id && Advances(c, starValue) then 1 else 0)
  }

  /** Each challenge id's progress rises by exactly the number of its advancing challenges. */
  lemma {:induction false} BumpedCounts(progress: map<string, int>, challenges: seq<Challenge>, starValue: int, id: string)
    ensures Get(Bumped(progress, challenges, starValue), id) == Get(progress, id) + AdvanceCount(challenges, id, starValue)
  {
    if challenges != [] {
      BumpedCounts(progress, challenges[..|challenges| - 1], starValue, id);
    }
  }

  /**
   * `track_star_collection` on one record: the counters are raised, the six
   * checks are attempted in order, and the active collection challenges advance.
   */
  function TrackStars(u: UserRecord, challenges: seq<Challenge>, starValue: int): Batch {
    var counted := Counted(u, starValue);
    var b := UnlockChecks(counted, StarChecks(counted.totalStars, counted.specialStars));
    Batch(b.user.(progress := Bumped(b.user.progress, challenges, starValue)), b.unlocked)
  }

  /**
   * One star raises the total by 1 and the special count by 1 exactly for a
   * value above 1; the unlocked achievements are appended in check order and
   * their points added.
   */
  lemma TrackStarsCounts(u: UserRecord, challenges: seq<Challenge>, starValue: int)
    ensures var b := TrackStars(u, challenges, starValue);
      && b.user.totalStars == u.totalStars + 1
      && b.user.specialStars == u.specialStars + (if starValue > 1 then 1 else 0)
      && b.user.achievements == u.achievements + IdsOf(b.unlocked)
      && b.user.experience == u.experience + PointsOf(b.unlocked)
      && b.user.loginStreak == u.loginStreak && b.user.lastLogin == u.lastLogin
      && b.user.progress == Bumped(u.progress, challenges, starValue)
  {
    var counted := Counted(u, starValue);
    UnlockChecksAppends(counted, StarChecks(counted.totalStars, counted.specialStars));
  }

  /** After a star, the record is consistent: every star threshold reached has its achievement. */
  lemma TrackStarsKeepsOk(u: UserRecord, challenges: seq<Challenge>, starValue: int)
    requires UserOk(u)
    ensures UserOk(TrackStars(u, challenges, starValue).user)
  {
    var counted := Counted(u, starValue);
    var checks := StarChecks(counted.totalStars, counted.specialStars);
    var b := UnlockChecks(counted, checks);
    UnlockChecksKeepsCore(counted, checks);
    UnlockChecksAppends(counted, checks);
    NamedEntries();
    var total, special := counted.totalStars, counted.specialStars;
    if total >= 1 { UnlockChecksHold(counted, checks, 0); }
    if total >= 10 { UnlockChecksHold(counted, checks, 1); }
    if total >= 50 { UnlockChecksHold(counted, checks, 2); }
    if total >= 100 { UnlockChecksHold(counted, checks, 3); }
    if special >= 5 { UnlockChecksHold(counted, checks, 4); }
    if special >= 20 { UnlockChecksHold(counted, checks, 5); }
    HeldPersists(counted, b.user);
  }

  // ---------------------------------------------------------------------------
  // update_login_streak
  // ---------------------------------------------------------------------------

  /** The calendar day of an instant. */
  function Day(t: int): int {
    t / SecondsPerDay
  }

  /**
   * The streak rule: a first login starts at 1; a login the day after the
   * last one adds 1; another login the same day keeps it; any other gap,
   * including a clock that went back, restarts at 1.
   */
  function NextStreak(lastLogin: Option<int>, current: int, now: int): (r: int)
    ensures lastLogin.None? ==> r == 1
    ensures lastLogin.Some? && Day(now) == Day(lastLogin.value) + 1 ==> r == current + 1
    ensures lastLogin.Some? && Day(now) == Day(lastLogin.value) ==> r == current
    ensures lastLogin.Some? && Day(now) != Day(lastLogin.value) && Day(now) != Day(lastLogin.value) + 1 ==> r == 1
  {
    match lastLogin
    case None => 1
    case Some(last) =>
      var gap := Day(now) - Day(last);
      if gap == 1 then current + 1 else if gap == 0 then current else 1
  }

  /**
   * `update_login_streak` on one record: the new streak and login instant
   * are stored, then `streak_3` is attempted from 3 and `streak_7` from 7,
   * the later result replacing the earlier.
   */
  function Login(u: UserRecord, now: int): (r: Unlocked)
    ensures r.user.loginStreak == NextStreak(u.lastLogin, u.loginStreak, now)
    ensures r.user.lastLogin == Some(now)
  {
    var streak := NextStreak(u.lastLogin, u.loginStreak, now);
    var stored := u.(loginStreak := streak, lastLogin := Some(now));
    AttemptTwice(stored, streak >= 3, "streak_3", streak >= 7, "streak_7")
  }

  /** The streak achievements are in the catalogue. */
  lemma StreakIdsFound()
    ensures FindAchievement("streak_3").Some? && FindAchievement("streak_7").Some?
  {
    CatalogFind(8);
    CatalogFind(9);
  }

  /** `Login` is the two streak attempts on the stored record. */
  lemma LoginSteps(u: UserRecord, now: int)
    ensures var streak := NextStreak(u.lastLogin, u.loginStreak, now);
      var stored := u.(loginStreak := streak, lastLogin := Some(now));
      Login(u, now) == AttemptTwice(stored, streak >= 3, "streak_3", streak >= 7, "streak_7")
  {
  }

  /** A login keeps a record consistent: a streak of 3 or 7 has its achievement. */
  lemma LoginKeepsOk(u: UserRecord, now: int)
    requires UserOk(u)
    ensures UserOk(Login(u, now).user)
  {
    var streak := NextStreak(u.lastLogin, u.loginStreak, now);
    var stored := u.(loginStreak := streak, lastLogin := Some(now));
    LoginSteps(u, now);
    assert CoreOk(stored) && StarAchievementsHeld(stored);
    StreakIdsFound();
    AttemptTwiceEffects(stored, streak >= 3, "streak_3", streak >= 7, "streak_7");
    HeldPersists(stored, Login(u, now).user);
  }

  /** Logins at the given instants, one after the other. */
  function LoginAll(u: UserRecord, times: seq<int>): UserRecord {
    if times == [] then u else Login(LoginAll(u, times[..|times| - 1]), times[|times| - 1]).user
  }

  /** Each instant falls on the day after the previous one, the first on the day after `start`. */
  predicate ConsecutiveDays(start: int, times: seq<int>) {
    forall k :: 0 <= k < |times| ==> Day(times[k]) == Day(start) + k + 1
  }

  /** Logging in on `n` consecutive days after the last login raises the streak by `n`. */
  lemma {:induction false} ConsecutiveLogins(u: UserRecord, times: seq<int>)
    requires u.lastLogin.Some? && ConsecutiveDays(u.lastLogin.value, times)
    ensures LoginAll(u, times).loginStreak == u.loginStreak + |times|
    ensures times != [] ==> LoginAll(u, times).lastLogin == Some(times[|times| - 1])
  {
    if times != [] {
      var init := times[..|times| - 1];
      assert ConsecutiveDays(u.lastLogin.value, init) by {
        forall k | 0 <= k < |init|
          ensures Day(init[k]) == Day(u.lastLogin.value) + k + 1
        {
          assert init[k] == times[k];
        }
      }
      ConsecutiveLogins(u, init);
      if init != [] {
        assert Day(times[|times| - 1]) == Day(times[|times| - 2]) + 1;
      }
    }
  }

  /**
   * A record created by `_get_user` already holds the creation instant as
   * its last login, so logging in the same day leaves the streak at 0, and
   * the next day's login gives 1.
   */
  lemma FirstLoginSameDay(uid: int, now: int, tomorrow: int)
    requires Day(tomorrow) == Day(now) + 1
    ensures Login(NewUser(uid, now), now).user.loginStreak == 0
    ensures Login(Login(NewUser(uid, now), now).user, tomorrow).user.loginStreak == 1
  {
  }

  // ---------------------------------------------------------------------------
  // The engine
  // ---------------------------------------------------------------------------

  /** Every record in a cache is consistent. */
  predicate CacheOk(cache: map<int, UserRecord>) {
    forall uid :: uid in cache ==> UserOk(cache[uid])
  }

  /** The record `_get_user` reads from a consistent cache is consistent, and storing a consistent record keeps the cache so. */
  lemma StoreOk(cache: map<int, UserRecord>, uid: int, now: int, u: UserRecord)
    requires CacheOk(cache)
    ensures UserOk(Known(cache, uid, now))
    ensures UserOk(u) ==> CacheOk(cache[uid := u])
  {
    NewUserOk(uid, now);
  }

  /** Reading back a record just stored finds it, and a second store replaces the first. */
  lemma Restore(cache: map<int, UserRecord>, uid: int, now: int, a: UserRecord, b: UserRecord)
    ensures Known(cache[uid := a], uid, now) == a
    ensures cache[uid := a][uid := b] == cache[uid := b]
  {
  }

  /** An unlock for any user keeps a consistent cache consistent. */
  lemma UnlockCacheOk(cache: map<int, UserRecord>, uid: int, now: int, aid: string)
    requires CacheOk(cache)
    ensures CacheOk(cache[uid := Unlock(Known(cache, uid, now), aid).user])
  {
    StoreOk(cache, uid, now, Unlock(Known(cache, uid, now), aid).user);
    UnlockKeepsCore(Known(cache, uid, now), aid);
  }

  /** An experience gain for any user keeps a consistent cache consistent. */
  lemma GainCacheOk(cache: map<int, UserRecord>, uid: int, now: int, amount: int)
    requires CacheOk(cache)
    ensures CacheOk(cache[uid := Gain(Known(cache, uid, now), amount).user])
  {
    StoreOk(cache, uid, now, Gain(Known(cache, uid, now), amount).user);
    GainKeepsOk(Known(cache, uid, now), amount);
  }

  /** A collected star for any user keeps a consistent cache consistent. */
  lemma TrackCacheOk(cache: map<int, UserRecord>, uid: int, now: int, challenges: seq<Challenge>, starValue: int)
    requires CacheOk(cache)
    ensures CacheOk(cache[uid := TrackStars(Known(cache, uid, now), challenges, starValue).user])
  {
    StoreOk(cache, uid, now, TrackStars(Known(cache, uid, now), challenges, starValue).user);
    TrackStarsKeepsOk(Known(cache, uid, now), challenges, starValue);
  }

  /** A login for any user keeps a consistent cache consistent. */
  lemma LoginCacheOk(cache: map<int, UserRecord>, uid: int, now: int)
    requires CacheOk(cache)
    ensures CacheOk(cache[uid := Login(Known(cache, uid, now), now).user])
  {
    StoreOk(cache, uid, now, Login(Known(cache, uid, now), now).user);
    LoginKeepsOk(Known(cache, uid, now), now);
  }

  /** `PlayerProgression`: the per-user cache and the active daily challenges. */
  class PlayerProgression {
    var playersCache: map<int, UserRecord>
    var activeChallenges: seq<Challenge>

    /** Every cached record is consistent. */
    ghost predicate Valid()
      reads this
    {
      CacheOk(playersCache)
    }

    /** A new engine: an empty cache and a fresh set of daily challenges. */
    constructor (picks: seq<Pick>, now: int)
      requires ValidPicks(picks)
      ensures Valid()
      ensures playersCache == map[] && activeChallenges == GenerateDailyChallenges(picks, now)
    {
      playersCache := map[];
      activeChallenges := GenerateDailyChallenges(picks, now);
    }

    /** `_get_user`: the cached record, or a new default record that is cached. */
    method GetUser(uid: int, now: int) returns (user: UserRecord)
      modifies this
      ensures user == Known(old(playersCache), uid, now)
      ensures playersCache == old(playersCache)[uid := user]
      ensures activeChallenges == old(activeChallenges)
      ensures old(Valid()) ==> Valid()
    {
      if uid in playersCache {
        return playersCache[uid];
      }
      user := NewUser(uid, now);
      NewUserOk(uid, now);
      playersCache := playersCache[uid := user];
    }

    /** `_update_user_progression`: stores the given experience and level; always succeeds. */
    method UpdateUserProgression(uid: int, xp: int, level: int, now: int) returns (ok: bool)
      modifies this
      ensures ok
      ensures playersCache == old(playersCache)[uid := Known(old(playersCache), uid, now).(experience := xp, level := level)]
      ensures activeChallenges == old(activeChallenges)
      ensures old(Valid()) && level == Level(xp) ==> Valid()
    {
      var user := GetUser(uid, now);
      playersCache := playersCache[uid := user.(experience := xp, level := level)];
      ok := true;
    }

    /** `unlock_achievement`, proved against `Unlock`. */
    method UnlockAchievement(uid: int, aid: string, now: int) returns (r: Option<Achievement>)
      modifies this
      ensures var x := Unlock(Known(old(playersCache), uid, now), aid);
        playersCache == old(playersCache)[uid := x.user] && r == x.achievement
      ensures activeChallenges == old(activeChallenges)
      ensures old(Valid()) ==> Valid()
    {
      ghost var cache := playersCache;
      var user := GetUser(uid, now);
      ghost var x := Unlock(user, aid);
      if old(Valid()) {
        UnlockCacheOk(cache, uid, now, aid);
      }
      if aid in user.achievements {
        assert x == Unlocked(user, None);
        return None;
      }
      var found := FindAchievement(aid);
      if found.None? {
        assert x == Unlocked(user, None);
        return None;
      }
      var achievement := found.value;
      var newXp := user.experience + achievement.points;
      var level := CalculateLevel(newXp);
      var updated := user.(achievements := user.achievements + [aid], experience := newXp, level := level);
      assert x == Unlocked(updated, found);
      Restore(cache, uid, now, user, updated);
      playersCache := playersCache[uid := updated];
      r := Some(achievement);
    }

    /** `add_experience`, proved against `Gain`. */
    method AddExperience(uid: int, amount: int, now: int) returns (xp: int, level: int, achievement: Option<Achievement>)
      modifies this
      ensures var g := Gain(Known(old(playersCache), uid, now), amount);
        && playersCache == old(playersCache)[uid := g.user]
        && xp == g.xp && level == g.level && achievement == g.achievement
      ensures activeChallenges == old(activeChallenges)
      ensures old(Valid()) ==> Valid()
    {
      ghost var cache := playersCache;
      ghost var g := Gain(Known(cache, uid, now), amount);
      if Valid() {
        GainCacheOk(cache, uid, now, amount);
      }
      var user := GetUser(uid, now);
      var currentXp := user.experience;
      var currentLevel := user.level;
      xp := currentXp + amount;
      level := CalculateLevel(xp);
      var _ := UpdateUserProgression(uid, xp, level, now);
      ghost var x := Unlocked(user.(experience := xp, level := level), None);
      assert playersCache == cache[uid := x.user];
      achievement := None;
      if level > currentLevel {
        if level >= 5 {
          Restore(cache, uid, now, x.user, Unlock(x.user, "level_5").user);
          achievement := UnlockAchievement(uid, "level_5", now);
        }
        x := Attempt(x, level >= 5, "level_5");
        assert playersCache == cache[uid := x.user] && achievement == x.achievement;
        if level >= 10 {
          Restore(cache, uid, now, x.user, Unlock(x.user, "level_10").user);
          achievement := UnlockAchievement(uid, "level_10", now);
        }
        x := Attempt(x, level >= 10, "level_10");
        assert playersCache == cache[uid := x.user] && achievement == x.achievement;
      }
      GainSteps(user, amount);
      assert g == Gained(x.user, xp, level, x.achievement);
    }

    /** `track_star_collection`, proved against `TrackStars`. */
    method TrackStarCollection(uid: int, starValue: int, now: int) returns (unlocked: seq<Achievement>)
      modifies this
      ensures var b := TrackStars(Known(old(playersCache), uid, now), old(activeChallenges), starValue);
        playersCache == old(playersCache)[uid := b.user] && unlocked == b.unlocked
      ensures activeChallenges == old(activeChallenges)
      ensures old(Valid()) ==> Valid()
    {
      ghost var cache := playersCache;
      if Valid() {
        TrackCacheOk(cache, uid, now, activeChallenges, starValue);
      }
      var user := GetUser(uid, now);
      var totalStars := user.totalStars + 1;
      var specialStars := user.specialStars + (if starValue > 1 then 1 else 0);
      var counted := user.(totalStars := totalStars, specialStars := specialStars);
      Restore(cache, uid, now, user, counted);
      playersCache := playersCache[uid := counted];
      var checks := StarChecks(totalStars, specialStars);
      unlocked := AttemptChecks(uid, checks, now);
      ghost var b := UnlockChecks(counted, checks);
      var progress := AdvancedProgress(playersCache[uid].progress, starValue);
      Restore(cache, uid, now, b.user, b.user.(progress := progress));
      playersCache := playersCache[uid := playersCache[uid].(progress := progress)];
      assert TrackStars(user, activeChallenges, starValue) == Batch(b.user.(progress := progress), unlocked);
    }

    /**
     * The achievement loop of `track_star_collection`: each check whose
     * condition holds is unlocked in order, and the successes are collected.
     */
    method AttemptChecks(uid: int, checks: seq<(string, bool)>, now: int) returns (unlocked: seq<Achievement>)
      requires uid in playersCache
      modifies this
      ensures var b := UnlockChecks(old(playersCache)[uid], checks);
        playersCache == old(playersCache)[uid := b.user] && unlocked == b.unlocked
      ensures activeChallenges == old(activeChallenges)
    {
      ghost var cache := playersCache;
      ghost var start := playersCache[uid];
      unlocked := [];
      ghost var b := Batch(start, []);
      assert checks[..0] == [];
      assert cache[uid := start] == cache;
      for i := 0 to |checks|
        invariant b == UnlockChecks(start, checks[..i])
        invariant playersCache == cache[uid := b.user] && unlocked == b.unlocked
        invariant activeChallenges == old(activeChallenges)
      {
        UnlockChecksStep(start, checks, i);
        var (achievementId, condition) := checks[i];
        if condition {
          ghost var x := Unlock(b.user, achievementId);
          Restore(cache, uid, now, b.user, x.user);
          var achievement := UnlockAchievement(uid, achievementId, now);
          if achievement.Some? {
            unlocked := unlocked + [achievement.value];
          }
          b := Batch(x.user, b.unlocked + (if x.achievement.Some? then [x.achievement.value] else []));
        }
      }
      assert checks[..|checks|] == checks;
    }

    /**
     * The challenge loop of `track_star_collection`: every active collection
     * challenge that advances on this star gains 1, in list order.
     */
    method AdvancedProgress(progress: map<string, int>, starValue: int) returns (r: map<string, int>)
      ensures r == Bumped(progress, activeChallenges, starValue)
    {
      r := progress;
      for i := 0 to |activeChallenges|
        invariant r == Bumped(progress, activeChallenges[..i], starValue)
      {
        assert activeChallenges[..i + 1][..i] == activeChallenges[..i];
        var challenge := activeChallenges[i];
        if challenge.category == "collection" {
          if Contains(challenge.id, "collect_stars") {
            r := r[challenge.id := Get(r, challenge.id) + 1];
          } else if Contains(challenge.id, "collect_special") && starValue > 1 {
            r := r[challenge.id := Get(r, challenge.id) + 1];
          }
        }
      }
      assert activeChallenges[..|activeChallenges|] == activeChallenges;
    }

    /** `update_login_streak`, proved against `Login`. */
    method UpdateLoginStreak(uid: int, now: int) returns (streak: int, achievement: Option<Achievement>)
      modifies this
      ensures var x := Login(Known(old(playersCache), uid, now), now);
        && playersCache == old(playersCache)[uid := x.user]
        && streak == NextStreak(Known(old(playersCache), uid, now).lastLogin,
                                Known(old(playersCache), uid, now).loginStreak, now)
        && achievement == x.achievement
      ensures activeChallenges == old(activeChallenges)
      ensures old(Valid()) ==> Valid()
    {
      ghost var cache := playersCache;
      var user := GetUser(uid, now);
      if old(Valid()) {
        LoginCacheOk(cache, uid, now);
      }
      var currentStreak := user.loginStreak;
      var newStreak;
      if user.lastLogin.None? {
        newStreak := 1;
      } else if Day(now) - Day(user.lastLogin.value) == 1 {
        newStreak := currentStreak + 1;
      } else if Day(now) - Day(user.lastLogin.value) == 0 {
        newStreak := currentStreak;
      } else {
        newStreak := 1;
      }
      ghost var x := Unlocked(user.(loginStreak := newStreak, lastLogin := Some(now)), None);
      Restore(cache, uid, now, user, x.user);
      playersCache := playersCache[uid := user.(loginStreak := newStreak, lastLogin := Some(now))];
      achievement := None;
      if newStreak >= 3 {
        Restore(cache, uid, now, x.user, Unlock(x.user, "streak_3").user);
        achievement := UnlockAchievement(uid, "streak_3", now);
      }
      x := Attempt(x, newStreak >= 3, "streak_3");
      assert playersCache == cache[uid := x.user] && achievement == x.achievement;
      if newStreak >= 7 {
        Restore(cache, uid, now, x.user, Unlock(x.user, "streak_7").user);
        achievement := UnlockAchievement(uid, "streak_7", now);
      }
      x := Attempt(x, newStreak >= 7, "streak_7");
      assert playersCache == cache[uid := x.user] && achievement == x.achievement;
      LoginSteps(user, now);
      assert Login(user, now) == x;
      streak := newStreak;
    }

    /** `refresh_challenges`: regenerates the list iff it is empty or something in it has expired. */
    method RefreshChallenges(picks: seq<Pick>, now: int)
      requires ValidPicks(picks)
      modifies this
      ensures activeChallenges == Refreshed(old(activeChallenges), picks, now)
      ensures playersCache == old(playersCache)
    {
      if activeChallenges == [] || exists c :: c in activeChallenges && IsExpired(c, now) {
        activeChallenges := GenerateDailyChallenges(picks, now);
      }
    }
  }
}
