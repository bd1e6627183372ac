/**
 * The dashboard overview routes: their own compatibility score (without
 * the buddy routes' partial credit for fields both profiles leave empty),
 * their own connection status (which counts only "accepted" rows as
 * connected), the level and streak formulas, and the short list of
 * recommended buddies.
 */
module Overview {
  import opened Common
  import opened Sorting
  import opened Models
  import opened Buddies

  // ------------------------------------------------------------ compatibility

  /** The interests part: the share of common interests, up to 40, and nothing unless both list some. */
  function PlainInterestScore(p1: Profile, p2: Profile): (r: real)
    ensures 0.0 <= r <= 40.0
    ensures r <= InterestScore(p1, p2)
  {
    if Truthy(p1.interests) && Truthy(p2.interests) then InterestFraction(p1.interests.value, p2.interests.value)
    else 0.0
  }

  /** The specialization part: 30 for equal specializations, nothing otherwise. */
  function PlainSpecializationScore(p1: Profile, p2: Profile): (r: real)
    ensures r == 0.0 || r == 30.0
    ensures r <= SpecializationScore(p1, p2)
  {
    if Truthy(p1.specialization) && Truthy(p2.specialization)
       && Lower(p1.specialization.value) == Lower(p2.specialization.value) then 30.0
    else 0.0
  }

  /** The schedule part: 5 per shared indicator, nothing unless both have a schedule. */
  function PlainScheduleScore(p1: Profile, p2: Profile): (r: real)
    ensures 0.0 <= r <= 30.0
    ensures r <= ScheduleScore(p1, p2)
  {
    if Truthy(p1.schedule) && Truthy(p2.schedule) then
      (ScheduleMatches(p1.schedule.value, p2.schedule.value) as real / 6.0) * 30.0
    else 0.0
  }

  /** The unrounded sum of the three parts; never more than the buddy routes' sum. */
  function PlainRawScore(p1: Profile, p2: Profile): (r: real)
    ensures 0.0 <= r <= RawScore(p1, p2)
  {
    PlainInterestScore(p1, p2) + PlainSpecializationScore(p1, p2) + PlainScheduleScore(p1, p2)
  }

  /** `calculate_compatibility` of the overview routes: a score between 0 and 100. */
  function OverviewCompatibility(p1: Profile, p2: Profile): (r: int)
    ensures 0 <= r <= 100
  {
    CappedScore(PlainRawScore(p1, p2))
  }

  /** The overview never scores a pair higher than the buddy routes do. */
  lemma OverviewNeverAbove(p1: Profile, p2: Profile)
    ensures OverviewCompatibility(p1, p2) <= Compatibility(p1, p2)
  {
    CappedScoreMonotone(PlainRawScore(p1, p2), RawScore(p1, p2));
  }

  /** Some field empty on both sides: the difference between the two scorers. */
  predicate SharesAGap(p1: Profile, p2: Profile)
  {
    (!Truthy(p1.interests) && !Truthy(p2.interests))
    || (!Truthy(p1.specialization) && !Truthy(p2.specialization))
    || (!Truthy(p1.schedule) && !Truthy(p2.schedule))
  }

  /** The two scorers agree unless some field is empty on both sides. */
  lemma ScorersAgreeWithoutSharedGap(p1: Profile, p2: Profile)
    requires !SharesAGap(p1, p2)
    ensures OverviewCompatibility(p1, p2) == Compatibility(p1, p2)
  {
    assert PlainRawScore(p1, p2) == RawScore(p1, p2);
  }

  /** Two profiles with no interests, specialization or schedule score 0 here (50 in the buddy routes). */
  lemma BlankProfilesScoreZero(p1: Profile, p2: Profile)
    requires Blank(p1) && Blank(p2)
    ensures OverviewCompatibility(p1, p2) == 0
    ensures Compatibility(p1, p2) == 50
  {
    BlankProfilesScoreFifty(p1, p2);
  }

  lemma OverviewCompatibilitySymmetric(p1: Profile, p2: Profile)
    ensures OverviewCompatibility(p1, p2) == OverviewCompatibility(p2, p1)
  {
    assert PlainInterestScore(p1, p2) == PlainInterestScore(p2, p1) by {
      if Truthy(p1.interests) && Truthy(p2.interests) {
        InterestFractionSymmetric(p1.interests.value, p2.interests.value);
      }
    }
    assert PlainScheduleScore(p1, p2) == PlainScheduleScore(p2, p1) by {
      if Truthy(p1.schedule) && Truthy(p2.schedule) {
        ScheduleMatchesSymmetric(p1.schedule.value, p2.schedule.value);
      }
    }
    assert PlainRawScore(p1, p2) == PlainRawScore(p2, p1);
  }

  // -------------------------------------------------------- connection status

  const ACCEPTED: string := "accepted"

  /** `check_connection_status` of the overview routes: only an "accepted" row counts as connected. */
  function OverviewStatus(rows: seq<Connection>, userId: nat, buddyId: nat): (r: string)
    ensures r in {CONNECTED, REQUEST_SENT, REQUEST_RECEIVED, NOT_CONNECTED}
    ensures r == NOT_CONNECTED <==> forall c :: c in rows ==> !c.Between(userId, buddyId)
    ensures r == CONNECTED ==> exists c :: c in rows && c.Between(userId, buddyId) && c.status == ACCEPTED
    ensures r == REQUEST_SENT <==> var f := FirstBetween(rows, userId, buddyId);
                                   f.Some? && f.value.status != ACCEPTED && f.value.userId == userId
    ensures r == REQUEST_RECEIVED <==> var f := FirstBetween(rows, userId, buddyId);
                                       f.Some? && f.value.status != ACCEPTED && f.value.userId != userId
  {
    StatusOfRow(FirstBetween(rows, userId, buddyId), userId, ACCEPTED)
  }

  /** The statuses the buddy and admin routes write. */
  predicate KnownStatuses(rows: seq<Connection>)
  {
    forall c :: c in rows ==> c.status in {PENDING, APPROVED, REJECTED}
  }

  /**
   * No row the routes write is "accepted", so the overview never reports
   * "connected": an approved pair shows as a request sent or received.
   */
  lemma OverviewNeverConnected(rows: seq<Connection>, a: nat, b: nat)
    requires KnownStatuses(rows)
    ensures OverviewStatus(rows, a, b) != CONNECTED
    ensures ConnectionStatus(rows, a, b) == CONNECTED ==> OverviewStatus(rows, a, b) in {REQUEST_SENT, REQUEST_RECEIVED}
  {
  }

  /**
   * With one row per pair, a row that is not "accepted" reports
   * "request_sent" to its sender and "request_received" to the other user.
   */
  lemma OverviewRequestDirection(rows: seq<Connection>, a: nat, b: nat)
    requires UniqueUnorderedPairs(rows)
    ensures OverviewStatus(rows, a, b) == REQUEST_SENT
            <==> exists c :: c in rows && c.Between(a, b) && c.status != ACCEPTED && c.userId == a
    ensures OverviewStatus(rows, a, b) == REQUEST_RECEIVED
            <==> exists c :: c in rows && c.Between(a, b) && c.status != ACCEPTED && c.userId != a
  {
    if exists c :: c in rows && c.Between(a, b) {
      var c :| c in rows && c.Between(a, b);
      OnlyRowIsFirst(rows, a, b, c);
      forall c' | c' in rows && c'.Between(a, b) ensures c' == c {
        OnlyRowIsFirst(rows, a, b, c');
      }
    }
  }

  // ------------------------------------------------------------ level, streak

  /** The largest `k` with `100·k² <= xp`, searching upwards from `k`. */
  function RootFrom(xp: nat, k: nat): (r: nat)
    requires 100 * k * k <= xp
    ensures 100 * r * r <= xp < 100 * (r + 1) * (r + 1)
    decreases xp - 100 * k * k
  {
    if 100 * (k + 1) * (k + 1) <= xp then RootFrom(xp, k + 1) else k
  }

  /** `calculate_level`: 1 for no xp, otherwise one more than the floor of the square root of xp/100. */
  function CalculateLevel(xp: int): (level: nat)
    ensures level >= 1
    ensures xp <= 0 ==> level == 1
    ensures xp > 0 ==> 100 * (level - 1) * (level - 1) <= xp < 100 * level * level
  {
    if xp > 0 then RootFrom(xp, 0) + 1 else 1
  }

  lemma SquareMonotone(a: nat, b: nat)
    requires a <= b
    ensures a * a <= b * b
  {
    assert a * a <= a * b;
  }

  lemma StrictSquare(a: nat, b: nat)
    requires a < b
    ensures a * a < b * b
  {
    assert a * a <= a * b;
  }

  /** A square at least one square and below the next is the lower one. */
  lemma SquareAtLeast(x: nat, y: nat)
    requires x >= 1 && (x - 1) * (x - 1) <= y * y < x * x
    ensures x - 1 == y
  {
    if y < x - 1 {
      StrictSquare(y, x - 1);
    } else if x - 1 < y {
      SquareMonotone(x, y);
    }
  }

  /** A square above one square and at most the next is the upper one. */
  lemma SquareAtMost(x: nat, y: nat)
    requires x >= 1 && (x - 1) * (x - 1) < y * y <= x * x
    ensures x == y
  {
    if x < y {
      StrictSquare(x, y);
    } else if y < x {
      SquareMonotone(y, x - 1);
    }
  }

  /** The level's bounds on an xp that is a whole multiple of 100, with the factor 100 taken out. */
  lemma LevelBoundsScaled(level: nat, m: nat)
    requires level >= 1 && 100 * (level - 1) * (level - 1) <= 100 * m < 100 * level * level
    ensures (level - 1) * (level - 1) <= m < level * level
  {
    var p, q := (level - 1) * (level - 1), level * level;
    assert 100 * (level - 1) * (level - 1) == 100 * p;
    assert 100 * level * level == 100 * q;
  }

  /** The level's bounds on an xp one below a whole multiple of 100, with the factor 100 taken out. */
  lemma LevelBoundsScaledBelow(level: nat, m: nat)
    requires level >= 1 && 100 * (level - 1) * (level - 1) <= 100 * m - 1 < 100 * level * level
    ensures (level - 1) * (level - 1) < m <= level * level
  {
    var p, q := (level - 1) * (level - 1), level * level;
    assert 100 * (level - 1) * (level - 1) == 100 * p;
    assert 100 * level * level == 100 * q;
  }

  /** At 100·L² xp the level is L + 1. */
  lemma LevelAtThreshold(l: nat)
    requires l >= 1
    ensures CalculateLevel(100 * (l * l)) == l + 1
  {
    SquareMonotone(1, l);
    var m := l * l;
    var a := CalculateLevel(100 * m);
    LevelBoundsScaled(a, m);
    SquareAtLeast(a, l);
  }

  /** Just below 100·L² xp the level is L. */
  lemma LevelBelowThreshold(l: nat)
    requires l >= 1
    ensures CalculateLevel(100 * (l * l) - 1) == l
  {
    SquareMonotone(1, l);
    var m := l * l;
    var b := CalculateLevel(100 * m - 1);
    LevelBoundsScaledBelow(b, m);
    SquareAtMost(b, l);
  }

  /**
   * The xp the next level starts at, as the overview reports it: for a
   * level of 1 or more, the least xp at which `calculate_level` gives the
   * level after it.
   */
  function NextLevelXp(level: nat): (r: nat)
    ensures level >= 1 ==> r > 0 && CalculateLevel(r) == level + 1 && CalculateLevel(r - 1) == level
  {
    if level >= 1 then
      LevelAtThreshold(level);
      LevelBelowThreshold(level);
      SquareMonotone(1, level);
      100 * (level * level)
    else 0
  }

  /** The level and the next threshold bracket the xp. */
  lemma LevelBracketsXp(xp: int)
    requires xp > 0
    ensures NextLevelXp(CalculateLevel(xp) - 1) <= xp < NextLevelXp(CalculateLevel(xp))
  {
  }

  /** More xp never means a lower level. */
  lemma LevelMonotone(x: int, y: int)
    requires x <= y
    ensures CalculateLevel(x) <= CalculateLevel(y)
  {
    var lx, ly := CalculateLevel(x), CalculateLevel(y);
    if x > 0 && lx > ly {
      SquareMonotone(ly, lx - 1);
    }
  }

  /** An activity of the current user; only its xp matters here. */
  datatype Activity = Activity(id: nat, xp: int)

  /**
   * `calculate_streak`: 0 with no activities, otherwise half their number
   * rounded down, at most 3: the largest streak of at most 3 whose double
   * does not exceed the number of activities.
   */
  function CalculateStreak(activities: seq<Activity>): (r: nat)
    ensures r <= 3
    ensures activities == [] ==> r == 0
    ensures 2 * r <= |activities|
    ensures r < 3 ==> |activities| < 2 * r + 2
  {
    if activities == [] then 0 else Min(3, |activities| / 2)
  }

  function TotalXp(activities: seq<Activity>): int
  {
    if activities == [] then 0 else TotalXp(activities[..|activities| - 1]) + activities[|activities| - 1].xp
  }

  datatype UserStats = UserStats(level: nat, xp: int, streak: nat, nextLevelXp: nat)

  /** The `userStats` part of the overview. */
  function Stats(activities: seq<Activity>): (s: UserStats)
    ensures s.xp == TotalXp(activities)
    ensures s.streak <= 3
    ensures s.xp > 0 ==> s.xp < s.nextLevelXp
    ensures s.xp <= 0 ==> s.level == 1 && s.nextLevelXp == 100
  {
    var xp := TotalXp(activities);
    var level := CalculateLevel(xp);
    UserStats(level, xp, CalculateStreak(activities), NextLevelXp(level))
  }

  // ----------------------------------------------------------- recommendations

  /** One card of the overview's recommendations. */
  datatype OverviewBuddy = OverviewBuddy(id: nat, username: string, email: string, avatar: Option<string>,
                                         specialization: Option<string>, level: string,
                                         compatibility: int, status: string)

  function OverviewKey(b: OverviewBuddy): int { b.compatibility }

  function OverviewCard(u: User, p: Profile, cp: Profile, rows: seq<Connection>, cur: nat): (b: OverviewBuddy)
    ensures b.id == u.id && b.compatibility == OverviewCompatibility(cp, p)
    ensures b.status == OverviewStatus(rows, cur, u.id)
  {
    OverviewBuddy(u.id, u.username, u.email, u.avatar, p.specialization,
                  if Truthy(p.level) then p.level.value else DEFAULT_LEVEL,
                  OverviewCompatibility(cp, p), OverviewStatus(rows, cur, u.id))
  }

  /** The cards of `us`, in order. */
  function OverviewCards(us: seq<User>, profiles: map<nat, Profile>, cp: Profile, rows: seq<Connection>,
                         cur: nat): (r: seq<OverviewBuddy>)
    requires forall u :: u in us ==> u.id in profiles
    ensures |r| == |us|
    ensures forall i :: 0 <= i < |us| ==> r[i] == OverviewCard(us[i], profiles[us[i].id], cp, rows, cur)
  {
    seq(|us|, i requires 0 <= i < |us| => OverviewCard(us[i], profiles[us[i].id], cp, rows, cur))
  }

  /**
   * The reply of the overview's `get_recommended_buddies(limit)`: nothing
   * without a profile; otherwise the users with a profile that share no
   * row with the current user, best score first, at most `limit` of them.
   */
  function OverviewRecommended(users: seq<User>, profiles: map<nat, Profile>, rows: seq<Connection>,
                               cur: nat, limit: nat): seq<OverviewBuddy>
  {
    if cur !in profiles then []
    else
      var cands := Candidates(users, profiles, Excluded(rows, cur), cur);
      Take(SortDesc(OverviewCards(cands, profiles, profiles[cur], rows, cur), OverviewKey), limit)
  }

  /**
   * No eligible user is passed over: the card of every other user with a
   * profile who shares no row with the current user is listed, or the
   * reply is full and every listed card scores at least as high.
   */
  lemma OverviewRecommendedComplete(users: seq<User>, profiles: map<nat, Profile>, rows: seq<Connection>,
                                    cur: nat, limit: nat, u: User)
    requires cur in profiles
    requires u in users && u.id != cur && u.id in profiles
    requires forall c :: c in rows ==> !c.Between(cur, u.id)
    ensures var r := OverviewRecommended(users, profiles, rows, cur, limit);
            var card := OverviewCard(u, profiles[u.id], profiles[cur], rows, cur);
            card in r
            || (|r| == limit && forall b :: b in r ==> b.compatibility >= card.compatibility)
  {
    var excluded := Excluded(rows, cur);
    assert u.id !in excluded by {
      if u.id in PartnerIds(InvolvingRows(rows, cur), cur) {
        PartnerIdsSound(InvolvingRows(rows, cur), cur, u.id);
      }
    }
    var cands := Candidates(users, profiles, excluded, cur);
    var cards := OverviewCards(cands, profiles, profiles[cur], rows, cur);
    var sorted := SortDesc(cards, OverviewKey);
    var r := Take(sorted, limit);
    var card := OverviewCard(u, profiles[u.id], profiles[cur], rows, cur);
    var i :| 0 <= i < |cands| && cands[i] == u;
    assert cards[i] == card;
    MembersOfPermutation(sorted, cards);
    if card !in r {
      forall b | b in r ensures b.compatibility >= card.compatibility {
        TakeDescBound(sorted, limit, OverviewKey, b, card);
      }
    }
  }

  /** Appending the next element of `all` to its prefix of length `k` gives the next prefix. */
  lemma AppendNext<T>(all: seq<T>, k: nat, x: T)
    requires k < |all| && x == all[k]
    ensures all[..k] + [x] == all[..k + 1]
  {
  }

  /** The card of one recommended user: their details, level, score and connection status. */
  method CardOf(profiles: map<nat, Profile>, rows: seq<Connection>, cur: nat, cp: Profile, user: User)
    returns (card: OverviewBuddy)
    requires user.id in profiles
    ensures card == OverviewCard(user, profiles[user.id], cp, rows, cur)
  {
    var p := profiles[user.id];
    card := OverviewBuddy(user.id, user.username, user.email, user.avatar, p.specialization,
                          if Truthy(p.level) then p.level.value else DEFAULT_LEVEL,
                          OverviewCompatibility(cp, p),
                          OverviewStatus(rows, cur, user.id));
  }

  /** The cards of `us`, built one user at a time. */
  method CardsOf(profiles: map<nat, Profile>, rows: seq<Connection>, cur: nat, cp: Profile, us: seq<User>)
    returns (buddies: seq<OverviewBuddy>)
    requires forall u :: u in us ==> u.id in profiles
    ensures buddies == OverviewCards(us, profiles, cp, rows, cur)
  {
    ghost var all := OverviewCards(us, profiles, cp, rows, cur);
    buddies := [];
    var k := 0;
    while k < |us|
      invariant 0 <= k <= |us| && buddies == all[..k]
    {
      var card := CardOf(profiles, rows, cur, cp, us[k]);
      AppendNext(all, k, card);
      buddies := buddies + [card];
      k := k + 1;
    }
    assert all[..k] == all;
  }

  /** The overview's `get_recommended_buddies(limit)`. */
  method RecommendedWithLimit(db: Database, current: User, limit: nat) returns (r: seq<OverviewBuddy>)
    ensures r == OverviewRecommended(db.users, db.profiles, db.connections, current.id, limit)
  {
    if current.id !in db.profiles {
      return [];
    }
    var cp := db.profiles[current.id];
    // the outer join keeps exactly the users with no row shared with the current user
    var recommendedUsers := Candidates(db.users, db.profiles, Excluded(db.connections, current.id), current.id);
    var buddies := CardsOf(db.profiles, db.connections, current.id, cp, recommendedUsers);
    buddies := SortDesc(buddies, OverviewKey);
    r := Take(buddies, limit);
  }

  /**
   * At most `limit` cards, best score first; each is another user with a
   * profile who shares no row with the current user, and so is shown as
   * not connected.
   */
  lemma OverviewRecommendedProperties(users: seq<User>, profiles: map<nat, Profile>, rows: seq<Connection>,
                                      cur: nat, limit: nat)
    ensures var r := OverviewRecommended(users, profiles, rows, cur, limit);
            |r| <= limit
            && SortedDesc(r, OverviewKey)
            && forall b :: b in r ==>
                 b.status == NOT_CONNECTED
                 && exists u :: u in users && u.id == b.id && u.id != cur && u.id in profiles
                                && forall c :: c in rows ==> !c.Between(cur, u.id)
  {
    if cur in profiles {
      var cands := Candidates(users, profiles, Excluded(rows, cur), cur);
      var cards := OverviewCards(cands, profiles, profiles[cur], rows, cur);
      var sorted := SortDesc(cards, OverviewKey);
      var r := Take(sorted, limit);
      TakeSortedDesc(sorted, limit, OverviewKey);
      MembersOfPermutation(sorted, cards);
      forall b | b in r
        ensures b.status == NOT_CONNECTED
        ensures exists u :: u in users && u.id == b.id && u.id != cur && u.id in profiles
                            && forall c :: c in rows ==> !c.Between(cur, u.id)
      {
        assert b in sorted;
        var i :| 0 <= i < |cards| && cards[i] == b;
        var u := cands[i];
        assert u in cands;
        NotExcludedMeansNoRow(rows, cur, u.id);
      }
    }
  }

  /** A shorter limit gives a prefix of the longer list. */
  lemma OverviewLimitPrefix(users: seq<User>, profiles: map<nat, Profile>, rows: seq<Connection>,
                            cur: nat, m: nat, n: nat)
    requires m <= n
    ensures var short := OverviewRecommended(users, profiles, rows, cur, m);
            var long := OverviewRecommended(users, profiles, rows, cur, n);
            |short| <= |long| && short == long[..|short|]
  {
  }
}
