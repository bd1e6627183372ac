/**
 * The buddy routes: compatibility scoring between two profiles, the status
 * of the connection between two users, sending, accepting and declining a
 * connection request, and the four buddy listings (recommended, all,
 * pending requests, connected).
 */
module Buddies {
  import opened Common
  import opened Sorting
  import opened Models

  // ------------------------------------------------------------ compatibility

  /** The normalised interests of a comma-separated list: each piece stripped and lower-cased. */
  function InterestSet(s: string): (r: set<string>)
    ensures |r| >= 1
    ensures Lower(Strip(Split(s, ',')[0])) in r
    ensures forall x :: x in r <==> exists p :: p in Split(s, ',') && x == Lower(Strip(p))
  {
    var parts := Split(s, ',');
    var r := set p | p in parts :: Lower(Strip(p));
    assert Lower(Strip(parts[0])) in r;
    r
  }

  const SCHEDULE_INDICATORS: seq<string> := ["weekday", "weekend", "morning", "afternoon", "evening", "night"]

  /** How many of `indicators` occur in both (already lower-cased) schedules. */
  function CountShared(indicators: seq<string>, s1: string, s2: string): (r: nat)
    ensures r <= |indicators|
  {
    if indicators == [] then 0
    else (if Contains(s1, indicators[0]) && Contains(s2, indicators[0]) then 1 else 0)
         + CountShared(indicators[1..], s1, s2)
  }

  /** The number of time-of-day/week indicators two schedules share, ignoring case. */
  function ScheduleMatches(s1: string, s2: string): (r: nat)
    ensures r <= 6
  {
    CountShared(SCHEDULE_INDICATORS, Lower(s1), Lower(s2))
  }

  lemma {:induction false} CountSharedSymmetric(indicators: seq<string>, s1: string, s2: string)
    ensures CountShared(indicators, s1, s2) == CountShared(indicators, s2, s1)
  {
    if indicators != [] {
      CountSharedSymmetric(indicators[1..], s1, s2);
    }
  }

  /** Share of common interests among the larger of the two sets, scaled to 40. */
  function InterestFraction(a: string, b: string): (r: real)
    ensures 0.0 <= r <= 40.0
  {
    var i1 := InterestSet(a);
    var i2 := InterestSet(b);
    var common := i1 * i2;
    var larger := Max(|i1|, |i2|);
    CommonBelowBoth(i1, i2);
    UnitFraction(|common|, larger);
    (|common| as real / larger as real) * 40.0
  }

  /** A count out of a larger positive total is a fraction between 0 and 1. */
  lemma UnitFraction(part: nat, whole: nat)
    requires 1 <= whole && part <= whole
    ensures 0.0 <= part as real / whole as real <= 1.0
  {
    assert part as real <= whole as real;
  }

  lemma CommonBelowBoth<T>(a: set<T>, b: set<T>)
    ensures |a * b| <= |a| && |a * b| <= |b|
  {
    assert a * b <= a;
    assert a * b <= b;
    SubsetCard(a * b, a);
    SubsetCard(a * b, b);
  }

  lemma {:induction false} SubsetCard<T>(a: set<T>, b: set<T>)
    requires a <= b
    ensures |a| <= |b|
    decreases |a|
  {
    if a != {} {
      var x :| x in a;
      SubsetCard(a - {x}, b - {x});
    }
  }

  /** The interests part: up to 40, or 20 when neither profile lists interests. */
  function InterestScore(p1: Profile, p2: Profile): (r: real)
    ensures 0.0 <= r <= 40.0
  {
    if Truthy(p1.interests) && Truthy(p2.interests) then InterestFraction(p1.interests.value, p2.interests.value)
    else if !Truthy(p1.interests) && !Truthy(p2.interests) then 20.0
    else 0.0
  }

  /** The specialization part: 30 for equal specializations, 15 when neither has one. */
  function SpecializationScore(p1: Profile, p2: Profile): (r: real)
    ensures r == 0.0 || r == 15.0 || r == 30.0
  {
    if Truthy(p1.specialization) && Truthy(p2.specialization) then
      (if Lower(p1.specialization.value) == Lower(p2.specialization.value) then 30.0 else 0.0)
    else if !Truthy(p1.specialization) && !Truthy(p2.specialization) then 15.0
    else 0.0
  }

  /** The schedule part: 5 per shared indicator, 15 when neither has a schedule. */
  function ScheduleScore(p1: Profile, p2: Profile): (r: real)
    ensures 0.0 <= r <= 30.0
  {
    if Truthy(p1.schedule) && Truthy(p2.schedule) then
      (ScheduleMatches(p1.schedule.value, p2.schedule.value) as real / 6.0) * 30.0
    else if !Truthy(p1.schedule) && !Truthy(p2.schedule) then 15.0
    else 0.0
  }

  /**
   * Python's `round` on an exact value: to the nearest integer, halves to
   * the even neighbour.
   */
  function RoundHalfEven(x: real): (r: int)
    ensures x - 0.5 <= r as real <= x + 0.5
  {
    var f := x.Floor;
    var d := x - f as real;
    if d < 0.5 then f
    else if d > 0.5 then f + 1
    else if f % 2 == 0 then f
    else f + 1
  }

  lemma RoundMonotone(x: real, y: real)
    requires x <= y
    ensures RoundHalfEven(x) <= RoundHalfEven(y)
  {
  }

  /** A raw score rounded and capped at 100. */
  function CappedScore(total: real): (r: int)
    requires total >= 0.0
    ensures 0 <= r <= 100
  {
    Min(RoundHalfEven(total), 100)
  }

  lemma CappedScoreMonotone(x: real, y: real)
    requires 0.0 <= x <= y
    ensures CappedScore(x) <= CappedScore(y)
  {
    RoundMonotone(x, y);
  }

  /** The unrounded sum of the three parts. */
  function RawScore(p1: Profile, p2: Profile): (r: real)
    ensures 0.0 <= r <= 100.0
  {
    InterestScore(p1, p2) + SpecializationScore(p1, p2) + ScheduleScore(p1, p2)
  }

  /** `calculate_compatibility` of the buddy routes: a score between 0 and 100. */
  function Compatibility(p1: Profile, p2: Profile): (r: int)
    ensures 0 <= r <= 100
  {
    CappedScore(RawScore(p1, p2))
  }

  /** The score does not depend on which profile is the current user's. */
  lemma CompatibilitySymmetric(p1: Profile, p2: Profile)
    ensures Compatibility(p1, p2) == Compatibility(p2, p1)
  {
    assert InterestScore(p1, p2) == InterestScore(p2, p1) by {
      if Truthy(p1.interests) && Truthy(p2.interests) {
        InterestFractionSymmetric(p1.interests.value, p2.interests.value);
      }
    }
    assert ScheduleScore(p1, p2) == ScheduleScore(p2, p1) by {
      if Truthy(p1.schedule) && Truthy(p2.schedule) {
        ScheduleMatchesSymmetric(p1.schedule.value, p2.schedule.value);
      }
    }
    assert RawScore(p1, p2) == RawScore(p2, p1);
  }

  lemma InterestFractionSymmetric(a: string, b: string)
    ensures InterestFraction(a, b) == InterestFraction(b, a)
  {
    assert InterestSet(a) * InterestSet(b) == InterestSet(b) * InterestSet(a);
  }

  lemma ScheduleMatchesSymmetric(s1: string, s2: string)
    ensures ScheduleMatches(s1, s2) == ScheduleMatches(s2, s1)
  {
    CountSharedSymmetric(SCHEDULE_INDICATORS, Lower(s1), Lower(s2));
  }

  /** A profile with none of interests, specialization or schedule. */
  predicate Blank(p: Profile)
  {
    !Truthy(p.interests) && !Truthy(p.specialization) && !Truthy(p.schedule)
  }

  /** Two profiles that both leave every field empty get the partial credits: 20 + 15 + 15. */
  lemma BlankProfilesScoreFifty(p1: Profile, p2: Profile)
    requires Blank(p1) && Blank(p2)
    ensures Compatibility(p1, p2) == 50
  {
  }

  /** Matching specialization and identical interests alone give at least 70. */
  lemma SameInterestsAndSpecialization(p1: Profile, p2: Profile)
    requires Truthy(p1.interests) && Truthy(p2.interests)
    requires InterestSet(p1.interests.value) == InterestSet(p2.interests.value)
    requires Truthy(p1.specialization) && Truthy(p2.specialization)
    requires Lower(p1.specialization.value) == Lower(p2.specialization.value)
    ensures Compatibility(p1, p2) >= 70
  {
    SameInterestsFull(p1.interests.value, p2.interests.value);
    assert InterestScore(p1, p2) == 40.0;
    assert SpecializationScore(p1, p2) == 30.0;
    CappedScoreMonotone(70.0, RawScore(p1, p2));
    assert CappedScore(70.0) == 70 by { assert RoundHalfEven(70.0) == 70; }
  }

  /** Two lists naming the same interests share all of them: the full 40. */
  lemma SameInterestsFull(a: string, b: string)
    requires InterestSet(a) == InterestSet(b)
    ensures InterestFraction(a, b) == 40.0
  {
    WholeSetFraction(InterestSet(a));
  }

  lemma WholeSetFraction<T>(i: set<T>)
    requires |i| >= 1
    ensures (|i * i| as real / Max(|i|, |i|) as real) * 40.0 == 40.0
  {
    assert i * i == i;
  }

  // -------------------------------------------------------- connection status

  const CONNECTED: string := "connected"
  const REQUEST_SENT: string := "request_sent"
  const REQUEST_RECEIVED: string := "request_received"
  const NOT_CONNECTED: string := "not_connected"

  /** The first row, in table order, joining `a` and `b` in either direction. */
  function FirstBetween(rows: seq<Connection>, a: nat, b: nat): (r: Option<Connection>)
    ensures r.None? <==> forall c :: c in rows ==> !c.Between(a, b)
    ensures r.Some? ==> r.value.Between(a, b)
                        && exists k :: 0 <= k < |rows| && rows[k] == r.value
                                       && forall j :: 0 <= j < k ==> !rows[j].Between(a, b)
  {
    if rows == [] then None
    else if rows[0].Between(a, b) then Some(rows[0])
    else
      var r := FirstBetween(rows[1..], a, b);
      assert forall c :: c in rows <==> c == rows[0] || c in rows[1..];
      if r.Some? then
        var k :| 0 <= k < |rows[1..]| && rows[1..][k] == r.value
                 && forall j :: 0 <= j < k ==> !rows[1..][j].Between(a, b);
        assert rows[k + 1] == r.value;
        assert forall j :: 0 <= j < k + 1 ==> !rows[j].Between(a, b) by {
          forall j | 0 <= j < k + 1 ensures !rows[j].Between(a, b) {
            if j > 0 { assert rows[j] == rows[1..][j - 1]; }
          }
        }
        r
      else r
  }

  lemma {:induction false} FirstBetweenSymmetric(rows: seq<Connection>, a: nat, b: nat)
    ensures FirstBetween(rows, a, b) == FirstBetween(rows, b, a)
  {
    if rows != [] {
      FirstBetweenSymmetric(rows[1..], a, b);
    }
  }

  /** The status a row reports to `userId`, `approvedWord` being the status counted as connected. */
  function StatusOfRow(c: Option<Connection>, userId: nat, approvedWord: string): (r: string)
  {
    match c
    case None => NOT_CONNECTED
    case Some(row) =>
      if row.status == approvedWord then CONNECTED
      else if row.userId == userId then REQUEST_SENT
      else REQUEST_RECEIVED
  }

  /**
   * `check_connection_status(user_id, buddy_id)`: the status the first row
   * between the two users reports to `userId`.
   */
  function ConnectionStatus(rows: seq<Connection>, userId: nat, buddyId: nat): (r: string)
    ensures r in {CONNECTED, REQUEST_SENT, REQUEST_RECEIVED, NOT_CONNECTED}
    ensures r == NOT_CONNECTED <==> forall c :: c in rows ==> !c.Between(userId, buddyId)
    ensures r == CONNECTED ==> exists c :: c in rows && c.Between(userId, buddyId) && c.status == APPROVED
    ensures r == REQUEST_SENT <==> var f := FirstBetween(rows, userId, buddyId);
                                   f.Some? && f.value.status != APPROVED && f.value.userId == userId
    ensures r == REQUEST_RECEIVED <==> var f := FirstBetween(rows, userId, buddyId);
                                       f.Some? && f.value.status != APPROVED && f.value.userId != userId
  {
    StatusOfRow(FirstBetween(rows, userId, buddyId), userId, APPROVED)
  }

  /**
   * The two users see the same relation from both sides: connected for
   * both, or a request sent by one and received by the other.
   */
  lemma StatusMirrored(rows: seq<Connection>, a: nat, b: nat)
    requires a != b
    ensures ConnectionStatus(rows, a, b) == CONNECTED <==> ConnectionStatus(rows, b, a) == CONNECTED
    ensures ConnectionStatus(rows, a, b) == REQUEST_SENT <==> ConnectionStatus(rows, b, a) == REQUEST_RECEIVED
    ensures ConnectionStatus(rows, a, b) == NOT_CONNECTED <==> ConnectionStatus(rows, b, a) == NOT_CONNECTED
  {
    FirstBetweenSymmetric(rows, a, b);
  }

  /** With one row per pair, "connected" means exactly that the pair's row is approved. */
  lemma ConnectedIffApproved(rows: seq<Connection>, a: nat, b: nat)
    requires UniqueUnorderedPairs(rows)
    ensures ConnectionStatus(rows, a, b) == CONNECTED
            <==> exists c :: c in rows && c.Between(a, b) && c.status == APPROVED
  {
    if exists c :: c in rows && c.Between(a, b) && c.status == APPROVED {
      var c :| c in rows && c.Between(a, b) && c.status == APPROVED;
      var f := FirstBetween(rows, a, b);
      var k :| 0 <= k < |rows| && rows[k] == f.value && forall j :: 0 <= j < k ==> !rows[j].Between(a, b);
      var m :| 0 <= m < |rows| && rows[m] == c;
      if m > k {
        assert !rows[m].Between(rows[k].userId, rows[k].buddyId);
      }
    }
  }

  /** With one row per pair, any row joining the pair is the first such row. */
  lemma OnlyRowIsFirst(rows: seq<Connection>, a: nat, b: nat, c: Connection)
    requires UniqueUnorderedPairs(rows)
    requires c in rows && c.Between(a, b)
    ensures FirstBetween(rows, a, b) == Some(c)
  {
    var f := FirstBetween(rows, a, b);
    var k :| 0 <= k < |rows| && rows[k] == f.value && forall j :: 0 <= j < k ==> !rows[j].Between(a, b);
    var m :| 0 <= m < |rows| && rows[m] == c;
    assert m <= k;
  }

  /**
   * With one row per pair, a pending (not approved) row reports
   * "request_sent" to the user who sent it and "request_received" to the
   * other user.
   */
  lemma RequestDirection(rows: seq<Connection>, a: nat, b: nat)
    requires UniqueUnorderedPairs(rows)
    ensures ConnectionStatus(rows, a, b) == REQUEST_SENT
            <==> exists c :: c in rows && c.Between(a, b) && c.status != APPROVED && c.userId == a
    ensures ConnectionStatus(rows, a, b) == REQUEST_RECEIVED
            <==> exists c :: c in rows && c.Between(a, b) && c.status != APPROVED && c.userId != a
  {
    if exists c :: c in rows && c.Between(a, b) {
      var c :| c in rows && c.Between(a, b);
      OnlyRowIsFirst(rows, a, b, c);
      forall c' | c' in rows && c'.Between(a, b) ensures c' == c {
        OnlyRowIsFirst(rows, a, b, c');
      }
    }
  }

  // ------------------------------------------------ connection state changes

  /** Adding a row for a pair that has none keeps one row per pair. */
  lemma AppendFreshPairKeepsUnique(rows: seq<Connection>, c: Connection)
    requires UniqueUnorderedPairs(rows)
    requires forall x :: x in rows ==> !x.Between(c.userId, c.buddyId)
    ensures UniqueUnorderedPairs(rows + [c])
  {
    var rows' := rows + [c];
    forall i, j | 0 <= i < j < |rows'| ensures !rows'[j].Between(rows'[i].userId, rows'[i].buddyId) {
      if j == |rows| {
        assert !rows[i].Between(c.userId, c.buddyId);
      } else {
        assert rows'[i] == rows[i] && rows'[j] == rows[j];
      }
    }
  }

  /** Changing the status of a row keeps one row per pair. */
  lemma StatusChangeKeepsUnique(rows: seq<Connection>, i: nat, status: string)
    requires i < |rows|
    requires UniqueUnorderedPairs(rows)
    ensures UniqueUnorderedPairs(rows[i := rows[i].(status := status)])
  {
    var rows' := rows[i := rows[i].(status := status)];
    forall a, b | 0 <= a < b < |rows'| ensures !rows'[b].Between(rows'[a].userId, rows'[a].buddyId) {
      assert !rows[b].Between(rows[a].userId, rows[a].buddyId);
    }
  }

  /** Deleting a row keeps one row per pair. */
  lemma RemovalKeepsUnique(rows: seq<Connection>, i: nat)
    requires i < |rows|
    requires UniqueUnorderedPairs(rows)
    ensures UniqueUnorderedPairs(rows[..i] + rows[i + 1..])
  {
    var rows' := rows[..i] + rows[i + 1..];
    forall a, b | 0 <= a < b < |rows'| ensures !rows'[b].Between(rows'[a].userId, rows'[a].buddyId) {
      var a0 := if a < i then a else a + 1;
      var b0 := if b < i then b else b + 1;
      assert rows'[a] == rows[a0] && rows'[b] == rows[b0];
      assert !rows[b0].Between(rows[a0].userId, rows[a0].buddyId);
    }
  }

  /**
   * `connect_buddy`: refuses a missing or zero `buddy_id` (400), an unknown
   * user (404), the user themself (400) and a pair that already has a row
   * in either direction (400), in that order; otherwise adds a pending row
   * from the current user to the buddy and a notification for the buddy.
   */
  method ConnectBuddy(db: Database, current: User, buddyId: Option<int>, now: nat) returns (reply: Reply)
    requires db.Valid()
    requires FindUser(db.users, current.id) == Some(current)
    modifies db
    ensures db.Valid()
    ensures UniqueUnorderedPairs(old(db.connections)) ==> UniqueUnorderedPairs(db.connections)
    ensures reply.code != 200 ==> unchanged(db)
    ensures buddyId.None? || buddyId.value == 0 ==> reply == Reply(400, "buddy_id is required")
    ensures buddyId.Some? && buddyId.value != 0
            && (buddyId.value < 0 || FindUser(old(db.users), buddyId.value as nat).None?)
            ==> reply == Reply(404, "User not found")
    ensures buddyId == Some(current.id as int) && current.id != 0
            ==> reply == Reply(400, "Cannot connect with yourself")
    ensures buddyId.Some? && buddyId.value > 0 && buddyId.value != current.id
            && FindUser(old(db.users), buddyId.value as nat).Some?
            && (exists c :: c in old(db.connections) && c.Between(current.id, buddyId.value as nat))
            ==> reply == Reply(400, "Connection already exists")
    ensures reply.code == 200 <==>
              buddyId.Some? && buddyId.value > 0 && buddyId.value != current.id
              && FindUser(old(db.users), buddyId.value as nat).Some?
              && forall c :: c in old(db.connections) ==> !c.Between(current.id, buddyId.value as nat)
    ensures reply.code == 200 ==>
              reply == Reply(200, "Connection request sent successfully")
              && db.connections == old(db.connections)
                   + [NewConnection(old(db.nextConnectionId), current.id, buddyId.value as nat, now)]
              && db.notifications == old(db.notifications)
                   + [Notification(old(db.nextNotificationId), buddyId.value as nat, "connection_request",
                                   "New Connection Request", current.username + " wants to connect with you",
                                   now, false)]
              && db.users == old(db.users) && db.profiles == old(db.profiles)
              && db.messages == old(db.messages) && db.challenges == old(db.challenges)
  {
    if buddyId.None? || buddyId.value == 0 {
      return Reply(400, "buddy_id is required");
    }
    if buddyId.value < 0 {
      return Reply(404, "User not found");
    }
    var buddy := FindUser(db.users, buddyId.value as nat);
    if buddy.None? {
      return Reply(404, "User not found");
    }
    if buddy.value.id == current.id {
      return Reply(400, "Cannot connect with yourself");
    }
    var existing := FirstBetween(db.connections, current.id, buddy.value.id);
    if existing.Some? {
      return Reply(400, "Connection already exists");
    }
    var row := NewConnection(db.nextConnectionId, current.id, buddy.value.id, now);
    if UniqueUnorderedPairs(db.connections) {
      AppendFreshPairKeepsUnique(db.connections, row);
    }
    db.AddConnection(current.id, buddy.value.id, now);
    // create_connection_notification: the sender is the logged-in user
    var sender := FindUser(db.users, current.id);
    db.AddNotification(buddy.value.id, "connection_request", "New Connection Request",
                       sender.value.username + " wants to connect with you", now);
    reply := Reply(200, "Connection request sent successfully");
  }

  /** The first row with this id that is a pending request addressed to `receiver`. */
  function FindPendingRequest(rows: seq<Connection>, requestId: nat, receiver: nat): (r: Option<nat>)
    ensures r.None? <==> forall i :: 0 <= i < |rows| ==> !IsPendingRequest(rows[i], requestId, receiver)
    ensures r.Some? ==> r.value < |rows| && IsPendingRequest(rows[r.value], requestId, receiver)
                        && forall j :: 0 <= j < r.value ==> !IsPendingRequest(rows[j], requestId, receiver)
  {
    if rows == [] then None
    else if IsPendingRequest(rows[0], requestId, receiver) then Some(0)
    else
      var r := FindPendingRequest(rows[1..], requestId, receiver);
      assert forall i :: 1 <= i < |rows| ==> rows[i] == rows[1..][i - 1];
      if r.Some? then Some(r.value + 1) else None
  }

  predicate IsPendingRequest(c: Connection, requestId: nat, receiver: nat)
  {
    c.id == requestId && c.buddyId == receiver && c.status == PENDING
  }

  /**
   * `accept_connection_request`: only a pending request addressed to the
   * current user can be accepted (404 otherwise); it becomes approved and
   * its sender is notified.
   */
  method AcceptConnectionRequest(db: Database, current: User, requestId: nat, now: nat) returns (reply: Reply)
    requires db.Valid()
    modifies db
    ensures db.Valid()
    ensures UniqueUnorderedPairs(old(db.connections)) ==> UniqueUnorderedPairs(db.connections)
    ensures FindPendingRequest(old(db.connections), requestId, current.id).None? ==>
              reply == Reply(404, "Connection request not found") && unchanged(db)
    ensures FindPendingRequest(old(db.connections), requestId, current.id).Some? ==>
              var i := FindPendingRequest(old(db.connections), requestId, current.id).value;
              reply == Reply(200, "Connection request accepted")
              && old(db.connections)[i].buddyId == current.id
              && db.connections == old(db.connections)[i := old(db.connections)[i].Approve()]
              && db.notifications == old(db.notifications)
                   + [Notification(old(db.nextNotificationId), old(db.connections)[i].userId,
                                   "connection_accepted", "Connection Accepted",
                                   current.username + " accepted your connection request", now, false)]
              && db.users == old(db.users) && db.profiles == old(db.profiles)
              && db.messages == old(db.messages) && db.challenges == old(db.challenges)
  {
    var found := FindPendingRequest(db.connections, requestId, current.id);
    if found.None? {
      return Reply(404, "Connection request not found");
    }
    var i := found.value;
    var row := db.connections[i];
    if UniqueUnorderedPairs(db.connections) {
      StatusChangeKeepsUnique(db.connections, i, APPROVED);
    }
    db.connections := db.connections[i := row.Approve()];
    db.AddNotification(row.userId, "connection_accepted", "Connection Accepted",
                       current.username + " accepted your connection request", now);
    reply := Reply(200, "Connection request accepted");
  }

  /**
   * `decline_connection_request`: only a pending request addressed to the
   * current user can be declined (404 otherwise); its row is deleted, so
   * either user may send a new request afterwards.
   */
  method DeclineConnectionRequest(db: Database, current: User, requestId: nat) returns (reply: Reply)
    requires db.Valid()
    modifies db
    ensures db.Valid()
    ensures UniqueUnorderedPairs(old(db.connections)) ==> UniqueUnorderedPairs(db.connections)
    ensures FindPendingRequest(old(db.connections), requestId, current.id).None? ==>
              reply == Reply(404, "Connection request not found") && unchanged(db)
    ensures FindPendingRequest(old(db.connections), requestId, current.id).Some? ==>
              var i := FindPendingRequest(old(db.connections), requestId, current.id).value;
              reply == Reply(200, "Connection request declined")
              && db.connections == old(db.connections)[..i] + old(db.connections)[i + 1..]
              && db.users == old(db.users) && db.profiles == old(db.profiles)
              && db.messages == old(db.messages) && db.notifications == old(db.notifications)
              && db.challenges == old(db.challenges)
              && db.nextConnectionId == old(db.nextConnectionId)
              && db.nextNotificationId == old(db.nextNotificationId)
  {
    var found := FindPendingRequest(db.connections, requestId, current.id);
    if found.None? {
      return Reply(404, "Connection request not found");
    }
    var i := found.value;
    if UniqueUnorderedPairs(db.connections) {
      RemovalKeepsUnique(db.connections, i);
    }
    db.RemoveConnection(i);
    reply := Reply(200, "Connection request declined");
  }

  /** Once a request is declined, the sender may send it again. */
  lemma DeclinedPairCanReconnect(rows: seq<Connection>, requestId: nat, receiver: nat)
    requires UniqueUnorderedPairs(rows)
    requires FindPendingRequest(rows, requestId, receiver).Some?
    ensures var i := FindPendingRequest(rows, requestId, receiver).value;
            forall c :: c in rows[..i] + rows[i + 1..] ==> !c.Between(rows[i].userId, receiver)
  {
    var i := FindPendingRequest(rows, requestId, receiver).value;
    var rest := rows[..i] + rows[i + 1..];
    forall c | c in rest ensures !c.Between(rows[i].userId, receiver) {
      var k :| 0 <= k < |rest| && rest[k] == c;
      if k < i {
        assert rows[k] == c;
        assert !rows[i].Between(rows[k].userId, rows[k].buddyId);
      } else {
        assert rows[k + 1] == c;
        assert !rows[k + 1].Between(rows[i].userId, rows[i].buddyId);
      }
    }
  }

  // ----------------------------------------------------------------- listings

  /** One buddy card of a listing (`userId` in the reply repeats `id`). */
  datatype BuddyEntry = BuddyEntry(id: nat, username: string, email: string, avatar: Option<string>,
                                   specialization: Option<string>, level: string, interests: seq<string>,
                                   schedule: Option<string>, compatibility: int, status: string)

  /** The interests as the listings show them: the comma-separated pieces, stripped but not lower-cased. */
  function DisplayInterests(interests: Option<string>): (r: seq<string>)
    ensures !Truthy(interests) ==> r == []
    ensures Truthy(interests) ==> |r| == |Split(interests.value, ',')|
                                  && forall i :: 0 <= i < |r| ==> r[i] == Strip(Split(interests.value, ',')[i])
  {
    if Truthy(interests) then
      var parts := Split(interests.value, ',');
      seq(|parts|, i requires 0 <= i < |parts| => Strip(parts[i]))
    else []
  }

  function EntryOf(u: User, p: Profile, compatibility: int, status: string): (e: BuddyEntry)
    ensures e.id == u.id && e.compatibility == compatibility && e.status == status
  {
    BuddyEntry(u.id, u.username, u.email, u.avatar, p.specialization,
               if Truthy(p.level) then p.level.value else DEFAULT_LEVEL,
               DisplayInterests(p.interests), p.schedule, compatibility, status)
  }

  function CompatibilityKey(e: BuddyEntry): int { e.compatibility }

  /** The rows in which `u` takes part (either side), in table order. */
  function InvolvingRows(rows: seq<Connection>, u: nat): (r: seq<Connection>)
    ensures forall c :: c in r <==> c in rows && c.Involves(u)
  {
    if rows == [] then []
    else
      assert forall c :: c in rows <==> c == rows[0] || c in rows[1..];
      (if rows[0].Involves(u) then [rows[0]] else []) + InvolvingRows(rows[1..], u)
  }

  /** The first row between `u` and `x` is the same whether or not the rows not involving `u` are dropped. */
  lemma {:induction false} FirstBetweenInvolving(rows: seq<Connection>, u: nat, x: nat)
    ensures FirstBetween(InvolvingRows(rows, u), u, x) == FirstBetween(rows, u, x)
  {
    if rows != [] {
      FirstBetweenInvolving(rows[1..], u, x);
      var tail := InvolvingRows(rows[1..], u);
      if rows[0].Involves(u) {
        var ir := [rows[0]] + tail;
        assert InvolvingRows(rows, u) == ir;
        assert ir[0] == rows[0] && ir[1..] == tail;
        if !rows[0].Between(u, x) {
          calc {
            FirstBetween(ir, u, x);
            FirstBetween(tail, u, x);
            FirstBetween(rows[1..], u, x);
            FirstBetween(rows, u, x);
          }
        }
      } else {
        assert InvolvingRows(rows, u) == tail;
        assert !rows[0].Between(u, x);
      }
    }
  }

  /** The other party of each of `rows`, read as the loop over a user's rows reads it. */
  function PartnerIds(rows: seq<Connection>, u: nat): (r: set<nat>)
  {
    if rows == [] then {}
    else
      var c := rows[|rows| - 1];
      PartnerIds(rows[..|rows| - 1], u) + {if c.userId == u then c.buddyId else c.userId}
  }

  /** Anyone `u` shares a row with is among the partners of `u`'s rows. */
  lemma {:induction false} PartnerIdsComplete(rows: seq<Connection>, u: nat, x: nat)
    requires forall c :: c in rows ==> c.Involves(u)
    requires exists c :: c in rows && c.Between(u, x)
    ensures x in PartnerIds(rows, u)
  {
    var c :| c in rows && c.Between(u, x);
    var last := rows[|rows| - 1];
    if c == last {
    } else {
      assert c in rows[..|rows| - 1] by {
        var k :| 0 <= k < |rows| && rows[k] == c;
        assert k < |rows| - 1;
        assert rows[..|rows| - 1][k] == c;
      }
      PartnerIdsComplete(rows[..|rows| - 1], u, x);
    }
  }

  /** The loop both listings run over the current user's rows to collect their partners. */
  method CollectPartners(existing: seq<Connection>, cur: nat) returns (ids: set<nat>)
    ensures ids == PartnerIds(existing, cur)
  {
    ids := {};
    var i := 0;
    while i < |existing|
      invariant 0 <= i <= |existing|
      invariant ids == PartnerIds(existing[..i], cur)
    {
      var conn := existing[i];
      assert existing[..i + 1][..i] == existing[..i];
      if conn.userId == cur {
        ids := ids + {conn.buddyId};
      } else {
        ids := ids + {conn.userId};
      }
      i := i + 1;
    }
    assert existing[..i] == existing;
  }

  /** `{current} ∪ partners`: the users the recommendation route leaves out. */
  function Excluded(rows: seq<Connection>, cur: nat): set<nat>
  {
    {cur} + PartnerIds(InvolvingRows(rows, cur), cur)
  }

  /** Whoever is not excluded shares no row with the current user. */
  lemma NotExcludedMeansNoRow(rows: seq<Connection>, cur: nat, x: nat)
    requires x !in Excluded(rows, cur)
    ensures forall c :: c in rows ==> !c.Between(cur, x)
  {
    if exists c :: c in InvolvingRows(rows, cur) && c.Between(cur, x) {
      PartnerIdsComplete(InvolvingRows(rows, cur), cur, x);
    }
  }

  /** Users other than `cur`, outside `excluded`, that have a profile, in table order. */
  function Candidates(users: seq<User>, profiles: map<nat, Profile>, excluded: set<nat>, cur: nat): (r: seq<User>)
    ensures forall u :: u in r <==> u in users && u.id != cur && u.id !in excluded && u.id in profiles
  {
    if users == [] then []
    else
      assert forall u :: u in users <==> u == users[0] || u in users[1..];
      var u := users[0];
      (if u.id != cur && u.id !in excluded && u.id in profiles then [u] else [])
        + Candidates(users[1..], profiles, excluded, cur)
  }

  /** The priority group of a candidate, highest first. */
  datatype Bucket = SameSpecialization | CommonInterests | SimilarSchedule | Unmatched
  {
    function Rank(): nat
    {
      match this
      case SameSpecialization => 0
      case CommonInterests => 1
      case SimilarSchedule => 2
      case Unmatched => 3
    }
  }

  predicate HasSameSpecialization(cp: Profile, p: Profile)
  {
    Truthy(cp.specialization) && Truthy(p.specialization)
    && Lower(cp.specialization.value) == Lower(p.specialization.value)
  }

  predicate HasCommonInterests(cp: Profile, p: Profile)
  {
    Truthy(cp.interests) && Truthy(p.interests)
    && |InterestSet(cp.interests.value) * InterestSet(p.interests.value)| > 0
  }

  predicate HasSimilarSchedule(cp: Profile, p: Profile)
  {
    Truthy(cp.schedule) && Truthy(p.schedule) && ScheduleMatches(cp.schedule.value, p.schedule.value) > 0
  }

  function BucketOf(cp: Profile, p: Profile): Bucket
  {
    if HasSameSpecialization(cp, p) then SameSpecialization
    else if HasCommonInterests(cp, p) then CommonInterests
    else if HasSimilarSchedule(cp, p) then SimilarSchedule
    else Unmatched
  }

  /** The card of a recommendation candidate. */
  function CandidateEntry(u: User, profiles: map<nat, Profile>, cp: Profile, rows: seq<Connection>, cur: nat): (e: BuddyEntry)
    requires u.id in profiles
    ensures e.id == u.id
  {
    EntryOf(u, profiles[u.id], Compatibility(cp, profiles[u.id]), ConnectionStatus(rows, cur, u.id))
  }

  /** The cards of the candidates that fall in bucket `b`, in candidate order. */
  function BucketEntries(cands: seq<User>, profiles: map<nat, Profile>, cp: Profile, rows: seq<Connection>,
                         cur: nat, b: Bucket): (r: seq<BuddyEntry>)
    requires forall u :: u in cands ==> u.id in profiles
  {
    if cands == [] then []
    else
      var u := cands[|cands| - 1];
      assert forall v :: v in cands[..|cands| - 1] ==> v in cands;
      BucketEntries(cands[..|cands| - 1], profiles, cp, rows, cur, b)
        + (if BucketOf(cp, profiles[u.id]) == b then [CandidateEntry(u, profiles, cp, rows, cur)] else [])
  }

  /** One more candidate adds at most its own card, at the end. */
  lemma BucketEntriesSnoc(cands: seq<User>, profiles: map<nat, Profile>, cp: Profile, rows: seq<Connection>,
                          cur: nat, b: Bucket, k: nat)
    requires k < |cands|
    requires forall u :: u in cands ==> u.id in profiles
    ensures forall u :: u in cands[..k] ==> u.id in profiles
    ensures BucketEntries(cands[..k + 1], profiles, cp, rows, cur, b)
            == BucketEntries(cands[..k], profiles, cp, rows, cur, b)
               + (if BucketOf(cp, profiles[cands[k].id]) == b then [CandidateEntry(cands[k], profiles, cp, rows, cur)] else [])
  {
    assert forall u :: u in cands[..k + 1] ==> u in cands;
    assert cands[..k + 1][..k] == cands[..k];
  }

  lemma {:induction false} BucketEntriesMembers(cands: seq<User>, profiles: map<nat, Profile>, cp: Profile,
                                                rows: seq<Connection>, cur: nat, b: Bucket, e: BuddyEntry)
    requires forall u :: u in cands ==> u.id in profiles
    ensures e in BucketEntries(cands, profiles, cp, rows, cur, b) <==>
            exists u :: u in cands && BucketOf(cp, profiles[u.id]) == b && e == CandidateEntry(u, profiles, cp, rows, cur)
  {
    if cands != [] {
      var init := cands[..|cands| - 1];
      assert forall v :: v in cands <==> v in init || v == cands[|cands| - 1];
      BucketEntriesMembers(init, profiles, cp, rows, cur, b, e);
    }
  }

  /**
   * The reply of `get_recommended_buddies` for a user with a profile: the
   * candidates of each bucket, sorted by compatibility (highest first), the
   * specialization bucket first, then interests, then schedule.
   */
  function Recommended(users: seq<User>, profiles: map<nat, Profile>, rows: seq<Connection>, cur: nat): seq<BuddyEntry>
    requires cur in profiles
  {
    var cp := profiles[cur];
    var cands := Candidates(users, profiles, Excluded(rows, cur), cur);
    SortDesc(BucketEntries(cands, profiles, cp, rows, cur, SameSpecialization), CompatibilityKey)
    + SortDesc(BucketEntries(cands, profiles, cp, rows, cur, CommonInterests), CompatibilityKey)
    + SortDesc(BucketEntries(cands, profiles, cp, rows, cur, SimilarSchedule), CompatibilityKey)
  }

  /** `get_recommended_buddies`: 404 without a profile, otherwise the bucketed candidates. */
  method RecommendedBuddies(db: Database, current: User) returns (r: Listing<BuddyEntry>)
    ensures current.id !in db.profiles ==> r == Refused(Reply(404, "Profile not found"))
    ensures current.id in db.profiles ==> r == Listed(Recommended(db.users, db.profiles, db.connections, current.id))
  {
    if current.id !in db.profiles {
      return Refused(Reply(404, "Profile not found"));
    }
    var cp := db.profiles[current.id];
    var existing := InvolvingRows(db.connections, current.id);
    var partners := CollectPartners(existing, current.id);
    var excluded := {current.id} + partners;
    var cands := Candidates(db.users, db.profiles, excluded, current.id);
    var specMatches: seq<BuddyEntry> := [];
    var interestMatches: seq<BuddyEntry> := [];
    var scheduleMatches: seq<BuddyEntry> := [];
    var k := 0;
    while k < |cands|
      invariant 0 <= k <= |cands|
      invariant specMatches == BucketEntries(cands[..k], db.profiles, cp, db.connections, current.id, SameSpecialization)
      invariant interestMatches == BucketEntries(cands[..k], db.profiles, cp, db.connections, current.id, CommonInterests)
      invariant scheduleMatches == BucketEntries(cands[..k], db.profiles, cp, db.connections, current.id, SimilarSchedule)
    {
      BucketEntriesSnoc(cands, db.profiles, cp, db.connections, current.id, SameSpecialization, k);
      BucketEntriesSnoc(cands, db.profiles, cp, db.connections, current.id, CommonInterests, k);
      BucketEntriesSnoc(cands, db.profiles, cp, db.connections, current.id, SimilarSchedule, k);
      var user := cands[k];
      var p := db.profiles[user.id];
      var entry := EntryOf(user, p, Compatibility(cp, p), ConnectionStatus(db.connections, current.id, user.id));
      assert entry == CandidateEntry(user, db.profiles, cp, db.connections, current.id);
      if HasSameSpecialization(cp, p) {
        specMatches := specMatches + [entry];
      } else if HasCommonInterests(cp, p) {
        interestMatches := interestMatches + [entry];
      } else if HasSimilarSchedule(cp, p) {
        scheduleMatches := scheduleMatches + [entry];
      }
      k := k + 1;
    }
    assert cands[..k] == cands;
    specMatches := SortDesc(specMatches, CompatibilityKey);
    interestMatches := SortDesc(interestMatches, CompatibilityKey);
    scheduleMatches := SortDesc(scheduleMatches, CompatibilityKey);
    r := Listed(specMatches + interestMatches + scheduleMatches);
  }

  /**
   * Every recommended user is someone else, shares no row at all with the
   * current user (so shows as not connected), has a profile, and matches in
   * at least one of specialization, interests and schedule.
   */
  lemma RecommendedAreStrangers(users: seq<User>, profiles: map<nat, Profile>, rows: seq<Connection>, cur: nat)
    requires cur in profiles
    ensures forall e :: e in Recommended(users, profiles, rows, cur) ==>
              e.id != cur && e.id in profiles && e.status == NOT_CONNECTED
              && (forall c :: c in rows ==> !c.Between(cur, e.id))
              && BucketOf(profiles[cur], profiles[e.id]) != Unmatched
  {
    var cp := profiles[cur];
    var cands := Candidates(users, profiles, Excluded(rows, cur), cur);
    forall e | e in Recommended(users, profiles, rows, cur)
      ensures e.id != cur && e.id in profiles && e.status == NOT_CONNECTED
              && (forall c :: c in rows ==> !c.Between(cur, e.id))
              && BucketOf(cp, profiles[e.id]) != Unmatched
    {
      var b: Bucket :| b != Unmatched && e in BucketEntries(cands, profiles, cp, rows, cur, b) by {
        var s := BucketEntries(cands, profiles, cp, rows, cur, SameSpecialization);
        var t := BucketEntries(cands, profiles, cp, rows, cur, CommonInterests);
        var h := BucketEntries(cands, profiles, cp, rows, cur, SimilarSchedule);
        var ss := SortDesc(s, CompatibilityKey);
        var st := SortDesc(t, CompatibilityKey);
        var sh := SortDesc(h, CompatibilityKey);
        assert e in ss || e in st || e in sh;
        MembersOfPermutation(ss, s);
        MembersOfPermutation(st, t);
        MembersOfPermutation(sh, h);
      }
      BucketEntriesMembers(cands, profiles, cp, rows, cur, b, e);
      var u :| u in cands && BucketOf(cp, profiles[u.id]) == b && e == CandidateEntry(u, profiles, cp, rows, cur);
      NotExcludedMeansNoRow(rows, cur, u.id);
    }
  }

  /** Whoever matches in one of the three buckets and shares no row with the current user is recommended. */
  lemma RecommendedIncludesMatches(users: seq<User>, profiles: map<nat, Profile>, rows: seq<Connection>, cur: nat, u: User)
    requires cur in profiles
    requires u in users && u.id != cur && u.id in profiles
    requires forall c :: c in rows ==> !c.Between(cur, u.id)
    requires BucketOf(profiles[cur], profiles[u.id]) != Unmatched
    ensures exists e :: e in Recommended(users, profiles, rows, cur) && e.id == u.id
  {
    var cp := profiles[cur];
    var excluded := Excluded(rows, cur);
    assert u.id !in excluded by {
      if u.id in PartnerIds(InvolvingRows(rows, cur), cur) {
        PartnerIdsSound(InvolvingRows(rows, cur), cur, u.id);
      }
    }
    var cands := Candidates(users, profiles, excluded, cur);
    var b := BucketOf(cp, profiles[u.id]);
    var e := CandidateEntry(u, profiles, cp, rows, cur);
    BucketEntriesMembers(cands, profiles, cp, rows, cur, b, e);
    var bucket := BucketEntries(cands, profiles, cp, rows, cur, b);
    MembersOfPermutation(SortDesc(bucket, CompatibilityKey), bucket);
  }

  /** Every partner id comes from a row between it and `u`. */
  lemma {:induction false} PartnerIdsSound(rows: seq<Connection>, u: nat, x: nat)
    requires forall c :: c in rows ==> c.Involves(u)
    requires x in PartnerIds(rows, u)
    ensures exists c :: c in rows && c.Between(u, x)
  {
    var last := rows[|rows| - 1];
    var init := rows[..|rows| - 1];
    assert forall c :: c in init ==> c in rows;
    assert last in rows;
    if x == (if last.userId == u then last.buddyId else last.userId) {
      assert last.Between(u, x);
    } else {
      PartnerIdsSound(init, u, x);
    }
  }

  /** The priority of a card: the rank of its user's bucket. */
  function RecommendationRank(profiles: map<nat, Profile>, cp: Profile, e: BuddyEntry): int
  {
    if e.id in profiles then BucketOf(cp, profiles[e.id]).Rank() else 3
  }

  ghost predicate RankedOrder(s: seq<BuddyEntry>, profiles: map<nat, Profile>, cp: Profile)
  {
    forall i, j :: 0 <= i < j < |s| ==>
      RecommendationRank(profiles, cp, s[i]) < RecommendationRank(profiles, cp, s[j])
      || (RecommendationRank(profiles, cp, s[i]) == RecommendationRank(profiles, cp, s[j])
          && s[i].compatibility >= s[j].compatibility)
  }

  /** Every card of `s` has rank `rank`, and `s` is in ranked order. */
  ghost predicate RankedBucket(s: seq<BuddyEntry>, profiles: map<nat, Profile>, cp: Profile, rank: int)
  {
    (forall i :: 0 <= i < |s| ==> RecommendationRank(profiles, cp, s[i]) == rank) && RankedOrder(s, profiles, cp)
  }

  lemma ConcatRanked(a: seq<BuddyEntry>, b: seq<BuddyEntry>, profiles: map<nat, Profile>, cp: Profile)
    requires RankedOrder(a, profiles, cp) && RankedOrder(b, profiles, cp)
    requires forall i, j :: 0 <= i < |a| && 0 <= j < |b| ==>
               RecommendationRank(profiles, cp, a[i]) < RecommendationRank(profiles, cp, b[j])
    ensures RankedOrder(a + b, profiles, cp)
  {
    var s := a + b;
    forall i, j | 0 <= i < j < |s|
      ensures RecommendationRank(profiles, cp, s[i]) < RecommendationRank(profiles, cp, s[j])
              || (RecommendationRank(profiles, cp, s[i]) == RecommendationRank(profiles, cp, s[j])
                  && s[i].compatibility >= s[j].compatibility)
    {
      if j < |a| {
        assert s[i] == a[i] && s[j] == a[j];
      } else if i >= |a| {
        assert s[i] == b[i - |a|] && s[j] == b[j - |a|];
      } else {
        assert s[i] == a[i] && s[j] == b[j - |a|];
      }
    }
  }

  /**
   * The recommendation order: by bucket (specialization, then interests,
   * then schedule), and by compatibility, highest first, within a bucket.
   */
  lemma RecommendedOrdered(users: seq<User>, profiles: map<nat, Profile>, rows: seq<Connection>, cur: nat)
    requires cur in profiles
    ensures RankedOrder(Recommended(users, profiles, rows, cur), profiles, profiles[cur])
  {
    var cp := profiles[cur];
    var cands := Candidates(users, profiles, Excluded(rows, cur), cur);
    BucketsRanked(cands, profiles, cp, rows, cur);
  }

  /** The three sorted buckets, one after another, are in ranked order. */
  lemma BucketsRanked(cands: seq<User>, profiles: map<nat, Profile>, cp: Profile, rows: seq<Connection>, cur: nat)
    requires forall u :: u in cands ==> u.id in profiles
    ensures RankedOrder(SortDesc(BucketEntries(cands, profiles, cp, rows, cur, SameSpecialization), CompatibilityKey)
                        + SortDesc(BucketEntries(cands, profiles, cp, rows, cur, CommonInterests), CompatibilityKey)
                        + SortDesc(BucketEntries(cands, profiles, cp, rows, cur, SimilarSchedule), CompatibilityKey),
                        profiles, cp)
  {
    assert SameSpecialization.Rank() == 0 && CommonInterests.Rank() == 1 && SimilarSchedule.Rank() == 2;
    SortedBucketMembers(cands, profiles, cp, rows, cur, SameSpecialization);
    SortedBucketMembers(cands, profiles, cp, rows, cur, CommonInterests);
    SortedBucketMembers(cands, profiles, cp, rows, cur, SimilarSchedule);
    ThreeBucketsRanked(SortDesc(BucketEntries(cands, profiles, cp, rows, cur, SameSpecialization), CompatibilityKey),
                       SortDesc(BucketEntries(cands, profiles, cp, rows, cur, CommonInterests), CompatibilityKey),
                       SortDesc(BucketEntries(cands, profiles, cp, rows, cur, SimilarSchedule), CompatibilityKey),
                       profiles, cp);
  }

  lemma ThreeBucketsRanked(ss: seq<BuddyEntry>, st: seq<BuddyEntry>, sh: seq<BuddyEntry>,
                           profiles: map<nat, Profile>, cp: Profile)
    requires RankedBucket(ss, profiles, cp, 0) && RankedBucket(st, profiles, cp, 1) && RankedBucket(sh, profiles, cp, 2)
    ensures RankedOrder(ss + st + sh, profiles, cp)
  {
    ConcatRanked(ss, st, profiles, cp);
    var sst := ss + st;
    assert forall i :: 0 <= i < |sst| ==> RecommendationRank(profiles, cp, sst[i]) <= 1 by {
      forall i | 0 <= i < |sst| ensures RecommendationRank(profiles, cp, sst[i]) <= 1 {
        if i < |ss| { assert sst[i] == ss[i]; } else { assert sst[i] == st[i - |ss|]; }
      }
    }
    ConcatRanked(sst, sh, profiles, cp);
  }

  /** The sorted cards of bucket `b` are sorted and all of users in bucket `b`. */
  lemma SortedBucketMembers(cands: seq<User>, profiles: map<nat, Profile>, cp: Profile, rows: seq<Connection>, cur: nat, b: Bucket)
    requires forall u :: u in cands ==> u.id in profiles
    ensures RankedBucket(SortDesc(BucketEntries(cands, profiles, cp, rows, cur, b), CompatibilityKey), profiles, cp, b.Rank())
  {
    var bucket := BucketEntries(cands, profiles, cp, rows, cur, b);
    var s := SortDesc(bucket, CompatibilityKey);
    MembersOfPermutation(s, bucket);
    forall i | 0 <= i < |s| ensures RecommendationRank(profiles, cp, s[i]) == b.Rank() {
      BucketEntriesMembers(cands, profiles, cp, rows, cur, b, s[i]);
    }
    forall i, j | 0 <= i < j < |s| ensures s[i].compatibility >= s[j].compatibility {
      assert CompatibilityKey(s[i]) >= CompatibilityKey(s[j]);
    }
  }

  /** The compatibility the listings show: 0 while the current user has no profile. */
  function ListedCompatibility(profiles: map<nat, Profile>, cur: nat, p: Profile): (r: int)
    ensures 0 <= r <= 100
    ensures cur !in profiles ==> r == 0
  {
    if cur in profiles then Compatibility(profiles[cur], p) else 0
  }

  /**
   * The status `get_all_potential_buddies` shows for `x`: looked up among the
   * current user's rows only when `x` is one of their partners.
   */
  function ListedStatus(existing: seq<Connection>, partners: set<nat>, cur: nat, x: nat): string
  {
    if x in partners then StatusOfRow(FirstBetween(existing, cur, x), cur, APPROVED) else NOT_CONNECTED
  }

  /** The listing's status is the one `check_connection_status` reports. */
  lemma ListedStatusAgrees(rows: seq<Connection>, cur: nat, x: nat)
    ensures ListedStatus(InvolvingRows(rows, cur), PartnerIds(InvolvingRows(rows, cur), cur), cur, x)
            == ConnectionStatus(rows, cur, x)
  {
    FirstBetweenInvolving(rows, cur, x);
    var existing := InvolvingRows(rows, cur);
    if x !in PartnerIds(existing, cur) {
      if exists c :: c in existing && c.Between(cur, x) {
        PartnerIdsComplete(existing, cur, x);
      }
      assert FirstBetween(existing, cur, x).None?;
    }
  }

  /** The card `get_all_potential_buddies` shows for `u`. */
  function PotentialEntry(u: User, profiles: map<nat, Profile>, existing: seq<Connection>,
                          partners: set<nat>, cur: nat): (e: BuddyEntry)
    requires u.id in profiles
    ensures e.id == u.id && e.status == ListedStatus(existing, partners, cur, u.id)
  {
    EntryOf(u, profiles[u.id], ListedCompatibility(profiles, cur, profiles[u.id]),
            ListedStatus(existing, partners, cur, u.id))
  }

  /** The cards of `get_all_potential_buddies`, one per user of `us`, in order. */
  function AllEntries(us: seq<User>, profiles: map<nat, Profile>, existing: seq<Connection>,
                      partners: set<nat>, cur: nat): (r: seq<BuddyEntry>)
    requires forall u :: u in us ==> u.id in profiles
  {
    seq(|us|, i requires 0 <= i < |us| => PotentialEntry(us[i], profiles, existing, partners, cur))
  }

  /** The reply of `get_all_potential_buddies`: every other user that has a profile. */
  function AllPotential(users: seq<User>, profiles: map<nat, Profile>, rows: seq<Connection>, cur: nat): seq<BuddyEntry>
  {
    var existing := InvolvingRows(rows, cur);
    AllEntries(Candidates(users, profiles, {}, cur), profiles, existing, PartnerIds(existing, cur), cur)
  }

  /** The card of one user: their score and the status of the first row between the two users, if any. */
  method PotentialOf(user: User, profiles: map<nat, Profile>, existing: seq<Connection>, connectedIds: set<nat>,
                     cur: nat) returns (entry: BuddyEntry)
    requires user.id in profiles
    ensures entry == PotentialEntry(user, profiles, existing, connectedIds, cur)
  {
    var p := profiles[user.id];
    var compatibility := ListedCompatibility(profiles, cur, p);
    var status := NOT_CONNECTED;
    if user.id in connectedIds {
      var connection := FirstBetween(existing, cur, user.id);
      if connection.Some? {
        if connection.value.status == APPROVED {
          status := CONNECTED;
        } else if connection.value.userId == cur {
          status := REQUEST_SENT;
        } else {
          status := REQUEST_RECEIVED;
        }
      }
    }
    assert status == ListedStatus(existing, connectedIds, cur, user.id);
    entry := EntryOf(user, p, compatibility, status);
  }

  /** `get_all_potential_buddies` */
  method AllPotentialBuddies(db: Database, current: User) returns (r: seq<BuddyEntry>)
    ensures r == AllPotential(db.users, db.profiles, db.connections, current.id)
  {
    var profiles := db.profiles;
    var allUsers := Candidates(db.users, profiles, {}, current.id);
    var existing := InvolvingRows(db.connections, current.id);
    var connectedIds := CollectPartners(existing, current.id);
    r := PotentialCards(allUsers, profiles, existing, connectedIds, current.id);
  }

  /** The cards of `us`, built one user at a time. */
  method PotentialCards(us: seq<User>, profiles: map<nat, Profile>, existing: seq<Connection>, connectedIds: set<nat>,
                        cur: nat) returns (r: seq<BuddyEntry>)
    requires forall u :: u in us ==> u.id in profiles
    ensures r == AllEntries(us, profiles, existing, connectedIds, cur)
  {
    ghost var all := AllEntries(us, profiles, existing, connectedIds, cur);
    r := [];
    var k := 0;
    while k < |us|
      invariant 0 <= k <= |us| && r == all[..k]
    {
      var entry := PotentialOf(us[k], profiles, existing, connectedIds, cur);
      assert all[..k + 1] == all[..k] + [all[k]];
      r := r + [entry];
      k := k + 1;
    }
    assert all[..k] == all;
  }

  /**
   * The "all buddies" listing and `check_connection_status` agree on every
   * user's status, and every other user with a profile is listed.
   */
  lemma AllPotentialConsistent(users: seq<User>, profiles: map<nat, Profile>, rows: seq<Connection>, cur: nat)
    ensures var r := AllPotential(users, profiles, rows, cur);
            (forall e :: e in r ==> e.status == ConnectionStatus(rows, cur, e.id))
            && forall u :: u in users && u.id != cur && u.id in profiles ==> exists e :: e in r && e.id == u.id
  {
    var r := AllPotential(users, profiles, rows, cur);
    var cands := Candidates(users, profiles, {}, cur);
    forall e | e in r ensures e.status == ConnectionStatus(rows, cur, e.id) {
      var i :| 0 <= i < |r| && r[i] == e;
      ListedStatusAgrees(rows, cur, cands[i].id);
    }
    forall u | u in users && u.id != cur && u.id in profiles ensures exists e :: e in r && e.id == u.id {
      var i :| 0 <= i < |cands| && cands[i] == u;
      assert r[i] in r;
    }
  }

  /** One entry of the pending-requests listing. */
  datatype RequestEntry = RequestEntry(id: nat, senderId: nat, username: string, avatar: Option<string>,
                                       specialization: Option<string>, message: string, timestamp: nat)

  /** The pending rows addressed to `cur`, in table order. */
  function PendingTo(rows: seq<Connection>, cur: nat): (r: seq<Connection>)
    ensures forall c :: c in r <==> c in rows && c.buddyId == cur && c.status == PENDING
  {
    if rows == [] then []
    else
      assert forall c :: c in rows <==> c == rows[0] || c in rows[1..];
      (if rows[0].buddyId == cur && rows[0].status == PENDING then [rows[0]] else []) + PendingTo(rows[1..], cur)
  }

  /** The requests whose sender still exists and has a profile, with that sender's details. */
  function RequestEntries(reqs: seq<Connection>, users: seq<User>, profiles: map<nat, Profile>): (r: seq<RequestEntry>)
    ensures forall e :: e in r ==> exists c :: c in reqs && c.id == e.id && c.userId == e.senderId
  {
    if reqs == [] then []
    else
      var req := reqs[|reqs| - 1];
      var init := reqs[..|reqs| - 1];
      assert forall c :: c in init ==> c in reqs;
      var sender := FindUser(users, req.userId);
      RequestEntries(init, users, profiles)
        + (if sender.Some? && sender.value.id in profiles then
             [RequestEntry(req.id, sender.value.id, sender.value.username, sender.value.avatar,
                           profiles[sender.value.id].specialization, "Wants to connect with you", req.createdAt)]
           else [])
  }

  /** `get_connection_requests` */
  method ConnectionRequests(db: Database, current: User) returns (r: seq<RequestEntry>)
    ensures r == RequestEntries(PendingTo(db.connections, current.id), db.users, db.profiles)
  {
    var requests := PendingTo(db.connections, current.id);
    r := [];
    var i := 0;
    while i < |requests|
      invariant 0 <= i <= |requests|
      invariant r == RequestEntries(requests[..i], db.users, db.profiles)
    {
      var req := requests[i];
      var sender := FindUser(db.users, req.userId);
      assert requests[..i + 1][..i] == requests[..i];
      if sender.Some? && sender.value.id in db.profiles {
        r := r + [RequestEntry(req.id, sender.value.id, sender.value.username, sender.value.avatar,
                               db.profiles[sender.value.id].specialization, "Wants to connect with you",
                               req.createdAt)];
      }
      i := i + 1;
    }
    assert requests[..i] == requests;
  }

  /** Every request the current user is shown can be accepted (or declined) by them. */
  lemma ListedRequestsAreAcceptable(rows: seq<Connection>, users: seq<User>, profiles: map<nat, Profile>, cur: nat)
    ensures forall e :: e in RequestEntries(PendingTo(rows, cur), users, profiles) ==>
              FindPendingRequest(rows, e.id, cur).Some?
  {
    forall e | e in RequestEntries(PendingTo(rows, cur), users, profiles)
      ensures FindPendingRequest(rows, e.id, cur).Some?
    {
      var c :| c in PendingTo(rows, cur) && c.id == e.id && c.userId == e.senderId;
      var k :| 0 <= k < |rows| && rows[k] == c;
      assert IsPendingRequest(rows[k], e.id, cur);
    }
  }

  /** The partner `cur` has in row `c`. */
  function Partner(c: Connection, cur: nat): nat
  {
    if c.userId == cur then c.buddyId else c.userId
  }

  /** The cards of the buddies at the other end of `conns`, when they exist and have a profile. */
  function ConnectedEntries(conns: seq<Connection>, users: seq<User>, profiles: map<nat, Profile>, cur: nat): (r: seq<BuddyEntry>)
    ensures forall e :: e in r ==> e.status == CONNECTED && exists c :: c in conns && e.id == Partner(c, cur)
  {
    if conns == [] then []
    else
      var conn := conns[|conns| - 1];
      var init := conns[..|conns| - 1];
      assert forall c :: c in init ==> c in conns;
      var buddy := FindUser(users, Partner(conn, cur));
      ConnectedEntries(init, users, profiles, cur)
        + (if buddy.Some? && buddy.value.id in profiles then
             [EntryOf(buddy.value, profiles[buddy.value.id],
                      ListedCompatibility(profiles, cur, profiles[buddy.value.id]), CONNECTED)]
           else [])
  }

  /** Every row whose buddy has an account and a profile gets a card. */
  lemma {:induction false} ConnectedEntriesComplete(conns: seq<Connection>, users: seq<User>, profiles: map<nat, Profile>,
                                                    cur: nat, c: Connection)
    requires c in conns && FindUser(users, Partner(c, cur)).Some? && Partner(c, cur) in profiles
    ensures exists e :: e in ConnectedEntries(conns, users, profiles, cur) && e.id == Partner(c, cur)
  {
    var i :| 0 <= i < |conns| && conns[i] == c;
    if i == |conns| - 1 {
      LastRowListed(conns, users, profiles, cur);
    } else {
      var init := conns[..|conns| - 1];
      assert init[i] == c;
      ConnectedEntriesComplete(init, users, profiles, cur, c);
      var e :| e in ConnectedEntries(init, users, profiles, cur) && e.id == Partner(c, cur);
      EarlierCardKept(conns, users, profiles, cur, e);
    }
  }

  /** The newest row's buddy gets a card when it has an account and a profile. */
  lemma LastRowListed(conns: seq<Connection>, users: seq<User>, profiles: map<nat, Profile>, cur: nat)
    requires conns != []
    requires FindUser(users, Partner(conns[|conns| - 1], cur)).Some? && Partner(conns[|conns| - 1], cur) in profiles
    ensures exists e :: e in ConnectedEntries(conns, users, profiles, cur) && e.id == Partner(conns[|conns| - 1], cur)
  {
    var r := ConnectedEntries(conns, users, profiles, cur);
    assert r[|r| - 1] in r;
  }

  /** Cards for older rows survive the newer ones. */
  lemma EarlierCardKept(conns: seq<Connection>, users: seq<User>, profiles: map<nat, Profile>, cur: nat, e: BuddyEntry)
    requires conns != [] && e in ConnectedEntries(conns[..|conns| - 1], users, profiles, cur)
    ensures e in ConnectedEntries(conns, users, profiles, cur)
  {
    var rest := ConnectedEntries(conns[..|conns| - 1], users, profiles, cur);
    var r := ConnectedEntries(conns, users, profiles, cur);
    assert r[..|rest|] == rest;
    var k :| 0 <= k < |rest| && rest[k] == e;
    assert r[k] == e;
  }

  /** `get_connected_buddies`: the buddies of the current user's approved rows. */
  method ConnectedBuddies(db: Database, current: User) returns (r: seq<BuddyEntry>)
    ensures r == ConnectedEntries(ApprovedConnectionsOf(db.connections, current.id), db.users, db.profiles, current.id)
    ensures forall c :: c in ApprovedConnectionsOf(db.connections, current.id)
                        && FindUser(db.users, Partner(c, current.id)).Some? && Partner(c, current.id) in db.profiles
                        ==> exists e :: e in r && e.id == Partner(c, current.id)
  {
    var connections := ApprovedConnectionsOf(db.connections, current.id);
    r := [];
    var i := 0;
    while i < |connections|
      invariant 0 <= i <= |connections|
      invariant r == ConnectedEntries(connections[..i], db.users, db.profiles, current.id)
    {
      var conn := connections[i];
      var buddy := FindUser(db.users, Partner(conn, current.id));
      assert connections[..i + 1][..i] == connections[..i];
      if buddy.Some? && buddy.value.id in db.profiles {
        var p := db.profiles[buddy.value.id];
        var compatibility := if current.id in db.profiles then Compatibility(db.profiles[current.id], p) else 0;
        r := r + [EntryOf(buddy.value, p, compatibility, CONNECTED)];
      }
      i := i + 1;
    }
    assert connections[..i] == connections;
    forall c | c in connections && FindUser(db.users, Partner(c, current.id)).Some? && Partner(c, current.id) in db.profiles
      ensures exists e :: e in r && e.id == Partner(c, current.id)
    {
      ConnectedEntriesComplete(connections, db.users, db.profiles, current.id, c);
    }
  }

  /** With one row per pair, everyone in the connected listing is "connected" by `check_connection_status` too. */
  lemma ConnectedListingAgrees(rows: seq<Connection>, users: seq<User>, profiles: map<nat, Profile>, cur: nat)
    requires UniqueUnorderedPairs(rows)
    ensures forall e :: e in ConnectedEntries(ApprovedConnectionsOf(rows, cur), users, profiles, cur) ==>
              ConnectionStatus(rows, cur, e.id) == CONNECTED
  {
    forall e | e in ConnectedEntries(ApprovedConnectionsOf(rows, cur), users, profiles, cur)
      ensures ConnectionStatus(rows, cur, e.id) == CONNECTED
    {
      var c :| c in ApprovedConnectionsOf(rows, cur) && e.id == (if c.userId == cur then c.buddyId else c.userId);
      assert c.Between(cur, e.id);
      ConnectedIffApproved(rows, cur, e.id);
    }
  }
}
