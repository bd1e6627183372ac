/**
 * The admin routes. Only an admin account can log in here. Every other
 * route first refuses a caller who is not an admin, before it reads or
 * changes anything. An admin may not delete or deactivate their own
 * account, and may overwrite the status of any connection row.
 */
module Admin {
  import opened Common
  import opened Models
  import opened Buddies

  const UNAUTHORIZED: Reply := Reply(401, "Unauthorized")
  const ACTIVE_STATUS: string := "active"
  const INACTIVE_STATUS: string := "inactive"

  /**
   * `admin_login`: missing email or password (400); no account with that
   * exact email, or one that is not an admin (401), before the password is
   * looked at; a wrong password (401); otherwise 200. `checkPassword(hash,
   * password)` stands for the bcrypt check. The session starts only for an
   * active account, as `login_user` refuses inactive ones, while the answer
   * is 200 either way.
   */
  method AdminLogin(db: Database, email: Option<string>, password: Option<string>,
                    checkPassword: (string, string) -> bool) returns (reply: Reply, session: Option<nat>)
    ensures !Truthy(email) || !Truthy(password) ==> reply == Reply(400, "Email and password required")
    ensures Truthy(email) && Truthy(password)
            && (FindByEmail(db.users, email.value).None? || !FindByEmail(db.users, email.value).value.isAdmin)
            ==> reply == Reply(401, "Invalid admin credentials")
    ensures reply.code == 200 <==>
              Truthy(email) && Truthy(password) && FindByEmail(db.users, email.value).Some?
              && FindByEmail(db.users, email.value).value.isAdmin
              && checkPassword(FindByEmail(db.users, email.value).value.passwordHash, password.value)
    ensures reply.code == 200 ==> reply == Reply(200, "Login successful")
    ensures Truthy(email) && Truthy(password) && FindByEmail(db.users, email.value).Some?
            && FindByEmail(db.users, email.value).value.isAdmin
            && !checkPassword(FindByEmail(db.users, email.value).value.passwordHash, password.value)
            ==> reply == Reply(401, "Invalid credentials")
    ensures session.Some? <==> reply.code == 200 && FindByEmail(db.users, email.value).value.isActive
    ensures session.Some? ==> session.value == FindByEmail(db.users, email.value).value.id
  {
    if !Truthy(email) || !Truthy(password) {
      return Reply(400, "Email and password required"), None;
    }
    var user := FindByEmail(db.users, email.value);
    if user.None? || !user.value.isAdmin {
      return Reply(401, "Invalid admin credentials"), None;
    }
    if !checkPassword(user.value.passwordHash, password.value) {
      return Reply(401, "Invalid credentials"), None;
    }
    session := if user.value.isActive then Some(user.value.id) else None;
    reply := Reply(200, "Login successful");
  }

  /** `admin_logout`: a non-admin is refused (401) and stays logged in; an admin's session ends. */
  method AdminLogout(current: User) returns (reply: Reply, loggedOut: bool)
    ensures !current.isAdmin ==> reply == UNAUTHORIZED && !loggedOut
    ensures current.isAdmin ==> reply == Reply(200, "Admin logged out successfully") && loggedOut
  {
    if !current.isAdmin {
      return UNAUTHORIZED, false;
    }
    return Reply(200, "Admin logged out successfully"), true;
  }

  /** The account summary `admin_me` answers with. */
  datatype AdminView = AdminView(id: nat, username: string, email: string, isAdmin: bool)

  datatype MeAnswer = MeOk(view: AdminView) | MeRefused(reply: Reply)

  /** `admin_me`: a non-admin is refused (401); an admin gets their own id, name, e-mail and admin flag. */
  method AdminMe(current: User) returns (r: MeAnswer)
    ensures r.MeRefused? <==> !current.isAdmin
    ensures r.MeRefused? ==> r.reply == UNAUTHORIZED
    ensures r.MeOk? ==> r.view == AdminView(current.id, current.username, current.email, true)
  {
    if !current.isAdmin {
      return MeRefused(UNAUTHORIZED);
    }
    r := MeOk(AdminView(current.id, current.username, current.email, current.isAdmin));
  }

  // ------------------------------------------------------------------- stats

  /** The number of rows with this status. */
  function CountStatus(rows: seq<Connection>, status: string): (r: nat)
    ensures r <= |rows|
  {
    if rows == [] then 0
    else (if rows[0].status == status then 1 else 0) + CountStatus(rows[1..], status)
  }

  /** The number of completed challenges. */
  function CountCompleted(cs: seq<Challenge>): (r: nat)
    reads set c | c in cs
    ensures r <= |cs|
  {
    if cs == [] then 0
    else (if cs[0].status == COMPLETED then 1 else 0) + CountCompleted(cs[1..])
  }

  datatype Stats = Stats(totalUsers: nat, activeBuddies: nat, pendingRequests: nat, projectsCompleted: nat)

  datatype StatsAnswer = StatsOk(stats: Stats) | StatsRefused(reply: Reply)

  /** `admin_stats`: the number of users, approved rows, pending rows and completed challenges. */
  method AdminStats(db: Database, current: User) returns (r: StatsAnswer)
    ensures !current.isAdmin ==> r == StatsRefused(UNAUTHORIZED)
    ensures current.isAdmin ==>
              r == StatsOk(Stats(|db.users|, CountStatus(db.connections, APPROVED),
                                 CountStatus(db.connections, PENDING), CountCompleted(db.challenges)))
  {
    if !current.isAdmin {
      return StatsRefused(UNAUTHORIZED);
    }
    r := StatsOk(Stats(|db.users|, CountStatus(db.connections, APPROVED), CountStatus(db.connections, PENDING),
                       CountCompleted(db.challenges)));
  }

  /** Rows with two different statuses are different rows: approved and pending together never exceed the table. */
  lemma {:induction false} CountsWithinTable(rows: seq<Connection>, s: string, t: string)
    requires s != t
    ensures CountStatus(rows, s) + CountStatus(rows, t) <= |rows|
  {
    if rows != [] {
      CountsWithinTable(rows[1..], s, t);
    }
  }

  /**
   * Overwriting the status of row `i` moves it from the count of its old
   * status to the count of its new one; every other count is unchanged.
   */
  lemma {:induction false} StatusChangeMovesCount(rows: seq<Connection>, i: nat, status: string, t: string)
    requires i < |rows|
    ensures CountStatus(rows[i := rows[i].(status := status)], t)
            == CountStatus(rows, t) - (if rows[i].status == t then 1 else 0) + (if status == t then 1 else 0)
  {
    var rows' := rows[i := rows[i].(status := status)];
    if i == 0 {
      assert rows'[1..] == rows[1..];
    } else {
      assert rows'[1..] == rows[1..][i - 1 := rows[i].(status := status)];
      StatusChangeMovesCount(rows[1..], i - 1, status, t);
    }
  }

  // ------------------------------------------------------------------ listings

  datatype ProfileSummary = ProfileSummary(specialization: Option<string>, picture: Option<string>)

  datatype UserEntry = UserEntry(id: nat, username: string, email: string, isAdmin: bool, isActive: bool,
                                 profile: Option<ProfileSummary>)

  function UserEntryOf(u: User, profiles: map<nat, Profile>): (e: UserEntry)
    ensures e.id == u.id && e.username == u.username && e.email == u.email
    ensures e.isAdmin == u.isAdmin && e.isActive == u.isActive
    ensures e.profile.Some? <==> u.id in profiles
    ensures u.id in profiles ==> e.profile.value.specialization == profiles[u.id].specialization
                                 && e.profile.value.picture == profiles[u.id].picture
  {
    UserEntry(u.id, u.username, u.email, u.isAdmin, u.isActive,
              if u.id in profiles then Some(ProfileSummary(profiles[u.id].specialization, profiles[u.id].picture))
              else None)
  }

  function UserEntries(us: seq<User>, profiles: map<nat, Profile>): (r: seq<UserEntry>)
    ensures |r| == |us|
    ensures forall i :: 0 <= i < |us| ==> r[i] == UserEntryOf(us[i], profiles)
  {
    seq(|us|, i requires 0 <= i < |us| => UserEntryOf(us[i], profiles))
  }

  lemma UserEntriesSnoc(us: seq<User>, profiles: map<nat, Profile>, k: nat)
    requires k < |us|
    ensures UserEntries(us[..k + 1], profiles) == UserEntries(us[..k], profiles) + [UserEntryOf(us[k], profiles)]
  {
    var a := UserEntries(us[..k + 1], profiles);
    var b := UserEntries(us[..k], profiles) + [UserEntryOf(us[k], profiles)];
    forall i | 0 <= i < |a| ensures a[i] == b[i] {
      if i < k {
        assert us[..k + 1][i] == us[..k][i];
      }
    }
  }

  /** `get_all_users`: every account, in table order, with its profile summary when it has a profile. */
  method GetAllUsers(db: Database, current: User) returns (r: Listing<UserEntry>)
    ensures !current.isAdmin ==> r == Refused(UNAUTHORIZED)
    ensures current.isAdmin ==> r == Listed(UserEntries(db.users, db.profiles))
  {
    if !current.isAdmin {
      return Refused(UNAUTHORIZED);
    }
    var users := db.users;
    var usersData: seq<UserEntry> := [];
    var k := 0;
    while k < |users|
      invariant 0 <= k <= |users|
      invariant usersData == UserEntries(users[..k], db.profiles)
    {
      UserEntriesSnoc(users, db.profiles, k);
      usersData := usersData + [UserEntryOf(users[k], db.profiles)];
      k := k + 1;
    }
    assert users[..k] == users;
    r := Listed(usersData);
  }

  datatype RequestRow = RequestRow(id: nat, userId: nat, buddyId: nat, status: string, createdAt: nat,
                                       initiator: Option<string>, buddyUser: Option<string>)

  function UsernameOf(users: seq<User>, id: nat): (r: Option<string>)
    ensures r.Some? <==> FindUser(users, id).Some?
    ensures r.Some? ==> r.value == FindUser(users, id).value.username
  {
    match FindUser(users, id)
    case None => None
    case Some(u) => Some(u.username)
  }

  function RequestRowOf(c: Connection, users: seq<User>): (e: RequestRow)
    ensures e.id == c.id && e.userId == c.userId && e.buddyId == c.buddyId && e.status == c.status
    ensures e.initiator == UsernameOf(users, c.userId) && e.buddyUser == UsernameOf(users, c.buddyId)
  {
    RequestRow(c.id, c.userId, c.buddyId, c.status, c.createdAt, UsernameOf(users, c.userId),
                 UsernameOf(users, c.buddyId))
  }

  function RequestRows(rows: seq<Connection>, users: seq<User>): (r: seq<RequestRow>)
    ensures |r| == |rows|
    ensures forall i :: 0 <= i < |rows| ==> r[i] == RequestRowOf(rows[i], users)
  {
    seq(|rows|, i requires 0 <= i < |rows| => RequestRowOf(rows[i], users))
  }

  lemma RequestRowsSnoc(rows: seq<Connection>, users: seq<User>, k: nat)
    requires k < |rows|
    ensures RequestRows(rows[..k + 1], users) == RequestRows(rows[..k], users) + [RequestRowOf(rows[k], users)]
  {
    var a := RequestRows(rows[..k + 1], users);
    var b := RequestRows(rows[..k], users) + [RequestRowOf(rows[k], users)];
    forall i | 0 <= i < |a| ensures a[i] == b[i] {
      if i < k {
        assert rows[..k + 1][i] == rows[..k][i];
      }
    }
  }

  /** `get_all_requests`: every connection row, whatever its status, in table order, with its users' names when they exist. */
  method GetAllRequests(db: Database, current: User) returns (r: Listing<RequestRow>)
    ensures !current.isAdmin ==> r == Refused(UNAUTHORIZED)
    ensures current.isAdmin ==> r == Listed(RequestRows(db.connections, db.users))
  {
    if !current.isAdmin {
      return Refused(UNAUTHORIZED);
    }
    var requests := db.connections;
    var requestsData: seq<RequestRow> := [];
    var k := 0;
    while k < |requests|
      invariant 0 <= k <= |requests|
      invariant requestsData == RequestRows(requests[..k], db.users)
    {
      RequestRowsSnoc(requests, db.users, k);
      requestsData := requestsData + [RequestRowOf(requests[k], db.users)];
      k := k + 1;
    }
    assert requests[..k] == requests;
    r := Listed(requestsData);
  }

  // --------------------------------------------------------------- changes

  /** The position of the user with this key. */
  function UserIndex(users: seq<User>, id: nat): (r: Option<nat>)
    ensures r.None? <==> FindUser(users, id).None?
    ensures r.Some? ==> r.value < |users| && users[r.value] == FindUser(users, id).value
  {
    if users == [] then None
    else if users[0].id == id then Some(0)
    else
      match UserIndex(users[1..], id)
      case None => None
      case Some(k) => Some(k + 1)
  }

  /** The users table without the account `id`. */
  function WithoutUser(users: seq<User>, id: nat): (r: seq<User>)
    ensures forall u :: u in r <==> u in users && u.id != id
  {
    if users == [] then []
    else
      assert forall u :: u in users <==> u == users[0] || u in users[1..];
      (if users[0].id == id then [] else [users[0]]) + WithoutUser(users[1..], id)
  }

  /**
   * `delete_user`: a non-admin is refused (401); an unknown key fails inside
   * the handler's `try`, where `get_or_404`'s not-found error is caught, so
   * it answers 500; the admin's own account is refused (400); otherwise the
   * account and, by cascade, its profile are deleted.
   */
  method DeleteUser(db: Database, current: User, userId: nat) returns (reply: Reply)
    requires db.Valid()
    modifies db
    ensures db.Valid()
    ensures !current.isAdmin ==> reply == UNAUTHORIZED
    ensures current.isAdmin && FindUser(old(db.users), userId).None? ==> reply == Reply(500, "Failed to delete user")
    ensures current.isAdmin && FindUser(old(db.users), userId).Some? && userId == current.id
            ==> reply == Reply(400, "Cannot delete your own account")
    ensures reply.code != 200 ==> unchanged(db)
    ensures reply.code == 200 <==> current.isAdmin && FindUser(old(db.users), userId).Some? && userId != current.id
    ensures reply.code == 200 ==> reply == Reply(200, "User deleted successfully")
    ensures reply.code == 200 ==> db.users == WithoutUser(old(db.users), userId)
    ensures reply.code == 200 ==> db.profiles == old(db.profiles) - {userId}
    ensures db.connections == old(db.connections) && db.messages == old(db.messages)
    ensures db.notifications == old(db.notifications) && db.challenges == old(db.challenges)
    ensures FindUser(db.users, current.id) == FindUser(old(db.users), current.id)
    ensures db.nextUserId == old(db.nextUserId) && db.nextConnectionId == old(db.nextConnectionId)
    ensures db.nextMessageId == old(db.nextMessageId) && db.nextNotificationId == old(db.nextNotificationId)
  {
    if !current.isAdmin {
      return UNAUTHORIZED;
    }
    var user := FindUser(db.users, userId);
    if user.None? {
      return Reply(500, "Failed to delete user");
    }
    if userId == current.id {
      return Reply(400, "Cannot delete your own account");
    }
    RemoveUser(db, userId, current.id);
    reply := Reply(200, "User deleted successfully");
  }

  /** Deletes the account `id` and its profile, and nothing else. */
  method RemoveUser(db: Database, id: nat, keep: nat)
    requires db.Valid() && keep != id
    modifies db
    ensures db.Valid()
    ensures db.users == WithoutUser(old(db.users), id) && db.profiles == old(db.profiles) - {id}
    ensures db.connections == old(db.connections) && db.messages == old(db.messages)
    ensures db.notifications == old(db.notifications) && db.challenges == old(db.challenges)
    ensures FindUser(db.users, keep) == FindUser(old(db.users), keep)
    ensures db.nextUserId == old(db.nextUserId) && db.nextConnectionId == old(db.nextConnectionId)
    ensures db.nextMessageId == old(db.nextMessageId) && db.nextNotificationId == old(db.nextNotificationId)
  {
    DeleteKeepsOthers(db.users, id, keep);
    db.users := WithoutUser(db.users, id);
    db.profiles := db.profiles - {id};
  }

  /** Deleting another account leaves the admin's own account as it was. */
  lemma {:induction false} DeleteKeepsOthers(users: seq<User>, id: nat, other: nat)
    requires other != id
    ensures FindUser(WithoutUser(users, id), other) == FindUser(users, other)
  {
    if users != [] {
      DeleteKeepsOthers(users[1..], id, other);
      if users[0].id != id {
        var r := WithoutUser(users, id);
        assert r == [users[0]] + WithoutUser(users[1..], id);
        assert r[1..] == WithoutUser(users[1..], id);
      } else {
        assert WithoutUser(users, id) == [] + WithoutUser(users[1..], id);
        assert [] + WithoutUser(users[1..], id) == WithoutUser(users[1..], id);
      }
    }
  }

  /**
   * `toggle_user_status`: a non-admin is refused (401); a status other than
   * "active" or "inactive" is refused (400) before the account is looked
   * up; an unknown key answers 500; the admin deactivating themself is
   * refused (400); otherwise `is_active` becomes whether the status is
   * "active".
   */
  method ToggleUserStatus(db: Database, current: User, userId: nat, status: Option<string>) returns (reply: Reply)
    requires db.Valid()
    modifies db
    ensures db.Valid()
    ensures !current.isAdmin ==> reply == UNAUTHORIZED
    ensures current.isAdmin && status != Some(ACTIVE_STATUS) && status != Some(INACTIVE_STATUS)
            ==> reply == Reply(400, "Invalid status")
    ensures current.isAdmin && (status == Some(ACTIVE_STATUS) || status == Some(INACTIVE_STATUS))
            && FindUser(old(db.users), userId).None?
            ==> reply == Reply(500, "Failed to update user status")
    ensures current.isAdmin && status == Some(INACTIVE_STATUS) && FindUser(old(db.users), userId).Some?
            && userId == current.id
            ==> reply == Reply(400, "Cannot deactivate your own account")
    ensures reply.code != 200 ==> unchanged(db)
    ensures reply.code == 200 <==>
              current.isAdmin && (status == Some(ACTIVE_STATUS) || status == Some(INACTIVE_STATUS))
              && FindUser(old(db.users), userId).Some?
              && !(userId == current.id && status == Some(INACTIVE_STATUS))
    ensures reply.code == 200 ==>
              var i := UserIndex(old(db.users), userId).value;
              reply == Reply(200, "User status updated to " + status.value)
              && db.users == old(db.users)[i := old(db.users)[i].(isActive := status == Some(ACTIVE_STATUS))]
              && db.profiles == old(db.profiles) && db.connections == old(db.connections)
              && db.messages == old(db.messages) && db.notifications == old(db.notifications)
              && db.challenges == old(db.challenges)
              && db.nextUserId == old(db.nextUserId) && db.nextConnectionId == old(db.nextConnectionId)
              && db.nextMessageId == old(db.nextMessageId) && db.nextNotificationId == old(db.nextNotificationId)
  {
    if !current.isAdmin {
      return UNAUTHORIZED;
    }
    if status != Some(ACTIVE_STATUS) && status != Some(INACTIVE_STATUS) {
      return Reply(400, "Invalid status");
    }
    var newStatus := status.value;
    var index := UserIndex(db.users, userId);
    if index.None? {
      return Reply(500, "Failed to update user status");
    }
    var i := index.value;
    var user := db.users[i];
    if user.id == current.id && newStatus == INACTIVE_STATUS {
      return Reply(400, "Cannot deactivate your own account");
    }
    assert user in db.users;
    db.users := db.users[i := user.(isActive := newStatus == ACTIVE_STATUS)];
    assert forall u :: u in db.users ==> u in old(db.users) || u.id == user.id;
    reply := Reply(200, "User status updated to " + newStatus);
  }

  /** An admin's status change never leaves the admin's own account inactive when it was active. */
  lemma NoSelfDeactivation(users: seq<User>, adminId: nat, userId: nat, status: Option<string>)
    requires UserIndex(users, userId).Some?
    requires FindUser(users, adminId).Some? && FindUser(users, adminId).value.isActive
    requires !(userId == adminId && status == Some(INACTIVE_STATUS))
    requires status == Some(ACTIVE_STATUS) || status == Some(INACTIVE_STATUS)
    ensures var i := UserIndex(users, userId).value;
            var users' := users[i := users[i].(isActive := status == Some(ACTIVE_STATUS))];
            FindUser(users', adminId).Some? && FindUser(users', adminId).value.isActive
  {
    var i := UserIndex(users, userId).value;
    FindUserAfterUpdate(users, i, users[i].(isActive := status == Some(ACTIVE_STATUS)), adminId);
  }

  /** Updating row `i` without changing its key leaves every lookup pointing at the same position. */
  lemma {:induction false} FindUserAfterUpdate(users: seq<User>, i: nat, u: User, id: nat)
    requires i < |users| && u.id == users[i].id
    ensures var r := FindUser(users[i := u], id);
            r.Some? == FindUser(users, id).Some?
            && (r.Some? && FindUser(users, id).value != users[i] ==> r == FindUser(users, id))
            && (r.Some? && FindUser(users, id).value == users[i] && UserIndex(users, id) == Some(i) ==> r == Some(u))
  {
    if users[0].id != id && i > 0 {
      assert users[i := u][1..] == users[1..][i - 1 := u];
      FindUserAfterUpdate(users[1..], i - 1, u, id);
    } else if i > 0 {
      assert users[i := u][0] == users[0];
    }
  }

  /** The position of the connection row with this key (`BuddyConnection.query.get`). */
  function ConnectionIndex(rows: seq<Connection>, id: nat): (r: Option<nat>)
    ensures r.None? <==> forall c :: c in rows ==> c.id != id
    ensures r.Some? ==> r.value < |rows| && rows[r.value].id == id
                        && forall j :: 0 <= j < r.value ==> rows[j].id != id
  {
    if rows == [] then None
    else if rows[0].id == id then Some(0)
    else
      match ConnectionIndex(rows[1..], id)
      case None => None
      case Some(k) => Some(k + 1)
  }

  /**
   * `approve_request` and `reject_request`: a non-admin is refused (401);
   * an unknown row answers 500; otherwise the row's status is overwritten,
   * whatever it was, and no row is ever deleted.
   */
  method SetRequestStatus(db: Database, current: User, requestId: nat, status: string, done: string, failed: string)
    returns (reply: Reply)
    requires db.Valid()
    modifies db
    ensures db.Valid()
    ensures UniqueUnorderedPairs(old(db.connections)) ==> UniqueUnorderedPairs(db.connections)
    ensures !current.isAdmin ==> reply == UNAUTHORIZED && unchanged(db)
    ensures current.isAdmin && ConnectionIndex(old(db.connections), requestId).None?
            ==> reply == Reply(500, failed) && unchanged(db)
    ensures current.isAdmin && ConnectionIndex(old(db.connections), requestId).Some?
            ==> var i := ConnectionIndex(old(db.connections), requestId).value;
                reply == Reply(200, done)
                && db.connections == old(db.connections)[i := old(db.connections)[i].(status := status)]
    ensures |db.connections| == |old(db.connections)|
    ensures db.users == old(db.users) && db.profiles == old(db.profiles) && db.messages == old(db.messages)
    ensures db.notifications == old(db.notifications) && db.challenges == old(db.challenges)
    ensures db.nextUserId == old(db.nextUserId) && db.nextConnectionId == old(db.nextConnectionId)
    ensures db.nextMessageId == old(db.nextMessageId) && db.nextNotificationId == old(db.nextNotificationId)
  {
    if !current.isAdmin {
      return UNAUTHORIZED;
    }
    var index := ConnectionIndex(db.connections, requestId);
    if index.None? {
      return Reply(500, failed);
    }
    var i := index.value;
    var connection := db.connections[i];
    if UniqueUnorderedPairs(db.connections) {
      StatusChangeKeepsUnique(db.connections, i, status);
    }
    assert connection in db.connections;
    db.connections := db.connections[i := connection.(status := status)];
    assert forall c :: c in db.connections ==> c in old(db.connections) || c.id == connection.id;
    reply := Reply(200, done);
  }

  /** `approve_request` */
  method ApproveRequest(db: Database, current: User, requestId: nat) returns (reply: Reply)
    requires db.Valid()
    modifies db
    ensures db.Valid()
    ensures UniqueUnorderedPairs(old(db.connections)) ==> UniqueUnorderedPairs(db.connections)
    ensures !current.isAdmin ==> reply == UNAUTHORIZED && unchanged(db)
    ensures current.isAdmin && ConnectionIndex(old(db.connections), requestId).None?
            ==> reply == Reply(500, "Failed to approve request") && unchanged(db)
    ensures current.isAdmin && ConnectionIndex(old(db.connections), requestId).Some?
            ==> var i := ConnectionIndex(old(db.connections), requestId).value;
                reply == Reply(200, "Request approved successfully")
                && db.connections == old(db.connections)[i := old(db.connections)[i].Approve()]
    ensures db.users == old(db.users) && db.profiles == old(db.profiles) && db.messages == old(db.messages)
    ensures db.notifications == old(db.notifications) && db.challenges == old(db.challenges)
    ensures db.nextUserId == old(db.nextUserId) && db.nextConnectionId == old(db.nextConnectionId)
    ensures db.nextMessageId == old(db.nextMessageId) && db.nextNotificationId == old(db.nextNotificationId)
  {
    reply := SetRequestStatus(db, current, requestId, APPROVED, "Request approved successfully",
                              "Failed to approve request");
  }

  /** `reject_request` */
  method RejectRequest(db: Database, current: User, requestId: nat) returns (reply: Reply)
    requires db.Valid()
    modifies db
    ensures db.Valid()
    ensures UniqueUnorderedPairs(old(db.connections)) ==> UniqueUnorderedPairs(db.connections)
    ensures !current.isAdmin ==> reply == UNAUTHORIZED && unchanged(db)
    ensures current.isAdmin && ConnectionIndex(old(db.connections), requestId).None?
            ==> reply == Reply(500, "Failed to reject request") && unchanged(db)
    ensures current.isAdmin && ConnectionIndex(old(db.connections), requestId).Some?
            ==> var i := ConnectionIndex(old(db.connections), requestId).value;
                reply == Reply(200, "Request rejected successfully")
                && db.connections == old(db.connections)[i := old(db.connections)[i].Reject()]
    ensures db.users == old(db.users) && db.profiles == old(db.profiles) && db.messages == old(db.messages)
    ensures db.notifications == old(db.notifications) && db.challenges == old(db.challenges)
    ensures db.nextUserId == old(db.nextUserId) && db.nextConnectionId == old(db.nextConnectionId)
    ensures db.nextMessageId == old(db.nextMessageId) && db.nextNotificationId == old(db.nextNotificationId)
  {
    reply := SetRequestStatus(db, current, requestId, REJECTED, "Request rejected successfully",
                              "Failed to reject request");
  }

  /** Admin approval of a pending row moves one row from the pending count to the approved count. */
  lemma ApprovalMovesPendingToActive(rows: seq<Connection>, i: nat)
    requires i < |rows| && rows[i].status == PENDING
    ensures CountStatus(rows[i := rows[i].Approve()], APPROVED) == CountStatus(rows, APPROVED) + 1
    ensures CountStatus(rows[i := rows[i].Approve()], PENDING) == CountStatus(rows, PENDING) - 1
  {
    StatusChangeMovesCount(rows, i, APPROVED, APPROVED);
    StatusChangeMovesCount(rows, i, APPROVED, PENDING);
  }
}
