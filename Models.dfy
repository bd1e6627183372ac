/**
 * The persistent entities of the backend (users, profiles, buddy
 * connections, challenges, messages, notifications) and the database that
 * holds their tables. Rows the routes rewrite wholesale are datatype values
 * in sequences; a challenge, whose `update_progress` assigns its own fields,
 * is an object.
 */
module Models {
  import opened Common

  /** A registered account. `isAdmin`/`isActive` are the flags the admin routes read and write. */
  datatype User = User(id: nat, username: string, email: string, passwordHash: string,
                       avatar: Option<string>, isAdmin: bool, isActive: bool)

  /** A study profile; every text column is nullable. */
  datatype Profile = Profile(userId: nat, bio: Option<string>, interests: Option<string>,
                             specialization: Option<string>, level: Option<string>,
                             schedule: Option<string>, picture: Option<string>)

  const DEFAULT_LEVEL: string := "Beginner"

  // ------------------------------------------------------------- connections

  const PENDING: string := "pending"
  const APPROVED: string := "approved"
  const REJECTED: string := "rejected"

  /** A buddy connection row: `userId` sent the request, `buddyId` received it. */
  datatype Connection = Connection(id: nat, userId: nat, buddyId: nat, status: string, createdAt: nat)
  {
    /** The row joins `a` and `b`, in either direction. */
    predicate Between(a: nat, b: nat)
    {
      (userId == a && buddyId == b) || (userId == b && buddyId == a)
    }

    predicate Involves(u: nat)
    {
      userId == u || buddyId == u
    }

    /** The party of the row that is not `u`. */
    function Other(u: nat): (r: nat)
      requires Involves(u)
      ensures Between(u, r)
    {
      if userId == u then buddyId else userId
    }

    /** `approve()`: the same row, now approved. */
    function Approve(): (r: Connection)
      ensures r.status == APPROVED
      ensures r.(status := status) == this
    {
      this.(status := APPROVED)
    }

    /** `reject()`: the same row, now rejected. */
    function Reject(): (r: Connection)
      ensures r.status == REJECTED
      ensures r.(status := status) == this
    {
      this.(status := REJECTED)
    }
  }

  /** A row as the model constructs it when no status is given: pending. */
  function NewConnection(id: nat, userId: nat, buddyId: nat, now: nat): (c: Connection)
    ensures c.status == PENDING
    ensures c.id == id && c.userId == userId && c.buddyId == buddyId && c.createdAt == now
  {
    Connection(id, userId, buddyId, PENDING, now)
  }

  /** The table-level unique constraint: no two rows with the same (user_id, buddy_id). */
  ghost predicate UniqueOrderedPairs(rows: seq<Connection>)
  {
    forall i, j :: 0 <= i < j < |rows| ==>
      (rows[i].userId, rows[i].buddyId) != (rows[j].userId, rows[j].buddyId)
  }

  /** The stronger property the routes maintain: at most one row per unordered pair. */
  ghost predicate UniqueUnorderedPairs(rows: seq<Connection>)
  {
    forall i, j :: 0 <= i < j < |rows| ==> !rows[j].Between(rows[i].userId, rows[i].buddyId)
  }

  /** The unique constraint is on ordered pairs: it admits a row and its reverse. */
  lemma ReversePairAdmitted()
    ensures var rows := [Connection(1, 1, 2, PENDING, 0), Connection(2, 2, 1, PENDING, 0)];
            UniqueOrderedPairs(rows) && !UniqueUnorderedPairs(rows)
  {
    var rows := [Connection(1, 1, 2, PENDING, 0), Connection(2, 2, 1, PENDING, 0)];
    assert rows[1].Between(rows[0].userId, rows[0].buddyId);
  }

  /** Unordered uniqueness implies the table's ordered unique constraint. */
  lemma UnorderedImpliesOrdered(rows: seq<Connection>)
    requires UniqueUnorderedPairs(rows)
    ensures UniqueOrderedPairs(rows)
  {
    forall i, j | 0 <= i < j < |rows|
      ensures (rows[i].userId, rows[i].buddyId) != (rows[j].userId, rows[j].buddyId)
    {
      assert !rows[j].Between(rows[i].userId, rows[i].buddyId);
    }
  }

  /**
   * `User.get_connections`: the approved rows in which `u` takes part, in
   * table order.
   */
  function ApprovedConnectionsOf(rows: seq<Connection>, u: nat): (r: seq<Connection>)
    ensures forall c :: c in r <==> c in rows && c.status == APPROVED && c.Involves(u)
    ensures |r| <= |rows|
  {
    if rows == [] then []
    else
      var rest := ApprovedConnectionsOf(rows[1..], u);
      assert forall c :: c in rows <==> c == rows[0] || c in rows[1..];
      if rows[0].status == APPROVED && rows[0].Involves(u) then [rows[0]] + rest else rest
  }

  /** A row of `u`'s connections is never anybody else's unless that one is its other party. */
  lemma ApprovedConnectionsSymmetric(rows: seq<Connection>, a: nat, b: nat)
    ensures (exists c :: c in ApprovedConnectionsOf(rows, a) && c.Between(a, b))
        <==> (exists c :: c in ApprovedConnectionsOf(rows, b) && c.Between(a, b))
  {
    if exists c :: c in ApprovedConnectionsOf(rows, a) && c.Between(a, b) {
      var c :| c in ApprovedConnectionsOf(rows, a) && c.Between(a, b);
      assert c in ApprovedConnectionsOf(rows, b);
    }
    if exists c :: c in ApprovedConnectionsOf(rows, b) && c.Between(a, b) {
      var c :| c in ApprovedConnectionsOf(rows, b) && c.Between(a, b);
      assert c in ApprovedConnectionsOf(rows, a);
    }
  }

  // ----------------------------------------------------------------- messages

  const MESSAGE_TEXT: string := "text"

  datatype Message = Message(id: nat, senderId: nat, receiverId: nat, content: string,
                             timestamp: nat, read: bool, messageType: string,
                             expiresAt: Option<nat>)
  {
    /** The message belongs to the conversation of `a` and `b`, in either direction. */
    predicate InConversation(a: nat, b: nat)
    {
      (senderId == a && receiverId == b) || (senderId == b && receiverId == a)
    }
  }

  datatype Notification = Notification(id: nat, userId: nat, kind: string, title: string,
                                       message: string, timestamp: nat, read: bool)

  // --------------------------------------------------------------- challenges

  const ACTIVE: string := "active"
  const COMPLETED: string := "completed"

  /** A challenge; `update_progress` assigns its fields in place. */
  class Challenge {
    const id: nat
    const userId: nat
    var title: string
    var progress: int
    var total: int
    var xp: int
    var status: string
    var completedAt: Option<nat>

    /** A new challenge with the column defaults: no progress out of 100, no xp, active. */
    constructor (id: nat, userId: nat, title: string)
      ensures this.id == id && this.userId == userId && this.title == title
      ensures progress == 0 && total == 100 && xp == 0
      ensures status == ACTIVE && completedAt == None
    {
      this.id := id;
      this.userId := userId;
      this.title := title;
      progress := 0;
      total := 100;
      xp := 0;
      status := ACTIVE;
      completedAt := None;
    }

    /**
     * `update_progress`: records the new progress; reaching the total
     * completes the challenge at `now`, and a completed challenge stays
     * completed whatever progress is recorded later.
     */
    method UpdateProgress(newProgress: int, now: nat) returns (self: Challenge)
      modifies this
      ensures self == this
      ensures progress == newProgress
      ensures newProgress >= total ==> status == COMPLETED && completedAt == Some(now)
      ensures newProgress < total ==> status == old(status) && completedAt == old(completedAt)
      ensures old(status) == COMPLETED ==> status == COMPLETED
      ensures total == old(total) && xp == old(xp) && title == old(title)
    {
      progress := newProgress;
      if progress >= total {
        status := COMPLETED;
        completedAt := Some(now);
      }
      self := this;
    }
  }

  // ----------------------------------------------------------------- database

  /** `User.query.get(id)`: the user with that primary key, if any. */
  function FindUser(users: seq<User>, id: nat): (r: Option<User>)
    ensures r.Some? ==> r.value in users && r.value.id == id
    ensures r.None? <==> forall u :: u in users ==> u.id != id
  {
    if users == [] then None
    else if users[0].id == id then Some(users[0])
    else FindUser(users[1..], id)
  }

  /** `User.query.filter_by(email=email).first()`: the first account with exactly this e-mail. */
  function FindByEmail(users: seq<User>, email: string): (r: Option<User>)
    ensures r.None? <==> forall u :: u in users ==> u.email != email
    ensures r.Some? ==> r.value in users && r.value.email == email
  {
    if users == [] then None
    else if users[0].email == email then Some(users[0])
    else FindByEmail(users[1..], email)
  }

  /** The position of `FindByEmail`'s account in the table. */
  function EmailIndex(users: seq<User>, email: string): (r: Option<nat>)
    ensures r.None? <==> FindByEmail(users, email).None?
    ensures r.Some? ==> r.value < |users| && users[r.value] == FindByEmail(users, email).value
  {
    if users == [] then None
    else if users[0].email == email then Some(0)
    else
      match EmailIndex(users[1..], email)
      case None => None
      case Some(k) => Some(k + 1)
  }

  /** `User.query.filter_by(username=username).first()` */
  function FindByUsername(users: seq<User>, username: string): (r: Option<User>)
    ensures r.None? <==> forall u :: u in users ==> u.username != username
    ensures r.Some? ==> r.value in users && r.value.username == username
  {
    if users == [] then None
    else if users[0].username == username then Some(users[0])
    else FindByUsername(users[1..], username)
  }

  /** The tables of the database and the next primary key of each. */
  class Database {
    var users: seq<User>
    var profiles: map<nat, Profile>
    var connections: seq<Connection>
    var messages: seq<Message>
    var notifications: seq<Notification>
    var challenges: seq<Challenge>
    var nextUserId: nat
    var nextConnectionId: nat
    var nextMessageId: nat
    var nextNotificationId: nat

    /** Every primary key is below the next one handed out. */
    ghost predicate Valid()
      reads this
    {
      (forall u :: u in users ==> u.id < nextUserId)
      && (forall c :: c in connections ==> c.id < nextConnectionId)
      && (forall m :: m in messages ==> m.id < nextMessageId)
      && (forall n :: n in notifications ==> n.id < nextNotificationId)
    }

    constructor ()
      ensures Valid()
      ensures users == [] && profiles == map[] && connections == [] && messages == []
      ensures notifications == [] && challenges == []
    {
      users := [];
      profiles := map[];
      connections := [];
      messages := [];
      notifications := [];
      challenges := [];
      nextUserId := 1;
      nextConnectionId := 1;
      nextMessageId := 1;
      nextNotificationId := 1;
    }

    /** Appends an account with a fresh key: no avatar, not an admin, active. */
    method AddUser(username: string, email: string, passwordHash: string) returns (id: nat)
      requires Valid()
      modifies this
      ensures Valid()
      ensures id == old(nextUserId) && nextUserId == id + 1
      ensures users == old(users) + [User(id, username, email, passwordHash, None, false, true)]
      ensures profiles == old(profiles) && connections == old(connections) && messages == old(messages)
      ensures notifications == old(notifications) && challenges == old(challenges)
      ensures nextConnectionId == old(nextConnectionId) && nextMessageId == old(nextMessageId)
      ensures nextNotificationId == old(nextNotificationId)
    {
      id := nextUserId;
      users := users + [User(id, username, email, passwordHash, None, false, true)];
      nextUserId := nextUserId + 1;
    }

    /** Appends a pending connection row with a fresh key. */
    method AddConnection(userId: nat, buddyId: nat, now: nat)
      requires Valid()
      modifies this
      ensures Valid()
      ensures connections == old(connections) + [NewConnection(old(nextConnectionId), userId, buddyId, now)]
      ensures nextConnectionId == old(nextConnectionId) + 1
      ensures users == old(users) && profiles == old(profiles) && messages == old(messages)
      ensures notifications == old(notifications) && challenges == old(challenges)
      ensures nextUserId == old(nextUserId) && nextMessageId == old(nextMessageId)
      ensures nextNotificationId == old(nextNotificationId)
    {
      connections := connections + [NewConnection(nextConnectionId, userId, buddyId, now)];
      nextConnectionId := nextConnectionId + 1;
    }

    /** Deletes the connection row at index `i`; the others keep their order. */
    method RemoveConnection(i: nat)
      requires Valid() && i < |connections|
      modifies this
      ensures Valid()
      ensures connections == old(connections)[..i] + old(connections)[i + 1..]
      ensures users == old(users) && profiles == old(profiles) && messages == old(messages)
      ensures notifications == old(notifications) && challenges == old(challenges)
      ensures nextUserId == old(nextUserId) && nextConnectionId == old(nextConnectionId)
      ensures nextMessageId == old(nextMessageId) && nextNotificationId == old(nextNotificationId)
    {
      assert forall c :: c in connections[..i] + connections[i + 1..] ==> c in connections;
      connections := connections[..i] + connections[i + 1..];
    }

    /** Appends a notification row with a fresh key. */
    method AddNotification(userId: nat, kind: string, title: string, message: string, now: nat)
      requires Valid()
      modifies this
      ensures Valid()
      ensures notifications == old(notifications)
                + [Notification(old(nextNotificationId), userId, kind, title, message, now, false)]
      ensures nextNotificationId == old(nextNotificationId) + 1
      ensures users == old(users) && profiles == old(profiles) && connections == old(connections)
      ensures messages == old(messages) && challenges == old(challenges)
      ensures nextUserId == old(nextUserId) && nextConnectionId == old(nextConnectionId)
      ensures nextMessageId == old(nextMessageId)
    {
      notifications := notifications + [Notification(nextNotificationId, userId, kind, title, message, now, false)];
      nextNotificationId := nextNotificationId + 1;
    }

    /** Appends an unread message row with a fresh key and returns that key. */
    method AddMessage(senderId: nat, receiverId: nat, content: string, messageType: string, now: nat,
                      expiresAt: Option<nat>) returns (id: nat)
      requires Valid()
      modifies this
      ensures Valid()
      ensures id == old(nextMessageId) && nextMessageId == id + 1
      ensures messages == old(messages) + [Message(id, senderId, receiverId, content, now, false, messageType, expiresAt)]
      ensures users == old(users) && profiles == old(profiles) && connections == old(connections)
      ensures notifications == old(notifications) && challenges == old(challenges)
      ensures nextUserId == old(nextUserId) && nextConnectionId == old(nextConnectionId)
      ensures nextNotificationId == old(nextNotificationId)
    {
      id := nextMessageId;
      messages := messages + [Message(id, senderId, receiverId, content, now, false, messageType, expiresAt)];
      nextMessageId := nextMessageId + 1;
    }
  }
}
