/**
 * The notification routes: a user lists their own notifications, newest
 * first, optionally only the unread ones, one window at a time; marks one
 * of their notifications read; or marks all of them read.
 */
module Notifications {
  import opened Common
  import opened Sorting
  import opened Models

  const DEFAULT_LIMIT: int := 50
  const DEFAULT_OFFSET: int := 0

  /**
   * `request.args.get('unread_only', False, type=bool)`: `bool` of the raw
   * text, so any non-empty value, "false" and "0" included, turns the
   * filter on.
   */
  function UnreadOnlyFlag(arg: Option<string>): (r: bool)
    ensures r <==> arg.Some? && |arg.value| > 0
    ensures arg == Some("false") ==> r
  {
    Truthy(arg)
  }

  function NotificationTime(n: Notification): int { n.timestamp }

  /** The notifications of `user`, only the unread ones when `unreadOnly`, in table order. */
  function Selected(ns: seq<Notification>, user: nat, unreadOnly: bool): (r: seq<Notification>)
    ensures |r| <= |ns|
    ensures forall n :: n in r <==> n in ns && n.userId == user && (!unreadOnly || !n.read)
  {
    if ns == [] then []
    else
      assert forall n :: n in ns <==> n == ns[0] || n in ns[1..];
      (if ns[0].userId == user && (!unreadOnly || !ns[0].read) then [ns[0]] else [])
        + Selected(ns[1..], user, unreadOnly)
  }

  /**
   * `OFFSET offset LIMIT limit` as SQLite evaluates it: a negative offset
   * skips nothing and a negative limit takes everything that is left.
   */
  function Window<T>(s: seq<T>, offset: int, limit: int): (r: seq<T>)
    ensures limit >= 0 ==> |r| <= limit
    ensures |r| == WindowSize(|s|, offset, limit)
    ensures var start := if offset < 0 then 0 else Min(offset, |s|);
            forall k :: 0 <= k < |r| ==> r[k] == s[start + k]
  {
    var start := if offset < 0 then 0 else Min(offset, |s|);
    var rest := s[start..];
    if limit < 0 then rest else Take(rest, limit)
  }

  /** How many of `count` items the window at `offset` of at most `limit` items (all, when negative) holds. */
  function WindowSize(count: nat, offset: int, limit: int): nat
  {
    var start := if offset < 0 then 0 else Min(offset, count);
    if limit < 0 then count - start else Min(limit, count - start)
  }

  /** What `get_notifications` lists, before formatting. */
  function Listed(ns: seq<Notification>, user: nat, limit: int, offset: int, unreadOnly: Option<string>)
    : seq<Notification>
  {
    Window(SortDesc(Selected(ns, user, UnreadOnlyFlag(unreadOnly)), NotificationTime), offset, limit)
  }

  /** A notification as the listing reports it. */
  datatype NotificationView = NotificationView(id: nat, kind: string, title: string, message: string,
                                               timestamp: nat, read: bool)

  function ViewOf(n: Notification): (v: NotificationView)
    ensures v.id == n.id && v.kind == n.kind && v.title == n.title && v.message == n.message
    ensures v.timestamp == n.timestamp && v.read == n.read
  {
    NotificationView(n.id, n.kind, n.title, n.message, n.timestamp, n.read)
  }

  function Views(ns: seq<Notification>): (r: seq<NotificationView>)
    ensures |r| == |ns|
    ensures forall i :: 0 <= i < |ns| ==> r[i] == ViewOf(ns[i])
  {
    seq(|ns|, i requires 0 <= i < |ns| => ViewOf(ns[i]))
  }

  lemma ViewsSnoc(ns: seq<Notification>, k: nat)
    requires k < |ns|
    ensures Views(ns[..k + 1]) == Views(ns[..k]) + [ViewOf(ns[k])]
  {
    var a := Views(ns[..k + 1]);
    var b := Views(ns[..k]) + [ViewOf(ns[k])];
    forall i | 0 <= i < |a| ensures a[i] == b[i] {
      if i < k {
        assert ns[..k + 1][i] == ns[..k][i];
      }
    }
  }

  /** `get_notifications` */
  method GetNotifications(db: Database, current: User, limit: int, offset: int, unreadOnly: Option<string>)
    returns (r: seq<NotificationView>)
    ensures r == Views(Listed(db.notifications, current.id, limit, offset, unreadOnly))
  {
    var filterUnread := UnreadOnlyFlag(unreadOnly);
    var notifications := Window(SortDesc(Selected(db.notifications, current.id, filterUnread), NotificationTime),
                                offset, limit);
    r := [];
    var k := 0;
    while k < |notifications|
      invariant 0 <= k <= |notifications|
      invariant r == Views(notifications[..k])
    {
      ViewsSnoc(notifications, k);
      r := r + [ViewOf(notifications[k])];
      k := k + 1;
    }
    assert notifications[..k] == notifications;
  }

  /**
   * The listing shows only the user's own notifications, only unread ones
   * when the filter is on, newest first, and at most `limit` of them when
   * `limit` is not negative.
   */
  lemma ListedProperties(ns: seq<Notification>, user: nat, limit: int, offset: int, unreadOnly: Option<string>)
    ensures var r := Listed(ns, user, limit, offset, unreadOnly);
            (limit >= 0 ==> |r| <= limit)
            && (forall n :: n in r ==> n in ns && n.userId == user)
            && (UnreadOnlyFlag(unreadOnly) ==> forall n :: n in r ==> !n.read)
            && SortedDesc(r, NotificationTime)
  {
    var sel := Selected(ns, user, UnreadOnlyFlag(unreadOnly));
    var sorted := SortDesc(sel, NotificationTime);
    MembersOfPermutation(sorted, sel);
    WindowSorted(sorted, offset, limit, NotificationTime);
  }

  /**
   * The listing leaves nothing out but what the window cuts: it holds as
   * many notifications as the window admits of the matching ones.
   */
  lemma ListedCount(ns: seq<Notification>, user: nat, limit: int, offset: int, unreadOnly: Option<string>)
    ensures |Listed(ns, user, limit, offset, unreadOnly)|
            == WindowSize(|Selected(ns, user, UnreadOnlyFlag(unreadOnly))|, offset, limit)
  {
    var sel := Selected(ns, user, UnreadOnlyFlag(unreadOnly));
    var sorted := SortDesc(sel, NotificationTime);
    assert |sorted| == |sel|;
    assert Listed(ns, user, limit, offset, unreadOnly) == Window(sorted, offset, limit);
  }

  /** With no offset and no limit every matching notification is listed. */
  lemma ListedComplete(ns: seq<Notification>, user: nat, limit: int, offset: int, unreadOnly: Option<string>)
    requires offset <= 0 && limit < 0
    ensures forall n :: n in ns && n.userId == user && (!UnreadOnlyFlag(unreadOnly) || !n.read)
                        ==> n in Listed(ns, user, limit, offset, unreadOnly)
  {
    var sel := Selected(ns, user, UnreadOnlyFlag(unreadOnly));
    var sorted := SortDesc(sel, NotificationTime);
    assert Window(sorted, offset, limit) == sorted;
    MembersOfPermutation(sorted, sel);
  }

  /** A window of a sequence sorted highest first is sorted too, and holds only items of the sequence. */
  lemma WindowSorted<T>(s: seq<T>, offset: int, limit: int, key: T -> int)
    requires SortedDesc(s, key)
    ensures SortedDesc(Window(s, offset, limit), key)
    ensures forall x :: x in Window(s, offset, limit) ==> x in s
  {
    RunSorted(s, if offset < 0 then 0 else Min(offset, |s|), Window(s, offset, limit), key);
  }

  /** Consecutive windows continue each other: the next window starts where this one stops. */
  lemma WindowsAdjacent<T>(s: seq<T>, offset: nat, limit: nat)
    ensures Window(s, offset, limit) + Window(s, offset + limit, limit) == Window(s, offset, 2 * limit)
  {
    var a := Window(s, offset, limit);
    var b := Window(s, offset + limit, limit);
    var c := Window(s, offset, 2 * limit);
    if offset + limit <= |s| {
      assert |a| == limit;
      forall k | 0 <= k < |c| ensures (a + b)[k] == c[k] {
        if k >= limit {
          assert (a + b)[k] == b[k - limit];
        }
      }
    } else {
      assert b == [];
      assert a + b == a;
    }
  }

  // --------------------------------------------------------------- mark read

  /** The position of the notification `id` owned by `user`, if there is one. */
  function FindOwned(ns: seq<Notification>, id: nat, user: nat): (r: Option<nat>)
    ensures r.None? <==> forall n :: n in ns ==> !(n.id == id && n.userId == user)
    ensures r.Some? ==> r.value < |ns| && ns[r.value].id == id && ns[r.value].userId == user
                        && forall j :: 0 <= j < r.value ==> !(ns[j].id == id && ns[j].userId == user)
  {
    if ns == [] then None
    else if ns[0].id == id && ns[0].userId == user then Some(0)
    else
      match FindOwned(ns[1..], id, user)
      case None => None
      case Some(k) => Some(k + 1)
  }

  /** The table after `mark_notification_as_read(id)` by `user`. */
  function MarkOne(ns: seq<Notification>, id: nat, user: nat): (r: seq<Notification>)
  {
    match FindOwned(ns, id, user)
    case None => ns
    case Some(i) => ns[i := ns[i].(read := true)]
  }

  /**
   * Marking one notification read sets only that notification's flag, and
   * doing it twice is doing it once.
   */
  lemma MarkOneProperties(ns: seq<Notification>, id: nat, user: nat)
    ensures var r := MarkOne(ns, id, user);
            |r| == |ns|
            && (forall i :: 0 <= i < |ns| ==> r[i].(read := ns[i].read) == ns[i])
            && (forall i :: 0 <= i < |ns| && r[i] != ns[i] ==> ns[i].id == id && ns[i].userId == user && r[i].read)
            && (FindOwned(ns, id, user).Some? ==> r[FindOwned(ns, id, user).value].read)
            && MarkOne(r, id, user) == r
  {
    var r := MarkOne(ns, id, user);
    match FindOwned(ns, id, user)
    case None =>
    case Some(i) =>
      var f := FindOwned(r, id, user);
      assert r[i].id == id && r[i].userId == user;
      assert forall j :: 0 <= j < i ==> r[j] == ns[j];
      assert f == Some(i);
      assert r[i := r[i].(read := true)] == r;
  }

  /**
   * `mark_notification_as_read`: a notification the user does not own, or
   * that does not exist, answers 404 and nothing changes; otherwise it is
   * marked read.
   */
  method MarkNotificationAsRead(db: Database, current: User, notificationId: nat) returns (reply: Reply)
    requires db.Valid()
    modifies db
    ensures db.Valid()
    ensures FindOwned(old(db.notifications), notificationId, current.id).None?
            ==> reply == Reply(404, "Notification not found") && unchanged(db)
    ensures FindOwned(old(db.notifications), notificationId, current.id).Some?
            ==> reply == Reply(200, "Notification marked as read")
    ensures db.notifications == MarkOne(old(db.notifications), notificationId, current.id)
    ensures db.users == old(db.users) && db.profiles == old(db.profiles) && db.connections == old(db.connections)
    ensures db.messages == old(db.messages) && db.challenges == old(db.challenges)
    ensures db.nextUserId == old(db.nextUserId) && db.nextConnectionId == old(db.nextConnectionId)
    ensures db.nextMessageId == old(db.nextMessageId) && db.nextNotificationId == old(db.nextNotificationId)
  {
    var found := FindOwned(db.notifications, notificationId, current.id);
    if found.None? {
      return Reply(404, "Notification not found");
    }
    var i := found.value;
    var notification := db.notifications[i];
    assert notification in db.notifications;
    db.notifications := db.notifications[i := notification.(read := true)];
    assert forall n :: n in db.notifications ==> n in old(db.notifications) || n.id == notificationId;
    reply := Reply(200, "Notification marked as read");
  }

  /** The bulk update of `mark_all_notifications_read`. */
  function MarkAllRead(ns: seq<Notification>, user: nat): (r: seq<Notification>)
    ensures |r| == |ns|
    ensures forall i :: 0 <= i < |ns| ==> r[i].(read := ns[i].read) == ns[i]
    ensures forall i :: 0 <= i < |ns| ==> (r[i].read <==> ns[i].read || ns[i].userId == user)
  {
    seq(|ns|, i requires 0 <= i < |ns| => if ns[i].userId == user then ns[i].(read := true) else ns[i])
  }

  /** `mark_all_notifications_read`: every notification of the user is read; nobody else's changes. */
  method MarkAllNotificationsRead(db: Database, current: User) returns (reply: Reply)
    requires db.Valid()
    modifies db
    ensures db.Valid()
    ensures reply == Reply(200, "All notifications marked as read")
    ensures db.notifications == MarkAllRead(old(db.notifications), current.id)
    ensures db.users == old(db.users) && db.profiles == old(db.profiles) && db.connections == old(db.connections)
    ensures db.messages == old(db.messages) && db.challenges == old(db.challenges)
    ensures db.nextUserId == old(db.nextUserId) && db.nextConnectionId == old(db.nextConnectionId)
    ensures db.nextMessageId == old(db.nextMessageId) && db.nextNotificationId == old(db.nextNotificationId)
  {
    var marked := MarkAllRead(db.notifications, current.id);
    assert forall n :: n in marked ==> n.id < db.nextNotificationId by {
      forall n | n in marked ensures n.id < db.nextNotificationId {
        var i :| 0 <= i < |marked| && marked[i] == n;
        assert marked[i].(read := db.notifications[i].read) == db.notifications[i];
        assert db.notifications[i] in db.notifications;
      }
    }
    db.notifications := marked;
    reply := Reply(200, "All notifications marked as read");
  }

  /** After mark-all the unread listing of that user is empty, and every other user's listing is as before. */
  lemma MarkAllEmptiesUnreadListing(ns: seq<Notification>, user: nat, other: nat, unreadOnly: bool)
    requires other != user
    ensures forall n :: n !in Selected(MarkAllRead(ns, user), user, true)
    ensures Selected(MarkAllRead(ns, user), other, unreadOnly) == Selected(ns, other, unreadOnly)
  {
    var r := MarkAllRead(ns, user);
    var s := Selected(r, user, true);
    forall n | n in r ensures n.userId != user || n.read {
      var i :| 0 <= i < |r| && r[i] == n;
    }
    MarkAllKeepsOthers(ns, user, other, unreadOnly);
  }

  lemma {:induction false} MarkAllKeepsOthers(ns: seq<Notification>, user: nat, other: nat, unreadOnly: bool)
    requires other != user
    ensures Selected(MarkAllRead(ns, user), other, unreadOnly) == Selected(ns, other, unreadOnly)
  {
    if ns != [] {
      var r := MarkAllRead(ns, user);
      assert r[1..] == MarkAllRead(ns[1..], user) by {
        forall i | 0 <= i < |ns| - 1 ensures r[1..][i] == MarkAllRead(ns[1..], user)[i] {
          assert ns[1..][i] == ns[i + 1];
        }
      }
      MarkAllKeepsOthers(ns[1..], user, other, unreadOnly);
      assert r[0].(read := ns[0].read) == ns[0];
    }
  }
}
