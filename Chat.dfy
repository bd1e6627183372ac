/**
 * The chat routes. Only two users joined by an approved connection row
 * may read or write their conversation. Reading one page of it marks
 * everything the buddy sent the reader as read. Sending validates the
 * text, stores it with an expiry date, notifies the receiver and trims the
 * conversation. The conversation list has one entry per approved buddy
 * with a profile, newest conversation first.
 */
module Chat {
  import opened Common
  import opened Sorting
  import opened Models
  import opened Buddies
  import opened MessageStorage

  const NOT_CONNECTED_ERROR: string := "You are not connected with this user"
  const MAX_MESSAGE_LENGTH: nat := 1000
  /** `Config.MESSAGES_PER_PAGE` when the configuration does not set it. */
  const MESSAGES_PER_PAGE: nat := 50
  /** Flask-SQLAlchemy's page size when the requested one is below 1. */
  const FALLBACK_PER_PAGE: nat := 20
  const NOTE: string := "note"
  const CHALLENGE: string := "challenge"
  /**
   * The marks the note and challenge routes put before the text, code point
   * for code point as backend/routes/chat.py:319 and :384 hold them: an
   * emoji's UTF-8 bytes read as Mac Roman, led by the private-use U+F8FF.
   */
  const NOTE_PREFIX: string := "\U{F8FF}\U{00FC}\U{00EC}\U{00F9} Note: "
  const CHALLENGE_PREFIX: string := "\U{F8FF}\U{00FC}\U{00E8}\U{00DC} Challenge: "

  /** Some approved row joins `a` and `b`, in either direction. */
  predicate ApprovedBetween(rows: seq<Connection>, a: nat, b: nat)
  {
    exists c :: c in rows && c.status == APPROVED && c.Between(a, b)
  }

  /** With one row per pair, the chat gate opens exactly for the pairs `check_connection_status` calls connected. */
  lemma ChatGateMatchesStatus(rows: seq<Connection>, a: nat, b: nat)
    requires UniqueUnorderedPairs(rows)
    ensures ApprovedBetween(rows, a, b) <==> ConnectionStatus(rows, a, b) == CONNECTED
  {
    ConnectedIffApproved(rows, a, b);
  }

  // --------------------------------------------------------------- read flags

  /** The bulk update marking every unread message `from` sent `to` as read. */
  function MarkRead(ms: seq<Message>, from: nat, to: nat): (r: seq<Message>)
    ensures |r| == |ms|
    ensures forall i :: 0 <= i < |ms| ==> r[i].(read := ms[i].read) == ms[i]
    ensures forall i :: 0 <= i < |ms| ==>
              (r[i].read <==> ms[i].read || (ms[i].senderId == from && ms[i].receiverId == to))
  {
    seq(|ms|, i requires 0 <= i < |ms| =>
      if ms[i].senderId == from && ms[i].receiverId == to then ms[i].(read := true) else ms[i])
  }

  lemma MarkReadStep(ms: seq<Message>, from: nat, to: nat)
    requires ms != []
    ensures MarkRead(ms, from, to)[1..] == MarkRead(ms[1..], from, to)
  {
    var a := MarkRead(ms, from, to)[1..];
    var b := MarkRead(ms[1..], from, to);
    forall i | 0 <= i < |a| ensures a[i] == b[i] {
      assert ms[1..][i] == ms[i + 1];
    }
  }

  /** Marking read twice is marking read once. */
  lemma MarkReadIdempotent(ms: seq<Message>, from: nat, to: nat)
    ensures MarkRead(MarkRead(ms, from, to), from, to) == MarkRead(ms, from, to)
  {
    var r := MarkRead(ms, from, to);
    var rr := MarkRead(r, from, to);
    forall i | 0 <= i < |ms| ensures rr[i] == r[i] {
      assert r[i].(read := ms[i].read) == ms[i];
    }
  }

  /** The number of unread messages `from` sent `to`. */
  function UnreadCount(ms: seq<Message>, from: nat, to: nat): (r: nat)
    ensures r <= |ms|
  {
    if ms == [] then 0
    else (if ms[0].senderId == from && ms[0].receiverId == to && !ms[0].read then 1 else 0)
         + UnreadCount(ms[1..], from, to)
  }

  /** No unread count exactly when every message `from` sent `to` is read. */
  lemma {:induction false} NoUnreadIff(ms: seq<Message>, from: nat, to: nat)
    ensures UnreadCount(ms, from, to) == 0
            <==> forall i :: 0 <= i < |ms| && ms[i].senderId == from && ms[i].receiverId == to ==> ms[i].read
  {
    if ms != [] {
      NoUnreadIff(ms[1..], from, to);
      assert forall i :: 1 <= i < |ms| ==> ms[i] == ms[1..][i - 1];
    }
  }

  /** After the buddy's messages are marked read, the reader has nothing unread from the buddy. */
  lemma MarkReadClearsUnread(ms: seq<Message>, buddy: nat, reader: nat)
    ensures UnreadCount(MarkRead(ms, buddy, reader), buddy, reader) == 0
  {
    NoUnreadIff(MarkRead(ms, buddy, reader), buddy, reader);
  }

  /** Reading a conversation leaves the reader's own messages as the buddy left them. */
  lemma {:induction false} MarkReadKeepsOwnUnread(ms: seq<Message>, buddy: nat, reader: nat)
    requires buddy != reader
    ensures UnreadCount(MarkRead(ms, buddy, reader), reader, buddy) == UnreadCount(ms, reader, buddy)
  {
    if ms != [] {
      MarkReadStep(ms, buddy, reader);
      MarkReadKeepsOwnUnread(ms[1..], buddy, reader);
      var r := MarkRead(ms, buddy, reader);
      assert r[0].(read := ms[0].read) == ms[0];
    }
  }

  // --------------------------------------------------------------- pagination

  /** The page `paginate(error_out=False)` serves: requests below 1 get page 1. */
  function EffectivePage(page: int): (r: nat)
    ensures r >= 1
    ensures page >= 1 ==> r == page
  {
    if page < 1 then 1 else page
  }

  /** The page size `paginate(error_out=False)` uses: sizes below 1 fall back to 20. */
  function EffectivePerPage(perPage: int): (r: nat)
    ensures r >= 1
    ensures perPage >= 1 ==> r == perPage
    ensures perPage < 1 ==> r == FALLBACK_PER_PAGE
  {
    if perPage < 1 then FALLBACK_PER_PAGE else perPage
  }

  /** Page `page` of `s` with `perPage` items per page (`limit(perPage).offset((page - 1) * perPage)`). */
  function PageSlice<T>(s: seq<T>, page: nat, perPage: nat): (r: seq<T>)
    requires page >= 1 && perPage >= 1
    ensures |r| <= perPage
    ensures forall k :: 0 <= k < |r| ==> (page - 1) * perPage + k < |s| && r[k] == s[(page - 1) * perPage + k]
    ensures r == [] <==> |s| <= (page - 1) * perPage
  {
    var start := (page - 1) * perPage;
    if start >= |s| then [] else s[start..Min(start + perPage, |s|)]
  }

  /** Every item is on page `i / perPage + 1`, at position `i % perPage`: no page skips or repeats one. */
  lemma EveryItemOnItsPage<T>(s: seq<T>, perPage: nat, i: nat)
    requires perPage >= 1 && i < |s|
    ensures var pg := PageSlice(s, i / perPage + 1, perPage);
            i % perPage < |pg| && pg[i % perPage] == s[i]
  {
    var q := i / perPage;
    var k := i % perPage;
    assert q * perPage + k == i;
    assert (q + 1 - 1) * perPage == q * perPage;
    var pg := PageSlice(s, q + 1, perPage);
    assert q * perPage <= i < |s|;
    assert |pg| == Min(q * perPage + perPage, |s|) - q * perPage;
  }

  /** `pages`: the number of pages, `ceil(total / perPage)`. */
  function PageCount(total: nat, perPage: nat): (r: nat)
    requires perPage >= 1
    ensures total == 0 <==> r == 0
    ensures total > 0 ==> (r - 1) * perPage < total <= r * perPage
  {
    if total == 0 then 0
    else
      var q := (total + perPage - 1) / perPage;
      var rem := (total + perPage - 1) % perPage;
      assert q * perPage + rem == total + perPage - 1;
      assert (q - 1) * perPage == q * perPage - perPage;
      q
  }

  /** `has_next` holds exactly when the next page has items. */
  lemma HasNextIffMoreItems<T>(s: seq<T>, page: nat, perPage: nat)
    requires page >= 1 && perPage >= 1
    ensures page < PageCount(|s|, perPage) <==> PageSlice(s, page + 1, perPage) != []
  {
    var pages := PageCount(|s|, perPage);
    assert (page + 1 - 1) * perPage == page * perPage;
    if page < pages {
      assert page <= pages - 1;
      assert page * perPage <= (pages - 1) * perPage by {
        MultiplyMonotone(page, pages - 1, perPage);
      }
    } else {
      MultiplyMonotone(pages, page, perPage);
    }
  }

  lemma MultiplyMonotone(a: nat, b: nat, n: nat)
    requires a <= b
    ensures a * n <= b * n
  {
    assert b * n == a * n + (b - a) * n;
  }

  /** One page of a conversation as `get_messages` answers it. */
  datatype MessagePage = MessagePage(messages: seq<MessageView>, hasNext: bool, hasPrev: bool,
                                     page: nat, pages: nat, total: nat)

  datatype PageAnswer = PageOk(body: MessagePage) | PageRefused(reply: Reply)

  /** The conversation of `cur` and `buddy`, newest first. */
  function NewestFirst(ms: seq<Message>, cur: nat, buddy: nat): (r: seq<Message>)
    ensures SortedDesc(r, Timestamp)
    ensures forall m :: m in r <==> m in ms && m.InConversation(cur, buddy)
    ensures |r| == |Conversation(ms, cur, buddy)|
  {
    var conv := Conversation(ms, cur, buddy);
    var r := SortDesc(conv, Timestamp);
    MembersOfPermutation(r, conv);
    r
  }

  /** The page of the conversation `get_messages` reports, with the read flags as they were before marking. */
  function PageOf(ms: seq<Message>, cur: nat, buddy: nat, page: int, perPage: int): MessagePage
  {
    var p := EffectivePage(page);
    var n := EffectivePerPage(perPage);
    var sorted := NewestFirst(ms, cur, buddy);
    var pages := PageCount(|sorted|, n);
    MessagePage(Views(PageSlice(sorted, p, n)), p < pages, p > 1, p, pages, |sorted|)
  }

  /**
   * A page holds at most the page size of messages; `total` counts the
   * whole conversation; `has_next` holds exactly when the following page
   * has messages.
   */
  lemma PageOfNavigation(ms: seq<Message>, cur: nat, buddy: nat, page: int, perPage: int)
    ensures var r := PageOf(ms, cur, buddy, page, perPage);
            |r.messages| <= EffectivePerPage(perPage)
            && r.total == |Conversation(ms, cur, buddy)|
            && r.page == EffectivePage(page)
            && (r.hasPrev <==> page > 1)
            && (r.hasNext <==> PageSlice(NewestFirst(ms, cur, buddy), r.page + 1, EffectivePerPage(perPage)) != [])
  {
    HasNextIffMoreItems(NewestFirst(ms, cur, buddy), EffectivePage(page), EffectivePerPage(perPage));
  }

  /** A page of a sequence sorted newest first is sorted too, and holds only items of the sequence. */
  lemma PageSliceSorted<T>(s: seq<T>, page: nat, perPage: nat, key: T -> int)
    requires page >= 1 && perPage >= 1
    requires SortedDesc(s, key)
    ensures SortedDesc(PageSlice(s, page, perPage), key)
    ensures forall x :: x in PageSlice(s, page, perPage) ==> x in s
  {
    RunSorted(s, (page - 1) * perPage, PageSlice(s, page, perPage), key);
  }

  /** A page shows only messages of the pair, newest first. */
  lemma PageOfContents(ms: seq<Message>, cur: nat, buddy: nat, page: int, perPage: int)
    ensures var items := PageSlice(NewestFirst(ms, cur, buddy), EffectivePage(page), EffectivePerPage(perPage));
            PageOf(ms, cur, buddy, page, perPage).messages == Views(items)
            && (forall m :: m in items ==> m in ms && m.InConversation(cur, buddy))
            && SortedDesc(items, Timestamp)
  {
    PageSliceSorted(NewestFirst(ms, cur, buddy), EffectivePage(page), EffectivePerPage(perPage), Timestamp);
  }

  /**
   * `get_messages`: refuses a pair without an approved row (403, nothing
   * changes); otherwise answers the requested page of the conversation,
   * newest first, and then marks every unread message the buddy sent the
   * current user as read.
   */
  method GetMessages(db: Database, current: User, buddyId: nat, page: int, perPage: int) returns (r: PageAnswer)
    requires db.Valid()
    modifies db
    ensures db.Valid()
    ensures !ApprovedBetween(old(db.connections), current.id, buddyId)
            ==> r == PageRefused(Reply(403, NOT_CONNECTED_ERROR)) && unchanged(db)
    ensures ApprovedBetween(old(db.connections), current.id, buddyId)
            ==> r == PageOk(PageOf(old(db.messages), current.id, buddyId, page, perPage))
                && db.messages == MarkRead(old(db.messages), buddyId, current.id)
    ensures db.users == old(db.users) && db.profiles == old(db.profiles) && db.connections == old(db.connections)
    ensures db.notifications == old(db.notifications) && db.challenges == old(db.challenges)
    ensures db.nextUserId == old(db.nextUserId) && db.nextConnectionId == old(db.nextConnectionId)
    ensures db.nextMessageId == old(db.nextMessageId) && db.nextNotificationId == old(db.nextNotificationId)
  {
    if !ApprovedBetween(db.connections, current.id, buddyId) {
      return PageRefused(Reply(403, NOT_CONNECTED_ERROR));
    }
    var p := EffectivePage(page);
    var n := EffectivePerPage(perPage);
    var sorted := NewestFirst(db.messages, current.id, buddyId);
    var responseData := FormatAll(PageSlice(sorted, p, n));
    var pages := PageCount(|sorted|, n);
    r := PageOk(MessagePage(responseData, p < pages, p > 1, p, pages, |sorted|));
    var marked := MarkRead(db.messages, buddyId, current.id);
    MarkReadKeepsIds(db.messages, buddyId, current.id, db.nextMessageId);
    db.messages := marked;
  }

  /** Marking messages read keeps every key below a bound the keys were below. */
  lemma MarkReadKeepsIds(ms: seq<Message>, from: nat, to: nat, bound: nat)
    requires forall m :: m in ms ==> m.id < bound
    ensures forall m :: m in MarkRead(ms, from, to) ==> m.id < bound
  {
    var marked := MarkRead(ms, from, to);
    forall m | m in marked ensures m.id < bound {
      var i :| 0 <= i < |marked| && marked[i] == m;
      assert marked[i].(read := ms[i].read) == ms[i];
      assert ms[i] in ms;
    }
  }

  // ------------------------------------------------------------------ sending

  /**
   * `send_message`: refuses, in this order, missing or blank content (400),
   * a pair without an approved row (403) and content over 1000 characters
   * before stripping (400), changing nothing; otherwise stores the stripped
   * text as an unread message expiring `retentionDays` after `now`,
   * notifies the receiver and trims the conversation.
   */
  method SendMessage(db: Database, current: User, buddyId: nat, content: Option<string>,
                     messageType: Option<string>, now: nat, retentionDays: nat, maxMessages: nat)
    returns (reply: Reply, id: Option<nat>)
    requires db.Valid()
    modifies db
    ensures db.Valid()
    ensures !Truthy(content) || Strip(content.value) == []
            ==> reply == Reply(400, "Message content is required")
    ensures Truthy(content) && Strip(content.value) != [] && !ApprovedBetween(old(db.connections), current.id, buddyId)
            ==> reply == Reply(403, NOT_CONNECTED_ERROR)
    ensures Truthy(content) && Strip(content.value) != [] && ApprovedBetween(old(db.connections), current.id, buddyId)
            && |content.value| > MAX_MESSAGE_LENGTH
            ==> reply == Reply(400, "Message too long. Maximum 1000 characters allowed.")
    ensures reply.code != 200 ==> id == None && unchanged(db)
    ensures reply.code == 200 <==>
              Truthy(content) && Strip(content.value) != [] && ApprovedBetween(old(db.connections), current.id, buddyId)
              && |content.value| <= MAX_MESSAGE_LENGTH
    ensures reply.code == 200 ==>
              var stored := Message(old(db.nextMessageId), current.id, buddyId, Strip(content.value), now, false,
                                    if messageType.Some? then messageType.value else MESSAGE_TEXT,
                                    Some(ExpiryAt(now, retentionDays)));
              reply == Reply(200, "Message sent successfully")
              && id == Some(stored.id)
              && |stored.content| <= MAX_MESSAGE_LENGTH
              && db.messages == TrimConversation(old(db.messages) + [stored], current.id, buddyId, maxMessages)
              && db.notifications == old(db.notifications)
                   + [Notification(old(db.nextNotificationId), buddyId, "message", "New Message",
                                   current.username + " sent you a message", now, false)]
              && db.users == old(db.users) && db.profiles == old(db.profiles)
              && db.connections == old(db.connections) && db.challenges == old(db.challenges)
  {
    if content.None? || content.value == [] || Strip(content.value) == [] {
      return Reply(400, "Message content is required"), None;
    }
    var text := content.value;
    if !ApprovedBetween(db.connections, current.id, buddyId) {
      return Reply(403, NOT_CONNECTED_ERROR), None;
    }
    if |text| > MAX_MESSAGE_LENGTH {
      return Reply(400, "Message too long. Maximum 1000 characters allowed."), None;
    }
    var kind := if messageType.Some? then messageType.value else MESSAGE_TEXT;
    var newId := db.AddMessage(current.id, buddyId, Strip(text), kind, now, Some(ExpiryAt(now, retentionDays)));
    db.AddNotification(buddyId, "message", "New Message", current.username + " sent you a message", now);
    CheckConversationSize(db, current.id, buddyId, maxMessages);
    reply := Reply(200, "Message sent successfully");
    id := Some(newId);
  }

  /** The text `attach_note` stores: the note prefix and the stripped note. */
  function NoteContent(note: string): (r: string)
    ensures StartsWith(r, NOTE_PREFIX)
    ensures r[|NOTE_PREFIX|..] == Strip(note)
  {
    NOTE_PREFIX + Strip(note)
  }

  /**
   * The text `send_challenge` stores: the challenge prefix and the stripped
   * title, followed by " - " and the description, unstripped, only when a
   * non-empty description is given.
   */
  function ChallengeContent(title: string, description: Option<string>): (r: string)
    ensures StartsWith(r, CHALLENGE_PREFIX + Strip(title))
    ensures !Truthy(description) ==> r == CHALLENGE_PREFIX + Strip(title)
    ensures Truthy(description) ==> r[|CHALLENGE_PREFIX + Strip(title)|..] == " - " + description.value
  {
    var head := CHALLENGE_PREFIX + Strip(title);
    var tail := if Truthy(description) then " - " + description.value else "";
    assert (head + tail)[..|head|] == head;
    assert (head + tail)[|head|..] == tail;
    head + tail
  }

  /**
   * `attach_note`: refuses missing or blank content (400) and a pair
   * without an approved row (403); otherwise stores the note as a "note"
   * message. It neither checks the length, nor notifies, nor trims.
   */
  method AttachNote(db: Database, current: User, buddyId: nat, content: Option<string>, now: nat,
                    retentionDays: nat) returns (reply: Reply, id: Option<nat>)
    requires db.Valid()
    modifies db
    ensures db.Valid()
    ensures !Truthy(content) || Strip(content.value) == [] ==> reply == Reply(400, "Note content is required")
    ensures Truthy(content) && Strip(content.value) != [] && !ApprovedBetween(old(db.connections), current.id, buddyId)
            ==> reply == Reply(403, NOT_CONNECTED_ERROR)
    ensures reply.code != 200 ==> id == None && unchanged(db)
    ensures reply.code == 200 <==>
              Truthy(content) && Strip(content.value) != [] && ApprovedBetween(old(db.connections), current.id, buddyId)
    ensures reply.code == 200 ==>
              reply == Reply(200, "Note attached successfully")
              && id == Some(old(db.nextMessageId))
              && db.messages == old(db.messages)
                   + [Message(old(db.nextMessageId), current.id, buddyId, NoteContent(content.value), now, false,
                              NOTE, Some(ExpiryAt(now, retentionDays)))]
              && db.notifications == old(db.notifications)
              && db.users == old(db.users) && db.profiles == old(db.profiles)
              && db.connections == old(db.connections) && db.challenges == old(db.challenges)
  {
    if content.None? || content.value == [] || Strip(content.value) == [] {
      return Reply(400, "Note content is required"), None;
    }
    if !ApprovedBetween(db.connections, current.id, buddyId) {
      return Reply(403, NOT_CONNECTED_ERROR), None;
    }
    var newId := db.AddMessage(current.id, buddyId, NoteContent(content.value), NOTE, now,
                               Some(ExpiryAt(now, retentionDays)));
    reply := Reply(200, "Note attached successfully");
    id := Some(newId);
  }

  /**
   * `send_challenge`: refuses a missing or blank title (400) and a pair
   * without an approved row (403); otherwise stores the challenge as a
   * "challenge" message, without length check, notification or trim.
   */
  method SendChallenge(db: Database, current: User, buddyId: nat, title: Option<string>,
                       description: Option<string>, now: nat, retentionDays: nat)
    returns (reply: Reply, id: Option<nat>)
    requires db.Valid()
    modifies db
    ensures db.Valid()
    ensures !Truthy(title) || Strip(title.value) == [] ==> reply == Reply(400, "Challenge title is required")
    ensures Truthy(title) && Strip(title.value) != [] && !ApprovedBetween(old(db.connections), current.id, buddyId)
            ==> reply == Reply(403, NOT_CONNECTED_ERROR)
    ensures reply.code != 200 ==> id == None && unchanged(db)
    ensures reply.code == 200 <==>
              Truthy(title) && Strip(title.value) != [] && ApprovedBetween(old(db.connections), current.id, buddyId)
    ensures reply.code == 200 ==>
              reply == Reply(200, "Challenge sent successfully")
              && id == Some(old(db.nextMessageId))
              && db.messages == old(db.messages)
                   + [Message(old(db.nextMessageId), current.id, buddyId, ChallengeContent(title.value, description),
                              now, false, CHALLENGE, Some(ExpiryAt(now, retentionDays)))]
              && db.notifications == old(db.notifications)
              && db.users == old(db.users) && db.profiles == old(db.profiles)
              && db.connections == old(db.connections) && db.challenges == old(db.challenges)
  {
    if title.None? || title.value == [] || Strip(title.value) == [] {
      return Reply(400, "Challenge title is required"), None;
    }
    if !ApprovedBetween(db.connections, current.id, buddyId) {
      return Reply(403, NOT_CONNECTED_ERROR), None;
    }
    var newId := db.AddMessage(current.id, buddyId, ChallengeContent(title.value, description), CHALLENGE, now,
                               Some(ExpiryAt(now, retentionDays)));
    reply := Reply(200, "Challenge sent successfully");
    id := Some(newId);
  }

  // ------------------------------------------------------------ conversations

  datatype ConversationEntry = ConversationEntry(id: nat, userId: nat, username: string, avatar: Option<string>,
                                                 specialization: Option<string>, lastMessage: Option<string>,
                                                 lastMessageTime: Option<nat>, unreadCount: nat)

  /** The newest message of the conversation of `a` and `b`, if they exchanged any. */
  function LastMessage(ms: seq<Message>, a: nat, b: nat): (r: Option<Message>)
    ensures r.None? <==> forall m :: m in ms ==> !m.InConversation(a, b)
    ensures r.Some? ==> r.value in ms && r.value.InConversation(a, b)
                        && forall m :: m in ms && m.InConversation(a, b) ==> m.timestamp <= r.value.timestamp
  {
    var sorted := NewestFirst(ms, a, b);
    if sorted == [] then None
    else
      assert sorted[0] in sorted;
      HeadIsHighest(sorted, Timestamp);
      Some(sorted[0])
  }

  /** The entry `get_conversations` builds for one row, or nothing when the buddy or their profile is missing. */
  function EntryFor(c: Connection, users: seq<User>, profiles: map<nat, Profile>, ms: seq<Message>, cur: nat)
    : (r: Option<ConversationEntry>)
    ensures r.Some? <==> FindUser(users, Partner(c, cur)).Some? && Partner(c, cur) in profiles
    ensures r.Some? ==>
              var buddyId := Partner(c, cur);
              var last := LastMessage(ms, cur, buddyId);
              r.value.id == buddyId && r.value.userId == buddyId
              && r.value.username == FindUser(users, buddyId).value.username
              && r.value.specialization == profiles[buddyId].specialization
              && r.value.unreadCount == UnreadCount(ms, buddyId, cur)
              && (r.value.lastMessageTime.None? <==> last.None?)
              && (last.Some? ==> r.value.lastMessageTime == Some(last.value.timestamp)
                                 && r.value.lastMessage == Some(last.value.content))
  {
    var buddyId := Partner(c, cur);
    match FindUser(users, buddyId)
    case None => None
    case Some(buddy) =>
      if buddy.id !in profiles then None
      else
        var last := LastMessage(ms, cur, buddyId);
        Some(ConversationEntry(buddy.id, buddy.id, buddy.username, buddy.avatar, profiles[buddy.id].specialization,
                               if last.Some? then Some(last.value.content) else None,
                               if last.Some? then Some(last.value.timestamp) else None,
                               UnreadCount(ms, buddyId, cur)))
  }

  /** The entries of `conns`, in their order. */
  function ConversationEntries(conns: seq<Connection>, users: seq<User>, profiles: map<nat, Profile>,
                               ms: seq<Message>, cur: nat): (r: seq<ConversationEntry>)
    ensures |r| <= |conns|
    ensures forall e :: e in r ==> exists c :: c in conns && EntryFor(c, users, profiles, ms, cur) == Some(e)
  {
    if conns == [] then []
    else
      var init := conns[..|conns| - 1];
      var last := conns[|conns| - 1];
      assert forall c :: c in init ==> c in conns;
      var e := EntryFor(last, users, profiles, ms, cur);
      ConversationEntries(init, users, profiles, ms, cur) + (if e.Some? then [e.value] else [])
  }

  /** Every row whose buddy exists and has a profile has its entry. */
  lemma {:induction false} ConversationEntriesComplete(conns: seq<Connection>, users: seq<User>,
                                                       profiles: map<nat, Profile>, ms: seq<Message>, cur: nat,
                                                       c: Connection)
    requires c in conns
    requires FindUser(users, Partner(c, cur)).Some? && Partner(c, cur) in profiles
    ensures EntryFor(c, users, profiles, ms, cur).value in ConversationEntries(conns, users, profiles, ms, cur)
  {
    var init := conns[..|conns| - 1];
    if c != conns[|conns| - 1] {
      assert c in init by {
        var k :| 0 <= k < |conns| && conns[k] == c;
        assert init[k] == c;
      }
      ConversationEntriesComplete(init, users, profiles, ms, cur, c);
    }
  }

  /** Sort key of `last_message_time or ""`, newest first: a conversation without messages sorts last. */
  function LastTimeKey(e: ConversationEntry): int
  {
    if e.lastMessageTime.Some? then e.lastMessageTime.value else -1
  }

  function Conversations(rows: seq<Connection>, users: seq<User>, profiles: map<nat, Profile>,
                         ms: seq<Message>, cur: nat): seq<ConversationEntry>
  {
    SortDesc(ConversationEntries(ApprovedConnectionsOf(rows, cur), users, profiles, ms, cur), LastTimeKey)
  }

  /** The entry of one approved row: the buddy, their specialization, the last message and the unread count. */
  method ConversationOf(db: Database, current: User, conn: Connection) returns (entry: Option<ConversationEntry>)
    ensures entry == EntryFor(conn, db.users, db.profiles, db.messages, current.id)
  {
    var buddyId := if conn.userId == current.id then conn.buddyId else conn.userId;
    var buddy := FindUser(db.users, buddyId);
    if buddy.Some? && buddy.value.id in db.profiles {
      var lastMessage := LastMessage(db.messages, current.id, buddyId);
      var unreadCount := UnreadCount(db.messages, buddyId, current.id);
      entry := Some(ConversationEntry(
        buddy.value.id, buddy.value.id, buddy.value.username, buddy.value.avatar,
        db.profiles[buddy.value.id].specialization,
        if lastMessage.Some? then Some(lastMessage.value.content) else None,
        if lastMessage.Some? then Some(lastMessage.value.timestamp) else None,
        unreadCount));
    } else {
      entry := None;
    }
  }

  /** `get_conversations`: one entry per approved row of the current user, newest conversation first. */
  method GetConversations(db: Database, current: User) returns (r: seq<ConversationEntry>)
    ensures r == Conversations(db.connections, db.users, db.profiles, db.messages, current.id)
  {
    var connections := ApprovedConnectionsOf(db.connections, current.id);
    var conversations := EntriesOf(db, current, connections);
    r := SortDesc(conversations, LastTimeKey);
  }

  /** The entries of `connections`, built one row at a time. */
  method EntriesOf(db: Database, current: User, connections: seq<Connection>) returns (r: seq<ConversationEntry>)
    ensures r == ConversationEntries(connections, db.users, db.profiles, db.messages, current.id)
  {
    r := [];
    var i := 0;
    while i < |connections|
      invariant 0 <= i <= |connections|
      invariant r == ConversationEntries(connections[..i], db.users, db.profiles, db.messages, current.id)
    {
      var entry := ConversationOf(db, current, connections[i]);
      assert connections[..i + 1][..i] == connections[..i];
      if entry.Some? {
        r := r + [entry.value];
      }
      i := i + 1;
    }
    assert connections[..i] == connections;
  }

  /**
   * The conversation list: every entry is an approved buddy with a profile,
   * its unread count counts the unread messages that buddy sent, entries
   * are newest first and those without messages come last; every approved
   * buddy with a profile is listed.
   */
  lemma ConversationsProperties(rows: seq<Connection>, users: seq<User>, profiles: map<nat, Profile>,
                                ms: seq<Message>, cur: nat)
    ensures var r := Conversations(rows, users, profiles, ms, cur);
            (forall e :: e in r ==> ApprovedBetween(rows, cur, e.id) && FindUser(users, e.id).Some?
                                    && e.id in profiles && e.unreadCount == UnreadCount(ms, e.id, cur))
            && (forall i, j :: 0 <= i < j < |r| && r[j].lastMessageTime.Some? ==>
                  r[i].lastMessageTime.Some? && r[i].lastMessageTime.value >= r[j].lastMessageTime.value)
            && (forall c :: c in rows && c.status == APPROVED && c.Involves(cur)
                            && FindUser(users, Partner(c, cur)).Some? && Partner(c, cur) in profiles
                  ==> exists e :: e in r && e.id == Partner(c, cur))
  {
    var approved := ApprovedConnectionsOf(rows, cur);
    var entries := ConversationEntries(approved, users, profiles, ms, cur);
    var r := Conversations(rows, users, profiles, ms, cur);
    MembersOfPermutation(r, entries);
    forall e | e in r
      ensures ApprovedBetween(rows, cur, e.id) && FindUser(users, e.id).Some?
              && e.id in profiles && e.unreadCount == UnreadCount(ms, e.id, cur)
    {
      var c :| c in approved && EntryFor(c, users, profiles, ms, cur) == Some(e);
      assert c.Between(cur, e.id);
    }
    forall i, j | 0 <= i < j < |r| && r[j].lastMessageTime.Some?
      ensures r[i].lastMessageTime.Some? && r[i].lastMessageTime.value >= r[j].lastMessageTime.value
    {
      assert LastTimeKey(r[i]) >= LastTimeKey(r[j]);
    }
    forall c | c in rows && c.status == APPROVED && c.Involves(cur)
                 && FindUser(users, Partner(c, cur)).Some? && Partner(c, cur) in profiles
      ensures exists e :: e in r && e.id == Partner(c, cur)
    {
      ConversationEntriesComplete(approved, users, profiles, ms, cur, c);
      assert EntryFor(c, users, profiles, ms, cur).value in r;
    }
  }

  /** Once a buddy's conversation has been read, the list shows no unread messages from that buddy. */
  lemma ReadingClearsConversationUnread(rows: seq<Connection>, users: seq<User>, profiles: map<nat, Profile>,
                                        ms: seq<Message>, cur: nat, buddy: nat)
    ensures forall e :: e in Conversations(rows, users, profiles, MarkRead(ms, buddy, cur), cur) && e.id == buddy
                        ==> e.unreadCount == 0
  {
    ConversationsProperties(rows, users, profiles, MarkRead(ms, buddy, cur), cur);
    MarkReadClearsUnread(ms, buddy, cur);
  }
}
