/**
 * The message store: a conversation is the set of messages two users
 * exchanged in either direction. Storing a message stamps its expiry
 * date; a conversation grown beyond the configured maximum loses its 100
 * oldest messages; recent messages are read newest first.
 */
module MessageStorage {
  import opened Common
  import opened Sorting
  import opened Models

  /** Times are whole seconds. */
  const DAY: nat := 86400
  const DEFAULT_RETENTION_DAYS: nat := 30
  const DEFAULT_MAX_MESSAGES: nat := 1000
  /** How many of the oldest messages one trim deletes. */
  const TRIM_BATCH: nat := 100
  const DEFAULT_RECENT_LIMIT: nat := 50

  function Timestamp(m: Message): int { m.timestamp }

  /** The expiry instant of a message stored at `now`. */
  function ExpiryAt(now: nat, days: nat): (r: nat)
    ensures r >= now
  {
    now + days * DAY
  }

  /** The messages `a` and `b` exchanged, in either direction, in table order. */
  function Conversation(ms: seq<Message>, a: nat, b: nat): (r: seq<Message>)
    ensures |r| <= |ms|
    ensures forall m :: m in r <==> m in ms && m.InConversation(a, b)
  {
    if ms == [] then []
    else
      assert forall m :: m in ms <==> m == ms[0] || m in ms[1..];
      (if ms[0].InConversation(a, b) then [ms[0]] else []) + Conversation(ms[1..], a, b)
  }

  /** A conversation is the same whichever of the two users asks. */
  lemma {:induction false} ConversationSymmetric(ms: seq<Message>, a: nat, b: nat)
    ensures Conversation(ms, a, b) == Conversation(ms, b, a)
  {
    if ms != [] {
      ConversationSymmetric(ms[1..], a, b);
    }
  }

  /** The rows of `ms` not in `gone`, in order. */
  function Without(ms: seq<Message>, gone: set<Message>): (r: seq<Message>)
    ensures |r| <= |ms|
    ensures forall m :: m in r <==> m in ms && m !in gone
  {
    if ms == [] then []
    else
      assert forall m :: m in ms <==> m == ms[0] || m in ms[1..];
      (if ms[0] in gone then [] else [ms[0]]) + Without(ms[1..], gone)
  }

  /** Deleting nothing keeps every row. */
  lemma {:induction false} WithoutNothing(ms: seq<Message>)
    ensures Without(ms, {}) == ms
  {
    if ms != [] {
      WithoutNothing(ms[1..]);
      assert ms == [ms[0]] + ms[1..];
    }
  }

  /** Deleting one batch of rows after another is deleting both batches. */
  lemma {:induction false} WithoutUnion(ms: seq<Message>, a: set<Message>, b: set<Message>)
    ensures Without(Without(ms, a), b) == Without(ms, a + b)
  {
    if ms != [] {
      var x := ms[0];
      var rest := Without(ms[1..], a);
      WithoutUnion(ms[1..], a, b);
      if x in a {
        assert Without(ms, a) == rest;
        calc {
          Without(Without(ms, a), b);
          Without(rest, b);
          Without(ms[1..], a + b);
          Without(ms, a + b);
        }
      } else {
        var w := [x] + rest;
        assert Without(ms, a) == w;
        assert w[0] == x && w[1..] == rest;
        calc {
          Without(w, b);
          (if x in b then [] else [x]) + Without(rest, b);
          (if x in a + b then [] else [x]) + Without(ms[1..], a + b);
          Without(ms, a + b);
        }
      }
    }
  }

  function SetOf(s: seq<Message>): (r: set<Message>)
    ensures forall m :: m in r <==> m in s
  {
    set m | m in s
  }

  /** The (at most) 100 oldest messages of the conversation, oldest first. */
  function Oldest(ms: seq<Message>, a: nat, b: nat): (r: seq<Message>)
  {
    Take(SortAsc(Conversation(ms, a, b), Timestamp), TRIM_BATCH)
  }

  /**
   * `_check_conversation_size`: a conversation of more than `maxMessages`
   * messages loses its oldest batch; otherwise nothing changes.
   */
  function TrimConversation(ms: seq<Message>, a: nat, b: nat, maxMessages: nat): seq<Message>
  {
    if |Conversation(ms, a, b)| > maxMessages then Without(ms, SetOf(Oldest(ms, a, b))) else ms
  }

  /**
   * Trimming deletes exactly the oldest batch of the conversation: at most
   * 100 messages, none newer than a message of the conversation it keeps,
   * and nothing outside the conversation; within the maximum it deletes
   * nothing.
   */
  lemma TrimDeletesOldestBatch(ms: seq<Message>, a: nat, b: nat, maxMessages: nat)
    ensures var conv := Conversation(ms, a, b);
            var oldest := Oldest(ms, a, b);
            var r := TrimConversation(ms, a, b, maxMessages);
            |oldest| == Min(TRIM_BATCH, |conv|)
            && (|conv| <= maxMessages ==> r == ms)
            && (|conv| > maxMessages ==> forall m :: m in r <==> m in ms && m !in oldest)
            && (forall m :: m in ms && !m.InConversation(a, b) ==> m in r)
            && (forall d, k :: d in oldest && k in conv && k !in oldest ==> d.timestamp <= k.timestamp)
  {
    var conv := Conversation(ms, a, b);
    var sorted := SortAsc(conv, Timestamp);
    var oldest := Oldest(ms, a, b);
    MembersOfPermutation(sorted, conv);
    TakeMembers(sorted, TRIM_BATCH);
    forall d, k | d in oldest && k in conv && k !in oldest ensures d.timestamp <= k.timestamp {
      TakeAscBound(sorted, TRIM_BATCH, Timestamp, d, k);
    }
  }

  /** Deletes the rows of `batch` one at a time (`for msg in batch: db.session.delete(msg)`). */
  method DeleteMessages(db: Database, batch: seq<Message>)
    requires db.Valid()
    modifies db
    ensures db.Valid()
    ensures db.messages == Without(old(db.messages), SetOf(batch))
    ensures db.users == old(db.users) && db.profiles == old(db.profiles) && db.connections == old(db.connections)
    ensures db.notifications == old(db.notifications) && db.challenges == old(db.challenges)
    ensures db.nextUserId == old(db.nextUserId) && db.nextConnectionId == old(db.nextConnectionId)
    ensures db.nextMessageId == old(db.nextMessageId) && db.nextNotificationId == old(db.nextNotificationId)
  {
    ghost var original := db.messages;
    WithoutNothing(original);
    assert SetOf(batch[..0]) == {};
    var i := 0;
    while i < |batch|
      invariant 0 <= i <= |batch|
      invariant db.messages == Without(original, SetOf(batch[..i]))
      invariant db.Valid()
      invariant db.users == old(db.users) && db.profiles == old(db.profiles) && db.connections == old(db.connections)
      invariant db.notifications == old(db.notifications) && db.challenges == old(db.challenges)
      invariant db.nextUserId == old(db.nextUserId) && db.nextConnectionId == old(db.nextConnectionId)
      invariant db.nextMessageId == old(db.nextMessageId) && db.nextNotificationId == old(db.nextNotificationId)
    {
      var msg := batch[i];
      WithoutUnion(original, SetOf(batch[..i]), {msg});
      assert SetOf(batch[..i + 1]) == SetOf(batch[..i]) + {msg} by {
        assert batch[..i + 1] == batch[..i] + [msg];
      }
      db.messages := Without(db.messages, {msg});
      i := i + 1;
    }
    assert batch[..i] == batch;
  }

  /** `_check_conversation_size` */
  method CheckConversationSize(db: Database, a: nat, b: nat, maxMessages: nat)
    requires db.Valid()
    modifies db
    ensures db.Valid()
    ensures db.messages == TrimConversation(old(db.messages), a, b, maxMessages)
    ensures db.users == old(db.users) && db.profiles == old(db.profiles) && db.connections == old(db.connections)
    ensures db.notifications == old(db.notifications) && db.challenges == old(db.challenges)
    ensures db.nextUserId == old(db.nextUserId) && db.nextConnectionId == old(db.nextConnectionId)
    ensures db.nextMessageId == old(db.nextMessageId) && db.nextNotificationId == old(db.nextNotificationId)
  {
    var messageCount := |Conversation(db.messages, a, b)|;
    if messageCount > maxMessages {
      var oldestMessages := Take(SortAsc(Conversation(db.messages, a, b), Timestamp), TRIM_BATCH);
      DeleteMessages(db, oldestMessages);
    }
  }

  /**
   * `store_message`: appends an unread message expiring `retentionDays`
   * after `now`, then trims the conversation, and returns the new key; a
   * failed commit is rolled back and answers no key.
   */
  method StoreMessage(db: Database, senderId: nat, receiverId: nat, content: string, messageType: string,
                      now: nat, retentionDays: nat, maxMessages: nat, commitFails: bool)
    returns (id: Option<nat>)
    requires db.Valid()
    modifies db
    ensures db.Valid()
    ensures commitFails ==> id == None && unchanged(db)
    ensures !commitFails ==>
              id == Some(old(db.nextMessageId))
              && db.messages == TrimConversation(
                   old(db.messages) + [Message(old(db.nextMessageId), senderId, receiverId, content, now, false,
                                               messageType, Some(ExpiryAt(now, retentionDays)))],
                   senderId, receiverId, maxMessages)
              && db.nextMessageId == old(db.nextMessageId) + 1
              && db.users == old(db.users) && db.profiles == old(db.profiles)
              && db.connections == old(db.connections) && db.notifications == old(db.notifications)
              && db.challenges == old(db.challenges)
  {
    if commitFails {
      return None;
    }
    var newId := db.AddMessage(senderId, receiverId, content, messageType, now, Some(ExpiryAt(now, retentionDays)));
    CheckConversationSize(db, senderId, receiverId, maxMessages);
    id := Some(newId);
  }

  /** A message as the read routes report it. */
  datatype MessageView = MessageView(id: nat, senderId: nat, receiverId: nat, content: string,
                                     timestamp: nat, messageType: string, read: bool)

  function ViewOf(m: Message): (v: MessageView)
    ensures v.id == m.id && v.senderId == m.senderId && v.receiverId == m.receiverId
    ensures v.content == m.content && v.timestamp == m.timestamp && v.read == m.read
  {
    MessageView(m.id, m.senderId, m.receiverId, m.content, m.timestamp, m.messageType, m.read)
  }

  function Views(ms: seq<Message>): (r: seq<MessageView>)
    ensures |r| == |ms|
    ensures forall i :: 0 <= i < |ms| ==> r[i] == ViewOf(ms[i])
  {
    seq(|ms|, i requires 0 <= i < |ms| => ViewOf(ms[i]))
  }

  lemma ViewsSnoc(ms: seq<Message>, k: nat)
    requires k < |ms|
    ensures Views(ms[..k + 1]) == Views(ms[..k]) + [ViewOf(ms[k])]
  {
    var a := Views(ms[..k + 1]);
    var b := Views(ms[..k]) + [ViewOf(ms[k])];
    forall i | 0 <= i < |a| ensures a[i] == b[i] {
      if i < k {
        assert ms[..k + 1][i] == ms[..k][i];
      }
    }
  }

  /** The newest `limit` messages of the conversation, newest first. */
  function RecentMessages(ms: seq<Message>, u1: nat, u2: nat, limit: nat): seq<Message>
  {
    Take(SortDesc(Conversation(ms, u1, u2), Timestamp), limit)
  }

  /** `get_recent_messages`; a failing query answers an empty list. */
  method GetRecentMessages(db: Database, u1: nat, u2: nat, limit: nat, queryFails: bool) returns (r: seq<MessageView>)
    ensures queryFails ==> r == []
    ensures !queryFails ==> r == Views(RecentMessages(db.messages, u1, u2, limit))
  {
    if queryFails {
      return [];
    }
    var messages := Take(SortDesc(Conversation(db.messages, u1, u2), Timestamp), limit);
    r := FormatAll(messages);
  }

  /** The formatted entries of `ms`, built one message at a time. */
  method FormatAll(ms: seq<Message>) returns (r: seq<MessageView>)
    ensures r == Views(ms)
  {
    r := [];
    var k := 0;
    while k < |ms|
      invariant 0 <= k <= |ms|
      invariant r == Views(ms[..k])
    {
      ViewsSnoc(ms, k);
      r := r + [ViewOf(ms[k])];
      k := k + 1;
    }
    assert ms[..k] == ms;
  }

  /** The recent messages do not depend on the order of the two users. */
  lemma RecentMessagesSymmetric(ms: seq<Message>, u1: nat, u2: nat, limit: nat)
    ensures RecentMessages(ms, u1, u2, limit) == RecentMessages(ms, u2, u1, limit)
  {
    ConversationSymmetric(ms, u1, u2);
  }

  /**
   * At most `limit` messages, all of the conversation, newest first, and
   * none older than a message of the conversation left out.
   */
  lemma RecentMessagesNewest(ms: seq<Message>, u1: nat, u2: nat, limit: nat)
    ensures var r := RecentMessages(ms, u1, u2, limit);
            |r| <= limit
            && SortedDesc(r, Timestamp)
            && (forall m :: m in r ==> m in ms && m.InConversation(u1, u2))
            && (forall m, n :: m in r && n in ms && n.InConversation(u1, u2) && n !in r ==> m.timestamp >= n.timestamp)
  {
    var conv := Conversation(ms, u1, u2);
    var sorted := SortDesc(conv, Timestamp);
    MembersOfPermutation(sorted, conv);
    TakeMembers(sorted, limit);
    TakeSortedDesc(sorted, limit, Timestamp);
    var r := Take(sorted, limit);
    forall m, n | m in r && n in ms && n.InConversation(u1, u2) && n !in r ensures m.timestamp >= n.timestamp {
      TakeDescBound(sorted, limit, Timestamp, m, n);
    }
  }
}
