/**
 * The retention service: a periodic clean-up deletes every message whose
 * send time lies before the retention cut-off, and a single message can be
 * given a new expiry date. The clean-up compares send times only; the
 * expiry date a message carries plays no part in it.
 */
module MessageRetention {
  import opened Common
  import opened Models
  import opened MessageStorage

  /** The retention cut-off: `days` days before `now` (it may lie before time 0). */
  function Cutoff(now: nat, days: nat): (r: int)
    ensures r <= now
    ensures now - r == days * DAY
  {
    now - days * DAY
  }

  /** The rows a clean-up with cut-off `cutoff` keeps, in table order. */
  function KeepRecent(ms: seq<Message>, cutoff: int): (r: seq<Message>)
    ensures |r| <= |ms|
    ensures forall m :: m in r <==> m in ms && m.timestamp >= cutoff
  {
    if ms == [] then []
    else
      assert forall m :: m in ms <==> m == ms[0] || m in ms[1..];
      (if ms[0].timestamp >= cutoff then [ms[0]] else []) + KeepRecent(ms[1..], cutoff)
  }

  /**
   * `cleanup_old_messages`: deletes, in one bulk statement, every message
   * sent strictly before the cut-off and answers how many went; a failed
   * commit is rolled back and deletes nothing.
   */
  method CleanupOldMessages(db: Database, now: nat, retentionDays: nat, commitFails: bool)
    returns (deleted: nat)
    requires db.Valid()
    modifies db
    ensures db.Valid()
    ensures commitFails ==> deleted == 0 && db.messages == old(db.messages)
    ensures !commitFails ==> db.messages == KeepRecent(old(db.messages), Cutoff(now, retentionDays))
    ensures deleted == |old(db.messages)| - |db.messages|
    ensures db.users == old(db.users) && db.profiles == old(db.profiles) && db.connections == old(db.connections)
    ensures db.notifications == old(db.notifications) && db.challenges == old(db.challenges)
    ensures db.nextUserId == old(db.nextUserId) && db.nextConnectionId == old(db.nextConnectionId)
    ensures db.nextMessageId == old(db.nextMessageId) && db.nextNotificationId == old(db.nextNotificationId)
  {
    if commitFails {
      return 0;
    }
    var retentionPeriod := Cutoff(now, retentionDays);
    var kept := KeepRecent(db.messages, retentionPeriod);
    deleted := |db.messages| - |kept|;
    db.messages := kept;
  }

  /** A clean-up keeps the rows it keeps in their order: running it again deletes nothing more. */
  lemma {:induction false} CleanupIdempotent(ms: seq<Message>, cutoff: int)
    ensures KeepRecent(KeepRecent(ms, cutoff), cutoff) == KeepRecent(ms, cutoff)
  {
    if ms != [] {
      var t := KeepRecent(ms[1..], cutoff);
      CleanupIdempotent(ms[1..], cutoff);
      if ms[0].timestamp >= cutoff {
        var r := [ms[0]] + t;
        assert KeepRecent(ms, cutoff) == r;
        assert r[1..] == t;
        assert KeepRecent(r, cutoff) == [ms[0]] + KeepRecent(t, cutoff);
        assert KeepRecent(KeepRecent(ms, cutoff), cutoff) == KeepRecent(ms, cutoff);
      } else {
        assert KeepRecent(ms, cutoff) == [] + t;
        assert [] + t == t;
        assert KeepRecent(KeepRecent(ms, cutoff), cutoff) == KeepRecent(ms, cutoff);
      }
    }
  }

  /** A later clean-up (a later cut-off) deletes everything an earlier one deletes. */
  lemma LaterCutoffDeletesMore(ms: seq<Message>, c1: int, c2: int)
    requires c1 <= c2
    ensures forall m :: m in KeepRecent(ms, c2) ==> m in KeepRecent(ms, c1)
    ensures |KeepRecent(ms, c2)| <= |KeepRecent(ms, c1)|
  {
    if ms != [] {
      LaterCutoffDeletesMore(ms[1..], c1, c2);
    }
  }

  /** The keys of the rows, in table order. */
  function IdsOf(ms: seq<Message>): (r: seq<nat>)
    ensures |r| == |ms|
    ensures forall i :: 0 <= i < |ms| ==> r[i] == ms[i].id
  {
    seq(|ms|, i requires 0 <= i < |ms| => ms[i].id)
  }

  lemma KeepRecentStep(ms: seq<Message>, cutoff: int)
    requires ms != []
    ensures KeepRecent(ms, cutoff)
            == (if ms[0].timestamp >= cutoff then [ms[0]] else []) + KeepRecent(ms[1..], cutoff)
  {
  }

  lemma IdsOfCons(x: Message, s: seq<Message>)
    ensures IdsOf([x] + s) == [x.id] + IdsOf(s)
  {
    var a := IdsOf([x] + s);
    var b := [x.id] + IdsOf(s);
    forall i | 0 <= i < |a| ensures a[i] == b[i] {
      if i > 0 {
        assert ([x] + s)[i] == s[i - 1];
      }
    }
  }

  /**
   * The clean-up reads only send times: changing the expiry date of one
   * row changes nothing about which rows it keeps.
   */
  lemma {:induction false} CleanupIgnoresExpiry(ms: seq<Message>, i: nat, e: Option<nat>, cutoff: int)
    requires i < |ms|
    ensures IdsOf(KeepRecent(ms[i := ms[i].(expiresAt := e)], cutoff)) == IdsOf(KeepRecent(ms, cutoff))
  {
    var ms' := ms[i := ms[i].(expiresAt := e)];
    var t := KeepRecent(ms[1..], cutoff);
    var t' := KeepRecent(ms'[1..], cutoff);
    if i == 0 {
      assert ms'[1..] == ms[1..];
    } else {
      assert ms'[1..] == ms[1..][i - 1 := ms[i].(expiresAt := e)];
      CleanupIgnoresExpiry(ms[1..], i - 1, e, cutoff);
    }
    assert IdsOf(t') == IdsOf(t);
    KeepRecentStep(ms, cutoff);
    KeepRecentStep(ms', cutoff);
    assert ms'[0].timestamp == ms[0].timestamp && ms'[0].id == ms[0].id;
    if ms[0].timestamp >= cutoff {
      IdsOfCons(ms[0], t);
      IdsOfCons(ms'[0], t');
    } else {
      assert [] + t == t && [] + t' == t';
    }
  }

  /** `Message.query.get(id)`: the position of the row with that key, if any. */
  function FindMessage(ms: seq<Message>, id: nat): (r: Option<nat>)
    ensures r.Some? ==> r.value < |ms| && ms[r.value].id == id
                        && forall j :: 0 <= j < r.value ==> ms[j].id != id
    ensures r.None? <==> forall m :: m in ms ==> m.id != id
  {
    if ms == [] then None
    else if ms[0].id == id then Some(0)
    else
      match FindMessage(ms[1..], id)
      case None => None
      case Some(k) => Some(k + 1)
  }

  /**
   * `set_message_expiry`: with no `days` the configured retention applies;
   * an existing message expires `days` days after `now` and the answer is
   * true; an unknown key, or a failed commit, changes nothing and answers
   * false.
   */
  method SetMessageExpiry(db: Database, messageId: nat, days: Option<nat>, now: nat, retentionDays: nat,
                          commitFails: bool) returns (ok: bool)
    requires db.Valid()
    modifies db
    ensures db.Valid()
    ensures ok <==> !commitFails && FindMessage(old(db.messages), messageId).Some?
    ensures !ok ==> db.messages == old(db.messages)
    ensures ok ==>
              var i := FindMessage(old(db.messages), messageId).value;
              var d := if days.None? then retentionDays else days.value;
              db.messages == old(db.messages)[i := old(db.messages)[i].(expiresAt := Some(ExpiryAt(now, d)))]
    ensures db.users == old(db.users) && db.profiles == old(db.profiles) && db.connections == old(db.connections)
    ensures db.notifications == old(db.notifications) && db.challenges == old(db.challenges)
    ensures db.nextUserId == old(db.nextUserId) && db.nextConnectionId == old(db.nextConnectionId)
    ensures db.nextMessageId == old(db.nextMessageId) && db.nextNotificationId == old(db.nextNotificationId)
  {
    var d := if days.None? then retentionDays else days.value;
    var found := FindMessage(db.messages, messageId);
    if found.None? || commitFails {
      return false;
    }
    var i := found.value;
    var message := db.messages[i];
    assert message in db.messages;
    db.messages := db.messages[i := message.(expiresAt := Some(ExpiryAt(now, d)))];
    assert forall m :: m in db.messages ==> m in old(db.messages) || m.id == messageId;
    ok := true;
  }

  /** Giving a message a new expiry date changes nothing about what the next clean-up keeps. */
  lemma ExpiryDoesNotAffectCleanup(ms: seq<Message>, messageId: nat, d: nat, now: nat, cutoff: int)
    requires FindMessage(ms, messageId).Some?
    ensures var i := FindMessage(ms, messageId).value;
            IdsOf(KeepRecent(ms[i := ms[i].(expiresAt := Some(ExpiryAt(now, d)))], cutoff))
              == IdsOf(KeepRecent(ms, cutoff))
  {
    CleanupIgnoresExpiry(ms, FindMessage(ms, messageId).value, Some(ExpiryAt(now, d)), cutoff);
  }
}
