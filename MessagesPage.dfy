/**
 * The messages page of the web front end: the fetched messages of a chat
 * in time order with their sender's name, the temporary message shown
 * while one is being sent, the order of the conversation list and the
 * Enter key.
 */
module MessagesPage {
  import opened Common
  import opened Sorting
  import Chat

  /** A message as the chat window holds it; the times are milliseconds since the epoch. */
  datatype ChatMessage = ChatMessage(id: int, senderId: int, content: string, timestamp: int,
                                     isTemp: bool, senderUsername: Option<string>)

  /** The chat a window is open on: the partner's user id (0 or missing when unset), the entry id and name. */
  datatype ChatRef = ChatRef(userId: Option<int>, id: int, username: string)

  /** The signed-in user as the window knows them. */
  datatype Me = Me(id: int, username: string)

  /** `chat.userId || chat.id`: the user id when it is set and not 0, else the entry id. */
  function ChatId(chat: ChatRef): (r: int)
    ensures chat.userId.Some? && chat.userId.value != 0 ==> r == chat.userId.value
    ensures chat.userId.None? || chat.userId.value == 0 ==> r == chat.id
  {
    if chat.userId.Some? && chat.userId.value != 0 then chat.userId.value else chat.id
  }

  /** A conversation entry of the chat routes is opened on its partner's id whenever that id is not 0. */
  lemma ConversationOpensOnPartner(e: Chat.ConversationEntry)
    requires e.userId != 0
    ensures ChatId(ChatRef(Some(e.userId), e.id, e.username)) == e.userId
  {
  }

  function TimestampOf(m: ChatMessage): int { m.timestamp }

  /** The sender's name a fetched message is shown with: the own name for own messages, else the partner's. */
  function Labelled(m: ChatMessage, me: Me, chat: ChatRef): ChatMessage
  {
    m.(senderUsername := Some(if m.senderId == me.id then me.username else chat.username))
  }

  /**
   * `fetchMessages`' formatting: every message labelled with its sender's
   * name, in ascending time order; the same messages, no more and no fewer.
   */
  function Formatted(ms: seq<ChatMessage>, me: Me, chat: ChatRef): (r: seq<ChatMessage>)
    ensures |r| == |ms|
    ensures SortedAsc(r, TimestampOf)
    ensures multiset(r) == multiset(seq(|ms|, i requires 0 <= i < |ms| => Labelled(ms[i], me, chat)))
  {
    SortAsc(seq(|ms|, i requires 0 <= i < |ms| => Labelled(ms[i], me, chat)), TimestampOf)
  }

  /** Every formatted message is a fetched one with its sender's name, own messages carrying the own name. */
  lemma FormattedMessagesNamed(ms: seq<ChatMessage>, me: Me, chat: ChatRef)
    ensures forall x :: x in Formatted(ms, me, chat) ==>
              exists m :: m in ms && x == Labelled(m, me, chat)
    ensures forall x :: x in Formatted(ms, me, chat) && x.senderId == me.id ==> x.senderUsername == Some(me.username)
  {
    var labelled := seq(|ms|, i requires 0 <= i < |ms| => Labelled(ms[i], me, chat));
    MembersOfPermutation(Formatted(ms, me, chat), labelled);
    forall x | x in Formatted(ms, me, chat) ensures exists m :: m in ms && x == Labelled(m, me, chat) {
      var i :| 0 <= i < |labelled| && labelled[i] == x;
      assert ms[i] in ms;
    }
  }

  /** `prev.map(m => m.id === tempId ? reply : m)`: every entry with that id, and only those, become the reply. */
  function ReplaceId<T>(ms: seq<ChatMessage>, tempId: int, reply: T, keep: ChatMessage -> T): (r: seq<T>)
    ensures |r| == |ms|
    ensures forall i :: 0 <= i < |r| ==> r[i] == (if ms[i].id == tempId then reply else keep(ms[i]))
  {
    seq(|ms|, i requires 0 <= i < |ms| => if ms[i].id == tempId then reply else keep(ms[i]))
  }

  /** The body `send_message` answers with: `{success, message, message_id}`, not the message itself. */
  datatype SendReceipt = SendReceipt(success: bool, message: string, messageId: int)

  /** What the window holds once the reply body itself has been put in a message's place. */
  datatype Shown = Message(msg: ChatMessage) | Receipt(receipt: SendReceipt)

  function AsShown(m: ChatMessage): Shown { Message(m) }

  /**
   * The end of `handleSendMessage` as written: the temporary message is
   * replaced by the reply body, which has no content, sender or time.
   */
  function FinishAsWritten(ms: seq<ChatMessage>, tempId: int, receipt: SendReceipt): (r: seq<Shown>)
    ensures |r| == |ms|
  {
    ReplaceId(ms, tempId, Receipt(receipt), AsShown)
  }

  /** As written, the text just sent is no longer shown: its place holds the reply body. */
  lemma SentTextLostAsWritten(earlier: seq<ChatMessage>, temp: ChatMessage, receipt: SendReceipt)
    requires forall m :: m in earlier ==> m.id != temp.id
    ensures FinishAsWritten(earlier + [temp], temp.id, receipt)[|earlier|] == Receipt(receipt)
    ensures forall x :: x in FinishAsWritten(earlier + [temp], temp.id, receipt) ==> !(x.Message? && x.msg.id == temp.id)
  {
    var r := FinishAsWritten(earlier + [temp], temp.id, receipt);
    forall x | x in r ensures !(x.Message? && x.msg.id == temp.id) {
      var i :| 0 <= i < |r| && r[i] == x;
      if i < |earlier| {
        assert (earlier + [temp])[i] == earlier[i];
        assert earlier[i] in earlier;
      }
    }
  }

  /** A first message "hi" in an empty chat is shown as a bubble without text once the route has answered. */
  lemma FirstMessageShownEmpty()
    ensures var temp := ChatMessage(1, 7, "hi", 1, true, None);
            var receipt := SendReceipt(true, "Message sent successfully", 42);
            FinishAsWritten([temp], temp.id, receipt) == [Receipt(receipt)]
  {
    var temp := ChatMessage(1, 7, "hi", 1, true, None);
    var receipt := SendReceipt(true, "Message sent successfully", 42);
    SentTextLostAsWritten([], temp, receipt);
    assert [] + [temp] == [temp];
  }

  function Same(m: ChatMessage): ChatMessage { m }

  /** The message the reply confirms: the temporary one under the id the database gave it, no longer temporary. */
  function Confirmed(temp: ChatMessage, receipt: SendReceipt): (m: ChatMessage)
    ensures m.content == temp.content && m.senderId == temp.senderId && m.timestamp == temp.timestamp
    ensures m.id == receipt.messageId && !m.isTemp
  {
    temp.(id := receipt.messageId, isTemp := false)
  }

  /**
   * When no other message has the temporary id, sending ends with the
   * earlier messages followed by the sent text, now under its database id.
   */
  lemma ReplyTakesTheTempPlace(earlier: seq<ChatMessage>, temp: ChatMessage, receipt: SendReceipt)
    requires forall m :: m in earlier ==> m.id != temp.id
    ensures ReplaceId(earlier + [temp], temp.id, Confirmed(temp, receipt), Same) == earlier + [Confirmed(temp, receipt)]
    ensures var last := ReplaceId(earlier + [temp], temp.id, Confirmed(temp, receipt), Same)[|earlier|];
            last.content == temp.content && last.senderId == temp.senderId && last.id == receipt.messageId
  {
    var r := ReplaceId(earlier + [temp], temp.id, Confirmed(temp, receipt), Same);
    forall i | 0 <= i < |earlier| ensures r[i] == earlier[i] {
      assert (earlier + [temp])[i] == earlier[i];
      assert earlier[i] in earlier;
    }
  }

  /** The time a conversation is ordered by: its last message's time, or the epoch when it has none. */
  function LastTime(c: Chat.ConversationEntry): int
  {
    if c.lastMessageTime.Some? then c.lastMessageTime.value else 0
  }

  /** The conversation list: newest last message first, those without one counting as the epoch. */
  function ConversationsSorted(cs: seq<Chat.ConversationEntry>): (r: seq<Chat.ConversationEntry>)
    ensures |r| == |cs| && multiset(r) == multiset(cs)
    ensures forall i, j :: 0 <= i < j < |r| ==> LastTime(r[i]) >= LastTime(r[j])
  {
    SortDesc(cs, LastTime)
  }

  /** A conversation without messages comes after every conversation that has one. */
  lemma SilentConversationsLast(cs: seq<Chat.ConversationEntry>, i: int, j: int)
    requires 0 <= i < |ConversationsSorted(cs)| && 0 <= j < |ConversationsSorted(cs)|
    requires ConversationsSorted(cs)[i].lastMessageTime.None?
    requires ConversationsSorted(cs)[j].lastMessageTime.Some? && ConversationsSorted(cs)[j].lastMessageTime.value > 0
    ensures j < i
  {
  }

  /** The chat window's state. */
  class ChatWindow {
    var messages: seq<ChatMessage>
    var newMessage: string
    var sending: bool

    constructor ()
      ensures messages == [] && newMessage == [] && !sending
    {
      messages := [];
      newMessage := [];
      sending := false;
    }

    /** A successful fetch with a message list replaces the messages by their formatted form. */
    method FetchMessages(fetched: Option<seq<ChatMessage>>, me: Me, chat: ChatRef)
      modifies this
      ensures messages == (if fetched.Some? then Formatted(fetched.value, me, chat) else old(messages))
      ensures newMessage == old(newMessage) && sending == old(sending)
    {
      if fetched.Some? {
        messages := Formatted(fetched.value, me, chat);
      }
    }

    /**
     * The start of `handleSendMessage`: a blank text sends nothing and
     * changes nothing; otherwise one temporary message with the text is
     * appended and the input cleared. `sent` is the temporary message.
     */
    method BeginSend(me: Me, now: int) returns (sent: Option<ChatMessage>)
      modifies this
      ensures Strip(old(newMessage)) == [] ==> sent.None? && messages == old(messages)
                                               && newMessage == old(newMessage) && sending == old(sending)
      ensures Strip(old(newMessage)) != [] ==>
                sent == Some(ChatMessage(now, me.id, old(newMessage), now, true, None))
                && messages == old(messages) + [sent.value] && newMessage == [] && sending
    {
      if Strip(newMessage) == [] {
        return None;
      }
      sending := true;
      var temp := ChatMessage(now, me.id, newMessage, now, true, None);
      messages := messages + [temp];
      newMessage := [];
      sent := Some(temp);
    }

    /**
     * The end of `handleSendMessage`, corrected: on a reply the entries with
     * the temporary id become the sent message under its database id; when
     * the call throws the temporary message stays. Sending ends either way.
     */
    method FinishSend(temp: ChatMessage, reply: Option<SendReceipt>)
      modifies this
      ensures messages == (if reply.Some? then ReplaceId(old(messages), temp.id, Confirmed(temp, reply.value), Same)
                           else old(messages))
      ensures newMessage == old(newMessage) && !sending
    {
      if reply.Some? {
        messages := ReplaceId(messages, temp.id, Confirmed(temp, reply.value), Same);
      }
      sending := false;
    }

    /** `handleKeyPress`: Enter without Shift starts sending; any other key changes nothing. */
    method KeyPress(key: string, shift: bool, me: Me, now: int) returns (sent: Option<ChatMessage>)
      modifies this
      ensures key != "Enter" || shift ==> sent.None? && messages == old(messages)
                                          && newMessage == old(newMessage) && sending == old(sending)
      ensures key == "Enter" && !shift && Strip(old(newMessage)) != [] ==>
                sent.Some? && messages == old(messages) + [sent.value] && newMessage == []
    {
      if key == "Enter" && !shift {
        sent := BeginSend(me, now);
      } else {
        sent := None;
      }
    }
  }
}
