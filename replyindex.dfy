/**
 * Routing replies through the reply index, over a history of relays.
 *
 * Telegram numbers the messages of each private chat separately, so the
 * same message id occurs in many chats. A reply arrives in the replier's
 * own chat and names a message of that chat. It is meant to reach the
 * sender whose relay produced that message in that chat (`IntendedRoute`).
 *
 * `MessageKeyed` is the reply index as the bot keeps it, keyed by message
 * id alone. `ChatKeyed` keys it by chat and message id. Only the second
 * routes every reply as intended (`ChatKeyedIsIntended`). The first routes
 * replies to relay messages as intended while no relay's message id occurs
 * in two chats (`MessageKeyedAgreesWhenIdsUnique`). Even then it answers a
 * reply to a message no relay produced in that chat, as soon as some relay
 * elsewhere got that id (`ForeignIdIsAnswered`, `SingleRelayMisroutes`);
 * `MessageKeyedMisroutes` shows a reused id that sends a reply to the wrong
 * person.
 */
module ReplyIndex {
  import opened Wrappers

  /** One relay: `sender`'s message, delivered into `chat`, got id `messageId` there. */
  datatype Relayed = Relayed(sender: int, chat: int, messageId: int)

  /** The value stored under `key`, if any. */
  function Find<K>(index: map<K, int>, key: K): (r: Option<int>)
    ensures r.Some? <==> key in index
    ensures r.Some? ==> r.value == index[key]
  {
    if key in index then Some(index[key]) else None
  }

  /**
   * The reference routing: the sender of the latest relay whose message is
   * `messageId` in `chat`, and none when there was no such relay.
   */
  function IntendedRoute(history: seq<Relayed>, chat: int, messageId: int): (route: Option<int>)
    ensures route.None? <==> forall i :: 0 <= i < |history| ==>
                               !(history[i].chat == chat && history[i].messageId == messageId)
    ensures route.Some? ==> exists i :: 0 <= i < |history| && history[i].chat == chat
                              && history[i].messageId == messageId && history[i].sender == route.value
  {
    if history == [] then None
    else
      var init, last := history[..|history| - 1], history[|history| - 1];
      if last.chat == chat && last.messageId == messageId then Some(last.sender)
      else IntendedRoute(init, chat, messageId)
  }

  /**
   * The reply index as `save_reply_link` builds it: each relay stores its
   * sender under its message id alone, replacing what was there. This is
   * `Relay.SaveReplyLink`'s update applied to each relay in turn.
   */
  function MessageKeyed(history: seq<Relayed>): (index: map<int, int>)
    ensures forall i :: 0 <= i < |history| ==> history[i].messageId in index
    ensures history != [] ==> index[history[|history| - 1].messageId] == history[|history| - 1].sender
  {
    if history == [] then map[]
    else
      var init, last := history[..|history| - 1], history[|history| - 1];
      MessageKeyed(init)[last.messageId := last.sender]
  }

  /** The corrected reply index: each relay stores its sender under its chat and message id. */
  function ChatKeyed(history: seq<Relayed>): (index: map<(int, int), int>)
    ensures forall i :: 0 <= i < |history| ==> (history[i].chat, history[i].messageId) in index
    ensures history != [] ==>
              var last := history[|history| - 1];
              index[(last.chat, last.messageId)] == last.sender
  {
    if history == [] then map[]
    else
      var init, last := history[..|history| - 1], history[|history| - 1];
      ChatKeyed(init)[(last.chat, last.messageId) := last.sender]
  }

  /** The corrected index routes every reply, in every chat, to the intended sender. */
  lemma {:induction false} ChatKeyedIsIntended(history: seq<Relayed>, chat: int, messageId: int)
    ensures Find(ChatKeyed(history), (chat, messageId)) == IntendedRoute(history, chat, messageId)
  {
    if history != [] {
      ChatKeyedIsIntended(history[..|history| - 1], chat, messageId);
    }
  }

  /**
   * The index keyed by message id alone routes every reply to a relay
   * message as intended while no relay's message id occurs in two chats.
   */
  lemma {:induction false} MessageKeyedAgreesWhenIdsUnique(history: seq<Relayed>, chat: int, messageId: int)
    requires forall i, j :: 0 <= i < |history| && 0 <= j < |history| && history[i].messageId == history[j].messageId
               ==> history[i].chat == history[j].chat
    requires IntendedRoute(history, chat, messageId).Some?
    ensures Find(MessageKeyed(history), messageId) == IntendedRoute(history, chat, messageId)
  {
    var init, last := history[..|history| - 1], history[|history| - 1];
    if !(last.chat == chat && last.messageId == messageId) {
      var i :| 0 <= i < |history| && history[i].chat == chat && history[i].messageId == messageId;
      assert last.messageId != messageId;
      assert i < |history| - 1 && init[i] == history[i];
      MessageKeyedAgreesWhenIdsUnique(init, chat, messageId);
    }
  }

  /**
   * 222 writes to 111 and 444 writes to 333; both relay messages get id 7,
   * each in its own chat. 111's reply to message 7 is meant for 222, but
   * the index keyed by message id alone sends it to 444. The corrected
   * index sends it to 222.
   */
  lemma MessageKeyedMisroutes()
    ensures var history := [Relayed(222, 111, 7), Relayed(444, 333, 7)];
            && IntendedRoute(history, 111, 7) == Some(222)
            && Find(MessageKeyed(history), 7) == Some(444)
            && Find(ChatKeyed(history), (111, 7)) == Some(222)
  {
    var history := [Relayed(222, 111, 7), Relayed(444, 333, 7)];
    ChatKeyedIsIntended(history, 111, 7);
  }

  /**
   * A reply to a message that no relay produced in the replier's chat is
   * still answered by the index keyed by message id alone, as soon as some
   * relay into another chat got that id. The corrected index finds nothing.
   */
  lemma ForeignIdIsAnswered(history: seq<Relayed>, chat: int, messageId: int, i: nat)
    requires i < |history| && history[i].messageId == messageId
    requires IntendedRoute(history, chat, messageId).None?
    ensures Find(MessageKeyed(history), messageId).Some?
    ensures Find(ChatKeyed(history), (chat, messageId)).None?
  {
    ChatKeyedIsIntended(history, chat, messageId);
  }

  /**
   * One relay is enough: 222's message to 111 gets id 7. A reply by 333 to
   * message 7 of 333's own chat, which no relay produced, is routed to 222
   * by the index keyed by message id alone; the corrected index has no
   * sender for it.
   */
  lemma SingleRelayMisroutes()
    ensures var history := [Relayed(222, 111, 7)];
            && IntendedRoute(history, 333, 7) == None
            && Find(MessageKeyed(history), 7) == Some(222)
            && Find(ChatKeyed(history), (333, 7)) == None
  {
    var history := [Relayed(222, 111, 7)];
    ChatKeyedIsIntended(history, 333, 7);
  }
}
