/**
 * End-to-end conversations, derived from the handlers' contracts alone.
 * Ids: 111 and 333 are receivers sharing links, 222 writes to them, 444 is
 * someone else, `BotId` is the bot's own id.
 */
module Scenarios {
  import opened Wrappers
  import opened Links
  import opened FeedbackBot
  import ReplyIndex

  const BotId := 1000
  const BotName := "feedback_bot"

  /** The start parameter of a user's personal link, as the transport hands it to /start. */
  function LinkParam(userId: int): (param: string)
    requires userId >= 0
    ensures ParseStartArg(Some(param)) == Some(userId)
  {
    MyLink(BotName, userId)[|LinkPrefix(BotName)|..]
  }

  /**
   * 222 opens 111's link and writes; the relay message gets id 7. Then 222
   * opens 333's link, which replaces the session. 111's reply to message 7
   * still reaches 222, through the reply index, and heals 222's session back
   * to 111, replacing the binding to 333.
   */
  method ReplyOutlivesRebinding() returns (bot: Relay, relayed: Option<Outgoing>, reply: Option<Outgoing>)
    ensures relayed == Some(Outgoing(111, NewMessage, "hello"))
    ensures reply == Some(Outgoing(222, Reply, "hi there"))
    ensures bot.replyMap == map[7 := 222]
    ensures bot.sessions == map[222 := 111]
    ensures bot.users == {222}
  {
    bot := new Relay({}, map[]);
    var n := bot.Start(222, Some(LinkParam(111)));
    assert n == Connected && bot.sessions == map[222 := 111];
    n, relayed := bot.HandleText(222, "hello", None, BotId, Some(7));
    assert n == Sent;
    n := bot.Start(222, Some(LinkParam(333)));
    assert bot.sessions == map[222 := 333];
    n, reply := bot.HandleText(111, "hi there", Some(ReplyRef(BotId, 7)), BotId, Some(8));
    assert n == ReplySent;
  }

  /**
   * The durable tables survive a restart and the session table does not;
   * a reply to an earlier relay message is still routed to its sender.
   */
  method ReplyAfterRestart() returns (n: Notice, reply: Option<Outgoing>, restarted: Relay)
    ensures n == ReplySent
    ensures reply == Some(Outgoing(222, Reply, "welcome back"))
    ensures restarted.sessions == map[222 := 111]
  {
    var before := new Relay({}, map[]);
    var connected := before.Start(222, Some(LinkParam(111)));
    var relayed;
    n, relayed := before.HandleText(222, "hello", None, BotId, Some(7));
    restarted := new Relay(before.users, before.replyMap);
    n, reply := restarted.HandleText(111, "welcome back", Some(ReplyRef(BotId, 7)), BotId, Some(8));
  }

  /**
   * A bound sender replying to a bot message that leads to someone else is
   * still relayed to its own counterpart, and the session table stays as it is.
   */
  method BoundSenderOutranksReply() returns (n: Notice, out: Option<Outgoing>)
    ensures n == Unavailable
    ensures out == Some(Outgoing(111, NewMessage, "again"))
  {
    var bot := new Relay({}, map[9 := 444]);
    var connected := bot.Start(222, Some(LinkParam(111)));
    n, out := bot.HandleText(222, "again", Some(ReplyRef(BotId, 9)), BotId, None);
    assert bot.sessions == map[222 := 111] && bot.replyMap == map[9 := 444];
  }

  /** A healed session is committed even when the reply itself cannot be delivered. */
  method HealDespiteFailedDelivery() returns (n: Notice, bot: Relay)
    ensures n == ReplyFailed
    ensures bot.sessions == map[444 := 111]
  {
    bot := new Relay({}, map[9 := 444]);
    var out;
    n, out := bot.HandleText(111, "late answer", Some(ReplyRef(BotId, 9)), BotId, None);
  }

  /** Opening one's own link, or /start with no argument, binds nobody but registers the user. */
  method NoSessionWithoutTarget() returns (own: Notice, plain: Notice, bot: Relay)
    ensures own == SelfLink && plain == Welcome
    ensures bot.sessions == map[]
    ensures bot.users == {111, 333}
  {
    bot := new Relay({}, map[]);
    own := bot.Start(111, Some(LinkParam(111)));
    plain := bot.Start(333, None);
  }

  /** Not a reply to the bot, not bound: the onboarding prompt; an unknown reply: too old. */
  method UnroutableMessages() returns (lost: Notice, tooOld: Notice)
    ensures lost == LostSoul && tooOld == TooOld
  {
    var bot := new Relay({}, map[5 := 0]);
    var out;
    lost, out := bot.HandleText(333, "hi", Some(ReplyRef(222, 5)), BotId, Some(1));
    // Sender id 0 is falsy, so it reads as a missing record.
    tooOld, out := bot.HandleText(333, "hi", Some(ReplyRef(BotId, 5)), BotId, Some(1));
  }

  /** A non-administrator's broadcast sends nothing; an administrator's skips nobody. */
  method BroadcastIsolation() returns (denied: BroadcastReport, done: BroadcastReport, sends: seq<Outgoing>)
    ensures denied == Ignored
    ensures done == Report(3, 2)
    ensures |sends| == 3 && 2 in Recipients(sends)
    ensures forall u :: u in Recipients(sends) <==> u in {1, 2, 3}
  {
    var bot := new Relay({1, 2, 3}, map[]);
    var none;
    denied, none := bot.Broadcast(222, [1], Some("news"), {2});
    done, sends := bot.Broadcast(1, [1], Some("news"), {2});
    assert {1, 2, 3} - {2} == {1, 3};
    assert |{1, 3}| == 2;
  }

  /**
   * Message ids are numbered per chat. 222 writes to 111 and 444 writes to
   * 333, and both relay messages get id 7. The reply index keeps only the
   * later one, so 111's reply to message 7 reaches 444, not 222, and binds
   * 444 to 111. The index is exactly the message-keyed index of these two
   * relays, whose intended route for that reply is 222.
   */
  method PerChatIdCollision() returns (bot: Relay, reply: Option<Outgoing>)
    ensures reply == Some(Outgoing(444, Reply, "thanks"))
    ensures bot.sessions == map[222 := 111, 444 := 111]
    ensures var history := [ReplyIndex.Relayed(222, 111, 7), ReplyIndex.Relayed(444, 333, 7)];
            && bot.replyMap == ReplyIndex.MessageKeyed(history)
            && ReplyIndex.IntendedRoute(history, 111, 7) == Some(222)
  {
    bot := new Relay({}, map[]);
    var n := bot.Start(222, Some(LinkParam(111)));
    n := bot.Start(444, Some(LinkParam(333)));
    var relayed;
    n, relayed := bot.HandleText(222, "hello", None, BotId, Some(7));
    n, relayed := bot.HandleText(444, "hey", None, BotId, Some(7));
    assert bot.replyMap == map[7 := 444];
    n, reply := bot.HandleText(111, "thanks", Some(ReplyRef(BotId, 7)), BotId, Some(8));
    ReplyIndex.MessageKeyedMisroutes();
  }

  /**
   * With a single relay: 222 talks to 111, and the relay message gets id 7
   * in 111's chat. 333 replies to a bot notice that is message 7 of 333's
   * own chat. The reply index answers with 222, so 333's text reaches 222
   * and 222 is bound to 333: 222's next message goes to 333, a stranger,
   * and gets id 9 in 333's chat. No relay ever produced message 7 there.
   */
  method StrangerTakesOverSession() returns (bot: Relay, reply: Option<Outgoing>, leaked: Option<Outgoing>)
    ensures reply == Some(Outgoing(222, Reply, "who is this?"))
    ensures leaked == Some(Outgoing(333, NewMessage, "secret"))
    ensures var history := [ReplyIndex.Relayed(222, 111, 7), ReplyIndex.Relayed(222, 333, 9)];
            && bot.replyMap == ReplyIndex.MessageKeyed(history)
            && ReplyIndex.IntendedRoute(history, 333, 7) == None
  {
    bot := new Relay({}, map[]);
    var n := bot.Start(222, Some(LinkParam(111)));
    var relayed;
    n, relayed := bot.HandleText(222, "hello", None, BotId, Some(7));
    assert bot.replyMap == map[7 := 222];
    n, reply := bot.HandleText(333, "who is this?", Some(ReplyRef(BotId, 7)), BotId, Some(8));
    assert bot.sessions == map[222 := 333];
    n, leaked := bot.HandleText(222, "secret", None, BotId, Some(9));
  }
}
