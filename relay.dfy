/**
 * The relay state machine of the anonymous feedback bot.
 *
 * Three pieces of state: the in-memory table of live sessions (sender to
 * counterpart), the durable reply index (outbound relay message id to the
 * sender it came from) and the durable registry of users. Each handler is
 * a method that processes one inbound event. What the transport does is
 * taken as a parameter: whether a send succeeds and, for a relay, the id
 * the transport gives the new message.
 */
module FeedbackBot {
  import opened Wrappers
  import opened Links
  import ReplyIndex

  /** The notice a handler answers the sender with. */
  datatype Notice =
    | SelfLink      // opened their own link
    | Connected     // bound to the link's owner
    | Welcome       // /start without a usable argument
    | Sent          // relayed to the counterpart
    | Unavailable   // the counterpart could not be reached
    | ReplySent     // a reply reached the original sender
    | ReplyFailed   // a reply could not be delivered
    | TooOld        // the replied-to message is not in the reply index
    | LostSoul      // neither bound nor replying: onboarding prompt

  /** What a broadcast answers the administrator with. */
  datatype BroadcastReport =
    | Ignored                      // not an administrator: no answer at all
    | Usage                        // no text to broadcast
    | Report(total: nat, sent: nat) // "sending to total", then "sent to sent"

  datatype RelayKind = NewMessage | Reply | Announcement

  /** A message handed to the transport for delivery to `to`. */
  datatype Outgoing = Outgoing(to: int, kind: RelayKind, body: string)

  /** The message an inbound message replies to: its author and its id. */
  datatype ReplyRef = ReplyRef(authorId: int, messageId: int)

  predicate IsReplyToBot(replyTo: Option<ReplyRef>, botId: int) {
    replyTo.Some? && replyTo.value.authorId == botId
  }

  /** Python truthiness of a looked-up sender id: `None` and `0` are false. */
  predicate Truthy(id: Option<int>) {
    id.Some? && id.value != 0
  }

  /** The recipient of each message, in order. */
  function Recipients(sends: seq<Outgoing>): (r: seq<int>)
    ensures |r| == |sends|
    ensures forall i :: 0 <= i < |sends| ==> r[i] == sends[i].to
  {
    if sends == [] then [] else Recipients(sends[..|sends| - 1]) + [sends[|sends| - 1].to]
  }

  /** How many entries of `list` are delivered to, counted as the broadcast loop counts. */
  function CountDelivered(list: seq<int>, unreachable: set<int>): (n: nat)
    ensures n <= |list|
  {
    if list == [] then 0
    else CountDelivered(list[..|list| - 1], unreachable) + (if list[|list| - 1] in unreachable then 0 else 1)
  }

  /** The entries of `list` that are delivered to. */
  function Reached(list: seq<int>, unreachable: set<int>): (r: set<int>)
    ensures forall u :: u in r <==> u in list && u !in unreachable
  {
    if list == [] then {}
    else
      var init, last := list[..|list| - 1], list[|list| - 1];
      assert list == init + [last];
      Reached(init, unreachable) + (if last in unreachable then {} else {last})
  }

  /** Over distinct recipients the loop's count is the number of recipients reached. */
  lemma {:induction false} CountIsReached(list: seq<int>, unreachable: set<int>)
    requires forall i, j :: 0 <= i < j < |list| ==> list[i] != list[j]
    ensures CountDelivered(list, unreachable) == |Reached(list, unreachable)|
  {
    if list != [] {
      var init, last := list[..|list| - 1], list[|list| - 1];
      CountIsReached(init, unreachable);
      assert last !in init;
    }
  }

  /** An enumeration of `users` reaches every user the transport can deliver to. */
  lemma ReachedAll(list: seq<int>, users: set<int>, unreachable: set<int>)
    requires forall u :: u in list <==> u in users
    ensures Reached(list, unreachable) == users - unreachable
  {
    forall u ensures u in Reached(list, unreachable) <==> u in users - unreachable {}
  }

  /**
   * The broadcast loop: one announcement per entry of `list`, in order,
   * counting the deliveries that succeed. A failure does not stop the loop.
   */
  method SendAll(list: seq<int>, msg: string, unreachable: set<int>)
    returns (sends: seq<Outgoing>, count: nat)
    ensures Recipients(sends) == list
    ensures forall i :: 0 <= i < |sends| ==> sends[i].kind == Announcement && sends[i].body == msg
    ensures count == CountDelivered(list, unreachable)
  {
    count := 0;
    sends := [];
    for k := 0 to |list|
      invariant |sends| == k && Recipients(sends) == list[..k]
      invariant forall i :: 0 <= i < k ==> sends[i].kind == Announcement && sends[i].body == msg
      invariant count == CountDelivered(list[..k], unreachable)
    {
      var next := Outgoing(list[k], Announcement, msg);
      assert (sends + [next])[..k] == sends;
      sends := sends + [next];
      assert list[..k + 1][..k] == list[..k];
      if list[k] !in unreachable {
        count := count + 1;
      }
    }
    assert list[..|list|] == list;
  }

  class Relay {
    /** `active_sessions`: who each bound sender is talking to. */
    var sessions: map<int, int>
    /** Table `reply_map`: outbound message id to original sender. */
    var replyMap: map<int, int>
    /** Table `users`. */
    var users: set<int>

    /** Process start: the durable tables are as stored, no session is live. */
    constructor (users: set<int>, replyMap: map<int, int>)
      ensures this.users == users && this.replyMap == replyMap
      ensures sessions == map[]
    {
      this.users := users;
      this.replyMap := replyMap;
      sessions := map[];
    }

    /** `INSERT OR IGNORE`: registering an id twice leaves one entry. */
    method AddUser(userId: int)
      modifies this
      ensures users == old(users) + {userId}
      ensures userId in old(users) ==> users == old(users)
      ensures sessions == old(sessions) && replyMap == old(replyMap)
    {
      users := users + {userId};
      forall u ensures userId in old(users) ==> (u in users <==> u in old(users)) {}
    }

    /** `INSERT OR REPLACE`: the id now leads to `senderId`, whatever it led to before. */
    method SaveReplyLink(adminMsgId: int, senderId: int)
      modifies this
      ensures replyMap == old(replyMap)[adminMsgId := senderId]
      ensures GetSenderId(adminMsgId) == Some(senderId)
      ensures forall m :: m != adminMsgId ==> GetSenderId(m) == old(GetSenderId(m))
      ensures sessions == old(sessions) && users == old(users)
    {
      replyMap := replyMap[adminMsgId := senderId];
    }

    /** The original sender recorded for an outbound message, if any. */
    function GetSenderId(adminMsgId: int): (r: Option<int>)
      reads this
      ensures r.Some? <==> adminMsgId in replyMap
      ensures r.Some? ==> r.value == replyMap[adminMsgId]
    {
      ReplyIndex.Find(replyMap, adminMsgId)
    }

    /** Every registered id once, in some order. */
    method GetAllUsers() returns (list: seq<int>)
      ensures forall u :: u in list <==> u in users
      ensures forall i, j :: 0 <= i < j < |list| ==> list[i] != list[j]
      ensures |list| == |users|
    {
      list := [];
      var rest := users;
      while rest != {}
        invariant rest <= users
        invariant forall u :: u in list <==> u in users && u !in rest
        invariant forall i, j :: 0 <= i < j < |list| ==> list[i] != list[j]
        invariant |list| + |rest| == |users|
        decreases rest
      {
        if !exists u :: u in rest {
          assert false;
        }
        var u :| u in rest;
        list := list + [u];
        rest := rest - {u};
      }
    }

    /**
     * /start with an optional argument. The sender is registered in every
     * case; a digit argument naming someone else binds the sender to that
     * target, replacing any earlier binding; the sender's own id is refused.
     */
    method Start(sender: int, args: Option<string>) returns (notice: Notice)
      modifies this
      ensures users == old(users) + {sender}
      ensures replyMap == old(replyMap)
      ensures ParseStartArg(args).None? ==> notice == Welcome && sessions == old(sessions)
      ensures ParseStartArg(args) == Some(sender) ==> notice == SelfLink && sessions == old(sessions)
      ensures ParseStartArg(args).Some? && ParseStartArg(args).value != sender ==>
                notice == Connected && sessions == old(sessions)[sender := ParseStartArg(args).value]
    {
      AddUser(sender);
      var target := ParseStartArg(args);
      if target.Some? {
        if target.value == sender {
          notice := SelfLink;
          return;
        }
        sessions := sessions[sender := target.value];
        notice := Connected;
      } else {
        notice := Welcome;
      }
    }

    /**
     * A text message, classified in strict priority order: a bound sender
     * is relayed to its counterpart (whatever the message replies to); else
     * a reply to a bot message is routed to the sender recorded for that
     * message, healing that sender's session first; else the onboarding
     * prompt. `sendResult` is the transport's answer to the one send this
     * may attempt: the new message's id, or `None` when delivery fails.
     */
    method HandleText(sender: int, text: string, replyTo: Option<ReplyRef>, botId: int,
                      sendResult: Option<int>)
      returns (notice: Notice, out: Option<Outgoing>)
      modifies this
      ensures users == old(users)
      // A bound sender: delivered to its counterpart only; the outbound id is recorded on success.
      ensures sender in old(sessions) ==>
                && out == Some(Outgoing(old(sessions)[sender], NewMessage, text))
                && sessions == old(sessions)
                && replyMap == (if sendResult.Some? then old(replyMap)[sendResult.value := sender]
                                else old(replyMap))
                && notice == (if sendResult.Some? then Sent else Unavailable)
      // A reply to a bot message with a recorded sender: healed, whatever the delivery does.
      ensures sender !in old(sessions) && IsReplyToBot(replyTo, botId)
              && Truthy(old(GetSenderId(replyTo.value.messageId))) ==>
                var original := old(replyMap)[replyTo.value.messageId];
                && sessions == old(sessions)[original := sender]
                && replyMap == old(replyMap)
                && out == Some(Outgoing(original, Reply, text))
                && notice == (if sendResult.Some? then ReplySent else ReplyFailed)
      // A reply to a bot message without one: nothing changes.
      ensures sender !in old(sessions) && IsReplyToBot(replyTo, botId)
              && !Truthy(old(GetSenderId(replyTo.value.messageId))) ==>
                sessions == old(sessions) && replyMap == old(replyMap) && out == None && notice == TooOld
      // Anything else: nothing changes.
      ensures sender !in old(sessions) && !IsReplyToBot(replyTo, botId) ==>
                sessions == old(sessions) && replyMap == old(replyMap) && out == None && notice == LostSoul
    {
      if sender in sessions {
        var target := sessions[sender];
        out := Some(Outgoing(target, NewMessage, text));
        if sendResult.Some? {
          SaveReplyLink(sendResult.value, sender);
          notice := Sent;
        } else {
          notice := Unavailable;
        }
        return;
      }
      if IsReplyToBot(replyTo, botId) {
        var original := GetSenderId(replyTo.value.messageId);
        if Truthy(original) {
          sessions := sessions[original.value := sender];
          out := Some(Outgoing(original.value, Reply, text));
          notice := if sendResult.Some? then ReplySent else ReplyFailed;
        } else {
          out := None;
          notice := TooOld;
        }
        return;
      }
      out := None;
      notice := LostSoul;
    }

    /**
     * /broadcast: only for ids in `admins`, and only with a non-empty text.
     * Every registered user is sent the text unchanged, once each; a failed
     * delivery does not stop the loop, and the reported count is the number
     * of users whose delivery succeeded. `unreachable` holds the recipients
     * the transport fails to deliver to (blocked the bot, deleted the
     * account, ...).
     */
    method Broadcast(sender: int, admins: seq<int>, text: Option<string>, unreachable: set<int>)
      returns (report: BroadcastReport, sends: seq<Outgoing>)
      ensures sender !in admins ==> report == Ignored && sends == []
      ensures sender in admins && (text.None? || text.value == "") ==> report == Usage && sends == []
      ensures sender in admins && text.Some? && text.value != "" ==>
                var attempted := Recipients(sends);
                && report.Report?
                && report.total == |users| == |sends|
                && (forall i :: 0 <= i < |sends| ==> sends[i].kind == Announcement && sends[i].body == text.value)
                && (forall u :: u in attempted <==> u in users)
                && (forall i, j :: 0 <= i < j < |attempted| ==> attempted[i] != attempted[j])
                && report.sent == |users - unreachable| <= report.total
    {
      if sender !in admins {
        return Ignored, [];
      }
      if text.None? || text.value == "" {
        return Usage, [];
      }
      var list := GetAllUsers();
      var count;
      sends, count := SendAll(list, text.value, unreachable);
      CountIsReached(list, unreachable);
      ReachedAll(list, users, unreachable);
      report := Report(|list|, count);
    }
  }
}
