# Anonymous feedback bot: relay state machine

A Dafny model of the relay core of the anonymous feedback bot (`feedback_bot.py`).
Users share a personal link. Whoever opens it can write to the link's owner
through the bot, and the owner can answer by replying to the relayed message.
The owner never learns who wrote: neither the relayed message (lines 149-153) nor the reply (line 176) carries the writer's id.
The link itself does carry the owner's numeric Telegram id in plain text (line 110), so whoever opens it, or is forwarded it, can see that id.

The model keeps the state machine and drops the Telegram and SQLite plumbing.
Its state has three pieces, held as fields of the class `FeedbackBot.Relay`:

- `sessions`: the in-memory `active_sessions` dictionary, mapping each bound sender to its counterpart;
- `replyMap`: the durable `reply_map` table, mapping the id of each outbound relay message to the sender it came from;
- `users`: the durable `users` table, used for broadcasts.

Each handler is a method that processes one inbound event:

- `Start` is `/start`;
- `HandleText` is a text message;
- `Broadcast` is `/broadcast`.

The transport's part is passed in as parameters:

- whether a send succeeds, and which message id the transport gives a relayed message (`sendResult: Option<int>`);
- the bot's own id (`botId`);
- the recipients a broadcast cannot reach (`unreachable`).

Each handler returns the notice it answers the sender with, as an enumeration (`Notice`, `BroadcastReport`), not as text.
It also returns the messages it hands to the transport (`Outgoing`).

Files:

- `wrappers.dfy`: `Option`.
- `links.dfy`: module `Links`. Python's `str`, `str.isdigit` and `int` on decimal ids, the personal link, and both round trips.
- `relay.dfy`: module `FeedbackBot`. The relay class and its handlers, and the counting lemmas for the broadcast loop.
- `replyindex.dfy`: module `ReplyIndex`. The reply index over a history of relays: keyed by message id alone, as the bot keeps it, and keyed by chat and message id, with the intended routing proved for the second.
- `scenarios.dfy`: module `Scenarios`. End-to-end conversations proved from the handlers' contracts alone: a reply that outlives a rebinding, a restart, priority of a live session, healing despite a failed delivery, self-links, broadcast isolation, and the two misroutings of the reply index recorded under "## Findings" (`PerChatIdCollision`, `StrangerTakesOverSession`).

## Model

| member | source | states |
|---|---|---|
| `Links.NatToString` | feedback_bot.py:110 | The decimal form of a natural id is a non-empty string of digits with no leading zero (only `0` itself starts with `0`) |
| `Links.IntToString` | feedback_bot.py:110 | The decimal form of any id. A negative id starts with a minus sign; a non-negative one is a canonical digit string |
| `Links.StripLeadingZeros` | feedback_bot.py:92 | What `int` ignores: removing leading zeros from a digit string leaves a canonical digit string |
| `Links.ParseStartArg` | feedback_bot.py:91-92 | The /start argument as the handler reads it: `args and args.isdigit()` (`IsDigitString`), then `int(args)` (`DigitsValue`, the decoder the round-trip lemmas compare `NatToString` with). A selected target is never negative |
| `Links.MyLink` | feedback_bot.py:108-110 | The personal link is the fixed prefix followed by a start parameter that reads back, through the /start parser, as the user's own id. A negative id reads as no target |
| `Links.StartParamReadsBack` | feedback_bot.py:91-92 | Encode then decode: `int(str(i))` gives `i` for every `i >= 0`, and `str(i)` fails `isdigit` for every `i < 0` |
| `Links.EncodeThenDecode` | feedback_bot.py:92 | `int` applied to the decimal form of `n` gives back `n` |
| `Links.ParsedTargetPrintsCanonically` | feedback_bot.py:91-92 | Decode then encode: every accepted argument decodes to the number whose decimal form is that argument without its leading zeros |
| `Links.CanonicalIsPrinted` | feedback_bot.py:92 | A canonical digit string is exactly the decimal form of its value, so the canonical form is unique |
| `Links.StripPreservesValue` | feedback_bot.py:92 | Removing leading zeros does not change the value `int` reads |
| `Links.LeadingZeroValue` | feedback_bot.py:92 | One leading zero does not change the value `int` reads |
| `Links.LeadingDigitBound` | feedback_bot.py:92 | A digit string is worth at least its leading digit |
| `Links.LeadingZeroSameTarget` | feedback_bot.py:91-92 | `/start 0042` selects the same target as `/start 42`; `/start 0` selects id 0; a zero before a non-digit argument is still refused |
| `FeedbackBot.Relay.constructor` | feedback_bot.py:28-50 | At process start the durable tables hold what was stored and the session table (line 16) is empty |
| `FeedbackBot.Relay.AddUser` | feedback_bot.py:52-57 | `INSERT OR IGNORE`: the id is added to `users`. Registering an existing id changes nothing. Sessions and the reply index are untouched |
| `FeedbackBot.Relay.SaveReplyLink` | feedback_bot.py:60-66 | `INSERT OR REPLACE`: afterwards the message id looks up to the given sender, replacing any earlier one. Every other id looks up as before. Nothing else changes |
| `FeedbackBot.Relay.GetSenderId` | feedback_bot.py:68-74 | The lookup (`ReplyIndex.Find` on the reply index) finds a sender exactly for the ids in the reply index, and returns the recorded one |
| `FeedbackBot.Relay.GetAllUsers` | feedback_bot.py:76-82 | Every registered id appears exactly once, and nothing else does; the length is the number of users |
| `FeedbackBot.Relay.Start` | feedback_bot.py:86-104 | The sender is registered whatever the argument. With no digit argument: welcome notice and no session change. With the sender's own id: self-link notice and no session change. Otherwise the sender is bound to the target, replacing any earlier binding, and no other key changes. The reply index never changes |
| `FeedbackBot.Relay.HandleText` | feedback_bot.py:139-185 | Strict priority. (1) A bound sender's text goes only to its counterpart, whatever it replies to; on success the outbound id maps to the sender (replacing any earlier entry); on failure the reply index is untouched; sessions are unchanged either way. (2) Otherwise, a reply to a bot message whose id maps to a truthy sender `s` binds `s` to the replier and delivers to `s`. The binding does not depend on the delivery outcome, and the reply index is unchanged. (3) A reply to a bot message without such a record gives the too-old notice; (4) anything else gives the onboarding notice. Neither (3) nor (4) changes any state. `users` never changes |
| `FeedbackBot.Relay.Broadcast` | feedback_bot.py:118-136 | A non-admin gets no answer and nothing is sent. An empty or missing text gets the usage notice and nothing is sent. Otherwise every registered user is sent the text unchanged, exactly once, so a failure never prevents later attempts. The reported total is the number of users. The reported count is the number of users whose delivery succeeded, so it is at most the total |
| `FeedbackBot.SendAll` | feedback_bot.py:128-135 | The broadcast loop sends one announcement, with the text unchanged, to each listed recipient in list order. Its count is the number of listed recipients whose delivery succeeded, computed as `CountDelivered` |
| `FeedbackBot.Recipients` | feedback_bot.py:129-131 | The recipient of each broadcast send, in order |
| `FeedbackBot.CountDelivered` | feedback_bot.py:128-135 | The loop's `count` over a prefix of the recipients never exceeds the prefix's length |
| `FeedbackBot.Reached` | feedback_bot.py:128-135 | The recipients whose delivery succeeded are exactly the listed recipients that are not unreachable |
| `FeedbackBot.CountIsReached` | feedback_bot.py:128-135 | For distinct recipients the loop's count equals the number of recipients reached |
| `FeedbackBot.ReachedAll` | feedback_bot.py:126-135 | When the list enumerates all the users, the users reached are all users minus the unreachable ones |
| `ReplyIndex.Find` | feedback_bot.py:68-74 | Looking up a key finds a value exactly for the keys present, and returns the stored one |
| `ReplyIndex.IntendedRoute` | feedback_bot.py:164-170 | The reference routing of a reply: the sender of the latest relay whose message has that id in the replier's chat, or none exactly when no relay produced such a message |
| `ReplyIndex.MessageKeyed` | feedback_bot.py:60-66 | The index as the bot builds it: every relayed message id is present, and the latest relay's id leads to its sender |
| `ReplyIndex.ChatKeyed` | feedback_bot.py:60-66 | The corrected index: every relay's chat and message id are present, and the latest relay's pair leads to its sender |
| `ReplyIndex.ChatKeyedIsIntended` | feedback_bot.py:164-177 | The index keyed by chat and message id routes every reply, in every chat, to the intended sender, and finds nothing exactly when no relay produced that message |
| `ReplyIndex.MessageKeyedAgreesWhenIdsUnique` | feedback_bot.py:164-177 | While no message id occurs in two chats, the index keyed by message id alone routes each routable reply as intended |
| `ReplyIndex.MessageKeyedMisroutes` | feedback_bot.py:155-176 | Two relays into different chats that both get id 7: a reply to 7 in the first chat is meant for the first sender; the index keyed by message id sends it to the second, and the corrected index to the first |
| `ReplyIndex.ForeignIdIsAnswered` | feedback_bot.py:164-173 | When no relay produced the replied-to message in the replier's chat but a relay into some chat got that id, the index keyed by message id alone still finds a sender, and the corrected index finds none |
| `ReplyIndex.SingleRelayMisroutes` | feedback_bot.py:155-173 | One relay, 222's message to 111 with id 7: a reply in 333's chat to that chat's message 7 has no intended route, yet the index keyed by message id gives 222, and the corrected index gives nothing |
| `Scenarios.LinkParam` | feedback_bot.py:110 | The start parameter of a user's personal link selects that user at /start |
| `Scenarios.ReplyOutlivesRebinding` | feedback_bot.py:145-182 | 222 opens 111's link and writes; the relay message gets id 7. 222 then binds to 333. 111's reply to message 7 still reaches 222, and it rebinds 222 to 111 |
| `Scenarios.ReplyAfterRestart` | feedback_bot.py:164-177 | After a restart, which empties the sessions but keeps the tables, a reply to an earlier relay message still reaches its original sender |
| `Scenarios.BoundSenderOutranksReply` | feedback_bot.py:145-160 | A bound sender replying to a bot message recorded for someone else is relayed to its own counterpart |
| `Scenarios.HealDespiteFailedDelivery` | feedback_bot.py:171-179 | The healed binding is committed even when delivering the reply fails |
| `Scenarios.NoSessionWithoutTarget` | feedback_bot.py:88-104 | Opening one's own link, or /start without an argument, creates no session but still registers the user |
| `Scenarios.UnroutableMessages` | feedback_bot.py:164-185 | A reply to someone other than the bot gets the onboarding notice. A recorded sender id 0 is falsy and reads as a missing record |
| `Scenarios.BroadcastIsolation` | feedback_bot.py:118-136 | A non-admin's broadcast is ignored. An admin's broadcast to users {1, 2, 3} where 2 is unreachable makes three sends, whose recipients are exactly 1, 2 and 3, and reports 2 sent of 3 |
| `Scenarios.PerChatIdCollision` | feedback_bot.py:145-177 | 222 writes to 111 and 444 writes to 333, and both relay messages get id 7. 111's reply to message 7 reaches 444 and binds 444 to 111. The bot's reply index equals the message-keyed index of those relays, whose intended route for that reply is 222 |
| `Scenarios.StrangerTakesOverSession` | feedback_bot.py:145-177 | 222 is bound to 111, and its relay message gets id 7. 333 replies to message 7 of its own chat. The reply reaches 222 and binds 222 to 333, so 222's next text goes to 333. The index is then the message-keyed index of 222's two relays, and neither relay produced message 7 in 333's chat |

## Notes on the code

- `/start` is its own handler (feedback_bot.py:86-104), not a branch of the text router at lines 139-185.
- A `/start` argument that is not a digit string gets the welcome notice (line 101), not a separate error.
- A recorded sender id `0` reads as a missing record, because of the truthiness test at line 171.
- `Start` refuses a self-binding (line 93). The heal at line 173 does not check for one.
  So it binds a replier to itself when the replier is the sender recorded for the replied-to id, and the model does the same.
- `SELECT user_id FROM users` at line 79 has no `ORDER BY`. `GetAllUsers` therefore promises an enumeration of the users, not an order.

## Findings

| source | as written | input that shows it | evidently intended | confidence | as-written member | corrected member |
|---|---|---|---|---|---|---|
| feedback_bot.py:40-48 | The reply index is keyed by `message_id` alone (table at lines 40-48, written at line 155, read at line 169). Telegram numbers messages separately in each private chat, so a relay into one chat overwrites the entry of an earlier relay into another chat that got the same id | 222 writes to 111 and 444 writes to 333; both relay messages get id 7; 111 replies to message 7. The reply reaches 444 and binds 444 to 111. With one relay: 222's message to 111 gets id 7, and 333 replies to a bot notice that is message 7 of 333's own chat. The reply reaches 222, and 222 is bound to 333, so 222's next message goes to 333 | The reply reaches 222, the sender of message 7 in 111's chat: the index is keyed by chat and message id | high for the reuse of ids across private chats; not executed | `Scenarios.PerChatIdCollision`, `ReplyIndex.MessageKeyedMisroutes`, `Scenarios.StrangerTakesOverSession`, `ReplyIndex.SingleRelayMisroutes` | `ReplyIndex.ChatKeyed`, `ReplyIndex.ChatKeyedIsIntended` |

The relay handlers in `FeedbackBot` keep the index keyed by message id alone, so that they model the code as written.
The corrected index is stated and proved over a history of relays in `ReplyIndex`.
`MessageKeyedAgreesWhenIdsUnique` shows that the two agree on every reply to a relay message while no relay's id occurs in two chats.
Even then, a reply to a message that no relay produced in the replier's chat is answered as soon as a relay elsewhere got that id (`ForeignIdIsAnswered`). One relay is enough for that (`SingleRelayMisroutes`, `Scenarios.StrangerTakesOverSession`).

## Left out

- Transport calls (`bot.send_message`, `message.answer`, `bot.get_me`, `delete_webhook`, `start_polling`) are outside the model.
  Their outcomes are parameters: `sendResult` for a relay or reply, `unreachable` for a broadcast, `botId` and the bot's username for links and reply detection.
- Answers to the sender are enumerations. The model does not include notice text, emoji, keyboard markup, Markdown parse modes, or the exception strings embedded in replies (lines 19-25, 94, 159, 179).
- Relayed messages carry the text unchanged, and their kind (`RelayKind`) stands for the fixed prefixes "📩New Message" and "🔔Reply:" (lines 151, 176).
  Both go out with `parse_mode="Markdown"`, so Telegram rejects every text with an unbalanced `_`, `*` or `` ` ``.
  The model does not tie that failure to the text: it is one of the outcomes the unconstrained `sendResult` allows.
- The broadcast's `unreachable` set assumes each recipient's outcome depends only on the recipient.
  Each recipient is attempted exactly once, so this loses no outcome pattern.
- SQLite connections, cursors and commits (lines 28-82) are outside the model. The tables are a `set` and a `map`.
  Storage failure is not modelled. In the code, an exception from `save_reply_link` after a successful send is caught and answered with the "unavailable" notice. So is a failure of the "Sent!" answer.
- `asyncio.sleep` pacing and concurrency (lines 133, 187-193) are outside the model. Events are processed one at a time.
- Handler dispatch by aiogram filters is outside the model. This includes `button_help` (lines 113-115), which answers with fixed text, and the restriction of `handle_text` to text messages.
  The filter at line 107 has a space ("🔗 Get My Link") that the keyboard button at line 21 lacks. So pressing the button does not reach `button_get_link`: the text falls through to `handle_text`. The model covers the link string itself (`MyLink`), not which handler a text reaches.
- Digits are ASCII. Python's `str.isdigit` also accepts other Unicode digit characters, some of which make `int` raise. `ParseStartArg` treats those characters as non-digits.
- How Telegram allocates message ids is outside the model. The relayed message's id is the parameter `sendResult`.
  Telegram message ids are unique only within one chat, but the reply table keys them alone (line 42). The handlers key them alone too, so when two chats reuse an id the later relay's sender wins, as in the code (see "## Findings").
- Integers are unbounded. Ids that reach the tables come from the transport and fit SQLite's 64-bit `INTEGER`. A huge digit argument to /start is only stored in the in-memory session table, which is unbounded in Python too.
- `print`, logging and `main` (lines 15, 187-193) are outside the model.
