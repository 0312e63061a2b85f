/**
 * The values the bot package of internal/bot/bot.go passes around: the
 * Telegram update records it decodes, its own bookkeeping records, and the
 * calls it makes on the chat platform, recorded as effects.
 */
module Telegram {
  import opened Wrappers

  datatype User = User(id: int, firstName: string, lastName: string, username: string, isBot: bool)

  datatype Chat = Chat(id: int, kind: string)

  /** A message; `from` is absent for channel posts and the like. */
  datatype Message = Message(messageId: int, text: string, chat: Chat, from: Option<User>, newChatMembers: seq<User>)

  /** A button tap: who tapped, on which message, with the button's callback data. */
  datatype Callback = Callback(id: string, from: Option<User>, message: Option<Message>, data: string)

  datatype Update = Update(updateId: int, message: Option<Message>, callback: Option<Callback>)

  /** cachedMessage: a message kept for later deletion, with the instant it was cached (milliseconds). */
  datatype CachedMessage = CachedMessage(msg: Message, timestamp: int, isBot: bool, isPending: bool)

  /**
   * progressData: one verification session. `stop` names the session's stop
   * signal (a channel closed at most once in the source).
   */
  datatype ProgressData = ProgressData(stop: nat, token: string, userId: int, greetMsgId: int, msgProgressId: int)

  /** adminCacheEntry: a member status and the instant it expires (milliseconds). */
  datatype AdminEntry = AdminEntry(status: string, expiresAt: int)

  /** The calls the bot makes on the chat platform, in the order it makes them. */
  datatype Effect =
    | Send(chatId: int, text: string)
    | Edit(chatId: int, messageId: int, text: string)
    | Delete(chatId: int, messageId: int)
    | Ban(chatId: int, userId: int)
    /** A delete the bot schedules with time.AfterFunc to run after `delayMs`. */
    | DeleteAfter(chatId: int, messageId: int, delayMs: nat)

  /** The sender the bot gives to the messages it caches on its own behalf. */
  const BotSender: User := User(0, "", "", "", true)

  /** Number of ban calls in a trace. */
  function Bans(t: seq<Effect>): nat {
    if |t| == 0 then 0 else (if t[0].Ban? then 1 else 0) + Bans(t[1..])
  }

  lemma {:induction false} BansAppend(a: seq<Effect>, b: seq<Effect>)
    ensures Bans(a + b) == Bans(a) + Bans(b)
    decreases |a|
  {
    if |a| > 0 {
      assert (a + b)[1..] == a[1..] + b;
      BansAppend(a[1..], b);
    } else {
      assert a + b == b;
    }
  }

  lemma {:induction false} NoBans(t: seq<Effect>)
    requires forall i :: 0 <= i < |t| ==> !t[i].Ban?
    ensures Bans(t) == 0
    decreases |t|
  {
    if |t| > 0 {
      NoBans(t[1..]);
    }
  }
}
