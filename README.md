# tg-hamster: a verified model of the join gate

tg-hamster is a Telegram bot that keeps automated accounts out of group chats.
A user who joins is greeted with a button and a countdown; a tap on the button
by that user, carrying the right token, lets them in, and a user who has not
tapped when the countdown runs out is banned. The bot also caches the messages
a user sends while being checked, so that they can be deleted with the ban, lets
chat administrators change the countdown length with `/timeout <seconds>`, and
asks the platform whether a user is an administrator at most once per half hour.

The repository holds two implementations of that gate:

- `internal/bot` (the `Bot` type): sessions keyed by the greeting message,
  a one-second countdown edited into a progress-bar message, a stop signal
  closed by a correct tap, the message cache with its 60-second retention,
  the admin cache, retried HTTP calls, and the per-chat timeout table;
- `main.go` (the telebot variant): pending verifications keyed by
  `"<chat>:<user>"`, a button whose data is
  `verify:<chat>:<user>:<token>:<ts>`, a 60-second timer per registration
  that bans on expiry unless it was cancelled by a correct tap.

The model lives in these modules:

| file | module | what it holds |
|---|---|---|
| `wrappers.dfy` | `Wrappers` | `Option` |
| `sets.dfy` | `Sets` | a nonempty set has a member (for picking map keys in Go's unspecified order) |
| `text.dfy` | `Text` | Go's `strings.Split`, `Fields`, `HasPrefix`, `Contains`, `ToLower`, with split/join round trips |
| `decimal.dfy` | `Decimal` | `%d` formatting and `strconv.ParseInt` (digits, sign, 64-bit range errors), the `"%d:%d"` key |
| `timeout.dfy` | `Timeouts` | the `Timeouts` table as a class over a map, with clamping |
| `display.dfy` | `Display` | `progressBar` (Go's truncating division) and `nextClockEmoji` |
| `tokens.dfy` | `Tokens` | `randString` as a loop over random draws, `randomHex` and its hex round trip |
| `retry.dfy` | `Retry` | `retryHTTP` as a loop over the responses of up to three attempts |
| `types.dfy` | `Telegram` | updates, messages, callbacks, session and cache records, platform effects |
| `retention.dfy` | `Retention` | order-preserving filters, the per-user prune, the 60-second sweep |
| `bot.dfy` | `Bot` | the `Bot` class: sessions, countdown, expiry, callbacks, message cache, admin cache, `/timeout` |
| `gate.dfy` | `Gate` | the `main.go` gate as a class: pending table, timers, callback handler, pickers |

Conventions of the model:

- Calls on the chat platform are not performed. Each is appended as a value to
  the object's `trace` (send, edit, delete, ban, delete-after-a-delay).
  Message ids the platform hands back are parameters.
- Clocks and random sources are parameters. The bot's instants are integer
  milliseconds and the gate's are Unix seconds. Random draws are given as
  functions or byte sequences.
- A Go stop channel is a natural-number id. `closed` is the set of ids that
  have been closed, and `nextSignal` is the next id `make` hands out. The
  gate's timers are ids in the same way. `cancelled` holds the timers whose
  cancel function ran. A ghost `resolved` set shows that each registration
  is confirmed or expired at most once. A ghost `timers` table records each
  timer goroutine started, with the key, messages and deadline it captured.
- Go maps iterated with `range` are walked in an arbitrary order (`:|`). Every
  contract holds for every order.
- The countdown's `select` between a closed stop signal and the ticker runs
  one second at a time. A tap delivered at second `s` is handled before that
  second's `select`, so a closed signal wins.

## Model

| member | source | states |
|---|---|---|
| Timeouts.Clamp | internal/bot/timeout.go:85-91 | the stored value lies in [5, 600], equals the request when it is in range, and is the nearer bound otherwise |
| Timeouts.Timeouts.constructor | internal/bot/timeout.go:23-27 | a new table is empty and every chat reads the default of 60 s |
| Timeouts.Timeouts.Get | internal/bot/timeout.go:75-82 | the stored value for a chat with an entry, 60 otherwise |
| Timeouts.Timeouts.Set | internal/bot/timeout.go:85-95 | stores the clamped value for that chat only; a value in range reads back exactly; other chats read as before; a table of clamped values stays clamped |
| Timeouts.Timeouts.Delete | internal/bot/timeout.go:98-102 | drops the chat's entry, which then reads the default; other chats unchanged |
| Timeouts.LookupInRange | internal/bot/timeout.go:75-95 | in a table written only through Set, every chat reads a value in [5, 600] |
| Timeouts.LookupAfterStore | internal/bot/timeout.go:75-95 | after a store the chat reads the clamped value and every other chat reads its previous value |
| Timeouts.LastWriterWins | internal/bot/timeout.go:85-95 | of two stores to one chat, the later one is read back |
| Display.GoQuot | internal/bot/bot.go:856 | Go's integer division agrees with Dafny's for a non-negative dividend and a positive divisor |
| Display.ProgressBarShape | internal/bot/bot.go:851-862 | the bar is `[`, eight cells, `]`; all black when total <= 0; otherwise min(remaining*8/total, 8) green cells after the black ones |
| Display.ProgressBarExamples | internal/bot/bot_test.go:105-125 | black and green counts for (10,10), (10,5), (10,0), and the boundary cases (0,0) and (5,10) |
| Display.GreenCellsMonotone | internal/bot/bot.go:855-859 | more seconds remaining never shows fewer green cells |
| Display.GreenCellsEnds | internal/bot/bot.go:855-859 | a full countdown is all green and an exhausted one all black |
| Display.ClockFaceOf | internal/bot/bot.go:864-871 | the face is one of the 24 clock faces |
| Display.ClockPeriodic | internal/bot/bot.go:864-871 | there are 24 faces and tick i+24 shows the same face as tick i |
| Tokens.RandString | internal/bot/bot.go:615-627 | n characters, the i-th being the letter the i-th draw selects; a failed draw falls back to the clock modulo 62; every character is alphanumeric and none is `:` |
| Tokens.HexRoundTrip | main.go:272-276 | decoding the hex encoding of any bytes gives back those bytes |
| Tokens.RandomHex | main.go:272-276 | n bytes become 2n lower-case hex digits with no `:`, from which the bytes decode back |
| Retry.RetryHTTP | internal/bot/bot.go:632-649 | at most three attempts; it stops at the first without error and with a status other than 429; it reports no error iff some attempt succeeded, else the last attempt's error after three; the pauses are (i+1)*500 ms after an error and 2 s after a 429 |
| Retry.PausesBounded | internal/bot/bot.go:632-649 | the retries sleep at most 2 s per failed attempt in total |
| Retry.Pauses | internal/bot/bot.go:636-643 | one pause per failed attempt, each the one its failure calls for |
| Decimal.FormatInt | internal/bot/bot.go:267 | `%d` of an integer is nonempty, holds no `:`, and starts with a digit iff the integer is not negative |
| Decimal.ParseFormat | internal/bot/bot.go:445 | `strconv.ParseInt` reads back every 64-bit integer `%d` printed, without error |
| Decimal.PairKey | internal/bot/bot.go:809 | the `"%d:%d"` key splits at `:` into exactly the two printed numbers |
| Decimal.PairKeyInjective | main.go:223 | two different (chat, user) pairs never share a key |
| Bot.TimeoutSetTextNamesValue | internal/bot/bot.go:242 | the confirmation of `/timeout` contains the stored value |
| Bot.ParseClickData | internal/bot/bot.go:441-446 | the button's `click:<user>:<token>` data parses back to that user and token when the token has no `:` |
| Bot.StopDeletes | internal/bot/bot.go:416-421 | stopping deletes, in the session's chat, first the greeting and then the countdown message, each iff its id is known, and nothing else: one call per known id |
| Bot.FirstConfirm | internal/bot/bot.go:343-347 | the first second, within the bound, whose tap confirms the session, with no confirming tap before it; it equals the bound exactly when no tap within the bound confirms |
| Bot.TicksAt | internal/bot/bot.go:347-351 | the k-th tick edits the countdown message to the bar and clock face for timeout - k seconds left at step k; ticks never ban |
| Bot.FirstStatusFound | internal/bot/bot.go:814-837 | after the retried lookup, the status used is the one the first successful attempt reported, and none when all three failed |
| Bot.LookupStatus | internal/bot/bot.go:814-837 | the retried member lookup yields the status of the first attempt that succeeds, and nothing when all three attempts fail |
| Bot.FailedLookupNotCached | internal/bot/bot.go:832-835 | a lookup that fails on all attempts answers "not admin" and leaves the cache as it was |
| Bot.CachedVerdictReused | internal/bot/bot.go:808-845 | a successful lookup answers every query for the next 30 minutes without a new lookup; after that a fresh lookup decides |
| Bot.RequestedTimeout | internal/bot/bot.go:222-236 | a value `/timeout` would store always lies in [5, 600] |
| Bot.RequestedTimeoutOf | internal/bot/bot.go:222-236 | `/timeout <n>` with n in [5, 600] requests exactly n |
| Bot.RemoveIf | internal/bot/bot.go:572-580 | the list without the entries meeting the condition, the others in their order |
| Bot.Bot.constructor | internal/bot/bot.go:122-141 | empty tables, a fresh timeout table reading the default everywhere, no open session |
| Bot.Bot.IsUserPending | internal/bot/bot.go:599-609 | true iff some open session belongs to the user |
| Bot.Bot.FindSession | internal/bot/bot.go:449-463 | finds a session iff one is stored under the message id or has it as greeting id; the direct entry is preferred |
| Bot.Bot.StopProgressbar | internal/bot/bot.go:400-430 | an absent session changes nothing; otherwise the session is removed, its stop signal closed, the user's token removed and the known bot messages deleted; no ban; the session invariant is kept |
| Bot.Bot.HandleCallback | internal/bot/bot.go:436-479 | a tap on a session's message whose data names the tapping user and the session's token stops the session and sends a welcome deleted after 60 s; any other tap changes nothing |
| Bot.Bot.Register | internal/bot/bot.go:301-334 | sends the placeholder, caches it as the bot's own message, creates a new stop signal, and records the token and the session under the greeting id |
| Bot.Bot.HandleTap | internal/bot/bot.go:344-346 | a tap that confirms this session stops it and sends the welcome, exactly as the callback handler does; any other tap changes nothing |
| Bot.Bot.Second | internal/bot/bot.go:344-351 | one pass of the countdown's select: a confirming tap stops the session with its welcome; otherwise exactly one edit showing that second's bar and clock face, and the session stays open |
| Bot.Bot.Countdown | internal/bot/bot.go:336-353 | with s the first second within the chat's timeout whose tap confirms the session: s per-second edits of the countdown message, each showing that second's bar and clock face, then that tap's stop and welcome; with no such tap, all the timeout's edits and the session still open; cache, admin cache and signal counter unchanged; no ban |
| Bot.Bot.Expire | internal/bot/bot.go:355-393 | an absent session changes nothing; otherwise the session, its token and its stop signal are retired with the stop deletes, followed, exactly when the stop signal was still open, by one ban of the user and the deletion of the user's own-bot and pending entries in that chat, which leave the cache; admin cache and signal counter unchanged |
| Bot.Bot.BanAndClean | internal/bot/bot.go:371-392 | one ban of the user, then the deletion, in list order, of the user's bot and pending entries in that chat, which leave the cache; nothing else changes |
| Bot.Bot.StartProgressbar | internal/bot/bot.go:301-394 | the placeholder is sent and cached, a new stop signal, the token and the session are stored; the countdown runs up to the first confirming tap; when no tap within the timeout confirms, the stop deletes, one ban and the deletion of the pending entries follow; the user is banned iff no tap confirmed, and no session or token remains |
| Bot.Bot.CacheMessage | internal/bot/bot.go:485-525 | appends the message for its sender, flagged pending iff a person with an open session sent it, then drops the sender's entries older than 60 s and an emptied list |
| Bot.Bot.DeleteUserMessagesFiltered | internal/bot/bot.go:530-552 | deletes, in list order, exactly the user's entries in that chat that the filter accepts, and keeps the rest in order |
| Bot.SplitSelected | internal/bot/bot.go:538-548 | one pass over the list gives a delete call per selected entry, in list order, and keeps exactly the unselected entries, in order |
| Bot.Bot.DeletePendingMessages | internal/bot/bot.go:554-558 | deletes, in list order, the user's bot and pending entries in that chat and keeps the rest in order; a user with no list changes nothing |
| Bot.Bot.DeleteUserMessages | internal/bot/bot.go:560-564 | the same for all of the user's entries in the chat |
| Bot.Bot.DeleteUserMessagesSince | internal/bot/bot.go:566-570 | the same for entries cached at or after the instant |
| Bot.Bot.CleanupOldMessages | internal/bot/bot.go:582-596 | every user's list keeps exactly its entries no older than 60 s, emptied lists are dropped, and nothing is deleted in the chats |
| Bot.Bot.IsAdmin | internal/bot/bot.go:808-845 | an unexpired cached status answers at once; otherwise the first successful lookup decides and is cached for 30 minutes; a failed lookup answers false and caches nothing |
| Bot.Bot.HandleTimeoutCommand | internal/bot/bot.go:208-246 | only an administrator's `/timeout <n>` with n in [5, 600] changes the chat's timeout, to exactly n; non-admins, a missing argument and an out-of-range or non-numeric value each get their notice; every notice is deleted after 5 s |
| Retention.Filter | internal/bot/bot.go:572-580 | every kept entry meets the condition, and there are no more of them than entries in the list |
| Retention.FilterMembers | internal/bot/bot.go:572-580 | an entry is kept iff it is in the list and meets the condition |
| Retention.FilterPartition | internal/bot/bot.go:540-548 | the deleted and the kept entries together are exactly the list's entries, as a multiset |
| Retention.FilterIdempotent | internal/bot/bot.go:572-580 | filtering twice by one condition equals filtering once |
| Retention.SweptKeepsExactlyFresh | internal/bot/bot.go:582-596 | after a sweep an entry is cached iff it was cached before and is no older than 60 s |
| Retention.SweepIdempotent | internal/bot/bot.go:582-596 | a second sweep at the same instant changes nothing |
| Retention.CacheAppendKeepsNewest | internal/bot/bot.go:507-524 | the new message is still cached after its own eviction pass when it was stamped no earlier than 60 s before the pass |
| Retention.PruneExact | internal/bot/bot.go:530-552 | after a prune an entry is cached iff it was before and the filter did not select it |
| Retention.SplitPassFilters | internal/bot/bot.go:538-548 | the one-pass split of the list equals keeping the filter's complement and deleting the filter's selection, each in list order |
| Gate.ParseCallbackData | main.go:112-130 | the handler reads back the chat, the user and the token the button's data was built from |
| Gate.PickRandom | main.go:278-284 | "" for an empty list, otherwise an element of the list |
| Gate.PickIconForPhrase | main.go:286-309 | the icon is one of the listed icons or the teapot |
| Gate.PickIconForPeacePhrase | main_test.go:22-27 | the example phrase "Я пришёл с миром" gets the dove icon, whatever the clock reads |
| Gate.FirstRule | main.go:289-306 | the first rule, in table order, whose keywords the text contains, and none iff no rule matches |
| Gate.PickIconFollowsRules | main.go:286-309 | the icon is the first matching keyword rule's, and the clock-selected icon only when no keyword matches |
| Gate.ExpiryActions | main.go:243-262 | an expiry always bans the user |
| Gate.StaleTimerExpiresRejoin | main.go:229-241 | the timer check as written acts on a registration that is not the timer's own, before that registration's window has passed |
| Gate.ExpiryRespectsWindow | main.go:229-241 | for every started timer, with the intended check a timer that acts is its registration's own: same user and messages, firing at that registration's timestamp + 60 s, so no registration expires early |
| Gate.Gate.constructor | main.go:34-37 | no pending verification and no timer |
| Gate.Gate.HandleCallback | main.go:109-167 | foreign data is ignored; malformed data and a tap by anyone but the named user each get their alert and change nothing; a matching token removes the registration, cancels and resolves its timer, deletes the known messages and thanks the user; any other token gets an alert |
| Gate.Gate.Confirm | main.go:138-166 | confirmed iff the key is pending with that token; then the entry is removed and its timer cancelled and resolved for the first time |
| Gate.Gate.HandleNewMember | main.go:183-226 | sends the greeting with the icon and phrase caption and the button data; only a sent message stores a registration under `"<chat>:<user>"`, replacing any earlier one, and records a new timer due 60 s later |
| Gate.Gate.TimerFires | main.go:229-267 | as written: a cancelled timer, or one that finds nothing under its key, changes nothing; otherwise whatever registration is under the key is removed and resolved, the timer's messages deleted, the user banned (twice when the first ban fails) and the chat told |
| Gate.Gate.TimerFiresOwn | main.go:229-267 | with the intended check: the timer acts only while its own registration is pending, then removes and resolves that one, which it owns and whose 60 s have passed, with the same calls |
| Gate.RejoinScenario | main.go:211-267 | a user who rejoins before the first timer fires: as written the stale timer bans the user and removes the new registration before its window ends; with the intended check it does nothing and the new registration stays pending |

## Left out

- Network I/O is not modelled: the HTTP calls to the Telegram API, JSON encoding and decoding, `extractMessageID`, and the `safe*` wrappers. A send is an effect in the trace and its message id is a parameter.
- Goroutines, mutexes, tickers and `time.AfterFunc` are not modelled. Operations run one at a time, and a delayed delete is an effect that carries its delay.
- The moment in `startProgressbar` between the countdown's end and its re-read of the session (internal/bot/bot.go:356-370) is not modelled. In the model no tap can arrive there.
- The countdown has no random `select` choice. A stop signal already closed wins over that second's tick.
- Bot.Bot.Countdown: the taps are the callbacks on this session's greeting, one chance per second. Callbacks on other messages run in their own goroutines and are not interleaved with the countdown.
- Bot.Bot.Expire: the ban is one effect. Whether it goes through `BanUserFunc` or through the retried `banChatMember` request, and whether that request succeeded, are not modelled.
- Timeouts.Timeouts: `Load`, `Save` and `String` are file I/O and formatting, so they are left out. `/timeout` saving the table is left out with them.
- `StartWithContext`, `handleUpdate`, `handleJoinMessage`, the logger and the command-line entry point are not part of this model. They are the wiring around the core.
- Text.ToLower lower-cases ASCII and Cyrillic letters only. That covers every keyword and phrase of the gate, not all of Unicode.
- Display.ProgressBar: `remaining*8` is unbounded. The model does not capture Go's 64-bit overflow for very large countdowns.
- Display.NextClockEmoji requires a non-negative tick. Go's `%` on a negative tick would index out of range, and the countdown never passes one.
- Tokens.RandString: the model takes as given that `rand.Int` stays below 62 and that the clock reads after 1970.
- Gate.PickRandom, Gate.PickIconForPhrase: the clock reading is a natural number. A clock before 1970, where Go's `%` would go negative, is not modelled.
- Gate.Gate.HandleNewMember requires exactly 8 bytes of entropy, because `randomHex(8)` always draws 8. A failed `rand.Read` is not modelled.
- Bot.Bot.IsAdmin: a cache entry lives until 30 minutes after the lookup finished (`done`). The model does not capture the unsynchronized access to `adminCache` from several goroutines.
- Retry.RetryHTTP counts every status other than 429 as success, as the code does, so a 5xx reply ends the retries without an error.
- Bot.Bot.CleanupOldMessages only evicts cache entries (internal/bot/bot.go:582-596); nothing is deleted in the chats.
- Bot.Bot.HandleCallback deletes only the greeting and the countdown message on a confirmation (internal/bot/bot.go:416-421); the user's pending messages stay in the chat and in the cache.
- `handleNewMember` does not reject a second join of a user who is still pending (main.go:223-226): a rejoin replaces the registration.
- internal/bot/timeout_test.go:13-16 expects `Set(0, 0)` to read back 0. The code clamps it to 5, and the model follows the code.
- main_test.go calls `progressBar`, `pickPhrase` and `randHex`, which main.go does not define. Those tests have no counterpart here.

## Findings

| source | as written | input that shows it | evidently intended | confidence | as-written member | corrected member |
|---|---|---|---|---|---|---|
| main.go:229-241 | the expiry timer checks only that some registration is pending under `"<chat>:<user>"`. Replacing a registration never cancels the old one's timer | a user joins at t=0 and again at t=50 before tapping; the first timer fires at t=60, finds the second registration, removes it, deletes the first messages and bans 10 s into the new 60 s window, leaving the new verification message in place; Gate.RejoinScenario runs this through both timer methods | a timer acts only on its own registration | not executed | Gate.Gate.TimerFires | Gate.Gate.TimerFiresOwn |
