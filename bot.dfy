/**
 * The Bot of internal/bot/bot.go: its verification sessions (progressStore,
 * activeTokens), its message retention cache (userMessages), its admin cache
 * and the /timeout command. Calls on the chat platform are appended to
 * `trace`; message ids the platform hands back are parameters; instants are
 * integer milliseconds.
 */
module Bot {
  import opened Wrappers
  import opened Telegram
  import opened Retention
  import Text
  import Decimal
  import Display
  import Retry
  import Sets
  import T = Timeouts

  const ProgressPlaceholder: string := "\U{23F3}\U{23F3}\U{23F3}\U{23F3}\U{23F3}\U{23F3}\U{23F3}\U{23F3}"
  const WelcomeDeleteMs: nat := 60_000
  const NoticeDeleteMs: nat := 5_000
  const AdminTtlMs: int := 30 * 60 * 1000

  const NotAdminText: string := "\U{274C} Только администратор может задавать таймаут"
  const UsageText: string := "\U{2699}\U{FE0F} Использование: /timeout <секунд>"
  const RangeText: string := "\U{2699}\U{FE0F} Укажите значение от 5 до 600 секунд"

  function TimeoutSetText(seconds: int): string {
    "\U{2705} Таймаут установлен: " + Decimal.FormatInt(seconds) + " сек."
  }

  /** The confirmation sent after /timeout names the value that was stored. */
  lemma TimeoutSetTextNamesValue(seconds: int)
    ensures Text.Contains(TimeoutSetText(seconds), Decimal.FormatInt(seconds))
  {
    var prefix := "\U{2705} Таймаут установлен: ";
    var s := TimeoutSetText(seconds);
    var v := Decimal.FormatInt(seconds);
    assert s[|prefix|..|prefix| + |v|] == v;
    Text.ContainsAt(s, v, |prefix|);
  }

  function WelcomeText(firstName: string): string {
    "\U{2728} " + firstName + ", добро пожаловать!"
  }

  /** The countdown line: "⏳ Осталось: <bar> <clock>". */
  function CountdownText(total: int, remaining: int, step: nat): string
    requires 0 < remaining <= total
  {
    "\U{23F3} Осталось: " + Display.ProgressBar(total, remaining) + " " + Display.NextClockEmoji(step)
  }

  /** The confirmation button's callback data, "click:<user>:<token>". */
  function ClickData(userId: int, token: string): string {
    "click:" + Decimal.FormatInt(userId) + ":" + token
  }

  /**
   * handleCallback's parse of callback data: exactly three ':'-separated
   * fields, the first "click"; the user id parsed with its error ignored.
   */
  function ParseClick(data: string): Option<(int, string)> {
    var parts := Text.Split(data, ':');
    if |parts| != 3 || parts[0] != "click" then None
    else Some((Decimal.ParseInt(parts[1]).value, parts[2]))
  }

  /** Parsing the button's own data recovers the user and the token. */
  lemma ParseClickData(userId: int, token: string)
    requires Decimal.IsInt64(userId) && ':' !in token
    ensures ParseClick(ClickData(userId, token)) == Some((userId, token))
  {
    var parts := ["click", Decimal.FormatInt(userId), token];
    Text.SplitJoin(parts, ':');
    assert Text.Join(parts, ':') == ClickData(userId, token) by {
      assert Text.Join(parts[2..], ':') == token;
      assert parts[1..][1..] == parts[2..];
    }
    Decimal.ParseFormat(userId);
  }

  /** Data that does not split into three fields headed "click" is never accepted. */
  lemma ParseClickRejects(data: string)
    requires |Text.Split(data, ':')| != 3 || Text.Split(data, ':')[0] != "click"
    ensures ParseClick(data).None?
  {
  }

  /** The tap `cb` confirms a session with token `token`: its sender is the user named in the data and the token matches. */
  predicate Accepts(cb: Callback, token: string) {
    cb.message.Some? && cb.from.Some? && ParseClick(cb.data) == Some((cb.from.value.id, token))
  }

  /**
   * The deletes stopProgressbar makes: the greeting, then the countdown
   * message, each only when its id is known (non-zero), and nothing else.
   */
  function StopDeletes(chatId: int, p: ProgressData): (t: seq<Effect>)
    ensures forall i :: 0 <= i < |t| ==> t[i].Delete? && t[i].chatId == chatId
    ensures |t| == (if p.greetMsgId != 0 then 1 else 0) + (if p.msgProgressId != 0 then 1 else 0)
    ensures p.greetMsgId != 0 ==> t[0] == Delete(chatId, p.greetMsgId)
    ensures p.msgProgressId != 0 ==> t[|t| - 1] == Delete(chatId, p.msgProgressId)
    ensures Delete(chatId, p.greetMsgId) in t <==> p.greetMsgId != 0
    ensures Delete(chatId, p.msgProgressId) in t <==> p.msgProgressId != 0
  {
    (if p.greetMsgId != 0 then [Delete(chatId, p.greetMsgId)] else [])
    + (if p.msgProgressId != 0 then [Delete(chatId, p.msgProgressId)] else [])
  }

  /** deletePendingMessages' filter: bot messages and messages sent while a session was open. */
  function PendingFilter(): CachedMessage -> bool {
    (m: CachedMessage) => m.isBot || m.isPending
  }

  /** deleteUserMessages' filter: everything. */
  function AllFilter(): CachedMessage -> bool {
    (m: CachedMessage) => true
  }

  /** deleteUserMessagesSince's filter: messages not cached before `since`. */
  function SinceFilter(since: int): CachedMessage -> bool {
    (m: CachedMessage) => !(m.timestamp < since)
  }

  /** A tap that the countdown model delivers at one second, with the id the platform gives the welcome message. */
  datatype Tap = Tap(cb: Callback, welcomeId: int)

  /** A correct tap on the session greeted by `greetMsgId` with token `token`. */
  predicate Confirms(tap: Option<Tap>, greetMsgId: int, token: string) {
    tap.Some? && Accepts(tap.value.cb, token)
    && tap.value.cb.message.value.messageId == greetMsgId
  }

  /** Some tap delivered in the first `seconds` seconds is a correct one. */
  predicate ConfirmedWithin(taps: seq<Option<Tap>>, seconds: int, greetMsgId: int, token: string) {
    exists s :: 0 <= s < seconds && s < |taps| && Confirms(taps[s], greetMsgId, token)
  }

  lemma ConfirmedStep(taps: seq<Option<Tap>>, step: nat, greetMsgId: int, token: string)
    ensures ConfirmedWithin(taps, step + 1, greetMsgId, token)
            <==> ConfirmedWithin(taps, step, greetMsgId, token) || (step < |taps| && Confirms(taps[step], greetMsgId, token))
  {
  }

  lemma ConfirmedMonotone(taps: seq<Option<Tap>>, a: int, b: int, greetMsgId: int, token: string)
    requires a <= b
    ensures ConfirmedWithin(taps, a, greetMsgId, token) ==> ConfirmedWithin(taps, b, greetMsgId, token)
  {
  }

  /**
   * The second at which the countdown stops for a tap: the first second
   * from `from` on, below `bound`, whose tap confirms the session, or the
   * end of the countdown when there is none.
   */
  function FirstConfirm(taps: seq<Option<Tap>>, greetMsgId: int, token: string, bound: int, from: nat): (s: nat)
    requires !ConfirmedWithin(taps, from, greetMsgId, token)
    ensures from <= s && (s <= bound || s == from)
    ensures !ConfirmedWithin(taps, s, greetMsgId, token)
    ensures s < bound ==> s < |taps| && Confirms(taps[s], greetMsgId, token)
    ensures ConfirmedWithin(taps, bound, greetMsgId, token) <==> s < bound
    decreases bound - from
  {
    ConfirmedStep(taps, from, greetMsgId, token);
    if from >= bound then
      ConfirmedMonotone(taps, bound, from, greetMsgId, token);
      from
    else if from < |taps| && Confirms(taps[from], greetMsgId, token) then
      ConfirmedMonotone(taps, from + 1, bound, greetMsgId, token);
      from
    else
      FirstConfirm(taps, greetMsgId, token, bound, from + 1)
  }

  /** A second at which a tap confirms, with none before it, is the one FirstConfirm finds. */
  lemma FirstConfirmAt(taps: seq<Option<Tap>>, greetMsgId: int, token: string, bound: int, s: nat)
    requires s < bound && s < |taps| && Confirms(taps[s], greetMsgId, token)
    requires !ConfirmedWithin(taps, s, greetMsgId, token)
    ensures FirstConfirm(taps, greetMsgId, token, bound, 0) == s
  {
    var f := FirstConfirm(taps, greetMsgId, token, bound, 0);
    if f < s {
      assert ConfirmedWithin(taps, s, greetMsgId, token) by {
        assert 0 <= f < s && f < |taps| && Confirms(taps[f], greetMsgId, token);
      }
    }
  }

  /**
   * The countdown's edits of the first `n` seconds: at second k the bar for
   * `total - k` seconds remaining and the k-th clock face.
   */
  function Ticks(chatId: int, progressId: int, total: int, n: nat): (t: seq<Effect>)
    requires n == 0 || n <= total
    ensures |t| == n
  {
    if n == 0 then [] else Ticks(chatId, progressId, total, n - 1) + [Edit(chatId, progressId, CountdownText(total, total - (n - 1), n - 1))]
  }

  /** Edit k of the countdown shows the bar for `total - k` seconds remaining and the k-th clock face, and is no ban. */
  lemma {:induction false} TicksAt(chatId: int, progressId: int, total: int, n: nat)
    requires n == 0 || n <= total
    ensures forall k :: 0 <= k < n ==> Ticks(chatId, progressId, total, n)[k] == Edit(chatId, progressId, CountdownText(total, total - k, k))
    ensures Bans(Ticks(chatId, progressId, total, n)) == 0
  {
    if n > 0 {
      TicksAt(chatId, progressId, total, n - 1);
      var prev := Ticks(chatId, progressId, total, n - 1);
      var t := Ticks(chatId, progressId, total, n);
      assert t == prev + [Edit(chatId, progressId, CountdownText(total, total - (n - 1), n - 1))];
      forall k | 0 <= k < n
        ensures t[k] == Edit(chatId, progressId, CountdownText(total, total - k, k))
      {
        if k < n - 1 {
          assert t[k] == prev[k];
        }
      }
      NoBans(t);
    }
  }

  /** The calls of an accepted tap: the session's deletes, then the welcome and its deletion after 60 s. */
  function WelcomeEffects(cb: Callback, welcomeId: int, p: ProgressData): seq<Effect>
    requires cb.message.Some? && cb.from.Some?
  {
    var chatId := cb.message.value.chat.id;
    StopDeletes(chatId, p) + [Send(chatId, WelcomeText(cb.from.value.firstName)), DeleteAfter(chatId, welcomeId, WelcomeDeleteMs)]
  }

  /** The deletes deletePendingMessages makes for the user in the chat, in list order. */
  function PendingDeletes(m: map<int, seq<CachedMessage>>, chatId: int, userId: int): seq<Effect> {
    if userId in m then DeletesOf(chatId, Filter(m[userId], Selected(chatId, PendingFilter()))) else []
  }

  /** The calls of the timeout branch after the stop: the ban, then deletePendingMessages' deletes. */
  function BanEffects(m: map<int, seq<CachedMessage>>, chatId: int, userId: int): seq<Effect> {
    [Ban(chatId, userId)] + PendingDeletes(m, chatId, userId)
  }

  /** The calls of the end of startProgressbar for a session still registered: its deletes, then the ban branch when it timed out. */
  function ExpireEffects(m: map<int, seq<CachedMessage>>, chatId: int, userId: int, p: ProgressData, banned: bool): seq<Effect> {
    StopDeletes(chatId, p) + (if banned then BanEffects(m, chatId, userId) else [])
  }

  /** The session tables a countdown changes: the sessions, the closed signals, the tokens and the calls made. */
  datatype Sessions = Sessions(progress: map<int, ProgressData>, closed: set<nat>, activeTokens: map<int, string>,
                               trace: seq<Effect>)

  /** The tables with `calls` made. */
  function Appended(t: Sessions, calls: seq<Effect>): Sessions {
    t.(trace := t.trace + calls)
  }

  /** The tables once session p, stored under `key`, is resolved: removed, its signal closed, its token dropped, and `calls` made. */
  function Resolved(t: Sessions, key: int, p: ProgressData, calls: seq<Effect>): Sessions {
    Sessions(t.progress - {key}, t.closed + {p.stop}, t.activeTokens - {p.userId}, t.trace + calls)
  }

  /**
   * The tables after `step` seconds of the countdown of session p: one edit
   * per second so far, and when `stopped`, the calls of the confirming tap of
   * second `step`, which resolves the session.
   */
  function CountedTo(t: Sessions, chatId: int, progressId: int, timeout: int, taps: seq<Option<Tap>>, p: ProgressData,
                     step: nat, stopped: bool): Sessions
    requires step == 0 || step <= timeout
    requires stopped ==> step < |taps| && Confirms(taps[step], p.greetMsgId, p.token)
  {
    var counted := Appended(t, Ticks(chatId, progressId, timeout, step));
    if stopped then Resolved(counted, p.greetMsgId, p, WelcomeEffects(taps[step].value.cb, taps[step].value.welcomeId, p))
    else counted
  }

  /** Without a confirming tap the countdown runs to the timeout (or not at all for a non-positive one). */
  lemma FirstConfirmNone(taps: seq<Option<Tap>>, greetMsgId: int, token: string, bound: int, n: nat)
    requires n == (if bound > 0 then bound else 0)
    requires !ConfirmedWithin(taps, n, greetMsgId, token)
    ensures FirstConfirm(taps, greetMsgId, token, bound, 0) == n
  {
    ConfirmedMonotone(taps, bound, n, greetMsgId, token);
  }

  /** The cache after deletePendingMessages. */
  function PendingPruned(m: map<int, seq<CachedMessage>>, chatId: int, userId: int): map<int, seq<CachedMessage>> {
    if userId in m then Prune(m, userId, Selected(chatId, PendingFilter())) else m
  }

  /** The cache after startProgressbar records its countdown message as the bot's. */
  function WithProgressEntry(m: map<int, seq<CachedMessage>>, chatId: int, userId: int, progressId: int, now: int)
    : map<int, seq<CachedMessage>>
  {
    m[userId := (if userId in m then m[userId] else []) + [ProgressEntry(chatId, progressId, now)]]
  }

  /** What getChatMember returns: a transport error, an undecodable body, or a reply with its status code and member status. */
  datatype LookupReply = LookupFailed(reason: string) | Undecodable(reason: string) | Member(code: int, status: string)

  function AsResponse(r: LookupReply): Retry.Response {
    match r
    case LookupFailed(reason) => Retry.Failed(reason)
    case Undecodable(reason) => Retry.Failed(reason)
    case Member(code, _) => Retry.Status(code)
  }

  predicate IsAdminStatus(status: string) {
    status == "creator" || status == "administrator"
  }

  /** The member status the first successful lookup among attempts i..2 reports, if any succeeds. */
  function FirstStatus(reply: nat -> LookupReply, i: nat): (r: Option<string>)
    decreases Retry.MaxAttempts - i
  {
    if i >= Retry.MaxAttempts then None
    else if Retry.Succeeds(AsResponse(reply(i))) then Some(reply(i).status)
    else FirstStatus(reply, i + 1)
  }

  /** What isAdmin answers: a cached, unexpired status if there is one, else a fresh lookup, else false. */
  function AdminVerdict(cache: map<string, AdminEntry>, key: string, now: int, reply: nat -> LookupReply): bool {
    if key in cache && now < cache[key].expiresAt then IsAdminStatus(cache[key].status)
    else
      match FirstStatus(reply, 0)
      case Some(status) => IsAdminStatus(status)
      case None => false
  }

  /**
   * The cache after isAdmin: a successful lookup is stored until 30 minutes
   * after `done`, the instant the lookup finished; a hit or a failure stores nothing.
   */
  function AdminCacheAfter(cache: map<string, AdminEntry>, key: string, now: int, done: int, reply: nat -> LookupReply): map<string, AdminEntry> {
    if key in cache && now < cache[key].expiresAt then cache
    else
      match FirstStatus(reply, 0)
      case Some(status) => cache[key := AdminEntry(status, done + AdminTtlMs)]
      case None => cache
  }

  /** A failed lookup never stores an entry, and the answer is then false (fail closed). */
  lemma FailedLookupNotCached(cache: map<string, AdminEntry>, key: string, now: int, done: int, reply: nat -> LookupReply)
    requires !(key in cache && now < cache[key].expiresAt)
    requires forall i :: 0 <= i < Retry.MaxAttempts ==> !Retry.Succeeds(AsResponse(reply(i)))
    ensures AdminCacheAfter(cache, key, now, done, reply) == cache
    ensures !AdminVerdict(cache, key, now, reply)
  {
    assert FirstStatus(reply, 2) == None;
    assert FirstStatus(reply, 1) == None;
  }

  /**
   * A status looked up successfully is reused without a lookup for 30 minutes
   * after the lookup finished, and looked up afresh from then on.
   */
  lemma CachedVerdictReused(cache: map<string, AdminEntry>, key: string, now: int, done: int, later: int, later2: int,
                            reply: nat -> LookupReply, reply2: nat -> LookupReply)
    requires !(key in cache && now < cache[key].expiresAt)
    requires FirstStatus(reply, 0).Some?
    ensures var c := AdminCacheAfter(cache, key, now, done, reply);
            (later < done + AdminTtlMs ==>
               AdminVerdict(c, key, later, reply2) == AdminVerdict(cache, key, now, reply)
               && AdminCacheAfter(c, key, later, later2, reply2) == c)
            && (later >= done + AdminTtlMs ==>
               AdminVerdict(c, key, later, reply2) == AdminVerdict(map[], key, later, reply2))
  {
  }

  /**
   * The seconds value /timeout stores for a command text: the second
   * white-space separated field parsed as a decimal integer, only in [5, 600].
   */
  function RequestedTimeout(text: string): (r: Option<int>)
    ensures r.Some? ==> T.MinTimeoutSec <= r.value <= T.MaxTimeoutSec
  {
    var parts := Text.Fields(text);
    if |parts| < 2 then None
    else
      var parsed := Decimal.ParseInt(parts[1]);
      if parsed.err.Some? || parsed.value < 5 || parsed.value > 600 then None
      else Some(parsed.value)
  }

  /** "/timeout <n>" with n in [5, 600] asks for exactly n. */
  lemma RequestedTimeoutOf(n: int)
    requires T.MinTimeoutSec <= n <= T.MaxTimeoutSec
    ensures RequestedTimeout("/timeout " + Decimal.FormatInt(n)) == Some(n)
  {
    var cmd := "/timeout";
    var v := Decimal.FormatInt(n);
    assert forall i :: 0 <= i < |cmd| ==> !Text.IsSpace(cmd[i]) by {
      forall i | 0 <= i < |cmd| ensures !Text.IsSpace(cmd[i]) {
        assert cmd[i] in {'/', 't', 'i', 'm', 'e', 'o', 'u'};
      }
    }
    assert forall i :: 0 <= i < |v| ==> !Text.IsSpace(v[i]) by {
      forall i | 0 <= i < |v| ensures !Text.IsSpace(v[i]) {
        assert Decimal.IsDigit(v[i]);
      }
    }
    Text.TwoFields(cmd, v);
    assert "/timeout " + v == cmd + " " + v;
    Decimal.ParseFormat(n);
    assert Decimal.ParseInt(v) == Decimal.Parsed(n, None);
  }

  /** removeIf: the list without the entries that satisfy `cond`, the others in their order. */
  method RemoveIf<E>(l: seq<E>, cond: E -> bool) returns (r: seq<E>)
    ensures r == Filter(l, Not(cond))
  {
    r := [];
    var i := 0;
    while i < |l|
      invariant 0 <= i <= |l|
      invariant r == Filter(l[..i], Not(cond))
    {
      assert l[..i + 1][..i] == l[..i];
      if !cond(l[i]) {
        r := r + [l[i]];
      }
      i := i + 1;
    }
    assert l[..|l|] == l;
  }

  /**
   * The loop of deleteUserMessagesFiltered over one list: a delete call for
   * each selected entry, in list order, and the unselected entries in order.
   */
  method SplitSelected(chatId: int, msgs: seq<CachedMessage>, selected: CachedMessage -> bool)
    returns (kept: seq<CachedMessage>, deletes: seq<Effect>)
    ensures kept == Filter(msgs, Not(selected))
    ensures deletes == DeletesOf(chatId, Filter(msgs, selected))
  {
    kept := [];
    deletes := [];
    var i := 0;
    while i < |msgs|
      invariant 0 <= i <= |msgs|
      invariant (kept, deletes) == SplitPass(chatId, msgs[..i], selected)
    {
      assert msgs[..i + 1][..i] == msgs[..i];
      var m := msgs[i];
      if selected(m) {
        deletes := deletes + [Delete(chatId, m.msg.messageId)];
      } else {
        kept := kept + [m];
      }
      i := i + 1;
    }
    assert msgs[..|msgs|] == msgs;
    SplitPassFilters(chatId, msgs, selected);
  }

  /** The bot's record of its own countdown message, as cached by startProgressbar. */
  function ProgressEntry(chatId: int, progressId: int, now: int): CachedMessage {
    CachedMessage(Message(progressId, "", Chat(chatId, ""), Some(BotSender), []), now, true, false)
  }

  /** Some registered session belongs to `userId`. */
  ghost predicate HasSession(progress: map<int, ProgressData>, userId: int) {
    exists g :: g in progress && progress[g].userId == userId
  }

  /** The tap resolves the session registered under the tapped message's id. */
  ghost predicate Resolves(progress: map<int, ProgressData>, cb: Callback) {
    cb.message.Some? && cb.from.Some? && cb.message.value.messageId in progress
    && Accepts(cb, progress[cb.message.value.messageId].token)
  }

  /**
   * Sessions are stored under their greeting id, and each holds its own
   * stop signal, created before and not yet closed.
   */
  ghost predicate SessionsValid(progress: map<int, ProgressData>, closed: set<nat>, nextSignal: nat) {
    (forall g :: g in progress ==> progress[g].greetMsgId == g)
    && (forall g :: g in progress ==> progress[g].stop < nextSignal && progress[g].stop !in closed)
    && (forall g, h :: g in progress && h in progress && g != h ==> progress[g].stop != progress[h].stop)
    && (forall s :: s in closed ==> s < nextSignal)
  }

  /** Resolving one session (removing it and closing its signal) keeps the others valid. */
  lemma ResolveKeepsValid(progress: map<int, ProgressData>, closed: set<nat>, nextSignal: nat, g: int)
    requires SessionsValid(progress, closed, nextSignal) && g in progress
    ensures SessionsValid(progress - {g}, closed + {progress[g].stop}, nextSignal)
  {
  }

  class Bot {
    const timeouts: T.Timeouts
    /** progressStore.data: the open sessions, keyed by greeting-message id. */
    var progress: map<int, ProgressData>
    var activeTokens: map<int, string>
    /** userMessages: each user's cached messages, oldest first. */
    var userMessages: map<int, seq<CachedMessage>>
    var adminCache: map<string, AdminEntry>
    /** The stop signals closed so far. */
    var closed: set<nat>
    /** The next stop signal make(chan struct{}) creates. */
    var nextSignal: nat
    /** The calls made on the chat platform so far. */
    var trace: seq<Effect>

    /** The tables a countdown changes. */
    function Tables(): Sessions
      reads this
    {
      Sessions(progress, closed, activeTokens, trace)
    }

    /** The session invariant over this bot's tables. */
    ghost predicate Valid()
      reads this
    {
      SessionsValid(progress, closed, nextSignal)
    }

    /** NewBot: empty tables and a new timeout table, where every chat reads the default. */
    constructor ()
      ensures fresh(timeouts) && timeouts.data == map[]
      ensures forall c :: timeouts.Get(c) == T.DefaultTimeoutSec
      ensures progress == map[] && activeTokens == map[] && userMessages == map[] && adminCache == map[]
      ensures trace == [] && closed == {}
      ensures Valid()
    {
      timeouts := new T.Timeouts();
      progress := map[];
      activeTokens := map[];
      userMessages := map[];
      adminCache := map[];
      closed := {};
      nextSignal := 0;
      trace := [];
    }

    /** isUserPending: some open session belongs to the user. */
    method IsUserPending(userId: int) returns (pending: bool)
      ensures pending <==> HasSession(progress, userId)
    {
      var keys := progress.Keys;
      while keys != {}
        invariant keys <= progress.Keys
        invariant forall g :: g in progress && g !in keys ==> progress[g].userId != userId
      {
        Sets.NonEmpty(keys);
        var g :| g in keys;
        if progress[g].userId == userId {
          return true;
        }
        keys := keys - {g};
      }
      return false;
    }

    /**
     * handleCallback's session lookup: the session stored under the message
     * id, else any session whose greeting id is the message id (in map order).
     */
    method FindSession(msgId: int) returns (found: bool, p: ProgressData)
      ensures found <==> msgId in progress || exists g :: g in progress && progress[g].greetMsgId == msgId
      ensures msgId in progress ==> p == progress[msgId]
      ensures found && msgId !in progress ==> p.greetMsgId == msgId && p in progress.Values
    {
      if msgId in progress {
        return true, progress[msgId];
      }
      p := ProgressData(0, "", 0, 0, 0);
      var keys := progress.Keys;
      while keys != {}
        invariant keys <= progress.Keys
        invariant forall g :: g in progress && g !in keys ==> progress[g].greetMsgId != msgId
      {
        Sets.NonEmpty(keys);
        var g :| g in keys;
        if progress[g].greetMsgId == msgId {
          return true, progress[g];
        }
        keys := keys - {g};
      }
      return false, p;
    }

    /**
     * stopProgressbar: resolves the session once. An absent session is a
     * no-op; otherwise its stop signal is closed, the entry and the user's
     * token removed, and the known bot messages deleted.
     */
    method StopProgressbar(chatId: int, greetMsgId: int)
      modifies this
      ensures greetMsgId !in progress
      ensures greetMsgId !in old(progress) ==> unchanged(this)
      ensures greetMsgId in old(progress) ==>
                var p := old(progress)[greetMsgId];
                progress == old(progress) - {greetMsgId}
                && closed == old(closed) + {p.stop}
                && activeTokens == old(activeTokens) - {p.userId}
                && trace == old(trace) + StopDeletes(chatId, p)
      ensures userMessages == old(userMessages) && adminCache == old(adminCache) && nextSignal == old(nextSignal)
      ensures Bans(trace) == Bans(old(trace))
      ensures old(Valid()) ==> Valid()
    {
      if greetMsgId !in progress {
        return;
      }
      var p := progress[greetMsgId];
      if Valid() {
        ResolveKeepsValid(progress, closed, nextSignal, greetMsgId);
      }
      BansAppend(trace, StopDeletes(chatId, p));
      NoBans(StopDeletes(chatId, p));
      // stopOnce: closing a signal that is already closed changes nothing
      closed := closed + {p.stop};
      progress := progress - {greetMsgId};
      trace := trace + StopDeletes(chatId, p);
      activeTokens := activeTokens - {p.userId};
    }

    /**
     * handleCallback: a tap resolves the session of the tapped message when
     * its data names the tapping user and the session's token; the user is
     * then welcomed with a message deleted after 60 s. Any other tap changes
     * nothing.
     */
    method HandleCallback(cb: Callback, welcomeId: int)
      requires Valid()
      modifies this
      ensures Valid()
      ensures !Resolves(old(progress), cb) ==> unchanged(this)
      ensures Resolves(old(progress), cb) ==>
                var chatId := cb.message.value.chat.id;
                var g := cb.message.value.messageId;
                var p := old(progress)[g];
                progress == old(progress) - {g}
                && closed == old(closed) + {p.stop}
                && activeTokens == old(activeTokens) - {p.userId}
                && trace == old(trace) + WelcomeEffects(cb, welcomeId, p)
      ensures userMessages == old(userMessages) && adminCache == old(adminCache) && nextSignal == old(nextSignal)
      ensures Bans(trace) == Bans(old(trace))
    {
      if cb.message.None? || cb.from.None? {
        return;
      }
      var parsed := ParseClick(cb.data);
      if parsed.None? {
        return;
      }
      var (userId, token) := parsed.value;
      var found, p := FindSession(cb.message.value.messageId);
      if !found {
        return;
      }
      if cb.from.value.id != userId || p.token != token {
        return;
      }
      var chatId := cb.message.value.chat.id;
      StopProgressbar(chatId, p.greetMsgId);
      ghost var stopped := trace;
      var welcome := [Send(chatId, WelcomeText(cb.from.value.firstName)), DeleteAfter(chatId, welcomeId, WelcomeDeleteMs)];
      trace := trace + welcome;
      BansAppend(stopped, welcome);
      NoBans(welcome);
    }

    /**
     * The first half of startProgressbar: send the placeholder countdown
     * message, cache it as the bot's, create the stop signal and record the
     * token and the session.
     */
    method Register(chatId: int, greetMsgId: int, userId: int, token: string, progressId: int, now: int)
      returns (stop: nat)
      requires Valid()
      modifies this
      ensures Valid()
      ensures stop == old(nextSignal) && stop !in closed && nextSignal == stop + 1
      ensures progress == old(progress)[greetMsgId := ProgressData(stop, token, userId, greetMsgId, progressId)]
      ensures activeTokens == old(activeTokens)[userId := token]
      ensures userMessages == WithProgressEntry(old(userMessages), chatId, userId, progressId, now)
      ensures trace == old(trace) + [Send(chatId, ProgressPlaceholder)]
      ensures Bans(trace) == Bans(old(trace))
      ensures closed == old(closed) && adminCache == old(adminCache)
    {
      BansAppend(trace, [Send(chatId, ProgressPlaceholder)]);
      trace := trace + [Send(chatId, ProgressPlaceholder)];
      var list := if userId in userMessages then userMessages[userId] else [];
      userMessages := userMessages[userId := list + [ProgressEntry(chatId, progressId, now)]];
      stop := nextSignal;
      nextSignal := nextSignal + 1;
      activeTokens := activeTokens[userId := token];
      progress := progress[greetMsgId := ProgressData(stop, token, userId, greetMsgId, progressId)];
    }

    /**
     * A tap on the greeting of the session greeted by `greetMsgId`, delivered
     * during its countdown: handleCallback resolves that session exactly when
     * the tap confirms it, and otherwise nothing changes.
     */
    method HandleTap(tap: Option<Tap>, greetMsgId: int, ghost p: ProgressData)
      requires Valid() && greetMsgId in progress && progress[greetMsgId] == p && p.stop !in closed
      modifies this
      ensures Valid()
      ensures Bans(trace) == Bans(old(trace))
      ensures !Confirms(tap, greetMsgId, p.token) ==> unchanged(this)
      ensures Confirms(tap, greetMsgId, p.token) ==>
                progress == old(progress) - {greetMsgId}
                && closed == old(closed) + {p.stop}
                && activeTokens == old(activeTokens) - {p.userId}
                && trace == old(trace) + WelcomeEffects(tap.value.cb, tap.value.welcomeId, p)
      ensures userMessages == old(userMessages) && adminCache == old(adminCache) && nextSignal == old(nextSignal)
    {
      if tap.Some? && tap.value.cb.message.Some? && tap.value.cb.message.value.messageId == greetMsgId {
        HandleCallback(tap.value.cb, tap.value.welcomeId);
      }
    }

    /**
     * One second of the countdown: the tap of that second is handled; a
     * confirming tap stops the countdown, else the countdown message is
     * edited with the bar for the seconds remaining and the clock face.
     */
    method Second(chatId: int, progressId: int, timeout: int, remaining: int, step: nat, stop: nat,
                  tap: Option<Tap>, greetMsgId: int, ghost p: ProgressData)
      returns (stopped: bool)
      requires Valid() && greetMsgId in progress && progress[greetMsgId] == p && p.stop == stop && stop !in closed
      requires 0 < remaining <= timeout && step == timeout - remaining
      modifies this
      ensures Valid()
      ensures Bans(trace) == Bans(old(trace))
      ensures stopped == Confirms(tap, greetMsgId, p.token)
      ensures stopped ==> Tables() == Resolved(old(Tables()), greetMsgId, p, WelcomeEffects(tap.value.cb, tap.value.welcomeId, p))
      ensures !stopped ==>
                Tables() == Appended(old(Tables()), [Edit(chatId, progressId, CountdownText(timeout, remaining, step))])
                && greetMsgId in progress && progress[greetMsgId] == p && stop !in closed
      ensures userMessages == old(userMessages) && adminCache == old(adminCache) && nextSignal == old(nextSignal)
    {
      HandleTap(tap, greetMsgId, p);
      stopped := stop in closed;
      if !stopped {
        var line := [Edit(chatId, progressId, CountdownText(timeout, remaining, step))];
        BansAppend(trace, line);
        trace := trace + line;
      }
    }

    /**
     * The countdown loop of startProgressbar, one iteration per second: the
     * tap delivered at that second (if any) is handled first; then a closed
     * stop signal ends the loop, else the countdown message is edited with
     * the bar and the clock face. The loop stops at the first confirming tap
     * within the timeout, after one edit per earlier second; without one it
     * edits once per second of the timeout and leaves the session open.
     */
    method Countdown(chatId: int, progressId: int, stop: nat, taps: seq<Option<Tap>>, greetMsgId: int)
      requires Valid()
      requires greetMsgId in progress && progress[greetMsgId].stop == stop
      modifies this
      ensures Valid()
      ensures var p := old(progress)[greetMsgId];
              var timeout := timeouts.Get(chatId);
              var s := FirstConfirm(taps, greetMsgId, p.token, timeout, 0);
              Tables() == CountedTo(old(Tables()), chatId, progressId, timeout, taps, p, s, s < timeout)
      ensures userMessages == old(userMessages) && adminCache == old(adminCache) && nextSignal == old(nextSignal)
      ensures Bans(trace) == Bans(old(trace))
    {
      ghost var p := progress[greetMsgId];
      assert p.greetMsgId == greetMsgId;
      var timeout := timeouts.Get(chatId);
      var remaining := timeout;
      var step: nat := 0;
      ghost var stopped := false;
      assert Tables() == CountedTo(old(Tables()), chatId, progressId, timeout, taps, p, 0, false);
      while remaining > 0
        invariant Valid()
        invariant Bans(trace) == Bans(old(trace))
        invariant userMessages == old(userMessages) && adminCache == old(adminCache) && nextSignal == old(nextSignal)
        invariant step == 0 || step <= timeout
        invariant stopped ==> remaining == 0 && step < timeout && step < |taps| && Confirms(taps[step], greetMsgId, p.token)
        invariant !stopped ==> (step + remaining == timeout || (step == 0 && remaining == timeout))
                               && greetMsgId in progress && progress[greetMsgId] == p && stop !in closed
        invariant !ConfirmedWithin(taps, step, greetMsgId, p.token)
        invariant Tables() == CountedTo(old(Tables()), chatId, progressId, timeout, taps, p, step, stopped)
        decreases remaining
      {
        var tap := if step < |taps| then taps[step] else None;
        ConfirmedStep(taps, step, greetMsgId, p.token);
        var stopNow := Second(chatId, progressId, timeout, remaining, step, stop, tap, greetMsgId, p);
        if stopNow {
          remaining := 0;
          stopped := true;
        } else {
          assert Ticks(chatId, progressId, timeout, step + 1)
                 == Ticks(chatId, progressId, timeout, step) + [Edit(chatId, progressId, CountdownText(timeout, remaining, step))];
          step := step + 1;
          remaining := remaining - 1;
        }
      }
      if stopped {
        FirstConfirmAt(taps, greetMsgId, p.token, timeout, step);
      } else {
        FirstConfirmNone(taps, greetMsgId, p.token, timeout, step);
      }
    }

    /**
     * The end of startProgressbar: if the session is still registered it is
     * stopped; when its stop signal had not been closed the user is banned
     * once and the pending messages deleted.
     */
    method Expire(chatId: int, greetMsgId: int, userId: int) returns (banned: bool)
      modifies this
      ensures banned <==> greetMsgId in old(progress) && old(progress)[greetMsgId].stop !in old(closed)
      ensures greetMsgId !in progress
      ensures greetMsgId !in old(progress) ==> unchanged(this)
      ensures greetMsgId in old(progress) ==>
                var p := old(progress)[greetMsgId];
                Tables() == Resolved(old(Tables()), greetMsgId, p, ExpireEffects(old(userMessages), chatId, userId, p, banned))
      ensures adminCache == old(adminCache) && nextSignal == old(nextSignal)
      ensures Bans(trace) == Bans(old(trace)) + (if banned then 1 else 0)
      ensures userMessages == if banned then PendingPruned(old(userMessages), chatId, userId) else old(userMessages)
      ensures old(Valid()) ==> Valid()
    {
      if greetMsgId !in progress {
        return false;
      }
      var p := progress[greetMsgId];
      banned := p.stop !in closed;
      StopProgressbar(chatId, greetMsgId);
      ghost var stopped := trace;
      if banned {
        BanAndClean(chatId, userId);
        assert trace == old(trace) + (StopDeletes(chatId, p) + BanEffects(old(userMessages), chatId, userId));
      } else {
        assert StopDeletes(chatId, p) + [] == StopDeletes(chatId, p);
      }
    }

    /** The timeout branch after the stop: one ban of the user, then deletePendingMessages. */
    method BanAndClean(chatId: int, userId: int)
      modifies this
      ensures trace == old(trace) + BanEffects(old(userMessages), chatId, userId)
      ensures userMessages == PendingPruned(old(userMessages), chatId, userId)
      ensures Bans(trace) == Bans(old(trace)) + 1
      ensures progress == old(progress) && activeTokens == old(activeTokens)
      ensures adminCache == old(adminCache) && closed == old(closed) && nextSignal == old(nextSignal)
    {
      BansAppend(trace, [Ban(chatId, userId)]);
      assert Bans([Ban(chatId, userId)]) == 1;
      trace := trace + [Ban(chatId, userId)];
      ghost var banned := trace;
      ghost var deletes := PendingDeletes(userMessages, chatId, userId);
      DeletePendingMessages(chatId, userId);
      assert banned + deletes == old(trace) + ([Ban(chatId, userId)] + deletes);
    }

    /**
     * startProgressbar: register the session, count down, then expire. When
     * no tap within the chat's timeout confirmed the session, the countdown
     * edits once per second, the session's messages are deleted, the user is
     * banned exactly once and the pending messages deleted; otherwise the
     * countdown stops at the confirming tap, which welcomes the user.
     * Either way neither the session nor the token remains.
     */
    method StartProgressbar(chatId: int, greetMsgId: int, userId: int, token: string, progressId: int, now: int,
                            taps: seq<Option<Tap>>) returns (banned: bool)
      requires Valid()
      modifies this
      ensures Valid()
      ensures greetMsgId !in progress && userId !in activeTokens
      ensures banned <==> !ConfirmedWithin(taps, timeouts.Get(chatId), greetMsgId, token)
      ensures Bans(trace) == Bans(old(trace)) + (if banned then 1 else 0)
      ensures var p := ProgressData(old(nextSignal), token, userId, greetMsgId, progressId);
              var timeout := timeouts.Get(chatId);
              var s := FirstConfirm(taps, greetMsgId, token, timeout, 0);
              var registered := Sessions(old(progress)[greetMsgId := p], old(closed), old(activeTokens)[userId := token],
                                         old(trace) + [Send(chatId, ProgressPlaceholder)]);
              var counted := CountedTo(registered, chatId, progressId, timeout, taps, p, s, s < timeout);
              var cached := WithProgressEntry(old(userMessages), chatId, userId, progressId, now);
              Tables() == (if banned then Resolved(counted, greetMsgId, p, ExpireEffects(cached, chatId, userId, p, true))
                           else counted)
              && userMessages == (if banned then PendingPruned(cached, chatId, userId) else cached)
      ensures nextSignal == old(nextSignal) + 1 && adminCache == old(adminCache)
    {
      var stop := Register(chatId, greetMsgId, userId, token, progressId, now);
      Countdown(chatId, progressId, stop, taps, greetMsgId);
      banned := Expire(chatId, greetMsgId, userId);
    }

    /**
     * cacheMessage: an update with a message and a sender appends one entry
     * for the sender (pending when a person with an open session sent it),
     * then evicts the sender's entries cached more than 60 s before `later`,
     * the second clock reading, dropping an emptied list.
     */
    method CacheMessage(u: Update, now: int, later: int)
      modifies this
      ensures u.message.None? || u.message.value.from.None? ==> unchanged(this)
      ensures u.message.Some? && u.message.value.from.Some? ==>
                var from := u.message.value.from.value;
                var cm := CachedMessage(u.message.value, now, from.isBot, !from.isBot && HasSession(progress, from.id));
                userMessages == CacheAppend(old(userMessages), from.id, cm, later - WindowMs)
      ensures progress == old(progress) && activeTokens == old(activeTokens) && trace == old(trace)
      ensures adminCache == old(adminCache) && closed == old(closed) && nextSignal == old(nextSignal)
    {
      if u.message.None? || u.message.value.from.None? {
        return;
      }
      var from := u.message.value.from.value;
      var list := if from.id in userMessages then userMessages[from.id] else [];
      var pending := false;
      if !from.isBot {
        pending := IsUserPending(from.id);
      }
      var cm := CachedMessage(u.message.value, now, from.isBot, pending);
      var kept := RemoveIf(list + [cm], CachedBefore(later - WindowMs));
      if kept == [] {
        userMessages := userMessages - {from.id};
      } else {
        userMessages := userMessages[from.id := kept];
      }
    }

    /**
     * deleteUserMessagesFiltered: every entry of the user in the chat that the
     * filter accepts is deleted, once and in list order, and dropped from the
     * list; the rest keep their order and an emptied list is dropped.
     */
    method DeleteUserMessagesFiltered(chatId: int, userId: int, filter: CachedMessage -> bool)
      modifies this
      ensures userId !in old(userMessages) ==> unchanged(this)
      ensures userId in old(userMessages) ==>
                userMessages == Prune(old(userMessages), userId, Selected(chatId, filter))
                && trace == old(trace) + DeletesOf(chatId, Filter(old(userMessages)[userId], Selected(chatId, filter)))
      ensures progress == old(progress) && activeTokens == old(activeTokens)
      ensures adminCache == old(adminCache) && closed == old(closed) && nextSignal == old(nextSignal)
      ensures Bans(trace) == Bans(old(trace))
    {
      if userId !in userMessages {
        return;
      }
      var kept, deletes := SplitSelected(chatId, userMessages[userId], Selected(chatId, filter));
      trace := trace + deletes;
      if kept == [] {
        userMessages := userMessages - {userId};
      } else {
        userMessages := userMessages[userId := kept];
      }
      BansAppend(old(trace), DeletesOf(chatId, Filter(old(userMessages)[userId], Selected(chatId, filter))));
      NoBans(DeletesOf(chatId, Filter(old(userMessages)[userId], Selected(chatId, filter))));
    }

    /** deletePendingMessages: the bot's own entries and those sent while pending. */
    method DeletePendingMessages(chatId: int, userId: int)
      modifies this
      ensures userId !in old(userMessages) ==> unchanged(this)
      ensures userMessages == PendingPruned(old(userMessages), chatId, userId)
      ensures trace == old(trace) + PendingDeletes(old(userMessages), chatId, userId)
      ensures progress == old(progress) && activeTokens == old(activeTokens)
      ensures adminCache == old(adminCache) && closed == old(closed) && nextSignal == old(nextSignal)
      ensures Bans(trace) == Bans(old(trace))
    {
      DeleteUserMessagesFiltered(chatId, userId, PendingFilter());
      if userId !in old(userMessages) {
        assert old(trace) + [] == old(trace);
      }
    }

    /** deleteUserMessages: all of the user's entries in the chat. */
    method DeleteUserMessages(chatId: int, userId: int)
      modifies this
      ensures userId !in old(userMessages) ==> unchanged(this)
      ensures userId in old(userMessages) ==>
                userMessages == Prune(old(userMessages), userId, Selected(chatId, AllFilter()))
                && trace == old(trace) + DeletesOf(chatId, Filter(old(userMessages)[userId], Selected(chatId, AllFilter())))
      ensures progress == old(progress) && activeTokens == old(activeTokens)
      ensures adminCache == old(adminCache) && closed == old(closed) && nextSignal == old(nextSignal)
    {
      DeleteUserMessagesFiltered(chatId, userId, AllFilter());
    }

    /** deleteUserMessagesSince: the user's entries in the chat cached at or after `since`. */
    method DeleteUserMessagesSince(chatId: int, userId: int, since: int)
      modifies this
      ensures userId !in old(userMessages) ==> unchanged(this)
      ensures userId in old(userMessages) ==>
                userMessages == Prune(old(userMessages), userId, Selected(chatId, SinceFilter(since)))
                && trace == old(trace) + DeletesOf(chatId, Filter(old(userMessages)[userId], Selected(chatId, SinceFilter(since))))
      ensures progress == old(progress) && activeTokens == old(activeTokens)
      ensures adminCache == old(adminCache) && closed == old(closed) && nextSignal == old(nextSignal)
    {
      DeleteUserMessagesFiltered(chatId, userId, SinceFilter(since));
    }

    /**
     * CleanupOldMessages: every user's entries older than 60 s at `now` are
     * evicted and emptied lists dropped; nothing is deleted in the chats.
     */
    method CleanupOldMessages(now: int)
      modifies this
      ensures userMessages == Swept(old(userMessages), now)
      ensures progress == old(progress) && activeTokens == old(activeTokens) && trace == old(trace)
      ensures adminCache == old(adminCache) && closed == old(closed) && nextSignal == old(nextSignal)
    {
      ghost var m0 := userMessages;
      var keys := userMessages.Keys;
      SweepStarts(m0, now);
      while keys != {}
        invariant SweptOutside(userMessages, m0, keys, now)
        invariant progress == old(progress) && activeTokens == old(activeTokens) && trace == old(trace)
        invariant adminCache == old(adminCache) && closed == old(closed) && nextSignal == old(nextSignal)
      {
        Sets.NonEmpty(keys);
        var u :| u in keys;
        var rest := RemoveIf(userMessages[u], StaleAt(now));
        ghost var before := userMessages;
        if rest == [] {
          userMessages := userMessages - {u};
        } else {
          userMessages := userMessages[u := rest];
        }
        SweepStep(before, userMessages, m0, keys, u, now);
        keys := keys - {u};
      }
      SweepDone(userMessages, m0, now);
    }

    /**
     * isAdmin: an unexpired cached status answers at once; otherwise the
     * member status is looked up with retries, a successful lookup cached for
     * 30 minutes from `done`, a failed one answered false and not cached.
     */
    method IsAdmin(chatId: int, userId: int, now: int, done: int, reply: nat -> LookupReply) returns (admin: bool)
      modifies this
      ensures admin == AdminVerdict(old(adminCache), Decimal.PairKey(chatId, userId), now, reply)
      ensures adminCache == AdminCacheAfter(old(adminCache), Decimal.PairKey(chatId, userId), now, done, reply)
      ensures progress == old(progress) && activeTokens == old(activeTokens) && trace == old(trace)
      ensures userMessages == old(userMessages) && closed == old(closed) && nextSignal == old(nextSignal)
    {
      var key := Decimal.PairKey(chatId, userId);
      if key in adminCache && now < adminCache[key].expiresAt {
        return IsAdminStatus(adminCache[key].status);
      }
      var found := LookupStatus(reply);
      if found.None? {
        return false;
      }
      adminCache := adminCache[key := AdminEntry(found.value, done + AdminTtlMs)];
      return IsAdminStatus(found.value);
    }

    /**
     * handleTimeoutCommand: only an admin's "/timeout <n>" with n in [5, 600]
     * changes the chat's timeout, to exactly n, and is confirmed with a notice
     * naming n; every other command from a sender gets the matching notice.
     * Each notice is deleted after 5 s.
     */
    method HandleTimeoutCommand(msg: Message, now: int, done: int, reply: nat -> LookupReply, noticeId: int)
      modifies this, timeouts
      ensures msg.from.None? ==> unchanged(this) && unchanged(timeouts)
      ensures msg.from.Some? ==>
                var chatId := msg.chat.id;
                var admin := AdminVerdict(old(adminCache), Decimal.PairKey(chatId, msg.from.value.id), now, reply);
                var req := RequestedTimeout(msg.text);
                adminCache == AdminCacheAfter(old(adminCache), Decimal.PairKey(chatId, msg.from.value.id), now, done, reply)
                && (admin && req.Some? ==>
                      timeouts.data == old(timeouts.data)[chatId := req.value]
                      && timeouts.Get(chatId) == req.value
                      && trace == old(trace) + [Send(chatId, TimeoutSetText(req.value)), DeleteAfter(chatId, noticeId, NoticeDeleteMs)])
                && (!(admin && req.Some?) ==> timeouts.data == old(timeouts.data))
                && (!admin ==> trace == old(trace) + [Send(chatId, NotAdminText), DeleteAfter(chatId, noticeId, NoticeDeleteMs)])
                && (admin && |Text.Fields(msg.text)| < 2 ==>
                      trace == old(trace) + [Send(chatId, UsageText), DeleteAfter(chatId, noticeId, NoticeDeleteMs)])
                && (admin && |Text.Fields(msg.text)| >= 2 && req.None? ==>
                      trace == old(trace) + [Send(chatId, RangeText), DeleteAfter(chatId, noticeId, NoticeDeleteMs)])
      ensures progress == old(progress) && activeTokens == old(activeTokens) && userMessages == old(userMessages)
      ensures closed == old(closed) && nextSignal == old(nextSignal)
    {
      if msg.from.None? {
        return;
      }
      var chatId := msg.chat.id;
      var admin := IsAdmin(chatId, msg.from.value.id, now, done, reply);
      if !admin {
        trace := trace + [Send(chatId, NotAdminText), DeleteAfter(chatId, noticeId, NoticeDeleteMs)];
        return;
      }
      var parts := Text.Fields(msg.text);
      if |parts| < 2 {
        trace := trace + [Send(chatId, UsageText), DeleteAfter(chatId, noticeId, NoticeDeleteMs)];
        return;
      }
      var parsed := Decimal.ParseInt(parts[1]);
      if parsed.err.Some? || parsed.value < 5 || parsed.value > 600 {
        trace := trace + [Send(chatId, RangeText), DeleteAfter(chatId, noticeId, NoticeDeleteMs)];
        return;
      }
      timeouts.Set(chatId, parsed.value);
      trace := trace + [Send(chatId, TimeoutSetText(parsed.value)), DeleteAfter(chatId, noticeId, NoticeDeleteMs)];
    }
  }

  /**
   * CleanupOldMessages' loop invariant: the users still to visit (`todo`)
   * keep their lists, and every other user is as the sweep leaves them.
   */
  ghost predicate SweptOutside(cur: map<int, seq<CachedMessage>>, m0: map<int, seq<CachedMessage>>, todo: set<int>, now: int) {
    todo <= m0.Keys && cur.Keys <= m0.Keys
    && (forall u :: u in todo ==> u in cur && cur[u] == m0[u])
    && (forall u :: u in m0 && u !in todo ==> (u in cur <==> u in Swept(m0, now)))
    && (forall u :: u in cur && u !in todo ==> cur[u] == Swept(m0, now)[u])
  }

  lemma SweepStarts(m0: map<int, seq<CachedMessage>>, now: int)
    ensures SweptOutside(m0, m0, m0.Keys, now)
  {
  }

  lemma SweepStep(cur: map<int, seq<CachedMessage>>, next: map<int, seq<CachedMessage>>, m0: map<int, seq<CachedMessage>>,
                  todo: set<int>, u: int, now: int)
    requires SweptOutside(cur, m0, todo, now) && u in todo
    requires var rest := Filter(cur[u], Not(StaleAt(now)));
             next == if rest == [] then cur - {u} else cur[u := rest]
    ensures SweptOutside(next, m0, todo - {u}, now)
  {
  }

  lemma SweepDone(cur: map<int, seq<CachedMessage>>, m0: map<int, seq<CachedMessage>>, now: int)
    requires SweptOutside(cur, m0, {}, now)
    ensures cur == Swept(m0, now)
  {
    assert cur.Keys == Swept(m0, now).Keys by {
      forall u | u in cur ensures u in Swept(m0, now) {
      }
      forall u | u in Swept(m0, now) ensures u in cur {
      }
    }
    assert forall u :: u in cur ==> cur[u] == Swept(m0, now)[u];
  }

  /**
   * The member-status lookup with retries: the status of the first attempt
   * that succeeds, or nothing when all three fail.
   */
  method LookupStatus(reply: nat -> LookupReply) returns (found: Option<string>)
    ensures found == FirstStatus(reply, 0)
  {
    var err, attempts, sleeps := Retry.RetryHTTP((i: nat) => AsResponse(reply(i)));
    FirstStatusFound(reply, attempts);
    if err.Some? {
      return None;
    }
    return Some(reply(attempts - 1).status);
  }

  lemma FirstStatusFound(reply: nat -> LookupReply, attempts: nat)
    requires 1 <= attempts <= Retry.MaxAttempts
    requires forall i :: 0 <= i < attempts - 1 ==> !Retry.Succeeds(AsResponse(reply(i)))
    ensures Retry.Succeeds(AsResponse(reply(attempts - 1))) ==> FirstStatus(reply, 0) == Some(reply(attempts - 1).status)
    ensures (forall i :: 0 <= i < Retry.MaxAttempts ==> !Retry.Succeeds(AsResponse(reply(i)))) ==> FirstStatus(reply, 0) == None
  {
  }
}
