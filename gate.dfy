/**
 * The join gate of main.go, the telebot variant: a table of pending
 * verifications keyed by "chat:user", the button's callback data, the
 * callback handler that confirms, and the per-registration timer that
 * expires and bans. Telegram calls are recorded as actions; random bytes,
 * clock readings and the outcome of sends are parameters.
 */
module Gate {
  import opened Wrappers
  import Text
  import Decimal
  import Tokens

  const VerifyTimeoutSec: int := 60

  const BadDataText: string := "Неправильные данные"
  const NotYoursText: string := "Эта кнопка не для вас"
  const PassedText: string := "Спасибо — проверка пройдена"
  const WrongTokenText: string := "Неверный токен"

  function GreetText(firstName: string): string {
    "Привет, " + firstName + "! Нажми кнопку ниже.\nУ вас есть " + Decimal.FormatInt(VerifyTimeoutSec) + " секунд."
  }

  function RemovedText(firstName: string): string {
    firstName + " удалён: не прошёл проверку."
  }

  const Phrases: seq<string> := [
    "Я пришёл с миром",
    "Бот не пройдёт",
    "Ключ!",
    "Пароль!",
    "Да пребудет со мной кнопка",
    "Чайник, но свой",
    "Сканирую QR из Матрицы",
    "Я — Грут",
    "Это точно не капча",
    "Нажимаю вручную",
    "Живу, не бот",
    "Пропуск выдан",
    "Проверено — человек",
    "Отпечатал ладонь (шутка)",
    "Веду себя прилично",
    "Я не робот, я — человек",
    "Привет, я настоящий",
    "За мной караван (юмор)",
    "Секундочку, я свой",
    "Подписываюсь лично",
    "Тут живой, можно пускать",
    "Нажимаю как человек",
    "Никаких скриптов, честно",
    "Вход разрешён (по-человечески)"
  ]

  /** The icons, one constant per source line of the list. */
  const IconsLine1: seq<string> := ["\U{1F54A}\U{FE0F}", "\U{2694}\U{FE0F}", "\U{1F511}", "\U{1F9E9}", "\U{1F916}", "\U{1F9EA}", "\U{1F33F}", "\U{1F512}", "\U{1F44B}", "\U{2714}\U{FE0F}", "\U{1F464}"]
  const IconsLine2: seq<string> := ["\U{1F6AA}", "\U{1F39F}\U{FE0F}", "\U{1F91D}", "\U{1F31F}", "\U{1F4A1}", "\U{1F525}", "\U{1F308}", "\U{1F389}", "\U{1F680}", "\U{1F6E1}\U{FE0F}", "\U{1F4DC}"]
  const IconsLine3: seq<string> := ["\U{1F5DD}\U{FE0F}", "\U{1F513}", "\U{1F590}\U{FE0F}", "\U{1F4AB}", "\U{1F33B}", "\U{1F340}", "\U{1F33C}", "\U{1F338}", "\U{1F343}", "\U{1F33A}", "\U{1F31E}"]
  const IconsLine4: seq<string> := ["\U{1F319}", "\U{2B50}", "\U{2600}\U{FE0F}", "\U{1F30A}", "\U{1F342}", "\U{1F341}", "\U{1F334}", "\U{1F335}", "\U{1F332}", "\U{1F333}", "\U{1F33E}"]
  const IconsLine5: seq<string> := ["\U{1F310}", "\U{1F48E}", "\U{1F388}", "\U{1F38A}", "\U{1F380}", "\U{1F381}", "\U{1F397}\U{FE0F}", "\U{1F3F5}\U{FE0F}", "\U{1F947}", "\U{1F948}", "\U{1F949}"]
  const IconsLine6: seq<string> := ["\U{1F3C6}", "\U{1F396}\U{FE0F}", "\U{1F3C5}", "\U{26BD}", "\U{1F3C0}", "\U{1F3C8}", "\U{26BE}", "\U{1F3BE}", "\U{1F3D0}", "\U{1F3C9}", "\U{1F3B1}"]
  const IconsLine7: seq<string> := ["\U{1F3D3}", "\U{1F3F8}"]
  const Icons: seq<string> := IconsLine1 + IconsLine2 + IconsLine3 + IconsLine4 + IconsLine5 + IconsLine6 + IconsLine7

  /** The icon of the "чайник" rule; it is not one of Icons. */
  const Teapot: string := "\U{2615}"

  /** The calls the gate makes on Telegram, in order. */
  datatype Action =
    | Respond(text: string, alert: bool)
    | Delete(chatId: int, messageId: int)
    | Ban(chatId: int, userId: int)
    | Send(chatId: int, text: string)
    | SendButton(chatId: int, text: string, caption: string, data: string)

  /** pendingVerification; `timer` names the registration's timer and its cancel function. */
  datatype Pending = Pending(chatId: int, userId: int, joinMsgId: int, verifyMsgId: int, token: string,
                             timestamp: int, timer: nat)

  /** What the timer goroutine of a registration captured, and the instant (seconds) it fires. */
  datatype Timer = Timer(id: nat, key: string, chatId: int, userId: int, firstName: string,
                         verifyMsgId: int, joinMsgId: int, firesAt: int)

  /** The button's data, "verify:<chat>:<user>:<token>:<ts>": the five fields joined by ':'. */
  function CallbackData(chatId: int, userId: int, token: string, ts: int): string {
    Text.Join(["verify", Decimal.FormatInt(chatId), Decimal.FormatInt(userId), token, Decimal.FormatInt(ts)], ':')
  }

  /** The callback handler's reading of the data. */
  datatype VerifyData = NotVerify | Malformed | Verify(chatId: int, userId: int, token: string)

  /**
   * Data without the "verify:" prefix is not the gate's; data that does not
   * split into five ':'-fields is malformed; otherwise the chat, the user
   * (parse errors ignored) and the token. The timestamp is not read.
   */
  function ParseVerify(data: string): VerifyData {
    if !Text.HasPrefix(data, "verify:") then NotVerify
    else
      var parts := Text.Split(data, ':');
      if |parts| != 5 then Malformed
      else Verify(Decimal.ParseInt(parts[1]).value, Decimal.ParseInt(parts[2]).value, parts[3])
  }

  /** The handler reads back the chat, the user and the token the button was built with. */
  lemma ParseCallbackData(chatId: int, userId: int, token: string, ts: int)
    requires Decimal.IsInt64(chatId) && Decimal.IsInt64(userId) && ':' !in token
    ensures ParseVerify(CallbackData(chatId, userId, token, ts)) == Verify(chatId, userId, token)
  {
    var parts := ["verify", Decimal.FormatInt(chatId), Decimal.FormatInt(userId), token, Decimal.FormatInt(ts)];
    assert ':' !in parts[0] by {
      forall i | 0 <= i < 6 ensures parts[0][i] != ':' {
        assert parts[0][i] in {'v', 'e', 'r', 'i', 'f', 'y'};
      }
    }
    Text.SplitJoin(parts, ':');
    var data := CallbackData(chatId, userId, token, ts);
    assert data == "verify" + [':'] + Text.Join(parts[1..], ':');
    assert data[..7] == "verify:";
    Decimal.ParseFormat(chatId);
    Decimal.ParseFormat(userId);
  }

  /** pickRandom: "" for an empty list, else the element the clock reading selects. */
  function PickRandom(list: seq<string>, nanos: nat): (s: string)
    ensures |list| == 0 ==> s == ""
    ensures |list| > 0 ==> s in list
  {
    if |list| == 0 then "" else list[nanos % |list|]
  }

  /**
   * pickIconForPhrase: the icon of the first keyword the lower-cased phrase
   * contains, in rule order; otherwise an icon the clock reading selects.
   */
  function PickIconForPhrase(phrase: string, nanos: nat): (icon: string)
    ensures icon in Icons || icon == Teapot
  {
    var l := Text.ToLower(phrase);
    assert Icons[0] == "\U{1F54A}\U{FE0F}" && Icons[1] == "\U{2694}\U{FE0F}" && Icons[2] == "\U{1F511}";
    assert Icons[3] == "\U{1F9E9}" && Icons[4] == "\U{1F916}" && Icons[5] == "\U{1F9EA}" && Icons[8] == "\U{1F44B}";
    if Text.Contains(l, "мир") then "\U{1F54A}\U{FE0F}"
    else if Text.Contains(l, "бот") then "\U{2694}\U{FE0F}"
    else if Text.Contains(l, "ключ") || Text.Contains(l, "пароль") then "\U{1F511}"
    else if Text.Contains(l, "грут") then "\U{1F916}"
    else if Text.Contains(l, "qr") || Text.Contains(l, "матриц") then "\U{1F9EA}"
    else if Text.Contains(l, "чайник") then Teapot
    else if Text.Contains(l, "капча") then "\U{1F9E9}"
    else if Text.Contains(l, "ладонь") then "\U{1F44B}"
    else Icons[nanos % |Icons|]
  }

  /** The phrase of the source's own example, "Я пришёл с миром", gets the dove whatever the clock reads. */
  lemma PickIconForPeacePhrase(nanos: nat)
    ensures PickIconForPhrase("Я пришёл с миром", nanos) == "\U{1F54A}\U{FE0F}"
  {
    var l := Text.ToLower("Я пришёл с миром");
    assert l[11..14] == "мир";
    Text.ContainsAt(l, "мир", 11);
  }

  /** A keyword rule: any of the keywords selects the icon. */
  datatype Rule = Rule(keywords: seq<string>, icon: string)

  /** The keyword rules of pickIconForPhrase as a table, in source order. */
  const Rules: seq<Rule> := [
    Rule(["мир"], "\U{1F54A}\U{FE0F}"),
    Rule(["бот"], "\U{2694}\U{FE0F}"),
    Rule(["ключ", "пароль"], "\U{1F511}"),
    Rule(["грут"], "\U{1F916}"),
    Rule(["qr", "матриц"], "\U{1F9EA}"),
    Rule(["чайник"], Teapot),
    Rule(["капча"], "\U{1F9E9}"),
    Rule(["ладонь"], "\U{1F44B}")
  ]

  predicate Matches(l: string, keywords: seq<string>) {
    exists i :: 0 <= i < |keywords| && Text.Contains(l, keywords[i])
  }

  lemma MatchesOne(l: string, a: string)
    ensures Matches(l, [a]) <==> Text.Contains(l, a)
  {
    if Text.Contains(l, a) {
      assert [a][0] == a;
    }
  }

  lemma MatchesTwo(l: string, a: string, b: string)
    ensures Matches(l, [a, b]) <==> Text.Contains(l, a) || Text.Contains(l, b)
  {
    if Text.Contains(l, a) {
      assert [a, b][0] == a;
    }
    if Text.Contains(l, b) {
      assert [a, b][1] == b;
    }
  }

  /** The icon of the first rule from index `from` on that the text matches, if any. */
  function FirstRule(l: string, rules: seq<Rule>, from: nat): (r: Option<string>)
    requires from <= |rules|
    ensures r.Some? ==> exists i :: from <= i < |rules| && r.value == rules[i].icon && Matches(l, rules[i].keywords)
                                    && forall j :: from <= j < i ==> !Matches(l, rules[j].keywords)
    ensures r.None? <==> forall i :: from <= i < |rules| ==> !Matches(l, rules[i].keywords)
    decreases |rules| - from
  {
    if from == |rules| then None
    else if Matches(l, rules[from].keywords) then Some(rules[from].icon)
    else FirstRule(l, rules, from + 1)
  }

  /** The last four rules of the table, read first match first. */
  lemma LaterRules(l: string)
    ensures FirstRule(l, Rules, 4)
            == if Text.Contains(l, "qr") || Text.Contains(l, "матриц") then Some("\U{1F9EA}")
               else if Text.Contains(l, "чайник") then Some(Teapot)
               else if Text.Contains(l, "капча") then Some("\U{1F9E9}")
               else if Text.Contains(l, "ладонь") then Some("\U{1F44B}")
               else None
  {
    MatchesOne(l, "ладонь");
    assert FirstRule(l, Rules, 7) == if Text.Contains(l, "ладонь") then Some("\U{1F44B}") else None;
    MatchesOne(l, "капча");
    assert FirstRule(l, Rules, 6) == if Text.Contains(l, "капча") then Some("\U{1F9E9}") else FirstRule(l, Rules, 7);
    MatchesOne(l, "чайник");
    assert FirstRule(l, Rules, 5) == if Text.Contains(l, "чайник") then Some(Teapot) else FirstRule(l, Rules, 6);
    MatchesTwo(l, "qr", "матриц");
  }

  /** The first four rules of the table, read first match first, then the later ones. */
  lemma EarlierRules(l: string)
    ensures FirstRule(l, Rules, 0)
            == if Text.Contains(l, "мир") then Some("\U{1F54A}\U{FE0F}")
               else if Text.Contains(l, "бот") then Some("\U{2694}\U{FE0F}")
               else if Text.Contains(l, "ключ") || Text.Contains(l, "пароль") then Some("\U{1F511}")
               else if Text.Contains(l, "грут") then Some("\U{1F916}")
               else FirstRule(l, Rules, 4)
  {
    MatchesOne(l, "грут");
    assert FirstRule(l, Rules, 3) == if Text.Contains(l, "грут") then Some("\U{1F916}") else FirstRule(l, Rules, 4);
    MatchesTwo(l, "ключ", "пароль");
    assert FirstRule(l, Rules, 2)
           == if Text.Contains(l, "ключ") || Text.Contains(l, "пароль") then Some("\U{1F511}") else FirstRule(l, Rules, 3);
    MatchesOne(l, "бот");
    assert FirstRule(l, Rules, 1) == if Text.Contains(l, "бот") then Some("\U{2694}\U{FE0F}") else FirstRule(l, Rules, 2);
    MatchesOne(l, "мир");
  }

  /** pickIconForPhrase agrees with the rule table read first match first, with the clock only as the fallback. */
  lemma PickIconFollowsRules(phrase: string, nanos: nat)
    ensures PickIconForPhrase(phrase, nanos)
            == match FirstRule(Text.ToLower(phrase), Rules, 0)
               case Some(icon) => icon
               case None => Icons[nanos % |Icons|]
  {
    var l := Text.ToLower(phrase);
    LaterRules(l);
    EarlierRules(l);
  }

  /** The registration key, fmt.Sprintf("%d:%d", chat, user). */
  function KeyOf(chatId: int, userId: int): string {
    Decimal.PairKey(chatId, userId)
  }

  /** The actions of a confirmed tap: delete the known verification and join messages, then thank the user. */
  function ConfirmActions(pv: Pending): seq<Action> {
    (if pv.verifyMsgId != 0 then [Delete(pv.chatId, pv.verifyMsgId)] else [])
    + (if pv.joinMsgId != 0 then [Delete(pv.chatId, pv.joinMsgId)] else [])
    + [Respond(PassedText, false)]
  }

  /** The actions of an expiry: delete both messages, ban (again through the fallback when the first ban fails), announce. */
  function ExpiryActions(t: Timer, banFails: bool): (acts: seq<Action>)
    ensures Ban(t.chatId, t.userId) in acts
  {
    [Delete(t.chatId, t.verifyMsgId), Delete(t.chatId, t.joinMsgId), Ban(t.chatId, t.userId)]
    + (if banFails then [Ban(t.chatId, t.userId)] else [])
    + [Send(t.chatId, RemovedText(t.firstName))]
  }

  /** The timer's check as written: the key is still present, whoever registered it. */
  predicate ExpiryActsAsWritten(pending: map<string, Pending>, t: Timer) {
    t.key in pending
  }

  /** The timer's check as intended: its own registration is still present. */
  predicate ExpiryActs(pending: map<string, Pending>, t: Timer) {
    t.key in pending && pending[t.key].timer == t.id
  }

  /**
   * A user who leaves and rejoins 50 s after joining is registered afresh,
   * with a new 60 s window; the first registration's timer fires 10 s into
   * that window and, as written, expires the new registration and bans.
   */
  lemma StaleTimerExpiresRejoin()
    ensures var key := KeyOf(-100, 7);
            var second := Pending(-100, 7, 12, 13, "b", 50, 1);
            var stale := Timer(0, key, -100, 7, "Ann", 11, 10, 0 + VerifyTimeoutSec);
            var pending := map[key := second];
            ExpiryActsAsWritten(pending, stale)
            && stale.firesAt < second.timestamp + VerifyTimeoutSec
            && !ExpiryActs(pending, stale)
  {
  }

  /** The timer `t` was started for registration `p` stored under `key`: it fires 60 s after p's timestamp, for p's messages and user. */
  predicate Owns(t: Timer, key: string, p: Pending) {
    t.id == p.timer && t.key == key && t.chatId == p.chatId && t.userId == p.userId
    && t.verifyMsgId == p.verifyMsgId && t.joinMsgId == p.joinMsgId && t.firesAt == p.timestamp + VerifyTimeoutSec
  }

  /**
   * Each open registration has its own timer, started for it, created
   * before, neither cancelled nor resolved; every started timer is
   * recorded under its own id.
   */
  ghost predicate PendingValid(pending: map<string, Pending>, cancelled: set<nat>, resolved: set<nat>, nextTimer: nat,
                               timers: map<nat, Timer>)
  {
    (forall k :: k in pending ==> pending[k].timer < nextTimer && pending[k].timer !in cancelled
                                   && pending[k].timer !in resolved)
    && (forall k :: k in pending ==> pending[k].timer in timers && Owns(timers[pending[k].timer], k, pending[k]))
    && (forall k, j :: k in pending && j in pending && k != j ==> pending[k].timer != pending[j].timer)
    && (forall r :: r in cancelled ==> r < nextTimer)
    && (forall r :: r in resolved ==> r < nextTimer)
    && (forall id :: id in timers ==> id < nextTimer && timers[id].id == id)
  }

  /**
   * With the intended check, a started timer that acts on a registration
   * acts on its own: it fires at that registration's deadline, so no
   * registration is expired before its 60 s have passed, and it deletes that
   * registration's messages and bans its user.
   */
  lemma ExpiryRespectsWindow(pending: map<string, Pending>, cancelled: set<nat>, resolved: set<nat>, nextTimer: nat,
                             timers: map<nat, Timer>, t: Timer)
    requires PendingValid(pending, cancelled, resolved, nextTimer, timers)
    requires t.id in timers && timers[t.id] == t
    ensures ExpiryActs(pending, t) ==>
              Owns(t, t.key, pending[t.key]) && t.firesAt == pending[t.key].timestamp + VerifyTimeoutSec
  {
  }

  /** Removing a registration and retiring its timer keeps the invariant. */
  lemma RetireKeepsValid(pending: map<string, Pending>, cancelled: set<nat>, resolved: set<nat>, nextTimer: nat,
                         timers: map<nat, Timer>, key: string, cancel: bool)
    requires PendingValid(pending, cancelled, resolved, nextTimer, timers) && key in pending
    ensures pending[key].timer !in resolved
    ensures PendingValid(pending - {key}, if cancel then cancelled + {pending[key].timer} else cancelled,
                         resolved + {pending[key].timer}, nextTimer, timers)
  {
  }

  /** Storing a registration under a fresh timer started for it keeps the invariant. */
  lemma RegisterKeepsValid(pending: map<string, Pending>, cancelled: set<nat>, resolved: set<nat>, nextTimer: nat,
                           timers: map<nat, Timer>, key: string, p: Pending, t: Timer)
    requires PendingValid(pending, cancelled, resolved, nextTimer, timers) && p.timer == nextTimer && Owns(t, key, p)
    ensures PendingValid(pending[key := p], cancelled, resolved, nextTimer + 1, timers[nextTimer := t])
  {
  }

  class Gate {
    /** pending: the open verifications, keyed by "chat:user". */
    var pending: map<string, Pending>
    /** The timers whose cancel function was called. */
    var cancelled: set<nat>
    var nextTimer: nat
    var trace: seq<Action>
    /** The registrations that were confirmed or expired. */
    ghost var resolved: set<nat>
    /** The timer goroutines started so far, by id. */
    ghost var timers: map<nat, Timer>

    /** The registration invariant over this gate's tables. */
    ghost predicate Valid()
      reads this
    {
      PendingValid(pending, cancelled, resolved, nextTimer, timers)
    }

    constructor ()
      ensures pending == map[] && cancelled == {} && resolved == {} && trace == [] && timers == map[]
      ensures Valid()
    {
      timers := map[];
      pending := map[];
      cancelled := {};
      nextTimer := 0;
      trace := [];
      resolved := {};
    }

    /**
     * The callback handler: foreign data is ignored; malformed data and a tap
     * by anyone but the named user get an alert; a present registration with
     * the same token is removed, its timer cancelled and its messages deleted;
     * any other token gets an alert and changes nothing.
     */
    method HandleCallback(data: string, senderId: int)
      requires Valid()
      modifies this
      ensures Valid()
      ensures ParseVerify(data).NotVerify? ==> unchanged(this)
      ensures ParseVerify(data).Malformed? ==>
                trace == old(trace) + [Respond(BadDataText, true)] && pending == old(pending)
                && cancelled == old(cancelled) && resolved == old(resolved)
      ensures ParseVerify(data).Verify? && senderId != ParseVerify(data).userId ==>
                trace == old(trace) + [Respond(NotYoursText, true)] && pending == old(pending)
                && cancelled == old(cancelled) && resolved == old(resolved)
      ensures ParseVerify(data).Verify? && senderId == ParseVerify(data).userId ==>
                var v := ParseVerify(data);
                var key := KeyOf(v.chatId, v.userId);
                if key in old(pending) && old(pending)[key].token == v.token then
                  var pv := old(pending)[key];
                  pending == old(pending) - {key}
                  && cancelled == old(cancelled) + {pv.timer}
                  && pv.timer !in old(resolved) && resolved == old(resolved) + {pv.timer}
                  && trace == old(trace) + ConfirmActions(pv)
                else
                  trace == old(trace) + [Respond(WrongTokenText, true)] && pending == old(pending)
                  && cancelled == old(cancelled) && resolved == old(resolved)
      ensures nextTimer == old(nextTimer)
    {
      var v := ParseVerify(data);
      if v.NotVerify? {
        return;
      }
      if v.Malformed? {
        trace := trace + [Respond(BadDataText, true)];
        return;
      }
      if senderId != v.userId {
        trace := trace + [Respond(NotYoursText, true)];
        return;
      }
      var confirmed := Confirm(KeyOf(v.chatId, v.userId), v.token);
    }

    /**
     * The locked section of the callback handler: a present registration
     * with the same token is removed, its timer cancelled, its messages
     * deleted and the user thanked; otherwise an alert and no change.
     */
    method Confirm(key: string, token: string) returns (confirmed: bool)
      requires Valid()
      modifies this
      ensures Valid()
      ensures confirmed <==> key in old(pending) && old(pending)[key].token == token
      ensures confirmed ==>
                var pv := old(pending)[key];
                pending == old(pending) - {key}
                && cancelled == old(cancelled) + {pv.timer}
                && pv.timer !in old(resolved) && resolved == old(resolved) + {pv.timer}
                && trace == old(trace) + ConfirmActions(pv)
      ensures !confirmed ==>
                trace == old(trace) + [Respond(WrongTokenText, true)] && pending == old(pending)
                && cancelled == old(cancelled) && resolved == old(resolved)
      ensures nextTimer == old(nextTimer)
    {
      if key in pending && pending[key].token == token {
        var pv := pending[key];
        var calls := [];
        if pv.verifyMsgId != 0 {
          calls := calls + [Delete(pv.chatId, pv.verifyMsgId)];
        }
        if pv.joinMsgId != 0 {
          calls := calls + [Delete(pv.chatId, pv.joinMsgId)];
        }
        calls := calls + [Respond(PassedText, false)];
        RetireKeepsValid(pending, cancelled, resolved, nextTimer, timers, key, true);
        pending := pending - {key};
        resolved := resolved + {pv.timer};
        cancelled := cancelled + {pv.timer};
        trace := trace + calls;
        return true;
      }
      trace := trace + [Respond(WrongTokenText, true)];
      return false;
    }

    /**
     * handleNewMember: a fresh 16-character hex token, a phrase and its icon
     * on the button, and the verification message. Only when that message
     * was sent (`sent` is its id) is the registration stored under
     * "chat:user", replacing any earlier one, and its timer started.
     */
    method HandleNewMember(chatId: int, userId: int, firstName: string, joinMsgId: int, entropy: seq<Tokens.Byte>,
                           unixSec: int, phraseNanos: nat, iconNanos: nat, sent: Option<int>)
      returns (timer: Option<Timer>)
      requires Valid()
      requires |entropy| == 8
      modifies this
      ensures Valid()
      ensures var token := Tokens.RandomHex(8, entropy);
              var phrase := PickRandom(Phrases, phraseNanos);
              var caption := PickIconForPhrase(phrase, iconNanos) + " " + phrase;
              trace == old(trace) + [SendButton(chatId, GreetText(firstName), caption, CallbackData(chatId, userId, token, unixSec))]
              && (sent.None? ==> timer.None? && pending == old(pending) && nextTimer == old(nextTimer))
              && (sent.Some? ==>
                    var key := KeyOf(chatId, userId);
                    timer == Some(Timer(old(nextTimer), key, chatId, userId, firstName, sent.value, joinMsgId,
                                        unixSec + VerifyTimeoutSec))
                    && pending == old(pending)[key := Pending(chatId, userId, joinMsgId, sent.value, token, unixSec, old(nextTimer))]
                    && nextTimer == old(nextTimer) + 1)
      ensures cancelled == old(cancelled) && resolved == old(resolved)
      ensures timers == if sent.Some? then old(timers)[old(nextTimer) := timer.value] else old(timers)
    {
      var token := Tokens.RandomHex(8, entropy);
      var phrase := PickRandom(Phrases, phraseNanos);
      var icon := PickIconForPhrase(phrase, iconNanos);
      var caption := icon + " " + phrase;
      var data := CallbackData(chatId, userId, token, unixSec);
      trace := trace + [SendButton(chatId, GreetText(firstName), caption, data)];
      if sent.None? {
        return None;
      }
      var key := KeyOf(chatId, userId);
      var id := nextTimer;
      var entry := Pending(chatId, userId, joinMsgId, sent.value, token, unixSec, id);
      var t := Timer(id, key, chatId, userId, firstName, sent.value, joinMsgId, unixSec + VerifyTimeoutSec);
      RegisterKeepsValid(pending, cancelled, resolved, nextTimer, timers, key, entry, t);
      timers := timers[id := t];
      nextTimer := nextTimer + 1;
      pending := pending[key := entry];
      return Some(t);
    }

    /**
     * The timer goroutine when its timer fires, as main.go writes it: a
     * cancelled timer does nothing; otherwise, if any registration is
     * pending under its "chat:user" key, that entry is removed, the messages
     * the timer captured deleted, the user banned and the chat told.
     */
    method TimerFires(t: Timer, banFails: bool)
      requires Valid() && t.id in timers && timers[t.id] == t
      modifies this
      ensures Valid()
      ensures t.id in old(cancelled) || !ExpiryActsAsWritten(old(pending), t) ==> unchanged(this)
      ensures t.id !in old(cancelled) && ExpiryActsAsWritten(old(pending), t) ==>
                var removed := old(pending)[t.key];
                pending == old(pending) - {t.key}
                && removed.timer !in old(resolved) && resolved == old(resolved) + {removed.timer}
                && trace == old(trace) + ExpiryActions(t, banFails)
                && cancelled == old(cancelled)
      ensures nextTimer == old(nextTimer) && timers == old(timers)
    {
      if t.id in cancelled {
        return;
      }
      if t.key !in pending {
        return;
      }
      var removed := pending[t.key];
      RetireKeepsValid(pending, cancelled, resolved, nextTimer, timers, t.key, false);
      pending := pending - {t.key};
      resolved := resolved + {removed.timer};
      Expire(t, banFails);
    }

    /**
     * The timer goroutine with the intended check: it acts only while its
     * own registration is pending, and then on that registration alone,
     * never before the registration's 60 s have passed.
     */
    method TimerFiresOwn(t: Timer, banFails: bool)
      requires Valid() && t.id in timers && timers[t.id] == t
      modifies this
      ensures Valid()
      ensures t.id in old(cancelled) || !ExpiryActs(old(pending), t) ==> unchanged(this)
      ensures t.id !in old(cancelled) && ExpiryActs(old(pending), t) ==>
                Owns(t, t.key, old(pending)[t.key])
                && t.firesAt == old(pending)[t.key].timestamp + VerifyTimeoutSec
                && pending == old(pending) - {t.key}
                && t.id !in old(resolved) && resolved == old(resolved) + {t.id}
                && trace == old(trace) + ExpiryActions(t, banFails)
                && cancelled == old(cancelled)
      ensures nextTimer == old(nextTimer) && timers == old(timers)
    {
      if t.id in cancelled {
        return;
      }
      if !ExpiryActs(pending, t) {
        return;
      }
      ExpiryRespectsWindow(pending, cancelled, resolved, nextTimer, timers, t);
      RetireKeepsValid(pending, cancelled, resolved, nextTimer, timers, t.key, false);
      pending := pending - {t.key};
      resolved := resolved + {t.id};
      Expire(t, banFails);
    }

    /** The expiry's calls: delete both messages, ban (again through the fallback when the first ban fails), announce. */
    method Expire(t: Timer, banFails: bool)
      modifies this
      ensures trace == old(trace) + ExpiryActions(t, banFails)
      ensures pending == old(pending) && cancelled == old(cancelled) && resolved == old(resolved)
      ensures nextTimer == old(nextTimer) && timers == old(timers)
    {
      trace := trace + [Delete(t.chatId, t.verifyMsgId), Delete(t.chatId, t.joinMsgId), Ban(t.chatId, t.userId)];
      if banFails {
        trace := trace + [Ban(t.chatId, t.userId)];
      }
      trace := trace + [Send(t.chatId, RemovedText(t.firstName))];
    }
  }

  /**
   * A new gate where a user joined at `joinedAt` and, still pending, joined
   * again `rejoinAfter` seconds later: the first join's timer is `stale`,
   * and the registration under the user's key is the second one.
   */
  method JoinTwice(chatId: int, userId: int, firstName: string, entropy: seq<Tokens.Byte>, joinedAt: int, rejoinAfter: nat)
    returns (g: Gate, stale: Timer)
    requires |entropy| == 8
    ensures fresh(g) && g.Valid() && g.cancelled == {}
    ensures stale.id in g.timers && g.timers[stale.id] == stale
    ensures stale.key == KeyOf(chatId, userId) && stale.chatId == chatId && stale.userId == userId
    ensures stale.firesAt == joinedAt + VerifyTimeoutSec
    ensures stale.key in g.pending && g.pending[stale.key].timer != stale.id
    ensures g.pending[stale.key].timestamp == joinedAt + rejoinAfter
  {
    g := new Gate();
    var first := g.HandleNewMember(chatId, userId, firstName, 10, entropy, joinedAt, 0, 0, Some(11));
    var second := g.HandleNewMember(chatId, userId, firstName, 12, entropy, joinedAt + rejoinAfter, 0, 0, Some(13));
    stale := first.value;
  }

  /**
   * A user joins at `joinedAt` and, still pending, joins again `rejoinAfter`
   * seconds later. When the first timer fires, the timer as written expires
   * the second registration and bans the user, before the second window has
   * run its 60 s; with the intended check the first timer does nothing and
   * the second registration stays pending.
   */
  method RejoinScenario(chatId: int, userId: int, firstName: string, entropy: seq<Tokens.Byte>, joinedAt: int, rejoinAfter: nat)
    returns (staleFiresAt: int, writtenActs: seq<Action>, writtenKeeps: bool, intendedActs: seq<Action>, intendedKeeps: bool)
    requires |entropy| == 8
    ensures rejoinAfter > 0 ==> staleFiresAt < joinedAt + rejoinAfter + VerifyTimeoutSec
    ensures Ban(chatId, userId) in writtenActs && !writtenKeeps
    ensures intendedActs == [] && intendedKeeps
  {
    var key := KeyOf(chatId, userId);

    var written, stale := JoinTwice(chatId, userId, firstName, entropy, joinedAt, rejoinAfter);
    var before := written.trace;
    written.TimerFires(stale, false);
    staleFiresAt := stale.firesAt;
    writtenActs := written.trace[|before|..];
    writtenKeeps := key in written.pending;

    var intended, stale2 := JoinTwice(chatId, userId, firstName, entropy, joinedAt, rejoinAfter);
    before := intended.trace;
    intended.TimerFiresOwn(stale2, false);
    intendedActs := intended.trace[|before|..];
    intendedKeeps := key in intended.pending;
  }
}
