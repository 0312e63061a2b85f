/**
 * The pure definitions behind the message retention cache of internal/bot/bot.go:
 * which cached entries survive a selective delete or an age sweep, and which
 * delete calls are made, stated over values.
 */
module Retention {
  import opened Telegram

  /** Entries are kept for 60 seconds. */
  const WindowMs: int := 60_000

  /** The entries of `s` that satisfy `keep`, in their original order. */
  function Filter<T>(s: seq<T>, keep: T -> bool): (r: seq<T>)
    ensures |r| <= |s|
    ensures forall i :: 0 <= i < |r| ==> keep(r[i])
    decreases |s|
  {
    if |s| == 0 then []
    else if keep(s[|s| - 1]) then Filter(s[..|s| - 1], keep) + [s[|s| - 1]]
    else Filter(s[..|s| - 1], keep)
  }

  lemma {:induction false} FilterAppend<T>(a: seq<T>, b: seq<T>, keep: T -> bool)
    ensures Filter(a + b, keep) == Filter(a, keep) + Filter(b, keep)
    decreases |b|
  {
    if |b| == 0 {
      assert a + b == a;
    } else {
      assert (a + b)[..|a + b| - 1] == a + b[..|b| - 1];
      FilterAppend(a, b[..|b| - 1], keep);
    }
  }

  /** An entry survives the filter exactly when it was there and satisfies `keep`. */
  lemma {:induction false} FilterMembers<T>(s: seq<T>, keep: T -> bool, x: T)
    ensures x in Filter(s, keep) <==> x in s && keep(x)
    decreases |s|
  {
    if |s| > 0 {
      FilterMembers(s[..|s| - 1], keep, x);
      assert s == s[..|s| - 1] + [s[|s| - 1]];
    }
  }

  /** The kept and the dropped entries together are exactly the original entries. */
  lemma {:induction false} FilterPartition<T>(s: seq<T>, keep: T -> bool)
    ensures multiset(Filter(s, keep)) + multiset(Filter(s, x => !keep(x))) == multiset(s)
    decreases |s|
  {
    if |s| > 0 {
      FilterPartition(s[..|s| - 1], keep);
      assert s == s[..|s| - 1] + [s[|s| - 1]];
    }
  }

  /** Filtering twice with the same condition changes nothing the second time. */
  lemma {:induction false} FilterIdempotent<T>(s: seq<T>, keep: T -> bool)
    ensures Filter(Filter(s, keep), keep) == Filter(s, keep)
    decreases |s|
  {
    if |s| > 0 {
      FilterIdempotent(s[..|s| - 1], keep);
      var r := Filter(s[..|s| - 1], keep);
      if keep(s[|s| - 1]) {
        FilterAppend(r, [s[|s| - 1]], keep);
        assert Filter([s[|s| - 1]], keep) == [s[|s| - 1]];
      }
    }
  }

  /** The complement of a condition. */
  function Not<T>(cond: T -> bool): T -> bool {
    x => !cond(x)
  }

  /** Entries older than the window at `now`: CleanupOldMessages removes age > 60 s. */
  function StaleAt(now: int): CachedMessage -> bool {
    (m: CachedMessage) => now - m.timestamp > WindowMs
  }

  /** Entries cached before `cutoff`: cacheMessage removes timestamp.Before(cutoff). */
  function CachedBefore(cutoff: int): CachedMessage -> bool {
    (m: CachedMessage) => m.timestamp < cutoff
  }

  /** The entries deleteUserMessagesFiltered removes: in the chat and accepted by the filter. */
  function Selected(chatId: int, filter: CachedMessage -> bool): CachedMessage -> bool {
    (m: CachedMessage) => m.msg.chat.id == chatId && filter(m)
  }

  /** One delete call per removed entry, in list order. */
  function DeletesOf(chatId: int, removed: seq<CachedMessage>): (t: seq<Effect>)
    ensures |t| == |removed|
    ensures forall i :: 0 <= i < |t| ==> t[i] == Delete(chatId, removed[i].msg.messageId)
    decreases |removed|
  {
    if |removed| == 0 then []
    else DeletesOf(chatId, removed[..|removed| - 1]) + [Delete(chatId, removed[|removed| - 1].msg.messageId)]
  }

  lemma DeletesOfAppend(chatId: int, removed: seq<CachedMessage>, m: CachedMessage)
    ensures DeletesOf(chatId, removed + [m]) == DeletesOf(chatId, removed) + [Delete(chatId, m.msg.messageId)]
  {
    assert (removed + [m])[..|removed|] == removed;
  }

  /**
   * One pass over a list, last entry last: the unselected entries in order,
   * and one delete call per selected entry in order.
   */
  function SplitPass(chatId: int, msgs: seq<CachedMessage>, selected: CachedMessage -> bool): (seq<CachedMessage>, seq<Effect>)
    decreases |msgs|
  {
    if |msgs| == 0 then ([], [])
    else
      var (kept, deletes) := SplitPass(chatId, msgs[..|msgs| - 1], selected);
      var m := msgs[|msgs| - 1];
      if selected(m) then (kept, deletes + [Delete(chatId, m.msg.messageId)]) else (kept + [m], deletes)
  }

  /** The pass keeps exactly the unselected entries and deletes exactly the selected ones. */
  lemma {:induction false} SplitPassFilters(chatId: int, msgs: seq<CachedMessage>, selected: CachedMessage -> bool)
    ensures SplitPass(chatId, msgs, selected) == (Filter(msgs, Not(selected)), DeletesOf(chatId, Filter(msgs, selected)))
    decreases |msgs|
  {
    if |msgs| > 0 {
      var init := msgs[..|msgs| - 1];
      SplitPassFilters(chatId, init, selected);
      var m := msgs[|msgs| - 1];
      if selected(m) {
        DeletesOfAppend(chatId, Filter(init, selected), m);
      }
    }
  }

  /** The table without empty lists: a user key is present only while it has entries. */
  predicate NoEmptyLists(m: map<int, seq<CachedMessage>>) {
    forall u :: u in m ==> m[u] != []
  }

  /** A user's list after removing the entries that satisfy `cond`; an emptied list drops the user. */
  function Prune(m: map<int, seq<CachedMessage>>, userId: int, cond: CachedMessage -> bool): (r: map<int, seq<CachedMessage>>)
    requires userId in m
  {
    var rest := Filter(m[userId], Not(cond));
    if rest == [] then m - {userId} else m[userId := rest]
  }

  /** The table after a sweep at `now`: only fresh entries remain and emptied users are dropped. */
  function Swept(m: map<int, seq<CachedMessage>>, now: int): (r: map<int, seq<CachedMessage>>)
    ensures NoEmptyLists(r)
    ensures r.Keys <= m.Keys
  {
    map u | u in m && Filter(m[u], Not(StaleAt(now))) != [] :: Filter(m[u], Not(StaleAt(now)))
  }

  /**
   * After a sweep every entry is at most 60 s old, and every entry that
   * was at most 60 s old is still there.
   */
  lemma SweptKeepsExactlyFresh(m: map<int, seq<CachedMessage>>, now: int, u: int, x: CachedMessage)
    ensures u in Swept(m, now) && x in Swept(m, now)[u] <==> u in m && x in m[u] && now - x.timestamp <= WindowMs
  {
    if u in m {
      FilterMembers(m[u], Not(StaleAt(now)), x);
    }
  }

  /** A second sweep at the same instant finds nothing to do. */
  lemma SweepIdempotent(m: map<int, seq<CachedMessage>>, now: int)
    ensures Swept(Swept(m, now), now) == Swept(m, now)
  {
    var once := Swept(m, now);
    forall u | u in once
      ensures Filter(once[u], Not(StaleAt(now))) == once[u]
    {
      FilterIdempotent(m[u], Not(StaleAt(now)));
    }
  }

  /** The table after cacheMessage appends `cm` for `userId` and evicts what was cached before `cutoff`. */
  function CacheAppend(m: map<int, seq<CachedMessage>>, userId: int, cm: CachedMessage, cutoff: int): map<int, seq<CachedMessage>> {
    var list := (if userId in m then m[userId] else []) + [cm];
    var kept := Filter(list, Not(CachedBefore(cutoff)));
    if kept == [] then m - {userId} else m[userId := kept]
  }

  /**
   * When the new entry is not older than the cutoff (the clock did not run
   * backwards), it ends the user's list, after the user's surviving entries in
   * their old order; other users are untouched.
   */
  lemma CacheAppendKeepsNewest(m: map<int, seq<CachedMessage>>, userId: int, cm: CachedMessage, cutoff: int)
    requires cutoff <= cm.timestamp
    ensures userId in CacheAppend(m, userId, cm, cutoff)
    ensures CacheAppend(m, userId, cm, cutoff)[userId]
            == Filter(if userId in m then m[userId] else [], Not(CachedBefore(cutoff))) + [cm]
    ensures forall u :: u != userId ==> (u in CacheAppend(m, userId, cm, cutoff) <==> u in m)
    ensures forall u :: u != userId && u in m ==> CacheAppend(m, userId, cm, cutoff)[u] == m[u]
  {
    var old_ := if userId in m then m[userId] else [];
    FilterAppend(old_, [cm], Not(CachedBefore(cutoff)));
    assert Filter([cm], Not(CachedBefore(cutoff))) == [cm];
  }

  /** After a selective delete, no entry of the user in that chat satisfies the filter; every other entry stays. */
  lemma PruneExact(m: map<int, seq<CachedMessage>>, userId: int, cond: CachedMessage -> bool, x: CachedMessage)
    requires userId in m
    ensures (userId in Prune(m, userId, cond) && x in Prune(m, userId, cond)[userId]) <==> (x in m[userId] && !cond(x))
  {
    FilterMembers(m[userId], Not(cond), x);
  }
}
