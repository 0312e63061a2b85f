/**
 * The per-chat countdown table (Timeouts in internal/bot/timeout.go): a map
 * from chat id to seconds, read with a default and written with a clamp.
 */
module Timeouts {

  const DefaultTimeoutSec: int := 60
  const MinTimeoutSec: int := 5
  const MaxTimeoutSec: int := 600

  /** The value Set stores for a requested number of seconds. */
  function Clamp(seconds: int): (v: int)
    ensures MinTimeoutSec <= v <= MaxTimeoutSec
    ensures MinTimeoutSec <= seconds <= MaxTimeoutSec ==> v == seconds
    ensures seconds < MinTimeoutSec ==> v == MinTimeoutSec
    ensures seconds > MaxTimeoutSec ==> v == MaxTimeoutSec
  {
    if seconds < MinTimeoutSec then MinTimeoutSec
    else if seconds > MaxTimeoutSec then MaxTimeoutSec
    else seconds
  }

  /** The value Get reads from a table. */
  function Lookup(data: map<int, int>, chatId: int): int {
    if chatId in data then data[chatId] else DefaultTimeoutSec
  }

  /** Every stored value lies in [MinTimeoutSec, MaxTimeoutSec]. */
  predicate AllClamped(data: map<int, int>) {
    forall c :: c in data ==> MinTimeoutSec <= data[c] <= MaxTimeoutSec
  }

  /** In a table of clamped values every chat reads a value in range. */
  lemma LookupInRange(data: map<int, int>, chatId: int)
    requires AllClamped(data)
    ensures MinTimeoutSec <= Lookup(data, chatId) <= MaxTimeoutSec
  {
    if chatId in data {
      assert MinTimeoutSec <= data[chatId] <= MaxTimeoutSec;
    }
  }

  /** Reading back after a store: the clamped value for that chat, the old value elsewhere. */
  lemma LookupAfterStore(data: map<int, int>, chatId: int, seconds: int, other: int)
    ensures Lookup(data[chatId := Clamp(seconds)], chatId) == Clamp(seconds)
    ensures other != chatId ==> Lookup(data[chatId := Clamp(seconds)], other) == Lookup(data, other)
  {
  }

  /** Two stores to one chat: the later one wins (last-writer-wins). */
  lemma LastWriterWins(data: map<int, int>, chatId: int, first: int, second: int)
    ensures Lookup(data[chatId := Clamp(first)][chatId := Clamp(second)], chatId) == Clamp(second)
  {
  }

  class Timeouts {
    var data: map<int, int>

    /** NewTimeouts: an empty table. */
    constructor ()
      ensures data == map[]
      ensures forall c :: Get(c) == DefaultTimeoutSec
    {
      data := map[];
    }

    /** Get: the stored value, or DefaultTimeoutSec for a chat with no entry. */
    function Get(chatId: int): (v: int)
      reads this
      ensures chatId in data ==> v == data[chatId]
      ensures chatId !in data ==> v == DefaultTimeoutSec
    {
      Lookup(data, chatId)
    }

    /** Set: store `seconds` clamped to [MinTimeoutSec, MaxTimeoutSec]; other chats keep their entry. */
    method Set(chatId: int, seconds: int)
      modifies this
      ensures data == old(data)[chatId := Clamp(seconds)]
      ensures Get(chatId) == Clamp(seconds)
      ensures MinTimeoutSec <= seconds <= MaxTimeoutSec ==> Get(chatId) == seconds
      ensures forall c :: c != chatId ==> Get(c) == old(Get(c))
      ensures old(AllClamped(data)) ==> AllClamped(data)
    {
      var s := seconds;
      if s < MinTimeoutSec {
        s := MinTimeoutSec;
      }
      if s > MaxTimeoutSec {
        s := MaxTimeoutSec;
      }
      data := data[chatId := s];
    }

    /** Delete: drop the chat's entry, so it reads the default again. */
    method Delete(chatId: int)
      modifies this
      ensures data == old(data) - {chatId}
      ensures Get(chatId) == DefaultTimeoutSec
      ensures forall c :: c != chatId ==> Get(c) == old(Get(c))
      ensures old(AllClamped(data)) ==> AllClamped(data)
    {
      data := data - {chatId};
    }
  }
}
