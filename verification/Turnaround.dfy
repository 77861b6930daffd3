/** The reply turnaround: how long a node waits before it answers, and how that fits
    into the hub's drain interval and per-attempt timeout. Durations are nanoseconds. */
module Turnaround {
  import opened Protocol
  import Xtea

  const MILLISECOND: int := 1_000_000
  const TIMEOUT_QUARANTINE: int := 10 * MILLISECOND
  const MIN_REPLY_HEADROOM: int := 10 * MILLISECOND

  // Go's int64 division, which truncates toward zero.
  function Milliseconds(duration: int): int {
    if duration >= 0 then duration / MILLISECOND else -(-duration / MILLISECOND)
  }

  function GuardByte(duration: int): Byte {
    var milliseconds := Milliseconds(duration);
    if milliseconds <= 0 then 0
    else if milliseconds > 127 then MAX_GUARD_MILLIS
    else milliseconds as Byte
  }

  // AddRadio's test.
  predicate Accepted(guard: int, timeout: int) {
    guard + MIN_REPLY_HEADROOM <= timeout
  }

  function DrainInterval(guard: int): int {
    var radioWindow := guard + MIN_REPLY_HEADROOM;
    if radioWindow > TIMEOUT_QUARANTINE then radioWindow else TIMEOUT_QUARANTINE
  }

  // The node's sleep on a request with these flags.
  function NodeWait(flags: Byte): int {
    (GuardMillis(flags) as int) * MILLISECOND
  }

  lemma MillisecondsTruncate(guard: int)
    requires guard >= 0
    ensures Milliseconds(guard) * MILLISECOND <= guard < (Milliseconds(guard) + 1) * MILLISECOND
    ensures Milliseconds(guard) > 127 <==> guard >= 128 * MILLISECOND
  {
  }

  lemma ByteOfMilliseconds(m: int)
    requires 0 <= m <= 127
    ensures (m as Byte) as int == m && m as Byte <= MAX_GUARD_MILLIS
  {
  }

  lemma NegativeIsNothing(guard: int)
    requires guard <= 0
    ensures Milliseconds(guard) <= 0
  {
  }

  // The guard in whole milliseconds, 0 for a negative one and 127 for a longer one.
  lemma GuardByteTruncatesAndClamps(guard: int)
    ensures guard <= 0 ==> GuardByte(guard) == 0
    ensures 0 <= guard < 128 * MILLISECOND ==>
      (GuardByte(guard) as int) * MILLISECOND <= guard < (GuardByte(guard) as int + 1) * MILLISECOND
    ensures guard >= 128 * MILLISECOND ==> GuardByte(guard) == MAX_GUARD_MILLIS == 127
    ensures GuardByte(guard) <= MAX_GUARD_MILLIS
  {
    if guard <= 0 {
      NegativeIsNothing(guard);
      hide Milliseconds;
    } else {
      MillisecondsTruncate(guard);
      hide Milliseconds;
      if guard < 128 * MILLISECOND {
        ByteOfMilliseconds(Milliseconds(guard));
      }
    }
  }

  // The request transact encodes once and sends on every attempt.
  function Request(hub: Addr, typ: Byte, nullBit: Byte, reg: bv16, value: Int32, guard: int): Message {
    Message(hub, typ, FlagsWithGuard(nullBit, GuardByte(guard)), reg, value)
  }

  lemma WaitFitsDrain(nullBit: Byte, guard: int)
    requires guard >= 0
    ensures var wait := NodeWait(FlagsWithGuard(nullBit, GuardByte(guard)));
      && wait <= guard
      && (guard < 128 * MILLISECOND ==> guard - MILLISECOND < wait)
      && wait + MIN_REPLY_HEADROOM <= DrainInterval(guard)
  {
    GuardByteTruncatesAndClamps(guard);
    FlagsCarryGuardAndNull(nullBit, GuardByte(guard), 0);
  }

  // From the radio's guard to the node's sleep, through flags, cipher and wire: the
  // sleep and the headroom fit the drain interval, which fits the timeout; the
  // request's NULL bit arrives as it was sent, and an answer with its own NULL bit
  // carries the same GUARD back.
  lemma TurnaroundChain(key: Xtea.Key, hub: Addr, typ: Byte, nullBit: Byte, reg: bv16, value: Int32,
                        guard: int, timeout: int, answer: Byte)
    requires guard >= 0 && Accepted(guard, timeout)
    requires nullBit == 0 || nullBit == FLAG_NULL
    requires answer == 0 || answer == FLAG_NULL
    ensures var received := Parse(key, Wire(key, Request(hub, typ, nullBit, reg, value, guard)));
      && received == Decoded(Request(hub, typ, nullBit, reg, value, guard))
      && NodeWait(received.message.flags) + MIN_REPLY_HEADROOM <= DrainInterval(guard) <= timeout
      && received.message.flags & FLAG_NULL == nullBit
      && GuardMillis(GuardFlags(received.message.flags) | answer) == GuardByte(guard)
  {
    hide Wire, Parse, GuardMillis, GuardFlags, FlagsWithGuard, NodeWait, GuardByte;
    var sent := Request(hub, typ, nullBit, reg, value, guard);
    assert Wire(key, sent) + [] == Wire(key, sent);
    DecodeEncode(key, sent, []);
    WaitFitsDrain(nullBit, guard);
    GuardByteTruncatesAndClamps(guard);
    FlagsCarryGuardAndNull(nullBit, GuardByte(guard), 0);
    FlagsCarryGuardAndNull(sent.flags, 0, answer);
  }

  // For an accepted radio the drain stays within the timeout exactly when the guard
  // is not negative or the timeout reaches the quarantine: AddRadio never checks either.
  lemma DrainFitsTimeoutIff(guard: int, timeout: int)
    requires Accepted(guard, timeout)
    ensures DrainInterval(guard) <= timeout <==> guard >= 0 || timeout >= TIMEOUT_QUARANTINE
  {
  }

  lemma DrainCanExceedTimeout()
    ensures Accepted(-5 * MILLISECOND, 5 * MILLISECOND)
    ensures DrainInterval(-5 * MILLISECOND) > 5 * MILLISECOND
  {
  }

  // A reply whose travel, apart from the node's sleep, takes less than the headroom
  // reaches the hub within the drain interval of its request.
  lemma PromptReplyIsTimely(guard: int, nullBit: Byte, sentAt: int, travel: int, receivedAt: int)
    requires guard >= 0 && 0 <= travel < MIN_REPLY_HEADROOM
    requires nullBit == 0 || nullBit == FLAG_NULL
    requires receivedAt == sentAt + NodeWait(FlagsWithGuard(nullBit, GuardByte(guard))) + travel
    ensures receivedAt < sentAt + DrainInterval(guard)
  {
    WaitFitsDrain(nullBit, guard);
  }
}
