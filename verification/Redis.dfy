/**
 * One Redis key, as the commands of api-gateway/src/redis/redis.service.ts see
 * it.  Times are whole seconds.  A key is gone from the second it expires in.
 */
module Redis {
  import opened Options

  datatype Entry<V> = Entry(value: V, expiresAt: Option<int>)

  type Slot<V> = Option<Entry<V>>

  predicate Live<V>(slot: Slot<V>, now: int) {
    slot.Some? && (slot.value.expiresAt.Some? ==> now < slot.value.expiresAt.value)
  }

  function Get<V>(slot: Slot<V>, now: int): Option<V> {
    if Live(slot, now) then Some(slot.value.value) else None
  }

  /** INCR keeps the time to live of a key and creates a key without one. */
  function Incr(slot: Slot<nat>, now: int): Slot<nat> {
    if Live(slot, now) then Some(slot.value.(value := slot.value.value + 1)) else Some(Entry(1, None))
  }

  function Expire<V>(slot: Slot<V>, now: int, seconds: nat): Slot<V> {
    if Live(slot, now) then Some(slot.value.(expiresAt := Some(now + seconds))) else None
  }

  /** SET with EX replaces the value and the time to live. */
  function SetEx<V>(value: V, now: int, seconds: nat): Entry<V> {
    Entry(value, Some(now + seconds))
  }
}
