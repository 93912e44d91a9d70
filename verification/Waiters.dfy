/** The keyed wakers that the cancel token and the instance channel share. */
module Waiting {
  import opened Prelude

  /** How many registration keys there are before the counter wraps. */
  const KEYS := 0x1_0000_0000_0000_0000

  datatype Slots = Slots(nextKey: nat, wakers: map<nat, nat>)

  /** The caller's own key, or a new one. */
  function KeyFor(slots: Slots, key: Option<nat>): nat { if key.Some? then key.value else slots.nextKey }

  function Registered(slots: Slots, key: Option<nat>, waker: nat): Slots {
    Slots(if key.Some? then slots.nextKey else (slots.nextKey + 1) % KEYS, slots.wakers[KeyFor(slots, key) := waker])
  }

  function Removed(slots: Slots, key: nat): Slots { slots.(wakers := slots.wakers - {key}) }

  /** The registered wakers of one token or one instance. */
  class Waiters {
    var nextKey: nat
    var slots: map<nat, nat>

    constructor ()
      ensures Value() == Slots(0, map[])
    {
      nextKey, slots := 0, map[];
    }

    function Value(): Slots
      reads this
    {
      Slots(nextKey, slots)
    }

    /** Files the waker under the caller's key, or under a new one, and hands back the waker nobody needs any more. */
    method Register(key: Option<nat>, waker: nat) returns (used: nat, leftover: Option<nat>)
      modifies this
      ensures Value() == Registered(old(Value()), key, waker) && used == KeyFor(old(Value()), key)
      ensures leftover == if key.Some? && key.value in old(slots) then Some(old(slots)[key.value]) else None
    {
      if key.None? {
        used := nextKey;
        nextKey := (nextKey + 1) % KEYS;
        slots := slots[used := waker];
        return used, None;
      }
      used, leftover := key.value, None;
      if used in slots {
        if slots[used] == waker {
          return used, Some(waker);
        }
        leftover := Some(slots[used]);
      }
      slots := slots[used := waker];
    }

    method Remove(key: nat) returns (removed: Option<nat>)
      modifies this`slots
      ensures Value() == Removed(old(Value()), key)
      ensures removed == if key in old(slots) then Some(old(slots)[key]) else None
    {
      removed := if key in slots then Some(slots[key]) else None;
      slots := slots - {key};
    }

    method Drain() returns (wakers: set<nat>)
      modifies this`slots
      ensures wakers == old(slots).Values && Value() == Slots(old(nextKey), map[])
    {
      wakers := slots.Values;
      slots := map[];
    }
  }
}
