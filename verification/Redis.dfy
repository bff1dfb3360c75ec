/** A Redis server seen as a map from keys to values with an optional deadline, and CacheService over it. */
module Redis {
  import opened Wrappers

  /** deadline: the millisecond from which the key no longer exists. */
  datatype Entry = Entry(value: string, deadline: Option<nat>)

  type Store = map<string, Entry>

  /** What becomes of one command: done; lost before it took effect; or done but its reply lost.
    * The client throws in the last two cases and CacheService swallows the exception. */
  datatype Fault = Fine | LostBefore | LostAfter

  predicate Live(store: Store, key: string, now: nat) {
    key in store && (store[key].deadline.Some? ==> now < store[key].deadline.value)
  }

  function Set(store: Store, key: string, value: string): Store {
    store[key := Entry(value, None)]
  }

  function Expire(store: Store, key: string, seconds: nat, now: nat): Store {
    if Live(store, key, now) then store[key := Entry(store[key].value, Some(now + 1000 * seconds))]
    else store
  }

  function Del(store: Store, key: string): Store {
    store - {key}
  }

  function Get(store: Store, key: string, now: nat): Option<string> {
    if Live(store, key, now) then Some(store[key].value) else None
  }

  /** A value set with a lifetime is read back until its deadline and not from then on; without one, always; a
    * deleted one never; and none of the commands touches another key. */
  lemma LivesUntil(store: Store, key: string, value: string, seconds: nat, now: nat, later: nat)
    requires now <= later
    ensures Get(Set(store, key, value), key, later) == Some(value)
    ensures var timed := Expire(Set(store, key, value), key, seconds, now);
      Get(timed, key, later) == if later < now + 1000 * seconds then Some(value) else None
    ensures Get(Del(store, key), key, later) == None
    ensures forall k :: k != key ==>
      && Get(Set(store, key, value), k, later) == Get(store, k, later)
      && Get(Expire(store, key, seconds, now), k, later) == Get(store, k, later)
      && Get(Del(store, key), k, later) == Get(store, k, later)
  {
  }
}
