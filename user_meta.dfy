/**
 * The user-meta store the plugin reads and writes through its `User` wrapper
 * (`$user->get_meta($key, true)`, `$user->update_meta($key, $value)`).
 * The `User` class itself is not part of this model; a user is addressed by
 * its numeric id and owns one string-keyed row of meta values.
 */
module UserMeta {
  import opened Php

  type UserId = nat

  /** The row of a user in a store snapshot; a user with no meta has an empty row. */
  function RowOf(meta: map<UserId, map<string, Value>>, u: UserId): (row: map<string, Value>)
    ensures u !in meta ==> row == map[]
    ensures u in meta ==> row == meta[u]
  {
    if u in meta then meta[u] else map[]
  }

  class MetaStore {
    var meta: map<UserId, map<string, Value>>

    constructor (initial: map<UserId, map<string, Value>>)
      ensures meta == initial
    {
      meta := initial;
    }

    function Row(u: UserId): map<string, Value>
      reads this
    {
      RowOf(meta, u)
    }

    /** `$user->get_meta($key, true)`; a missing key reads as null. */
    function Get(u: UserId, key: string): Value
      reads this
    {
      Lookup(Row(u), key)
    }

    /** `$user->update_meta($key, $value)`: only that user's key changes. */
    method Update(u: UserId, key: string, v: Value)
      modifies this
      ensures meta == old(meta)[u := old(Row(u))[key := v]]
      ensures Get(u, key) == v
      ensures forall w, k :: (w != u || k != key) ==> Get(w, k) == old(Get(w, k))
    {
      meta := meta[u := Row(u)[key := v]];
    }
  }
}
