/** The Redis instance used as the session cache: one key-value map from a
    user id to the JSON of a user. Every write takes effect immediately. */
module SessionCache {
  import opened Wrappers
  import opened UserModels

  class SessionStore {
    var entries: map<string, UserView>

    constructor ()
      ensures entries == map[]
    {
      entries := map[];
    }

    /** `redis.get(key)`: `None` stands for the `null` of a missing key. */
    function Get(key: string): (r: Option<UserView>)
      reads this
      ensures r.Some? <==> key in entries
      ensures r.Some? ==> r.value == entries[key]
    {
      if key in entries then Some(entries[key]) else None
    }

    /** `redis.set(key, value)`: the last writer wins. */
    method Set(key: string, value: UserView)
      modifies this
      ensures entries == old(entries)[key := value]
    {
      entries := entries[key := value];
    }

    /** `redis.del(key)`: deleting a missing key is not an error. */
    method Del(key: string)
      modifies this
      ensures entries == old(entries) - {key}
    {
      entries := entries - {key};
    }
  }
}
