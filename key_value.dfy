/**
 * The key-value store behind the sessions (the Redis client of
 * src/repositories/redis_connection.go, seen through the `InMemoryDb`
 * interfaces of the two services). Keys map to string values with the
 * time-to-live they were written with; expiry itself is not modelled.
 */
module KeyValue {
  import opened Errors

  /** A Go `time.Duration`: a count of nanoseconds. */
  type Duration = int

  const Second: Duration := 1_000_000_000
  const Minute: Duration := 60 * Second
  const Hour: Duration := 60 * Minute

  datatype Entry = Entry(value: string, ttl: Duration)

  /** The error the client reports for a key that is not set. */
  const RedisNil := "redis: nil"

  /**
   * `GetKey`: the stored value, or `("", err)`: the connection's failure
   * when there is one, otherwise `redis: nil` for a missing key.
   */
  function Lookup(entries: map<string, Entry>, fault: Error, key: string): (r: Ret<string>)
    ensures r.err == Nil <==> fault == Nil && key in entries
    ensures r.err == Nil ==> r.value == entries[key].value
    ensures r.err != Nil ==> r.value == "" && (fault != Nil ==> r.err == fault)
    ensures fault == Nil && key !in entries ==> r.err == Fail(RedisNil)
  {
    if fault != Nil then Ret("", fault)
    else if key in entries then Ret(entries[key].value, Nil)
    else Ret("", Fail(RedisNil))
  }

  /** A value written is the value read back under the same key. */
  lemma ReadYourWrite(entries: map<string, Entry>, key: string, value: string, ttl: Duration)
    ensures Lookup(entries[key := Entry(value, ttl)], Nil, key) == Ret(value, Nil)
  {
  }

  /** A write leaves every other key as it was. */
  lemma WriteIsolated(entries: map<string, Entry>, fault: Error, key: string, other: string, e: Entry)
    requires other != key
    ensures Lookup(entries[key := e], fault, other) == Lookup(entries, fault, other)
  {
  }

  /**
   * The store as the services see it: the keys that are set, and the
   * failure every call reports while the server cannot be reached (`Nil`
   * when it answers).
   */
  class Store {
    var entries: map<string, Entry>
    var fault: Error

    constructor(entries: map<string, Entry>, fault: Error)
      ensures this.entries == entries && this.fault == fault
    {
      this.entries := entries;
      this.fault := fault;
    }

    /** `GetKey`: reads and changes nothing. */
    method GetKey(key: string) returns (value: string, err: Error)
      ensures Ret(value, err) == Lookup(entries, fault, key)
    {
      var r := Lookup(entries, fault, key);
      value, err := r.value, r.err;
    }

    /** `SetKey`: writes one key with its time-to-live, or reports the failure and writes nothing. */
    method SetKey(key: string, value: string, exp: Duration) returns (err: Error)
      modifies this
      ensures err == fault && fault == old(fault)
      ensures entries == if err == Nil then old(entries)[key := Entry(value, exp)] else old(entries)
    {
      err := fault;
      if err == Nil {
        entries := entries[key := Entry(value, exp)];
      }
    }
  }
}
