/** The key-value store the handlers read and write, keyed by the user's email.
    The network behind it is not modelled; a failure of the store or of its
    configuration is a `StoreFault` the handler is given. */
module KvStore {
  import opened Types

  /** How the store misbehaves during one request, if at all. */
  datatype StoreFault =
    | Healthy
    | NotConfigured              // the client cannot be created: connection settings are missing
    | ReadFails(message: string) // the read throws
    | WriteFails(message: string) // the read succeeds and the write throws

  /** The error text lib/redis.ts throws when the connection settings are missing. */
  const NotConfiguredMessage := "Database connection is not configured. Please check server environment variables (KV_REST_API_URL, KV_REST_API_TOKEN)."

  /** The value `get` returns for `key`: a key the store does not hold reads as null. */
  function Lookup(entries: map<string, Raw>, key: string): Raw
  {
    if key in entries then entries[key] else Null
  }

  class Store {
    var entries: map<string, Raw>

    constructor ()
      ensures entries == map[]
    {
      entries := map[];
    }

    /** `get`. */
    function Get(key: string): Raw
      reads this
    {
      Lookup(entries, key)
    }

    /** `set`: stores `value` under `key`, leaving every other key alone. */
    method Set(key: string, value: Raw)
      modifies this
      ensures entries == old(entries)[key := value]
    {
      entries := entries[key := value];
    }
  }
}
