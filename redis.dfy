/** The shared Redis instance, as the core uses it: string keys holding
    string values with an optional time-to-live in seconds. Wall-clock expiry
    is not modelled as time passing; it is the explicit step `Lapse`. */
module Redis {
  import opened Wrappers

  /** A stored string and its TTL in seconds (`None`: no expiry set). */
  datatype Entry = Entry(value: string, ttl: Option<int>)

  class Store {
    var data: map<string, Entry>

    constructor ()
      ensures data == map[]
    {
      data := map[];
    }

    /** `GET key`: the stored value, `None` (null) when the key is absent. */
    function Get(key: string): (r: Option<string>)
      reads this
      ensures r.Some? <==> key in data
      ensures r.Some? ==> r.value == data[key].value
    {
      if key in data then Some(data[key].value) else None
    }

    /** `SET key value EX seconds`: unconditional write with a TTL. */
    method SetEx(key: string, value: string, seconds: int)
      modifies this
      ensures data == old(data)[key := Entry(value, Some(seconds))]
    {
      data := data[key := Entry(value, Some(seconds))];
    }

    /** `SET key value EX seconds NX`: writes only when the key is absent and
        answers whether it wrote ("OK" versus null). */
    method SetExNx(key: string, value: string, seconds: int) returns (ok: bool)
      modifies this
      ensures ok <==> key !in old(data)
      ensures data == if ok then old(data)[key := Entry(value, Some(seconds))] else old(data)
    {
      ok := key !in data;
      if ok {
        data := data[key := Entry(value, Some(seconds))];
      }
    }

    /** `EXPIRE key seconds`: resets the TTL of an existing key, keeping its
        value; answers whether the key existed. */
    method Expire(key: string, seconds: int) returns (ok: bool)
      modifies this
      ensures ok <==> key in old(data)
      ensures data == if ok then old(data)[key := Entry(old(data)[key].value, Some(seconds))] else old(data)
    {
      ok := key in data;
      if ok {
        data := data[key := Entry(data[key].value, Some(seconds))];
      }
    }

    /** `DEL key`: removes the key; answers how many keys were removed. */
    method Del(key: string) returns (n: nat)
      modifies this
      ensures n == if key in old(data) then 1 else 0
      ensures data == old(data) - {key}
    {
      n := if key in data then 1 else 0;
      data := data - {key};
    }

    /** The TTL of `key` running out: a key with a TTL disappears. */
    method Lapse(key: string)
      modifies this
      ensures data == if key in old(data) && old(data)[key].ttl.Some? then old(data) - {key} else old(data)
    {
      if key in data && data[key].ttl.Some? {
        data := data - {key};
      }
    }
  }
}
