/**
 * The token ledger (authsvc/inmem/inmem.go): a key/value store used only for
 * key existence, a present key meaning "this token is valid". A failure of
 * the Consul backend is the `fault` argument of each call; a call that fails
 * leaves the store as it was.
 */
module InMem {
  import opened Kit

  type Bytes = seq<bv8>

  class Client {
    /** The backing Consul key/value store. */
    var kv: map<string, Bytes>

    constructor (initial: map<string, Bytes>)
      ensures kv == initial
    {
      kv := initial;
    }

    /** `client.Get`: no error exactly when the key is present; the store is only read. */
    method Get(key: string, fault: Option<Err>) returns (err: Option<Err>)
      ensures fault.Some? ==> err == fault
      ensures fault.None? ==> (err.None? <==> key in kv)
      ensures fault.None? ==> (err == Some(KeyNotFound) <==> key !in kv)
    {
      if fault.Some? {
        return fault;
      }
      if key !in kv {
        return Some(KeyNotFound);
      }
      return None;
    }

    /** `client.Put`: stores the pair and reports only the backend's error. */
    method Put(key: string, value: Bytes, fault: Option<Err>) returns (err: Option<Err>)
      modifies this
      ensures err == fault
      ensures fault.None? ==> kv == old(kv)[key := value]
      ensures fault.Some? ==> kv == old(kv)
    {
      if fault.None? {
        kv := kv[key := value];
      }
      err := fault;
    }

    /** `client.Delete`: removes the key (an absent key is no error) and reports only the backend's error. */
    method Delete(key: string, fault: Option<Err>) returns (err: Option<Err>)
      modifies this
      ensures err == fault
      ensures fault.None? ==> kv == old(kv) - {key}
      ensures fault.Some? ==> kv == old(kv)
    {
      if fault.None? {
        kv := kv - {key};
      }
      err := fault;
    }
  }

  /** After a successful Put the key is found, and every other key keeps its value. */
  method PutThenGet(c: Client, key: string, value: Bytes) returns (err: Option<Err>)
    modifies c
    ensures err == None
    ensures key in c.kv && c.kv[key] == value
    ensures forall k :: k != key ==> (k in c.kv <==> k in old(c.kv)) && (k in c.kv ==> c.kv[k] == old(c.kv)[k])
  {
    var _ := c.Put(key, value, None);
    err := c.Get(key, None);
  }

  /** After a successful Delete the key is not found, and every other key keeps its value. */
  method DeleteThenGet(c: Client, key: string) returns (err: Option<Err>)
    modifies c
    ensures err == Some(KeyNotFound)
    ensures key !in c.kv
    ensures forall k :: k != key ==> (k in c.kv <==> k in old(c.kv)) && (k in c.kv ==> c.kv[k] == old(c.kv)[k])
  {
    var _ := c.Delete(key, None);
    err := c.Get(key, None);
  }
}
