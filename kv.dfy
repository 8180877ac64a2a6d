/**
 * The key-value namespace the worker is bound to: short path to target URL.
 * A store operation either answers or throws; `readFault` and `writeFault`
 * say which of `get` and `put` throw.
 */
module Kv {

  /** The state of the namespace as a value. */
  datatype Store = Store(entries: map<string, string>, readFault: bool, writeFault: bool)

  /** The outcome of `await kv.get(key)`. */
  datatype Read = Found(value: string) | Missing | Threw

  /** `await kv.get(key)` on a namespace in state `store`; the specification of `KvNamespace.Get`. */
  function Lookup(store: Store, key: string): (r: Read)
    ensures r.Threw? <==> store.readFault
    ensures r.Found? ==> key in store.entries && r.value == store.entries[key]
    ensures r.Missing? ==> key !in store.entries
  {
    if store.readFault then Threw
    else if key in store.entries then Found(store.entries[key])
    else Missing
  }

  /**
   * `key` is free for a new short path: `!(await kv.get(key))` holds, which
   * in JavaScript is true of a missing key and of a stored empty string.
   */
  function Vacant(entries: map<string, string>, key: string): (free: bool)
    ensures free <==> Lookup(Store(entries, false, false), key) in {Missing, Found("")}
  {
    key !in entries || entries[key] == ""
  }

  class KvNamespace {
    var entries: map<string, string>
    const readFault: bool
    const writeFault: bool

    constructor (entries: map<string, string>, readFault: bool, writeFault: bool)
      ensures View() == Store(entries, readFault, writeFault)
    {
      this.entries := entries;
      this.readFault := readFault;
      this.writeFault := writeFault;
    }

    function View(): Store
      reads this
    {
      Store(entries, readFault, writeFault)
    }

    /** `kv.get(key)`: never changes the namespace. */
    method Get(key: string) returns (r: Read)
      ensures r == Lookup(View(), key)
    {
      r := Lookup(View(), key);
    }

    /** `kv.put(key, value)`: overwrites `key`, or throws and changes nothing. */
    method Put(key: string, value: string) returns (ok: bool)
      modifies this
      ensures ok == !writeFault
      ensures entries == if ok then old(entries)[key := value] else old(entries)
    {
      ok := !writeFault;
      if ok {
        entries := entries[key := value];
      }
    }
  }
}
