/** The browser's `localStorage`: a persistent map from string keys to string values. */
module Storage {
  import opened JsValues

  type Store = map<string, string>

  /** `localStorage.getItem(key)`: the stored value, or `null` when the key was never written. */
  function GetItem(store: Store, key: string): (r: Option<string>)
    ensures r == None <==> key !in store
    ensures r.Some? ==> r.value == store[key]
  {
    if key in store then Some(store[key]) else None
  }

  /** `localStorage.setItem(key, value)`: overwrites or creates one entry. */
  function SetItem(store: Store, key: string, value: string): (r: Store)
    ensures GetItem(r, key) == Some(value)
    ensures SameExcept(r, store, key)
    ensures r.Keys == store.Keys + {key}
  {
    store[key := value]
  }

  /** Every key other than `key` holds the same value, or is absent, in both stores. */
  predicate SameExcept(a: Store, b: Store, key: string)
  {
    a - {key} == b - {key}
  }

  /** Reading back a key after writing it sees the write; reading another key does not. */
  lemma GetAfterSet(store: Store, key: string, value: string, other: string)
    ensures GetItem(SetItem(store, key, value), other)
         == if other == key then Some(value) else GetItem(store, other)
  {
  }
}
