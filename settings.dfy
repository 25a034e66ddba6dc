/** The persistent key/value settings store (`Params`) as the button sees it:
    a map from key to boolean, in which a key that is absent reads as false. */
module Settings {

  type Store = map<string, bool>

  /** `getBool`: the stored value, or false when the key is absent. */
  function GetBool(store: Store, key: string): (b: bool)
    ensures b ==> key in store
    ensures key in store ==> b == store[key]
  {
    key in store && store[key]
  }

  /** `putBool`: writes one key; every other key keeps its entry. */
  function PutBool(store: Store, key: string, value: bool): (r: Store)
    ensures GetBool(r, key) == value
    ensures r.Keys == store.Keys + {key}
    ensures r - {key} == store - {key}
  {
    store[key := value]
  }

  /** `remove`: deletes one key, which then reads as false; every other key keeps its entry. */
  function Remove(store: Store, key: string): (r: Store)
    ensures !GetBool(r, key) && key !in r
    ensures r.Keys == store.Keys - {key}
    ensures r - {key} == store - {key}
  {
    store - {key}
  }
}
