/** The persisted key-value store behind `storageGet` and `storageSet`
    (utils/storage is not part of this model). Each record type has its own
    map from storage key to the array stored under it. */
module Storage {

  type Store<T> = map<string, seq<T>>

  /** `storageGet(key, [])`: the array stored under `key`, or the empty array. */
  function Load<T>(st: Store<T>, key: string): seq<T>
  {
    if key in st then st[key] else []
  }

  /** `storageSet(key, value)`. */
  function Save<T>(st: Store<T>, key: string, value: seq<T>): Store<T>
  {
    st[key := value]
  }

  /** What is saved under a key is what is loaded from it afterwards, and no
      other key changes. */
  lemma LoadAfterSave<T>(st: Store<T>, key: string, value: seq<T>, other: string)
    ensures Load(Save(st, key, value), key) == value
    ensures other != key ==> Load(Save(st, key, value), other) == Load(st, other)
  {
  }
}
