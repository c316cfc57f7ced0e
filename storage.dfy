/**
 * Persistence of the operator's identity in the browser's localStorage,
 * under two fixed keys. The store is a string-to-string map; a store that
 * throws on every access (storage disabled, private mode) is one whose
 * `available` flag is false.
 */
module Storage {

  const NAME_KEY := "dncl_operator_name"
  const DATE_KEY := "dncl_operator_date"

  datatype StoredData = StoredData(name: string, date: string)

  const EMPTY := StoredData("", "")

  /** `localStorage.getItem(key) || ''`: a missing key (null) and an empty value both read as ''. */
  function ItemOrEmpty(items: map<string, string>, key: string): (v: string)
    ensures key !in items ==> v == ""
    ensures key in items ==> v == items[key]
  {
    if key in items && items[key] != "" then items[key] else ""
  }

  /** The store after the two `setItem` calls of a save. */
  function Saved(items: map<string, string>, data: StoredData): map<string, string> {
    items[NAME_KEY := data.name][DATE_KEY := data.date]
  }

  /** What a load reads from a store that does not throw. */
  function Loaded(items: map<string, string>): StoredData {
    StoredData(ItemOrEmpty(items, NAME_KEY), ItemOrEmpty(items, DATE_KEY))
  }

  /** The store after the two `removeItem` calls of a clear. */
  function Cleared(items: map<string, string>): map<string, string> {
    items - {NAME_KEY, DATE_KEY}
  }

  /** The browser's localStorage: its items and whether it can be used at all. */
  class LocalStorage {
    var items: map<string, string>
    var available: bool

    constructor (items: map<string, string>, available: bool)
      ensures this.items == items && this.available == available
    {
      this.items := items;
      this.available := available;
    }
  }

  /** `saveOperatorData`: writes both keys; a store that throws is left as it was and nothing propagates. */
  method SaveOperatorData(ls: LocalStorage, data: StoredData)
    modifies ls`items
    ensures ls.items == if ls.available then Saved(old(ls.items), data) else old(ls.items)
  {
    if ls.available {
      ls.items := ls.items[NAME_KEY := data.name];
      ls.items := ls.items[DATE_KEY := data.date];
    }
  }

  /** `loadOperatorData`: both keys, '' for a missing one, and two '' when the store throws. */
  method LoadOperatorData(ls: LocalStorage) returns (data: StoredData)
    ensures ls.available ==> data == Loaded(ls.items)
    ensures !ls.available ==> data == EMPTY
    ensures NAME_KEY !in ls.items ==> data.name == ""
    ensures DATE_KEY !in ls.items ==> data.date == ""
  {
    if !ls.available {
      return EMPTY;
    }
    data := StoredData(ItemOrEmpty(ls.items, NAME_KEY), ItemOrEmpty(ls.items, DATE_KEY));
  }

  /** `clearOperatorData`: removes both keys; a store that throws is left as it was. */
  method ClearOperatorData(ls: LocalStorage)
    modifies ls`items
    ensures ls.items == if ls.available then Cleared(old(ls.items)) else old(ls.items)
  {
    if ls.available {
      ls.items := ls.items - {NAME_KEY};
      ls.items := ls.items - {DATE_KEY};
    }
  }

  lemma KeysDiffer()
    ensures NAME_KEY != DATE_KEY
  {
    assert NAME_KEY[14] != DATE_KEY[14];
  }

  /** A save writes exactly the two operator keys and leaves every other key as it was. */
  lemma SaveWritesOnlyOperatorKeys(items: map<string, string>, data: StoredData)
    ensures Saved(items, data).Keys == items.Keys + {NAME_KEY, DATE_KEY}
    ensures Saved(items, data)[NAME_KEY] == data.name && Saved(items, data)[DATE_KEY] == data.date
    ensures forall k :: k in items && k != NAME_KEY && k != DATE_KEY ==> Saved(items, data)[k] == items[k]
  {
    KeysDiffer();
  }

  /** Loading after a save gives back what was saved. */
  lemma LoadAfterSave(items: map<string, string>, data: StoredData)
    ensures Loaded(Saved(items, data)) == data
  {
    KeysDiffer();
  }

  /** Loading after a clear gives two empty strings, and a clear touches no other key. */
  lemma LoadAfterClear(items: map<string, string>)
    ensures Loaded(Cleared(items)) == EMPTY
    ensures forall k :: k in items && k != NAME_KEY && k != DATE_KEY ==> k in Cleared(items) && Cleared(items)[k] == items[k]
  {
  }
}
