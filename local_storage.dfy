/**
 * The browser's `localStorage`, shared by the wallet session and the decryption-grant cache.
 * JSON serialisation is abstracted: each value is kept as the record it was written from.
 */
module Storage {
  import opened Common
  import opened FhevmTypes

  /** A stored value: a plain string, a JSON array of accounts, or a serialised grant. */
  datatype Item = Text(text: string) | AccountList(accounts: seq<string>) | GrantRecord(grant: Grant)

  class LocalStorage {
    var items: map<string, Item>

    constructor ()
      ensures items == map[]
    {
      items := map[];
    }

    /** `getItem(key)`: the stored value, or `None` (null) when the key is absent. */
    function GetItem(key: string): (r: Option<Item>)
      reads this
      ensures r.Some? <==> key in items
      ensures r.Some? ==> r.value == items[key]
    {
      if key in items then Some(items[key]) else None
    }

    /** `setItem(key, value)`. */
    method SetItem(key: string, value: Item)
      modifies this
      ensures items == old(items)[key := value]
    {
      items := items[key := value];
    }

    /** `removeItem(key)`; removing an absent key changes nothing. */
    method RemoveItem(key: string)
      modifies this
      ensures items == old(items) - {key}
    {
      items := items - {key};
    }
  }
}
