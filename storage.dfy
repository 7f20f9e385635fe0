/** The browser's `localStorage`, shared by every cache of the site, as a map
    from keys to stored items. A stored item is either a well-formed cache
    entry `{data, timestamp}` or some other text (the empty string, or text
    that is not the JSON of an entry). */
module Storage {
  import opened Json

  datatype Item =
    | Entry(data: Json, timestamp: int)
    | Raw(text: string)

  class LocalStorage {
    var items: map<string, Item>

    constructor (items: map<string, Item>)
      ensures this.items == items
    {
      this.items := items;
    }

    /** `getItem(key)`: None stands for `null`. */
    method GetItem(key: string) returns (r: Option<Item>)
      ensures r.Some? <==> key in items
      ensures r.Some? ==> r.value == items[key]
    {
      r := if key in items then Some(items[key]) else None;
    }

    /** `setItem(key, value)`. When the quota is exceeded the browser throws
        and stores nothing; `threw` reports it. */
    method SetItem(key: string, value: Item, quotaExceeded: bool) returns (threw: bool)
      modifies this
      ensures threw == quotaExceeded
      ensures items == if threw then old(items) else old(items)[key := value]
    {
      threw := quotaExceeded;
      if !threw {
        items := items[key := value];
      }
    }

    /** `removeItem(key)`: a missing key is not an error. */
    method RemoveItem(key: string)
      modifies this
      ensures items == old(items) - {key}
    {
      items := items - {key};
    }
  }
}
