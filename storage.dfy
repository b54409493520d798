/**
 * The browser's `localStorage`, as the hooks and the wizard use it: a
 * string-to-string store shared by every part of the page.
 */
module Storage {
  import opened Wrappers

  class LocalStorage {
    var items: map<string, string>

    constructor()
      ensures items == map[]
    {
      items := map[];
    }

    /** `getItem(key)`: the stored text, or `None` (JavaScript's `null`). */
    function Get(key: string): (r: Option<string>)
      reads this
      ensures r.Some? <==> key in items
      ensures r.Some? ==> r.value == items[key]
    {
      if key in items then Some(items[key]) else None
    }

    /** `setItem(key, value)`. */
    method SetItem(key: string, value: string)
      modifies this
      ensures items == old(items)[key := value]
    {
      items := items[key := value];
    }

    /** `removeItem(key)`. */
    method RemoveItem(key: string)
      modifies this
      ensures items == old(items) - {key}
    {
      items := items - {key};
    }

    /** `clear()`. */
    method Clear()
      modifies this
      ensures items == map[]
    {
      items := map[];
    }
  }
}
