/** The browser's `localStorage`: a map from keys to string values, shared by
    the request layer, the user slice and both auth providers. */
module Storage {
  import opened Wrappers

  type Store = map<string, string>

  /** `localStorage.getItem(key)`: the stored string, or `null` (None). */
  function GetItem(s: Store, key: string): (v: Option<string>)
    ensures v.Some? <==> key in s
    ensures v.Some? ==> v.value == s[key]
  {
    if key in s then Some(s[key]) else None
  }

  /** JavaScript truthiness of a string that may be missing, such as a value
      read from storage or an optional label: `null`, `undefined` and `""` are falsy. */
  predicate Truthy(v: Option<string>) {
    v.Some? && v.value != ""
  }

  /** The storage object itself, whose one field the page updates in place. */
  class LocalStorage {
    var items: Store

    constructor (initial: Store)
      ensures items == initial
    {
      items := initial;
    }

    method SetItem(key: string, value: string)
      modifies this
      ensures items == old(items)[key := value]
    {
      items := items[key := value];
    }

    method RemoveItem(key: string)
      modifies this
      ensures items == old(items) - {key}
    {
      items := items - {key};
    }
  }
}
