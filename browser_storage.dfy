/**
 * The credential store: `localStorage` (and `sessionStorage`, which has the same
 * contract) as a string-to-string map behind get/set/remove. One object is shared by
 * every provider that touches it, so a write by one provider is what the next reader sees.
 */
module BrowserStorage {
  import opened Wrappers

  /** `getItem`: the stored string, or `null` for a missing key. */
  function Lookup(items: map<string, string>, key: string): Option<string> {
    if key in items then Some(items[key]) else None
  }

  class WebStorage {
    var items: map<string, string>

    constructor (initial: map<string, string>)
      ensures items == initial
    {
      items := initial;
    }

    method GetItem(key: string) returns (v: Option<string>)
      ensures v.Some? <==> key in items
      ensures v.Some? ==> v.value == items[key]
    {
      v := Lookup(items, key);
    }

    method SetItem(key: string, value: string)
      modifies this
      ensures items == old(items)[key := value]
    {
      items := items[key := value];
    }

    method RemoveItem(key: string)
      modifies this
      ensures items == old(items) - {key}
    {
      items := items - {key};
    }
  }
}
