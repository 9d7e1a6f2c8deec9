/**
 * The browser's `localStorage`, as far as the components use it: string
 * entries under string keys, read with `getItem` and changed with
 * `setItem` and `removeItem`. One object is shared by every component that
 * holds a reference to it.
 */
module BrowserStorage {
  import opened Wrappers

  class Storage {
    var entries: map<string, string>

    constructor (initial: map<string, string>)
      ensures entries == initial
    {
      entries := initial;
    }

    /** `getItem(key)`: the stored string, or `None` for JavaScript's `null`. */
    function GetItem(key: string): (r: Option<string>)
      reads this
      ensures r.Some? <==> key in entries
      ensures r.Some? ==> r.value == entries[key]
    {
      if key in entries then Some(entries[key]) else None
    }

    /** `setItem(key, value)` overwrites one entry and keeps the rest. */
    method SetItem(key: string, value: string)
      modifies this
      ensures entries == old(entries)[key := value]
      ensures GetItem(key) == Some(value)
      ensures forall k :: k != key ==> GetItem(k) == old(GetItem(k))
    {
      entries := entries[key := value];
    }

    /** `removeItem(key)` drops one entry, if present, and keeps the rest. */
    method RemoveItem(key: string)
      modifies this
      ensures entries == old(entries) - {key}
      ensures GetItem(key) == None
      ensures forall k :: k != key ==> GetItem(k) == old(GetItem(k))
    {
      entries := entries - {key};
    }
  }

  /** The string `setItem` stores for a value that may be `undefined`. */
  function Stringify(value: Option<string>): (r: string)
    ensures value.Some? ==> r == value.value
    ensures value.None? ==> r == "undefined"
  {
    value.GetOr("undefined")
  }
}
