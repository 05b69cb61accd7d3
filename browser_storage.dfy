/**
 * The browser's `localStorage`, as far as the lesson screen uses it: one
 * entry per key, holding either a lesson snapshot (the JSON text the screen
 * wrote) or text that does not parse as one.
 */
module BrowserStorage {
  import opened Wrappers
  import opened LessonTypes

  /** The value under a key, as `JSON.parse` would read it. */
  datatype Stored =
    | Snapshot(state: SavedLessonState)
    | Unparsable(raw: string)

  class LocalStorage {
    var items: map<string, Stored>

    constructor (items: map<string, Stored>)
      ensures this.items == items
    {
      this.items := items;
    }

    /** `getItem`: the value under `key`, if any. */
    function GetItem(key: string): (v: Option<Stored>)
      reads this
      ensures v.Some? <==> key in items
      ensures v.Some? ==> v.value == items[key]
    {
      if key in items then Some(items[key]) else None
    }

    /** `setItem`: `key` now holds `v`; every other key is untouched. */
    method SetItem(key: string, v: Stored)
      modifies this
      ensures items == old(items)[key := v]
      ensures GetItem(key) == Some(v)
      ensures forall k :: k != key ==> GetItem(k) == old(GetItem(k))
    {
      items := items[key := v];
    }

    /** `removeItem`: `key` holds nothing; every other key is untouched. */
    method RemoveItem(key: string)
      modifies this
      ensures items == old(items) - {key}
      ensures GetItem(key) == None
      ensures forall k :: k != key ==> GetItem(k) == old(GetItem(k))
    {
      items := items - {key};
    }
  }
}
