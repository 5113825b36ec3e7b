// Browser key/value storage (one object stands for `localStorage`, another
// for `sessionStorage`) and the JSON text form of the mood history.

module Storage {
  import opened MoodTypes

  /**
   * A Web Storage area. `SetItem` can be refused by the browser (quota
   * exceeded, storage disabled); `accept` says whether this write is.
   */
  class KeyValueStore {
    var items: map<string, string>

    constructor (initial: map<string, string>)
      ensures items == initial
    {
      items := initial;
    }

    function GetItem(key: string): (r: Option<string>)
      reads this
      ensures r.Some? <==> key in items
      ensures r.Some? ==> r.value == items[key]
    {
      if key in items then Some(items[key]) else None
    }

    method SetItem(key: string, value: string, accept: bool)
      modifies this
      ensures items == if accept then old(items)[key := value] else old(items)
    {
      if accept {
        items := items[key := value];
      }
    }

    method RemoveItem(key: string)
      modifies this
      ensures items == old(items) - {key}
    {
      items := items - {key};
    }
  }

  /**
   * `JSON.stringify` / `JSON.parse` on a mood-history array, as a pair of
   * functions; `decode` yields None where `JSON.parse` throws.
   */
  datatype Codec = Codec(encode: seq<MoodEntry> -> string, decode: string -> Option<seq<MoodEntry>>)

  /**
   * What the model assumes of the pair: decoding an encoding gives the list
   * back, and an encoding is never the empty string (a serialized array
   * always starts with `[`).
   */
  ghost predicate RoundTrips(c: Codec)
  {
    forall s :: c.encode(s) != "" && c.decode(c.encode(s)) == Some(s)
  }
}
