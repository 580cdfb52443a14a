/** The browser's `localStorage`, shared by the session and the cart. */
module Storage {
  import opened Values

  /** What a key holds: a plain string written by `setItem(k, s)`, or the text
      `JSON.stringify(v)` kept as the value `v` it denotes (`JSON.parse` gives `v` back). */
  datatype Stored = Text(s: string) | Json(v: Value)

  const TokenKey := "sr_token"
  const UserKey := "sr_user"
  const CartKey := "sr_cart"

  /** `getItem(k)` as text: a plain string as it is, the JSON of a value as
      `stringify` writes it. */
  function ReadText(e: Stored, stringify: Value -> string): string
  {
    match e
    case Text(s) => s
    case Json(v) => stringify(v)
  }

  /** `JSON.parse(getItem(k))`: the value the entry denotes, or what `parse`
      throws on text that is not JSON. */
  function Parsed(e: Stored, parse: string -> Result<Value, Value>): (r: Result<Value, Value>)
    ensures e.Json? ==> r == Ok(e.v)
  {
    match e
    case Json(v) => Ok(v)
    case Text(s) => parse(s)
  }

  /** A read of `getItem(k)` is truthy: a non-empty string. JSON text is never empty. */
  predicate StoredTruthy(e: Stored)
  {
    e.Json? || e.s != ""
  }

  class LocalStorage {
    var entries: map<string, Stored>

    /** The storage as the page finds it when it loads: any key may hold any text. */
    constructor (initial: map<string, Stored>)
      ensures entries == initial
    {
      entries := initial;
    }

    function GetItem(key: string): Option<Stored>
      reads this
    {
      if key in entries then Some(entries[key]) else None
    }

    method SetItem(key: string, e: Stored)
      modifies this
      ensures entries == old(entries)[key := e]
    {
      entries := entries[key := e];
    }

    method RemoveItem(key: string)
      modifies this
      ensures entries == old(entries) - {key}
    {
      entries := entries - {key};
    }
  }
}
