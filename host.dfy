/** The browser services the client touches: `localStorage`, `window.location`
    and `document.title`, and the host's `JSON.stringify`. */
module Host {
  import opened Js

  /** `localStorage.getItem(key)`: the stored string, or `null`. */
  function GetItem(storage: map<string, string>, key: string): (v: Value)
    ensures key in storage ==> v == Str(storage[key])
    ensures key !in storage ==> v == Null
  {
    if key in storage then Str(storage[key]) else Null
  }

  /** `localStorage.getItem(key) || ''`. */
  function StoredText(storage: map<string, string>, key: string): (s: string)
    ensures Truthy(GetItem(storage, key)) ==> s == storage[key]
    ensures !Truthy(GetItem(storage, key)) ==> s == ""
  {
    if key in storage then storage[key] else ""
  }

  class Window {
    var localStorage: map<string, string>
    var location: string
    var title: string
    /** The host's `JSON.stringify`, whose text the model does not fix. */
    const stringify: Value -> string

    constructor (storage: map<string, string>, path: string, stringify: Value -> string)
      ensures localStorage == storage && location == path && title == ""
      ensures this.stringify == stringify
    {
      localStorage := storage;
      location := path;
      title := "";
      this.stringify := stringify;
    }

    /** `localStorage.setItem(key, value)`. */
    method SetItem(key: string, value: string)
      modifies this
      ensures localStorage == old(localStorage)[key := value]
      ensures location == old(location) && title == old(title)
    {
      localStorage := localStorage[key := value];
    }

    /** `localStorage.removeItem(key)`: removing a missing key is harmless. */
    method RemoveItem(key: string)
      modifies this
      ensures localStorage == old(localStorage) - {key}
      ensures location == old(location) && title == old(title)
    {
      localStorage := localStorage - {key};
    }
  }
}
