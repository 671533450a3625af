/** The browser's `localStorage`, as a map from keys to stored strings. */
module WebStorage {
  import opened JsValues

  type Storage = map<string, string>

  /** `localStorage.getItem(key)`: the stored string, or null. */
  function GetItem(st: Storage, key: string): (v: Value)
    ensures v.Null? <==> key !in st
    ensures key in st ==> v == Str(st[key])
  {
    if key in st then Str(st[key]) else Null
  }

  /** `localStorage.setItem(key, v)`: stores `String(v)`. */
  function SetItem(st: Storage, key: string, v: Value): (r: Storage)
    ensures key in r && r[key] == ToJsString(v)
    ensures forall k :: k in st && k != key ==> k in r && r[k] == st[k]
    ensures r.Keys == st.Keys + {key}
  {
    st[key := ToJsString(v)]
  }

  /** `localStorage.removeItem(key)`. */
  function RemoveItem(st: Storage, key: string): (r: Storage)
    ensures key !in r
    ensures forall k :: k in st && k != key ==> k in r && r[k] == st[k]
    ensures r.Keys == st.Keys - {key}
  {
    st - {key}
  }
}
