/** The two pieces of browser state the application writes: the origin's local key-value
    storage, shared by the theme slice, the auth slice and the auth service, and the
    `dark` class of the document's root element. */
module Browser {
  import opened JsValues

  /** `window.localStorage`. Text entries are stored as `Str`; the user record, which the
      application stores as `JSON.stringify(user)`, is stored as the object itself. */
  class LocalStorage {
    var entries: map<string, Value>

    constructor (initial: map<string, Value>)
      ensures entries == initial
    {
      entries := initial;
    }

    /** `localStorage.setItem(key, text)` */
    method SetText(key: string, text: string)
      modifies this
      ensures entries == old(entries)[key := Str(text)]
    {
      entries := entries[key := Str(text)];
    }

    /** `localStorage.setItem(key, JSON.stringify(o))` */
    method SetObject(key: string, o: Object)
      modifies this
      ensures entries == old(entries)[key := Obj(o)]
    {
      entries := entries[key := Obj(o)];
    }

    /** `localStorage.clear()` */
    method Clear()
      modifies this
      ensures entries == map[]
    {
      entries := map[];
    }
  }

  /** `localStorage.getItem(key)` for a text entry: `None` stands for `null`. */
  function GetText(entries: map<string, Value>, key: string): (r: Option<string>)
    ensures r.Some? <==> key in entries && entries[key].Str?
    ensures r.Some? ==> entries[key] == Str(r.value)
  {
    if key in entries && entries[key].Str? then Some(entries[key].s) else None
  }

  /** `document.documentElement`, reduced to whether its class list holds `dark`. */
  class DocumentRoot {
    var dark: bool

    constructor ()
      ensures !dark
    {
      dark := false;
    }
  }
}
