/** The theme slice: a mode string, mirrored into local storage and into the `dark`
    class of the document root. */
module Theme {
  import opened JsValues
  import opened Browser

  /** `localStorage.getItem('theme') || 'light'` */
  function InitialMode(entries: map<string, Value>): (m: string)
    ensures m != ""
    ensures GetText(entries, "theme").Some? && GetText(entries, "theme").value != "" ==>
      m == GetText(entries, "theme").value
    ensures GetText(entries, "theme").None? || GetText(entries, "theme").value == "" ==>
      m == "light"
  {
    var stored := GetText(entries, "theme");
    if stored.Some? && stored.value != "" then stored.value else "light"
  }

  /** `state.mode === 'light' ? 'dark' : 'light'` */
  function Toggled(mode: string): (r: string)
    ensures r == "light" || r == "dark"
    ensures r == "dark" <==> mode == "light"
  {
    if mode == "light" then "dark" else "light"
  }

  /** Toggling twice returns to `light` or `dark`; from any other stored mode it ends on `dark`. */
  lemma ToggleTwice(mode: string)
    ensures mode == "light" || mode == "dark" ==> Toggled(Toggled(mode)) == mode
    ensures mode != "light" && mode != "dark" ==> Toggled(Toggled(mode)) == "dark"
  {
  }

  /** `applyTheme(theme)`: the root is dark exactly for `dark`, and the theme is persisted. */
  method ApplyTheme(root: DocumentRoot, storage: LocalStorage, theme: string)
    modifies root, storage
    ensures root.dark <==> theme == "dark"
    ensures storage.entries == old(storage.entries)["theme" := Str(theme)]
  {
    root.dark := theme == "dark";
    storage.SetText("theme", theme);
  }

  class ThemeSlice {
    const root: DocumentRoot
    const storage: LocalStorage
    var mode: string

    /** Module load: the initial mode is read from storage and applied at once. */
    constructor (root: DocumentRoot, storage: LocalStorage)
      modifies root, storage
      ensures this.root == root && this.storage == storage
      ensures mode == InitialMode(old(storage.entries))
      ensures root.dark <==> mode == "dark"
      ensures storage.entries == old(storage.entries)["theme" := Str(mode)]
    {
      this.root := root;
      this.storage := storage;
      var m := InitialMode(storage.entries);
      mode := m;
      new;
      ApplyTheme(root, storage, m);
    }

    /** `toggleTheme()`: the new mode is stored in the state, on the root and in storage. */
    method ToggleTheme()
      modifies this, root, storage
      ensures mode == Toggled(old(mode))
      ensures root.dark <==> mode == "dark"
      ensures storage.entries == old(storage.entries)["theme" := Str(mode)]
    {
      var newTheme := Toggled(mode);
      mode := newTheme;
      ApplyTheme(root, storage, newTheme);
    }
  }
}
