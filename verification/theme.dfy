/**
  The theme switch: `initTheme` projects the stored `theme` preference onto the
  body's `data-theme` attribute (the marker), and `toggleTheme` flips the marker
  and persists the matching preference.
 */
module Theme {
  import opened JsValues
  import opened Storage

  /** The store key holding the preference. */
  const ThemeKey := "theme"
  /** The marker value and the stored value that mean dark. */
  const Dark := "dark"
  /** The stored value that means light; a light page has no marker. */
  const Light := "light"

  /** The two presentation modes. */
  datatype Mode = LightMode | DarkMode

  function Flip(m: Mode): (r: Mode)
    ensures r != m
  {
    if m == DarkMode then LightMode else DarkMode
  }

  /** Everything the theme controller reads or writes: the persistent store and the optional `data-theme` attribute. */
  datatype ThemeState = ThemeState(store: Store, marker: Option<string>)

  /** The mode a marker signals, as `toggleTheme` reads it: dark exactly when it holds "dark". */
  function MarkerMode(marker: Option<string>): (m: Mode)
    ensures m == DarkMode <==> marker == Some(Dark)
    ensures marker == None ==> m == LightMode
  {
    if marker == Some(Dark) then DarkMode else LightMode
  }

  /** The mode the stored preference selects, as `initTheme` reads it: a missing or empty value falls back to "light", and only "dark" selects dark. */
  function StoredMode(store: Store): (m: Mode)
    ensures m == DarkMode <==> GetItem(store, ThemeKey) == Some(Dark)
  {
    if Or(GetItem(store, ThemeKey), Light) == Dark then DarkMode else LightMode
  }

  /** The preference value the controller writes for a mode. */
  function Encode(m: Mode): string
  {
    if m == DarkMode then Dark else Light
  }

  /** The marker the controller writes for a mode: "dark", or no attribute at all. */
  function Render(m: Mode): Option<string>
  {
    if m == DarkMode then Some(Dark) else None
  }

  /** Reading back a written preference yields the mode it was written for. */
  lemma StoredModeRoundTrip(store: Store, m: Mode)
    ensures StoredMode(SetItem(store, ThemeKey, Encode(m))) == m
  {
  }

  /** Rendering a mode and reading the marker back yields the same mode. */
  lemma MarkerModeRoundTrip(m: Mode)
    ensures MarkerMode(Render(m)) == m
  {
  }

  /** The marker says dark exactly when the stored preference is "dark". */
  predicate Consistent(s: ThemeState)
  {
    s.marker == Some(Dark) <==> GetItem(s.store, ThemeKey) == Some(Dark)
  }

  /** The marker is exactly the one `initTheme` would project from the store. */
  predicate Settled(s: ThemeState)
  {
    s.marker == Render(StoredMode(s.store))
  }

  /** The marker is one the controller writes, and the store holds exactly the preference written for it. */
  predicate Persisted(s: ThemeState)
  {
    && s.marker == Render(MarkerMode(s.marker))
    && GetItem(s.store, ThemeKey) == Some(Encode(MarkerMode(s.marker)))
  }

  /** Settled states are the consistent ones whose marker is absent or "dark". */
  lemma SettledIffConsistent(s: ThemeState)
    ensures Settled(s) <==> Consistent(s) && (s.marker == None || s.marker == Some(Dark))
  {
  }

  /** A persisted state is settled; the converse fails when the store lacks the key or holds another value. */
  lemma PersistedIsSettled(s: ThemeState)
    ensures Persisted(s) ==> Settled(s)
  {
  }

  /** `initTheme`: show dark exactly when the stored preference is "dark", otherwise remove the attribute. */
  function InitTheme(s: ThemeState): (r: ThemeState)
    ensures r.store == s.store
    ensures r.marker == Some(Dark) <==> GetItem(s.store, ThemeKey) == Some(Dark)
    ensures r.marker == None || r.marker == Some(Dark)
    ensures MarkerMode(r.marker) == StoredMode(s.store)
  {
    var theme := Or(GetItem(s.store, ThemeKey), Light);
    if theme == Dark then s.(marker := Some(Dark)) else s.(marker := None)
  }

  /** `toggleTheme`: branch on the current marker only, flip it, and persist the matching preference. */
  function ToggleTheme(s: ThemeState): (r: ThemeState)
    ensures s.marker == Some(Dark) ==> r.marker == None && GetItem(r.store, ThemeKey) == Some(Light)
    ensures s.marker != Some(Dark) ==> r.marker == Some(Dark) && GetItem(r.store, ThemeKey) == Some(Dark)
    ensures MarkerMode(r.marker) == Flip(MarkerMode(s.marker))
    ensures GetItem(r.store, ThemeKey) == Some(Light) || GetItem(r.store, ThemeKey) == Some(Dark)
    ensures SameExcept(r.store, s.store, ThemeKey)
    ensures Consistent(r) && Settled(r) && Persisted(r)
  {
    var current := s.marker;
    if current == Some(Dark) then
      ThemeState(SetItem(s.store, ThemeKey, Light), None)
    else
      ThemeState(SetItem(s.store, ThemeKey, Dark), Some(Dark))
  }

  /** Running `initTheme` again changes nothing. */
  lemma InitIdempotent(s: ThemeState)
    ensures InitTheme(InitTheme(s)) == InitTheme(s)
  {
  }

  /** The result of `toggleTheme` depends on the marker and the other store keys, never on the stored preference. */
  lemma ToggleIgnoresStoredPreference(s: ThemeState, value: string)
    ensures ToggleTheme(s) == ToggleTheme(s.(store := SetItem(s.store, ThemeKey, value)))
  {
  }

  /**
    Toggling twice shows the mode the original marker signalled and persists it.
    The original marker comes back exactly when it was absent or "dark";
    any other attribute value ends up removed.
   */
  lemma ToggleTwice(s: ThemeState)
    ensures ToggleTheme(ToggleTheme(s)).marker == Render(MarkerMode(s.marker))
    ensures ToggleTheme(ToggleTheme(s)).marker == s.marker <==> (s.marker == None || s.marker == Some(Dark))
    ensures GetItem(ToggleTheme(ToggleTheme(s)).store, ThemeKey) == Some(Encode(MarkerMode(s.marker)))
    ensures SameExcept(ToggleTheme(ToggleTheme(s)).store, s.store, ThemeKey)
  {
  }

  /** Toggling twice is the identity exactly on persisted states, in particular on every state a toggle produced. */
  lemma ToggleTwiceIdentity(s: ThemeState)
    ensures ToggleTheme(ToggleTheme(s)) == s <==> Persisted(s)
  {
  }

  /** A reload keeps the store, starts from whatever attribute the markup carries, and runs `initTheme`. */
  function Reload(s: ThemeState, markup: Option<string>): ThemeState
  {
    InitTheme(ThemeState(s.store, markup))
  }

  /** A reload reproduces the state exactly when it was settled, whatever the markup; every toggle result is. */
  lemma ReloadRestores(s: ThemeState, markup: Option<string>)
    ensures Reload(s, markup) == s <==> Settled(s)
    ensures Reload(ToggleTheme(s), markup) == ToggleTheme(s)
  {
  }
}
