# Theme switch and menu blur of a static site, in Dafny

The site's client script (`assets/js/main.js`) runs once per page load and
wires two independent controllers:

- the **theme switch**: when the `#mode` element (the "lamp") exists, `initTheme`
  projects the `theme` preference held in `localStorage` onto the body's
  `data-theme` attribute, and each click on the lamp runs `toggleTheme`, which
  reads the attribute (not the store), flips it and persists the matching
  preference;
- the **menu blur**: when the `#menu-trigger` checkbox exists, each change of it
  adds the `blurry` class to the first `.wrapper` element when the box is
  checked and removes it otherwise.

The model keeps no DOM. `localStorage` is a `map<string, string>`
(`Storage`), the `data-theme` attribute is an optional string (`Theme`), the
wrapper is an optional set of class names (`MenuBlur`), and the page as a
whole is a record of what the script finds at load time plus a run of events
handled one at a time (`Page`). JavaScript's `null` and the `||` fallback used
by `initTheme` are in `JsValues`.

The theme state is described through an abstract `Mode` (light or dark):
`MarkerMode` reads it off the attribute the way `toggleTheme` does,
`StoredMode` reads it off the store the way `initTheme` does, and `Render` /
`Encode` write it back. Three predicates describe agreement between store and
attribute: `Consistent` (attribute is "dark" exactly when the stored value is
"dark"), `Settled` (the attribute is exactly what `initTheme` would project)
and `Persisted` (the attribute is one the controller writes and the store holds
exactly the value written for it).

Toggling twice does **not** in general restore both the attribute and the
stored preference. It restores the attribute only when that was absent
or "dark", and restores the store only when the store already held the
preference matching the attribute; `Theme.ToggleTwice` and
`Theme.ToggleTwiceIdentity` state the exact condition.

## Model

| member | source | states |
|---|---|---|
| JsValues.Or | assets/js/main.js:9 | the or-fallback of `getItem` yields either the fallback or the string itself, and is empty only if the fallback is |
| Storage.GetItem | assets/js/main.js:9 | `getItem` yields `null` exactly for a key never written, and otherwise the stored value |
| Storage.SetItem | assets/js/main.js:20-23 | after `setItem` the key reads back the written value, every other key is unchanged, and only that key is added |
| Storage.GetAfterSet | assets/js/main.js:20-23 | reading any key after a write sees the write for that key and the old value for every other key |
| Theme.MarkerMode | assets/js/main.js:18-19 | `toggleTheme` reads the attribute as dark exactly when it holds "dark"; an absent attribute or any other string reads as light |
| Theme.StoredMode | assets/js/main.js:9-10 | the stored preference selects dark exactly when `getItem("theme")` is "dark"; missing, empty or other values select light |
| Theme.StoredModeRoundTrip | assets/js/main.js:9-23 | a preference written for a mode is read back by `initTheme` as that mode |
| Theme.MarkerModeRoundTrip | assets/js/main.js:18-24 | an attribute written for a mode is read back by `toggleTheme` as that mode |
| Theme.SettledIffConsistent | assets/js/main.js:10-14 | a state is what `initTheme` would project iff attribute and store agree on "dark" and the attribute is absent or "dark" |
| Theme.PersistedIsSettled | assets/js/main.js:19-25 | a state whose store holds the preference written for its attribute is one `initTheme` would reproduce |
| Theme.InitTheme | assets/js/main.js:8-15 | the attribute becomes "dark" exactly when the stored value is "dark" and is removed otherwise; the store is not written |
| Theme.ToggleTheme | assets/js/main.js:17-26 | from "dark" the attribute is removed and "light" stored; from anything else "dark" is set and stored; the mode flips; only the `theme` key changes; store and attribute agree afterwards |
| Theme.InitIdempotent | assets/js/main.js:8-15 | running `initTheme` again changes nothing |
| Theme.ToggleIgnoresStoredPreference | assets/js/main.js:18-25 | `toggleTheme` gives the same result whatever the stored preference was |
| Theme.ToggleTwice | assets/js/main.js:18-25 | two toggles show and persist the mode the original attribute signalled; the attribute comes back iff it was absent or "dark"; other keys unchanged |
| Theme.ToggleTwiceIdentity | assets/js/main.js:18-25 | two toggles are the identity exactly on persisted states |
| Theme.ReloadRestores | assets/js/main.js:8-29 | a reload (same store, any markup attribute, then `initTheme`) reproduces a state iff it was settled, hence always after a toggle |
| MenuBlur.OnMenuChange | assets/js/main.js:39-46 | with a wrapper, "blurry" is present iff checked and no other class changes; without one nothing happens |
| MenuBlur.OnMenuChangeIdempotent | assets/js/main.js:42-44 | handling the same checked value twice equals handling it once |
| MenuBlur.OnMenuChangeLastWins | assets/js/main.js:42-44 | two changes in a row leave the wrapper as the second alone would |
| MenuBlur.OnMenuChangeFixpoint | assets/js/main.js:42-44 | the handler leaves a wrapper unchanged iff its "blurry" class already matches the checkbox |
| Page.Setup | assets/js/main.js:4-47 | the theme is initialised and clicks are listened for exactly when the lamp exists; otherwise the theme state is untouched; change listening exactly when the checkbox exists |
| Page.Step | assets/js/main.js:29-47 | a click runs `toggleTheme` (flipping the mode and writing the preference) only when the lamp handler is registered; a change applies the blur handler only when its handler is registered; no store key but `theme` is ever written |
| Page.Run | assets/js/main.js:29-47 | handling events never changes which handlers exist, never touches an unwired feature, never adds or removes the wrapper, and writes no store key but `theme` |
| Page.Dispatch | assets/js/main.js:32-47 | handling events in a loop, each handler to completion before the next, yields the same page as the recursive run |
| Page.RunKeepsSettled | assets/js/main.js:17-32 | from a settled state, store and attribute agree after every sequence of events |
| Page.RunFlipsPerClick | assets/js/main.js:17-32 | with the lamp wired, the shown mode is the starting mode flipped once per click |
| Page.RunBlurMirrorsLastChange | assets/js/main.js:36-47 | with the blur wired, "blurry" mirrors the last change, the wrapper is untouched without one, and other classes never change |
| Page.Script | assets/js/main.js:1-48 | the whole script registers a handler exactly for each control present, leaves the theme state alone without the lamp, never adds or removes the wrapper, and writes no store key but `theme` |
| Page.ScriptWithLamp | assets/js/main.js:7-32 | with the lamp present, store and attribute agree after load and every event, the mode is the stored one flipped per click, and only `theme` is written |
| Page.ScriptWithoutLamp | assets/js/main.js:4-33 | without the lamp, attribute and store are never touched |
| Page.ScriptBlur | assets/js/main.js:36-47 | with checkbox and wrapper present, the wrapper ends blurred iff the last change checked the box |
| Page.ScriptWithoutBlur | assets/js/main.js:36-47 | without the checkbox or the wrapper, the wrapper is never touched |

## Left out

- The language filter (item and header visibility, the `site-language` key, active language buttons): no such code exists in `assets/js/main.js`, so there is nothing to model.
- `static/js/main.62dc2d03.chunk.js`: a compiled React component tree with a network `fetch`; it is rendering and I/O with no stateable core.
- `addEventListener` and the browser's event loop are not modelled as such; registration is a flag per handler, and handling is `Page.Run` (recursive) or `Page.Dispatch` (the same as a loop), one handler at a time in order.
- `localStorage` being unavailable or full: the script has no handling for it. If `getItem` throws at load, the exception ends the script before the menu-blur listener is registered; `Page.Setup` assumes storage works and does not model this.
- Other tabs of the same site share `localStorage`, and the script registers no `storage` listener. A toggle in another tab can leave this page's attribute disagreeing with the store. `Page.RunKeepsSettled` and `Page.ScriptWithLamp` assume this page is the only writer of `theme` between its events.
- The wrapper is looked up once per page: the script queries `.wrapper` on every change, which matters only if the DOM changes between events, and DOM mutation by other code is outside this model.
- `classList` is a set of names: token order and the DOM's serialisation of the `class` attribute are not modelled.
- The `checked` value is carried by the change event: how the browser flips a checkbox before firing `change` is not modelled, so any sequence of values is allowed.
