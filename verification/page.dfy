/**
  The script as a whole: it runs once when the page loads, wires the theme
  switch only when the `#mode` element exists and the menu blur only when the
  `#menu-trigger` element exists, and afterwards every event runs its handler
  to completion, one at a time, in dispatch order.
 */
module Page {
  import opened JsValues
  import opened Storage
  import opened Theme
  import opened MenuBlur

  /** What the script finds at load time: whether the two controls exist, the theme state, and the first `.wrapper` element's classes. */
  datatype LoadedPage = LoadedPage(hasLamp: bool, hasMenuTrigger: bool, theme: ThemeState, wrapper: Option<set<string>>)

  /** The live page after the script ran: the mutable state and which handlers were registered. */
  datatype Session = Session(theme: ThemeState, wrapper: Option<set<string>>, lampListens: bool, menuListens: bool)

  /** A click on the theme switch, or a change of the menu checkbox carrying its new `checked` value. */
  datatype Event = LampClick | MenuChange(checked: bool)

  /** The load-time part of the script: with the switch present, initialise the theme and listen for clicks; with the checkbox present, listen for changes. */
  function Setup(p: LoadedPage): (s: Session)
    ensures s.lampListens == p.hasLamp && s.menuListens == p.hasMenuTrigger
    ensures s.wrapper == p.wrapper
    ensures s.theme.store == p.theme.store
    ensures p.hasLamp ==> Settled(s.theme) && MarkerMode(s.theme.marker) == StoredMode(p.theme.store)
    ensures !p.hasLamp ==> s.theme == p.theme
  {
    var theme := if p.hasLamp then InitTheme(p.theme) else p.theme;
    Session(theme, p.wrapper, p.hasLamp, p.hasMenuTrigger)
  }

  /** One event reaches its handler if one was registered; otherwise nothing happens. */
  function Step(s: Session, e: Event): (r: Session)
    ensures r.lampListens == s.lampListens && r.menuListens == s.menuListens
    ensures e.MenuChange? || !s.lampListens ==> r.theme == s.theme
    ensures e.LampClick? || !s.menuListens ==> r.wrapper == s.wrapper
    ensures e.LampClick? && s.lampListens ==> r.theme == ToggleTheme(s.theme)
    ensures e.LampClick? && s.lampListens ==> MarkerMode(r.theme.marker) == Flip(MarkerMode(s.theme.marker))
    ensures SameExcept(r.theme.store, s.theme.store, ThemeKey)
    ensures e.MenuChange? && s.menuListens ==> r.wrapper == OnMenuChange(s.wrapper, e.checked)
  {
    match e
    case LampClick =>
      if s.lampListens then s.(theme := ToggleTheme(s.theme)) else s
    case MenuChange(checked) =>
      if s.menuListens then s.(wrapper := OnMenuChange(s.wrapper, checked)) else s
  }

  /** A sequence of events, handled in order. */
  function Run(s: Session, events: seq<Event>): (r: Session)
    ensures r.lampListens == s.lampListens && r.menuListens == s.menuListens
    ensures !s.lampListens ==> r.theme == s.theme
    ensures !s.menuListens ==> r.wrapper == s.wrapper
    ensures r.wrapper.Some? <==> s.wrapper.Some?
    ensures SameExcept(r.theme.store, s.theme.store, ThemeKey)
    decreases |events|
  {
    if |events| == 0 then s else Run(Step(s, events[0]), events[1..])
  }

  /** The same run as a loop: each event's handler runs to completion before the next event is handled. */
  method Dispatch(s: Session, events: seq<Event>) returns (r: Session)
    ensures r == Run(s, events)
  {
    r := s;
    var i := 0;
    while i < |events|
      invariant 0 <= i <= |events|
      invariant Run(r, events[i..]) == Run(s, events)
    {
      assert events[i..][1..] == events[i + 1..];
      r := Step(r, events[i]);
      i := i + 1;
    }
  }

  /** The number of clicks on the theme switch in a sequence of events. */
  function Clicks(events: seq<Event>): nat
    decreases |events|
  {
    if |events| == 0 then 0
    else (if events[0].LampClick? then 1 else 0) + Clicks(events[1..])
  }

  /** The checked value of the last menu change in a sequence of events, if there is one. */
  function LastChecked(events: seq<Event>): Option<bool>
    decreases |events|
  {
    if |events| == 0 then None
    else
      var later := LastChecked(events[1..]);
      if later.Some? then later
      else if events[0].MenuChange? then Some(events[0].checked)
      else None
  }

  /** A mode flipped `n` times. */
  function FlipTimes(m: Mode, n: nat): Mode
  {
    if n % 2 == 0 then m else Flip(m)
  }

  /** With the switch wired, every state reachable from a settled one is settled, so store and marker agree. */
  lemma {:induction false} RunKeepsSettled(s: Session, events: seq<Event>)
    requires Settled(s.theme)
    ensures Settled(Run(s, events).theme)
    ensures Consistent(Run(s, events).theme)
    decreases |events|
  {
    if |events| > 0 {
      RunKeepsSettled(Step(s, events[0]), events[1..]);
    }
    SettledIffConsistent(Run(s, events).theme);
  }

  /** With the switch wired, the shown mode is the starting mode flipped once per click. */
  lemma {:induction false} RunFlipsPerClick(s: Session, events: seq<Event>)
    requires s.lampListens
    ensures MarkerMode(Run(s, events).theme.marker) == FlipTimes(MarkerMode(s.theme.marker), Clicks(events))
    decreases |events|
  {
    if |events| > 0 {
      RunFlipsPerClick(Step(s, events[0]), events[1..]);
    }
  }

  /** With the blur wired and a wrapper present, "blurry" mirrors the last change; with no change the wrapper is untouched; other classes never change. */
  lemma {:induction false} RunBlurMirrorsLastChange(s: Session, events: seq<Event>)
    requires s.menuListens && s.wrapper.Some?
    ensures Run(s, events).wrapper.Some?
    ensures LastChecked(events).Some? ==> (Blurry in Run(s, events).wrapper.value <==> LastChecked(events).value)
    ensures LastChecked(events).None? ==> Run(s, events).wrapper == s.wrapper
    ensures Run(s, events).wrapper.value - {Blurry} == s.wrapper.value - {Blurry}
    decreases |events|
  {
    if |events| > 0 {
      RunBlurMirrorsLastChange(Step(s, events[0]), events[1..]);
    }
  }

  /** The whole script: load-time setup followed by the user's events. */
  function Script(p: LoadedPage, events: seq<Event>): (r: Session)
    ensures r.lampListens == p.hasLamp && r.menuListens == p.hasMenuTrigger
    ensures !p.hasLamp ==> r.theme == p.theme
    ensures SameExcept(r.theme.store, p.theme.store, ThemeKey)
    ensures r.wrapper.Some? <==> p.wrapper.Some?
  {
    Run(Setup(p), events)
  }

  /** With the switch on the page, store and marker agree after loading and after every event, and the shown mode is the stored one flipped once per click. */
  lemma ScriptWithLamp(p: LoadedPage, events: seq<Event>)
    requires p.hasLamp
    ensures Settled(Script(p, events).theme) && Consistent(Script(p, events).theme)
    ensures MarkerMode(Script(p, events).theme.marker) == FlipTimes(StoredMode(p.theme.store), Clicks(events))
    ensures SameExcept(Script(p, events).theme.store, p.theme.store, ThemeKey)
  {
    RunKeepsSettled(Setup(p), events);
    RunFlipsPerClick(Setup(p), events);
  }

  /** Without the switch, neither initialisation nor any click touches the marker or the store. */
  lemma ScriptWithoutLamp(p: LoadedPage, events: seq<Event>)
    requires !p.hasLamp
    ensures Script(p, events).theme == p.theme
  {
  }

  /** With the checkbox and a wrapper present, the wrapper ends blurred exactly when the last change checked the box. */
  lemma ScriptBlur(p: LoadedPage, events: seq<Event>)
    requires p.hasMenuTrigger && p.wrapper.Some?
    requires LastChecked(events).Some?
    ensures Script(p, events).wrapper.Some?
    ensures Blurry in Script(p, events).wrapper.value <==> LastChecked(events).value
    ensures Script(p, events).wrapper.value - {Blurry} == p.wrapper.value - {Blurry}
  {
    RunBlurMirrorsLastChange(Setup(p), events);
  }

  /** Without the checkbox, or without a wrapper, the wrapper is never touched. */
  lemma ScriptWithoutBlur(p: LoadedPage, events: seq<Event>)
    requires !p.hasMenuTrigger || p.wrapper.None?
    ensures Script(p, events).wrapper == p.wrapper
  {
  }
}
