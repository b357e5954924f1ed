/** The theme provider: the theme follows the system preference until the user toggles
    it, a toggled theme is remembered under `app-theme`, and a reset hands control back
    to the system. The document root's class list and `data-theme` attribute are kept
    as state next to the React state. */
module Theme {
  import opened Text

  /** One snapshot of the provider: the React state (`theme`, `isManuallyToggled`), the
      stored `app-theme` entry, and the root element's classes and `data-theme`. */
  datatype ThemeState = ThemeState(
    theme: string, manual: bool, saved: Option<string>, classes: set<string>, dataTheme: Option<string>)

  /** `prefersDark ? 'dark' : 'light'`. */
  function SystemTheme(prefersDark: bool): string {
    if prefersDark then "dark" else "light"
  }

  /** The `useState` initialiser: `window` is `None` when there is no window, else whether
      the system prefers dark. */
  function InitialTheme(window: Option<bool>): (r: string)
    ensures r == "dark" <==> window == Some(true)
    ensures r == "light" || r == "dark"
  {
    match window
    case None => "light"
    case Some(prefersDark) => SystemTheme(prefersDark)
  }

  /** The provider before its effect has run: nothing toggled yet, nothing applied to
      the page yet; `saved` and `classes` are what storage and the root already hold. */
  function Initial(window: Option<bool>, saved: Option<string>, classes: set<string>): (r: ThemeState)
    ensures r.theme == InitialTheme(window) && !r.manual && r.saved == saved
  {
    ThemeState(InitialTheme(window), false, saved, classes, None)
  }

  /** `applyTheme(t, manualToggle)`: the root loses `light` and `dark` and gains `t`,
      `data-theme` and the state become `t`; only a manual toggle stores `t` and raises
      the flag. */
  function ApplyTheme(s: ThemeState, t: string, manualToggle: bool): (r: ThemeState)
    ensures r.theme == t && r.dataTheme == Some(t) && t in r.classes
    ensures manualToggle ==> r.saved == Some(t) && r.manual
    ensures !manualToggle ==> r.saved == s.saved && r.manual == s.manual
    ensures forall c :: c in s.classes && c != "light" && c != "dark" ==> c in r.classes
    ensures forall c :: c in r.classes ==> c == t || (c in s.classes && c != "light" && c != "dark")
  {
    ThemeState(t, manualToggle || s.manual, if manualToggle then Some(t) else s.saved,
               (s.classes - {"light", "dark"}) + {t}, Some(t))
  }

  /** `if (savedTheme)`: a stored entry that is not the empty string. */
  predicate HasSavedTheme(s: ThemeState) {
    s.saved.Some? && s.saved.value != []
  }

  /** The mount effect: a saved theme is applied and counts as a manual choice; otherwise
      the theme chosen at start-up is applied and the flag is cleared. */
  function LoadEffect(s: ThemeState): (r: ThemeState)
    ensures HasSavedTheme(s) ==> r.theme == s.saved.value && r.manual
    ensures !HasSavedTheme(s) ==> r.theme == s.theme && !r.manual
    ensures r.saved == s.saved && r.dataTheme == Some(r.theme)
  {
    if HasSavedTheme(s) then ApplyTheme(s, s.saved.value, false).(manual := true)
    else ApplyTheme(s, s.theme, false).(manual := false)
  }

  /** `theme === 'light' ? 'dark' : 'light'`. */
  function Toggled(t: string): string {
    if t == "light" then "dark" else "light"
  }

  /** `toggleTheme`. */
  function Toggle(s: ThemeState): ThemeState {
    ApplyTheme(s, Toggled(s.theme), true)
  }

  /** `resetToSystem`: the stored entry and the flag are cleared, and with a window the
      system theme is applied. */
  function ResetToSystem(s: ThemeState, window: Option<bool>): (r: ThemeState)
    ensures r.saved.None? && !r.manual
    ensures window.Some? ==> r.theme == SystemTheme(window.value)
    ensures window.None? ==> r.theme == s.theme
  {
    var cleared := s.(saved := None, manual := false);
    match window
    case None => cleared
    case Some(prefersDark) => ApplyTheme(cleared, SystemTheme(prefersDark), false)
  }

  /** The system-change handler as its guard intends it: the new system theme is applied
      while no manual choice is in force, and ignored otherwise. */
  function OnSystemChange(s: ThemeState, matches: bool): (r: ThemeState)
    ensures s.manual ==> r == s
    ensures !s.manual ==> r.theme == SystemTheme(matches) && !r.manual && r.saved == s.saved
    ensures !s.manual ==> r.dataTheme == Some(r.theme)
    ensures !s.manual ==> forall c :: c in r.classes <==> c == r.theme || (c in s.classes && c != "light" && c != "dark")
  {
    if s.manual then s else ApplyTheme(s, SystemTheme(matches), false)
  }

  /** The handler as written: it is created once, by the mount effect, and so tests the
      flag `capturedManual` of that first render rather than the current one. */
  function OnSystemChangeAsWritten(s: ThemeState, capturedManual: bool, matches: bool): (r: ThemeState)
    ensures capturedManual ==> r == s
    ensures !capturedManual ==> r.theme == SystemTheme(matches) && r.manual == s.manual && r.saved == s.saved
  {
    if capturedManual then s else ApplyTheme(s, SystemTheme(matches), false)
  }

  // -------------------------------------------------------------- invariants

  /** A manual choice in force is the stored one and the one shown. */
  ghost predicate Consistent(s: ThemeState) {
    s.manual ==> s.saved == Some(s.theme)
  }

  /** The page shows the theme of the state: `data-theme` is it, the class list holds it,
      and neither `light` nor `dark` is there unless it is the theme. */
  ghost predicate Synced(s: ThemeState) {
    && s.dataTheme == Some(s.theme) && s.theme in s.classes
    && ("light" in s.classes ==> s.theme == "light")
    && ("dark" in s.classes ==> s.theme == "dark")
  }

  /** Every transition of the intended provider keeps both invariants, and the mount
      effect establishes the second. */
  lemma TransitionsKeepInvariants(s: ThemeState, window: Option<bool>, matches: bool)
    ensures !s.manual ==> Consistent(LoadEffect(s)) && Synced(LoadEffect(s))
    ensures Consistent(Toggle(s)) && Synced(Toggle(s))
    ensures Consistent(ResetToSystem(s, window))
    ensures window.Some? ==> Synced(ResetToSystem(s, window))
    ensures Synced(s) ==> Synced(ResetToSystem(s, window))
    ensures Consistent(s) ==> Consistent(OnSystemChange(s, matches))
    ensures Synced(s) ==> Synced(OnSystemChange(s, matches))
  {
  }

  /** Toggling twice restores a light or dark theme (any other saved name ends up as
      dark), with the choice stored and marked manual. */
  lemma ToggleTwice(s: ThemeState)
    ensures s.theme == "light" || s.theme == "dark" ==> Toggle(Toggle(s)).theme == s.theme
    ensures s.theme != "light" && s.theme != "dark" ==> Toggle(Toggle(s)).theme == "dark"
    ensures Toggle(Toggle(s)).manual && Toggle(Toggle(s)).saved == Some(Toggle(Toggle(s)).theme)
    ensures Toggle(s).theme != s.theme
  {
  }

  /** After a manual toggle the intended handler ignores every system change. */
  lemma ManualChoiceSurvivesSystemChange(s: ThemeState, matches: bool)
    ensures OnSystemChange(Toggle(s), matches) == Toggle(s)
  {
  }

  /** A toggled theme is what the next page load starts with, again as a manual choice. */
  lemma ReloadRestoresToggledTheme(s: ThemeState, window: Option<bool>, classes: set<string>)
    ensures var t := Toggle(s);
            var next := LoadEffect(Initial(window, t.saved, classes));
            next.theme == t.theme && next.manual && Synced(next)
  {
  }

  /** After a reset the theme is the system's, the next system change is followed, and
      the next page load starts from the system preference too. */
  lemma ResetHandsBackToSystem(s: ThemeState, prefersDark: bool, matches: bool, classes: set<string>)
    ensures var r := ResetToSystem(s, Some(prefersDark));
            && r.theme == SystemTheme(prefersDark)
            && OnSystemChange(r, matches).theme == SystemTheme(matches)
            && LoadEffect(Initial(Some(prefersDark), r.saved, classes)).theme == SystemTheme(prefersDark)
            && !LoadEffect(Initial(Some(prefersDark), r.saved, classes)).manual
  {
  }

  /** The handler as written, in the situation it was guarded against: on a light system
      the user toggles to dark, then the system reports light again. The handler captured
      the first render's flag (false), so it switches the page back to light while the
      state still says the choice was manual and storage still says dark. The intended
      handler keeps dark. */
  lemma StaleHandlerOverridesChoice()
    ensures var mounted := LoadEffect(Initial(Some(false), None, {}));
            var toggled := Toggle(mounted);
            var stale := OnSystemChangeAsWritten(toggled, Initial(Some(false), None, {}).manual, false);
            && toggled.theme == "dark" && toggled.manual
            && stale.theme == "light" && stale.manual && stale.saved == Some("dark")
            && !Consistent(stale)
            && OnSystemChange(toggled, false).theme == "dark"
  {
  }

  // --------------------------------------------------------- provider state

  /** The provider's mutable state. */
  class ThemeProvider {
    var theme: string
    var isManuallyToggled: bool
    var saved: Option<string>
    var classes: set<string>
    var dataTheme: Option<string>
    var mounted: bool

    function State(): ThemeState
      reads this
    {
      ThemeState(theme, isManuallyToggled, saved, classes, dataTheme)
    }

    /** Before the effect the flag is still its initial false; after it the page shows
        the state's theme; throughout, a manual choice is the stored one. */
    ghost predicate Valid()
      reads this
    {
      && Consistent(State())
      && (!mounted ==> !isManuallyToggled)
      && (mounted ==> Synced(State()))
    }

    constructor (window: Option<bool>, savedTheme: Option<string>, rootClasses: set<string>)
      ensures Valid() && !mounted
      ensures State() == Initial(window, savedTheme, rootClasses)
    {
      theme := InitialTheme(window);
      isManuallyToggled := false;
      saved := savedTheme;
      classes := rootClasses;
      dataTheme := None;
      mounted := false;
    }

    /** `applyTheme`, step by step: classes, attribute, storage and flag, then the state. */
    method Apply(newTheme: string, manualToggle: bool)
      requires Valid()
      requires manualToggle ==> mounted
      requires !manualToggle ==> !isManuallyToggled
      modifies this
      ensures Valid() && mounted == old(mounted)
      ensures State() == ApplyTheme(old(State()), newTheme, manualToggle)
    {
      classes := classes - {"light", "dark"};
      classes := classes + {newTheme};
      dataTheme := Some(newTheme);
      if manualToggle {
        saved := Some(newTheme);
        isManuallyToggled := true;
      }
      theme := newTheme;
    }

    /** The mount effect, which runs once. */
    method Mount()
      requires Valid() && !mounted
      modifies this
      ensures Valid() && mounted
      ensures State() == LoadEffect(old(State()))
    {
      if saved.Some? && saved.value != [] {
        Apply(saved.value, false);
        isManuallyToggled := true;
      } else {
        Apply(theme, false);
        isManuallyToggled := false;
      }
      mounted := true;
    }

    method ToggleTheme()
      requires Valid() && mounted
      modifies this
      ensures Valid() && mounted
      ensures State() == Toggle(old(State()))
    {
      var newTheme := if theme == "light" then "dark" else "light";
      Apply(newTheme, true);
    }

    method ResetToSystemPreference(window: Option<bool>)
      requires Valid() && mounted
      modifies this
      ensures Valid() && mounted
      ensures State() == ResetToSystem(old(State()), window)
    {
      saved := None;
      isManuallyToggled := false;
      if window.Some? {
        Apply(if window.value then "dark" else "light", false);
      }
    }

    /** The media-query listener, with the guard read from the current state. */
    method SystemChanged(matches: bool)
      requires Valid() && mounted
      modifies this
      ensures Valid() && mounted
      ensures State() == OnSystemChange(old(State()), matches)
    {
      if !isManuallyToggled {
        Apply(if matches then "dark" else "light", false);
      }
    }
  }
}
