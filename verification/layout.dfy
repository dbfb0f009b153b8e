/** The page shell (src/components/Layout.tsx): dark mode and the two
    sidebar flags, initialised from browser storage and the system colour
    preference, written back to storage by two effects, and changed by the
    toggle buttons and by system colour-scheme events. The browser is
    modelled as a `Host`: the storage map and the `dark` class of the root
    element. The system preference and the window width are parameters. */
module Layout {

  const THEME_KEY: string := "theme"
  const SIDEBAR_KEY: string := "sidebarCollapsed"
  const DARK: string := "dark"
  const LIGHT: string := "light"

  /** Widths below this one show the mobile sidebar. */
  const DESKTOP_WIDTH: int := 1024

  /** Browser storage and whether the root element carries the `dark` class. */
  datatype Host = Host(storage: map<string, string>, rootDark: bool)

  datatype LayoutState = LayoutState(isDarkMode: bool, isSidebarCollapsed: bool, isMobileSidebarOpen: bool)

  /** `localStorage.getItem('theme')` is truthy: present and not empty. */
  predicate HasSavedTheme(storage: map<string, string>)
  {
    THEME_KEY in storage && storage[THEME_KEY] != ""
  }

  /** The three state initialisers. A saved theme decides dark mode, and
      only the exact value 'dark' turns it on; without one the system
      preference decides. The sidebar starts collapsed only for the exact
      stored value 'true'. The mobile sidebar starts closed. */
  function Initial(storage: map<string, string>, systemDark: bool): (s: LayoutState)
    ensures !HasSavedTheme(storage) ==> (s.isDarkMode <==> systemDark)
    ensures HasSavedTheme(storage) ==> (s.isDarkMode <==> storage[THEME_KEY] == DARK)
    ensures s.isSidebarCollapsed <==> SIDEBAR_KEY in storage && storage[SIDEBAR_KEY] == "true"
    ensures !s.isMobileSidebarOpen
  {
    var dark := if HasSavedTheme(storage) then storage[THEME_KEY] == DARK else systemDark;
    var collapsed := SIDEBAR_KEY in storage && storage[SIDEBAR_KEY] == "true";
    LayoutState(dark, collapsed, false)
  }

  /** The theme effect: set or clear the root's `dark` class and store
      'dark' or 'light' under 'theme'. No other key changes. */
  function ApplyTheme(h: Host, dark: bool): (h': Host)
    ensures h'.rootDark == dark
    ensures HasSavedTheme(h'.storage)
    ensures h'.storage[THEME_KEY] == DARK <==> dark
    ensures h'.storage[THEME_KEY] in {DARK, LIGHT}
    ensures h'.storage.Keys == h.storage.Keys + {THEME_KEY}
    ensures forall k :: k in h.storage && k != THEME_KEY ==> h'.storage[k] == h.storage[k]
  {
    Host(h.storage[THEME_KEY := if dark then DARK else LIGHT], dark)
  }

  /** `Boolean.prototype.toString`. */
  function BoolText(b: bool): string
  {
    if b then "true" else "false"
  }

  /** The sidebar effect: store the collapsed flag as text. No other key
      and not the root class change. */
  function SaveSidebar(h: Host, collapsed: bool): (h': Host)
    ensures h'.rootDark == h.rootDark
    ensures SIDEBAR_KEY in h'.storage && (h'.storage[SIDEBAR_KEY] == "true" <==> collapsed)
    ensures h'.storage.Keys == h.storage.Keys + {SIDEBAR_KEY}
    ensures forall k :: k in h.storage && k != SIDEBAR_KEY ==> h'.storage[k] == h.storage[k]
  {
    Host(h.storage[SIDEBAR_KEY := BoolText(collapsed)], h.rootDark)
  }

  /** Both effects, run after a render that produced `s`. */
  function Effects(h: Host, s: LayoutState): Host
  {
    SaveSidebar(ApplyTheme(h, s.isDarkMode), s.isSidebarCollapsed)
  }

  /** Whatever the effects store is read back by the initialisers on the
      next visit, whatever the system preference is then: dark mode and
      the collapsed flag survive a reload, and the mobile sidebar closes. */
  lemma ReloadRestoresState(h: Host, s: LayoutState, systemDark: bool)
    ensures Initial(Effects(h, s).storage, systemDark) == s.(isMobileSidebarOpen := false)
  {
    var h1 := ApplyTheme(h, s.isDarkMode);
    var h2 := SaveSidebar(h1, s.isSidebarCollapsed);
    assert THEME_KEY != SIDEBAR_KEY;
    assert h2.storage[THEME_KEY] == h1.storage[THEME_KEY];
  }

  /** `toggleDarkMode`: flips dark mode only. */
  function ToggleDarkMode(s: LayoutState): (s': LayoutState)
    ensures s'.isDarkMode != s.isDarkMode
    ensures s'.isSidebarCollapsed == s.isSidebarCollapsed
    ensures s'.isMobileSidebarOpen == s.isMobileSidebarOpen
  {
    s.(isDarkMode := !s.isDarkMode)
  }

  /** Toggling dark mode twice restores the state. */
  lemma ToggleDarkModeTwice(s: LayoutState)
    ensures ToggleDarkMode(ToggleDarkMode(s)) == s
  {
  }

  /** `toggleSidebar`: below the desktop width it opens or closes the mobile
      sidebar, otherwise it collapses or expands the desktop one; nothing
      else changes. */
  function ToggleSidebar(s: LayoutState, innerWidth: int): (s': LayoutState)
    ensures s'.isDarkMode == s.isDarkMode
    ensures innerWidth < DESKTOP_WIDTH ==>
      s'.isMobileSidebarOpen != s.isMobileSidebarOpen && s'.isSidebarCollapsed == s.isSidebarCollapsed
    ensures innerWidth >= DESKTOP_WIDTH ==>
      s'.isSidebarCollapsed != s.isSidebarCollapsed && s'.isMobileSidebarOpen == s.isMobileSidebarOpen
  {
    if innerWidth < DESKTOP_WIDTH then s.(isMobileSidebarOpen := !s.isMobileSidebarOpen)
    else s.(isSidebarCollapsed := !s.isSidebarCollapsed)
  }

  /** Two toggles at the same width restore the state. */
  lemma ToggleSidebarTwice(s: LayoutState, innerWidth: int)
    ensures ToggleSidebar(ToggleSidebar(s, innerWidth), innerWidth) == s
  {
  }

  /** `closeMobileSidebar`: closes the mobile sidebar and changes nothing else. */
  function CloseMobileSidebar(s: LayoutState): (s': LayoutState)
    ensures !s'.isMobileSidebarOpen
    ensures s'.isDarkMode == s.isDarkMode && s'.isSidebarCollapsed == s.isSidebarCollapsed
  {
    s.(isMobileSidebarOpen := false)
  }

  /** Closing is idempotent, and undoes a mobile toggle that opened the sidebar. */
  lemma CloseMobileSidebarIdempotent(s: LayoutState, innerWidth: int)
    ensures CloseMobileSidebar(CloseMobileSidebar(s)) == CloseMobileSidebar(s)
    ensures innerWidth < DESKTOP_WIDTH && !s.isMobileSidebarOpen ==>
      CloseMobileSidebar(ToggleSidebar(s, innerWidth)) == s
  {
  }

  /** `handleSystemThemeChange`: follow the system preference only while no
      theme is saved. */
  function SystemThemeChange(s: LayoutState, storage: map<string, string>, matches: bool): (s': LayoutState)
    ensures HasSavedTheme(storage) ==> s' == s
    ensures !HasSavedTheme(storage) ==> s'.isDarkMode == matches
    ensures s'.isSidebarCollapsed == s.isSidebarCollapsed && s'.isMobileSidebarOpen == s.isMobileSidebarOpen
  {
    if HasSavedTheme(storage) then s else s.(isDarkMode := matches)
  }

  /** What can happen to a mounted layout: a system colour-scheme event, or
      the user pressing the theme toggle. */
  datatype ThemeEvent = SystemChange(matches: bool) | UserToggle

  predicate OnlySystemChanges(es: seq<ThemeEvent>)
  {
    forall i :: 0 <= i < |es| ==> es[i].SystemChange?
  }

  /** The layout as written: every state change is followed by the effects,
      which store the theme whoever changed it. */
  function Run(s: LayoutState, h: Host, es: seq<ThemeEvent>): (r: (LayoutState, Host))
    ensures es != [] ==> HasSavedTheme(r.1.storage)
    decreases |es|
  {
    if es == [] then (s, h)
    else
      var s' := match es[0]
        case SystemChange(m) => SystemThemeChange(s, h.storage, m)
        case UserToggle => ToggleDarkMode(s);
      Run(s', Effects(h, s'), es[1..])
  }

  /** Mounting: initialise from storage, then run both effects. */
  function Mount(h: Host, systemDark: bool): (r: (LayoutState, Host))
    ensures r.0 == Initial(h.storage, systemDark)
    ensures HasSavedTheme(r.1.storage)
  {
    var s := Initial(h.storage, systemDark);
    (s, Effects(h, s))
  }

  /** As written, once mounted a theme is always saved, so system events
      never change anything, whether or not the user ever chose a theme. */
  lemma {:induction false} SystemChangesIgnoredAfterMount(s: LayoutState, h: Host, es: seq<ThemeEvent>)
    requires HasSavedTheme(h.storage)
    requires OnlySystemChanges(es)
    ensures Run(s, h, es).0 == s
    decreases |es|
  {
    if es != [] {
      assert es[0].SystemChange?;
      SystemChangesIgnoredAfterMount(s, Effects(h, s), es[1..]);
    }
  }

  /** A first visit with nothing stored and a light system: the system then
      turns dark, yet the page stays light, although the user never chose. */
  lemma FirstVisitMissesSystemChange()
    ensures var (s, h) := Mount(Host(map[], false), false);
            !Run(s, h, [SystemChange(true)]).0.isDarkMode
  {
    var (s, h) := Mount(Host(map[], false), false);
    SystemChangesIgnoredAfterMount(s, h, [SystemChange(true)]);
  }

  /** The intended layout: the theme is stored only when the user toggles
      it; otherwise only the root class follows the state. */
  function IntendedRun(s: LayoutState, h: Host, es: seq<ThemeEvent>): (r: (LayoutState, Host))
    ensures HasSavedTheme(h.storage) ==> HasSavedTheme(r.1.storage)
    ensures UserToggle in es ==> HasSavedTheme(r.1.storage)
    decreases |es|
  {
    if es == [] then (s, h)
    else
      match es[0]
      case SystemChange(m) =>
        var s' := SystemThemeChange(s, h.storage, m);
        IntendedRun(s', SaveSidebar(h.(rootDark := s'.isDarkMode), s'.isSidebarCollapsed), es[1..])
      case UserToggle =>
        var s' := ToggleDarkMode(s);
        IntendedRun(s', Effects(h, s'), es[1..])
  }

  /** The intended mount stores the sidebar flag but no theme. */
  function IntendedMount(h: Host, systemDark: bool): (r: (LayoutState, Host))
    ensures r.0 == Initial(h.storage, systemDark)
    ensures r.1.rootDark == r.0.isDarkMode
    ensures HasSavedTheme(r.1.storage) <==> HasSavedTheme(h.storage)
  {
    var s := Initial(h.storage, systemDark);
    var h' := SaveSidebar(h.(rootDark := s.isDarkMode), s.isSidebarCollapsed);
    assert THEME_KEY != SIDEBAR_KEY;
    assert THEME_KEY in h'.storage <==> THEME_KEY in h.storage;
    (s, h')
  }

  /** Intended behaviour, first half: until the user chooses a theme, the
      page follows the latest system event and still has nothing saved. */
  lemma {:induction false} IntendedFollowsSystem(s: LayoutState, h: Host, es: seq<ThemeEvent>)
    requires !HasSavedTheme(h.storage)
    requires OnlySystemChanges(es) && es != []
    ensures IntendedRun(s, h, es).0.isDarkMode == es[|es| - 1].matches
    ensures !HasSavedTheme(IntendedRun(s, h, es).1.storage)
    decreases |es|
  {
    assert es[0].SystemChange?;
    var s' := SystemThemeChange(s, h.storage, es[0].matches);
    var h' := SaveSidebar(h.(rootDark := s'.isDarkMode), s'.isSidebarCollapsed);
    assert THEME_KEY != SIDEBAR_KEY;
    assert THEME_KEY in h'.storage <==> THEME_KEY in h.storage;
    assert !HasSavedTheme(h'.storage);
    if |es| > 1 {
      assert OnlySystemChanges(es[1..]) by {
        forall i | 0 <= i < |es[1..]| ensures es[1..][i].SystemChange? {
          assert es[1..][i] == es[i + 1];
        }
      }
      IntendedFollowsSystem(s', h', es[1..]);
      assert es[1..][|es[1..]| - 1] == es[|es| - 1];
    }
  }

  /** Intended behaviour, second half: once a theme is saved, system events
      leave the user's choice alone. */
  lemma {:induction false} IntendedKeepsSavedChoice(s: LayoutState, h: Host, es: seq<ThemeEvent>)
    requires HasSavedTheme(h.storage)
    requires OnlySystemChanges(es)
    ensures IntendedRun(s, h, es).0 == s
    decreases |es|
  {
    if es != [] {
      assert es[0].SystemChange?;
      var h' := SaveSidebar(h.(rootDark := s.isDarkMode), s.isSidebarCollapsed);
      assert THEME_KEY != SIDEBAR_KEY;
      assert h'.storage[THEME_KEY] == h.storage[THEME_KEY];
      IntendedKeepsSavedChoice(s, h', es[1..]);
    }
  }

  /** On the first visit above, the intended layout does turn dark. */
  lemma FirstVisitFollowsSystemWhenIntended()
    ensures var (s, h) := IntendedMount(Host(map[], false), false);
            IntendedRun(s, h, [SystemChange(true)]).0.isDarkMode
  {
    var (s, h) := IntendedMount(Host(map[], false), false);
    IntendedFollowsSystem(s, h, [SystemChange(true)]);
  }
}
