/**
 * The light/dark theme switch (src/components/ThemeToggle.tsx).
 *
 * Besides its own `isDark` and `mounted` flags the component writes two
 * things outside itself: the `dark` class on the document element and the
 * `theme` entry of the browser's storage. The model keeps all four together:
 * `Page` as a value with the transitions `Mount` and `Toggle`, and the class
 * `ThemeToggle` whose methods are proved to make them. The system colour
 * preference is a parameter of the mount.
 */
module ThemeSwitch {
  import opened Strings

  const DarkTheme := "dark"
  const LightTheme := "light"

  datatype Page = Page(isDark: bool, mounted: bool, darkClass: bool, stored: Option<string>)

  /** What the button shows. */
  datatype Button = Sun | Moon

  /** A stored theme is truthy: present and not empty. */
  predicate HasStored(stored: Option<string>)
  {
    stored.Some? && stored.value != ""
  }

  /** The mount decision: dark when `dark` is stored, or nothing is stored and the system prefers dark. */
  function ShouldBeDark(stored: Option<string>, prefersDark: bool): bool
  {
    stored == Some(DarkTheme) || (!HasStored(stored) && prefersDark)
  }

  /** The mount effect: mounted, the decision taken, and the class added when dark (never removed). */
  function Mount(p: Page, prefersDark: bool): (r: Page)
    ensures r.mounted && r.stored == p.stored
    ensures r.isDark == ShouldBeDark(p.stored, prefersDark)
    ensures r.darkClass == (p.darkClass || r.isDark)
  {
    var dark := ShouldBeDark(p.stored, prefersDark);
    p.(mounted := true, isDark := dark, darkClass := p.darkClass || dark)
  }

  /** `toggleTheme`: flip, then put the class and the stored theme in line with the new value. */
  function Toggle(p: Page): (r: Page)
    ensures r.isDark == !p.isDark && r.mounted == p.mounted
    ensures r.darkClass == r.isDark
    ensures r.stored == Some(if r.isDark then DarkTheme else LightTheme)
  {
    var dark := !p.isDark;
    p.(isDark := dark, darkClass := dark, stored := Some(if dark then DarkTheme else LightTheme))
  }

  /** Nothing before the mount; afterwards the sun in dark mode and the moon in light mode. */
  function Render(p: Page): (r: Option<Button>)
    ensures r.None? <==> !p.mounted
    ensures r.Some? ==> (r.value == Sun <==> p.isDark)
  {
    if !p.mounted then None else Some(if p.isDark then Sun else Moon)
  }

  /** The class and the stored theme agree with `isDark`. */
  predicate Synced(p: Page)
  {
    p.darkClass == p.isDark
    && (p.stored == Some(DarkTheme) ==> p.isDark)
    && (p.stored == Some(LightTheme) ==> !p.isDark)
  }

  /** The page before the component mounts, with whatever is stored. */
  function Fresh(stored: Option<string>): Page
  {
    Page(false, false, false, stored)
  }

  /** The mount decision, both ways; a stored `light` beats a system preference for dark. */
  lemma MountDecision(stored: Option<string>, prefersDark: bool)
    ensures ShouldBeDark(stored, prefersDark)
      <==> stored == Some(DarkTheme) || ((stored.None? || stored == Some("")) && prefersDark)
    ensures !ShouldBeDark(Some(LightTheme), prefersDark)
  {
  }

  /** Mounting a fresh page leaves it in sync. */
  lemma MountSyncs(stored: Option<string>, prefersDark: bool)
    ensures Synced(Mount(Fresh(stored), prefersDark))
  {
  }

  /** Toggling keeps a page in sync, whatever it was before. */
  lemma ToggleSyncs(p: Page)
    ensures Synced(Toggle(p))
  {
  }

  /** Toggling twice gives back `isDark`, the class (on a page in sync) and a stored theme that matches. */
  lemma ToggleTwice(p: Page)
    requires Synced(p)
    ensures var q := Toggle(Toggle(p));
      && q.isDark == p.isDark && q.darkClass == p.darkClass && q.mounted == p.mounted
      && q.stored == Some(if p.isDark then DarkTheme else LightTheme)
  {
  }

  /** After a toggle, a reload mounts with the chosen theme whatever the system prefers. */
  lemma ReloadKeepsChoice(p: Page, prefersDark: bool)
    ensures Mount(Fresh(Toggle(p).stored), prefersDark).isDark == Toggle(p).isDark
  {
  }

  class ThemeToggle {
    var isDark: bool
    var mounted: bool
    /** Whether the document element carries the `dark` class. */
    var darkClass: bool
    /** The `theme` entry of the browser's storage. */
    var stored: Option<string>

    function Snapshot(): Page
      reads this
    {
      Page(isDark, mounted, darkClass, stored)
    }

    constructor(darkClassAtStart: bool, storedAtStart: Option<string>)
      ensures Snapshot() == Page(false, false, darkClassAtStart, storedAtStart)
    {
      isDark, mounted := false, false;
      darkClass, stored := darkClassAtStart, storedAtStart;
    }

    /** The mount effect. */
    method OnMount(prefersDark: bool)
      modifies this
      ensures Snapshot() == Mount(old(Snapshot()), prefersDark)
    {
      mounted := true;
      var theme := stored;
      var shouldBeDark := theme == Some(DarkTheme) || (!HasStored(theme) && prefersDark);
      isDark := shouldBeDark;
      if shouldBeDark {
        darkClass := true;
      }
    }

    /** `toggleTheme`. */
    method ToggleTheme()
      modifies this
      ensures Snapshot() == Toggle(old(Snapshot()))
    {
      var newTheme := !isDark;
      isDark := newTheme;
      if newTheme {
        darkClass := true;
        stored := Some(DarkTheme);
      } else {
        darkClass := false;
        stored := Some(LightTheme);
      }
    }
  }
}
