/** The theme store of src/stores/themeStore.ts. The `theme` entry of
    local storage and the class list of the document root are fields of
    the store; `browser` says whether a window exists. A stored value is
    cast to the theme type unchecked, so the theme is kept as a string. */
module Theme {
  import opened Common

  const Light := "light"
  const Dark := "dark"
  const System := "system"

  predicate IsTheme(t: string) {
    t == Light || t == Dark || t == System
  }

  /** The cycle system → light → dark → system; anything else goes to
      system. */
  function Next(t: string): (r: string)
    ensures IsTheme(r)
    ensures r != t
  {
    if t == System then Light else if t == Light then Dark else System
  }

  /** Three toggles from any theme come back to it. */
  lemma Next_Cycle(t: string)
    requires IsTheme(t)
    ensures Next(Next(Next(t))) == t
    ensures Next(t) != t && Next(Next(t)) != t
  {}

  /** `getStoredTheme()`: the stored value when there is a window and it is
      non-empty, else `system`. */
  function StoredTheme(browser: bool, stored: Option<string>): (r: string)
    ensures !browser || !Present(stored) ==> r == System
    ensures browser && Present(stored) ==> r == stored.value
  {
    if browser && Present(stored) then stored.value else System
  }

  /** The class list `applyTheme(theme)` leaves. */
  function Applied(classes: set<string>, t: string): (r: set<string>)
    ensures t == Dark ==> Dark in r && Light !in r
    ensures t == Light ==> Light in r && Dark !in r
    ensures t != Dark && t != Light ==> Dark !in r && Light !in r
    ensures r - {Light, Dark} == classes - {Light, Dark}
  {
    if t == Dark then classes + {Dark} - {Light}
    else if t == Light then classes + {Light} - {Dark}
    else classes - {Light, Dark}
  }

  class ThemeStore {
    const browser: bool
    var theme: string
    var storage: Option<string>
    var classes: set<string>

    constructor (browser: bool, storage: Option<string>, classes: set<string>)
      ensures this.browser == browser && this.storage == storage && this.classes == classes
      ensures theme == System
    {
      this.browser := browser;
      this.storage := storage;
      this.classes := classes;
      theme := System;
    }

    /** `applyTheme(theme)`. */
    method ApplyTheme(t: string)
      modifies this
      ensures classes == Applied(old(classes), t)
      ensures theme == old(theme) && storage == old(storage)
    {
      if t == Dark {
        classes := classes + {Dark};
        classes := classes - {Light};
      } else if t == Light {
        classes := classes + {Light};
        classes := classes - {Dark};
      } else {
        classes := classes - {Light, Dark};
      }
    }

    /** `setTheme(theme)`: stores and applies it when there is a window. */
    method SetTheme(t: string)
      modifies this
      ensures theme == t
      ensures browser ==> storage == Some(t) && classes == Applied(old(classes), t)
      ensures !browser ==> storage == old(storage) && classes == old(classes)
    {
      if browser {
        storage := Some(t);
        ApplyTheme(t);
      }
      theme := t;
    }

    /** `toggleTheme()`. */
    method ToggleTheme()
      modifies this
      ensures theme == Next(old(theme))
      ensures browser ==> storage == Some(theme) && classes == Applied(old(classes), theme)
      ensures !browser ==> storage == old(storage) && classes == old(classes)
    {
      if theme == System {
        SetTheme(Light);
      } else if theme == Light {
        SetTheme(Dark);
      } else {
        SetTheme(System);
      }
    }

    /** `initTheme()`: adopts and applies the stored theme in a browser. */
    method InitTheme()
      modifies this
      ensures browser ==> theme == StoredTheme(browser, old(storage)) && classes == Applied(old(classes), theme)
      ensures !browser ==> theme == old(theme) && classes == old(classes)
      ensures storage == old(storage)
    {
      if !browser {
        return;
      }
      var stored := StoredTheme(browser, storage);
      theme := stored;
      ApplyTheme(stored);
    }
  }

  /** Applying a theme twice is applying it once, and the last applied
      theme decides the two classes. */
  lemma Applied_Last(classes: set<string>, s: string, t: string)
    ensures Applied(Applied(classes, t), t) == Applied(classes, t)
    ensures Applied(Applied(classes, s), t) == Applied(classes, t)
  {}
}
