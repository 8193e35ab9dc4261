/**
 The site script's preference and UI state as one object: the two module
 variables, local storage, the document attributes, the translatable elements,
 the language options, and the dropdown, menu and icon state that the handlers
 update in place. Every handler is proved to move the state as the function of
 the same name in module PageSpec says; the two array loops are proved against
 `TranslateAll` and `ActivateAll`, and the constructor against `Loaded`.
 */
module Site {
  import opened Preferences
  import opened PageSpec

  class Page {
    var language: Language
    var theme: Theme
    var storage: map<string, string>

    // Attributes of the document element, the body font and the document title.
    var lang: string
    var dir: string
    var fontFamily: FontStack
    var title: string
    var dataTheme: string

    /** The elements carrying `data-en` or `data-he`, in document order. */
    const elements: array<Translatable>
    /** The `.lang-option` entries of the language switcher. */
    const options: array<LangOption>

    var langLabel: Option<string>
    var themeIcon: Option<string>
    var dropdownOpen: bool
    var menuOpen: bool
    var menuBars: bool
    var menuTimes: bool

    /** The abstract value of the page. */
    ghost function Snap(): Snapshot
      reads this, elements, options
    {
      Snapshot(language, theme, storage, lang, dir, fontFamily, title, dataTheme,
               elements[..], options[..], langLabel, themeIcon,
               dropdownOpen, menuOpen, menuBars, menuTimes)
    }

    /** The page as loaded, before the `DOMContentLoaded` handler runs. */
    constructor (storage: map<string, string>, elements: array<Translatable>, options: array<LangOption>,
                 langLabel: Option<string>, themeIcon: Option<string>)
      ensures this.elements == elements && this.options == options
      ensures Snap() == Loaded(storage, elements[..], options[..], langLabel, themeIcon)
    {
      language, theme := En, Light;
      this.storage := storage;
      lang, dir, fontFamily, title, dataTheme := "", "", InterStack, "", "";
      this.elements, this.options := elements, options;
      this.langLabel, this.themeIcon := langLabel, themeIcon;
      dropdownOpen, menuOpen, menuBars, menuTimes := false, false, true, false;
    }

    method ToggleLanguageDropdown()
      modifies this
      ensures Snap() == PageSpec.ToggleLanguageDropdown(old(Snap()))
    {
      dropdownOpen := !dropdownOpen;
    }

    method CloseLanguageDropdown()
      modifies this
      ensures Snap() == PageSpec.CloseLanguageDropdown(old(Snap()))
    {
      dropdownOpen := false;
    }

    /** The tag is one of the two supported ones; what the script does with any other tag is not modelled. */
    method SwitchLanguage(tag: string)
      requires tag == "en" || tag == "he"
      modifies this, elements, options
      ensures Snap() == PageSpec.SwitchLanguage(old(Snap()), ParseLanguage(tag).value)
    {
      language := ParseLanguage(tag).value;
      UpdateLanguage();
      UpdateLanguageSwitcher();
      CloseLanguageDropdown();
    }

    /** The element loop: replace each element's text by its payload for `l` when non-empty. */
    method TranslateElements(l: Language)
      modifies elements
      ensures elements[..] == TranslateAll(old(elements[..]), l)
    {
      ghost var before := elements[..];
      var i := 0;
      while i < elements.Length
        invariant 0 <= i <= elements.Length
        invariant elements[..i] == TranslateAll(before[..i], l)
        invariant forall k :: i <= k < elements.Length ==> elements[k] == before[k]
      {
        var e := elements[i];
        var text := e.Payload(l);
        if text.Some? && text.value != "" {
          elements[i] := e.(text := text.value);
        }
        assert before[..i + 1][..i] == before[..i];
        assert elements[..i + 1] == elements[..i] + [elements[i]];
        i := i + 1;
      }
      assert before[..elements.Length] == before;
      assert elements[..elements.Length] == elements[..];
    }

    method UpdateLanguage()
      modifies this, elements
      ensures Snap() == PageSpec.UpdateLanguage(old(Snap()))
    {
      ghost var s0 := Snap();
      lang := LanguageTag(language);
      dir := Direction(language);
      fontFamily := FontFamily(language);
      TranslateElements(language);
      title := if language == En then EnglishTitle else HebrewTitle;
      storage := storage[LanguageKey := LanguageTag(language)];
      assert options[..] == s0.options;
      assert elements[..] == TranslateAll(s0.elements, s0.language);
      assert title == Title(s0.language);
    }

    /** The option loop: an option is active exactly when its `data-lang` is `l`. */
    method MarkActiveOption(l: Language)
      modifies options
      ensures options[..] == ActivateAll(old(options[..]), l)
    {
      ghost var before := options[..];
      var i := 0;
      while i < options.Length
        invariant 0 <= i <= options.Length
        invariant options[..i] == ActivateAll(before[..i], l)
        invariant forall k :: i <= k < options.Length ==> options[k] == before[k]
      {
        var o := options[i];
        if o.tag == Some(LanguageTag(l)) {
          options[i] := o.(active := true);
        } else {
          options[i] := o.(active := false);
        }
        assert before[..i + 1][..i] == before[..i];
        assert options[..i + 1] == options[..i] + [options[i]];
        i := i + 1;
      }
      assert before[..options.Length] == before;
      assert options[..options.Length] == options[..];
    }

    method UpdateLanguageSwitcher()
      modifies this, options
      ensures Snap() == PageSpec.UpdateLanguageSwitcher(old(Snap()))
    {
      if langLabel.Some? {
        langLabel := Some(SwitcherLabel(language));
      }
      MarkActiveOption(language);
    }

    method InitializeLanguage()
      modifies this, elements, options
      ensures Snap() == PageSpec.InitializeLanguage(old(Snap()))
    {
      var saved := Stored(storage, LanguageKey);
      if saved.Some? && (saved.value == "en" || saved.value == "he") {
        language := ParseLanguage(saved.value).value;
      }
      UpdateLanguage();
      UpdateLanguageSwitcher();
    }

    method ToggleTheme()
      modifies this
      ensures Snap() == PageSpec.ToggleTheme(old(Snap()))
    {
      theme := if theme == Light then Dark else Light;
      UpdateTheme();
      UpdateThemeIcon();
      storage := storage[ThemeKey := ThemeTag(theme)];
    }

    method UpdateTheme()
      modifies this
      ensures Snap() == PageSpec.UpdateTheme(old(Snap()))
    {
      dataTheme := ThemeTag(theme);
    }

    method UpdateThemeIcon()
      modifies this
      ensures Snap() == PageSpec.UpdateThemeIcon(old(Snap()))
    {
      if themeIcon.Some? {
        if theme == Dark {
          themeIcon := Some(MoonIcon);
        } else {
          themeIcon := Some(SunIcon);
        }
      }
    }

    /** `prefersDark` is the `prefers-color-scheme: dark` media query (false where it is unsupported). */
    method InitializeTheme(prefersDark: bool)
      modifies this
      ensures Snap() == PageSpec.InitializeTheme(old(Snap()), prefersDark)
    {
      var saved := Stored(storage, ThemeKey);
      if saved.Some? && (saved.value == "light" || saved.value == "dark") {
        theme := ParseTheme(saved.value).value;
      } else {
        if prefersDark {
          theme := Dark;
        }
      }
      UpdateTheme();
      UpdateThemeIcon();
    }

    /** The `DOMContentLoaded` handler, restricted to the two preferences. */
    method Initialize(prefersDark: bool)
      modifies this, elements, options
      ensures Snap() == PageSpec.Initialize(old(Snap()), prefersDark)
    {
      InitializeLanguage();
      InitializeTheme(prefersDark);
    }

    method ToggleMobileMenu()
      modifies this
      ensures Snap() == PageSpec.ToggleMobileMenu(old(Snap()))
    {
      menuOpen := !menuOpen;
      menuBars := !menuBars;
      menuTimes := !menuTimes;
    }

    method CloseMobileMenu()
      modifies this
      ensures Snap() == PageSpec.CloseMobileMenu(old(Snap()))
    {
      menuOpen := false;
      menuBars := true;
      menuTimes := false;
    }

    /** `outsideSwitcher`: the page has a language switcher and the click target is not inside it. */
    method DocumentClick(outsideSwitcher: bool)
      modifies this
      ensures Snap() == PageSpec.DocumentClick(old(Snap()), outsideSwitcher)
    {
      if outsideSwitcher {
        CloseLanguageDropdown();
      }
    }

    /** A click on a navigation link: its own listener, then the document listener. */
    method NavLinkClick(outsideSwitcher: bool)
      modifies this
      ensures Snap() == PageSpec.NavLinkClick(old(Snap()), outsideSwitcher)
    {
      CloseMobileMenu();
      DocumentClick(outsideSwitcher);
    }

    /** A click on the mobile-menu toggle: its own listener, then the document listener. */
    method MenuToggleClick(outsideSwitcher: bool)
      modifies this
      ensures Snap() == PageSpec.MenuToggleClick(old(Snap()), outsideSwitcher)
    {
      ToggleMobileMenu();
      DocumentClick(outsideSwitcher);
    }

    /** The keydown handler; `prevented` records a call of `preventDefault`. */
    method KeyDown(key: string, altKey: bool) returns (prevented: bool)
      modifies this
      ensures KeyOutcome(Snap(), prevented) == PageSpec.KeyDown(old(Snap()), key, altKey)
    {
      prevented := false;
      if key == "Escape" {
        if menuOpen {
          menuOpen := false;
          menuBars := true;
          menuTimes := false;
        }
      }
      if altKey && key == "l" {
        prevented := true;
        ToggleLanguageDropdown();
      }
      if altKey && key == "t" {
        prevented := true;
        ToggleTheme();
      }
      if key == "Escape" {
        CloseLanguageDropdown();
      }
    }
  }

  /**
   A whole session on a fresh page with nothing stored and no dark preference:
   start-up in English, switch to Hebrew, and a later start-up finds Hebrew.
   */
  method FirstVisitThenSwitch(elements: array<Translatable>, options: array<LangOption>)
    returns (dirAfterSwitch: string, restored: Language)
    modifies elements, options
    ensures dirAfterSwitch == "rtl" && restored == He
  {
    var page := new Page(map[], elements, options, Some(""), Some(""));
    page.Initialize(false);
    assert page.language == En && page.dir == "ltr" && page.theme == Light;
    page.SwitchLanguage("he");
    dirAfterSwitch := page.dir;
    var next := new Page(page.storage, elements, options, None, None);
    next.Initialize(false);
    restored := next.language;
  }
}
