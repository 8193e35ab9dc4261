# Language and theme preferences of the Learn Crossplane site script

This project models the preference and UI-state machine of the site's
`script.js`. The site offers English or Hebrew, the latter right to left, and
a light or dark theme. Both choices persist in the browser's local storage. The
script also keeps a language dropdown and a mobile menu open or closed.

The model has three modules:

- `Preferences` (`preferences.dfy`) holds the pure vocabulary. It has the two
  closed enumerations, their storage keys and tags, and the validation of a
  stored string against each closed set. It also has the `languageData` table
  (direction and font), the title and switcher label, the theme icon class, the
  theme toggle, and the two start-up resolution rules.
- `PageSpec` (`page_spec.dfy`) describes the whole observable page as one value,
  `Snapshot`. Each handler of the script is a function from the snapshot before
  to the snapshot after. The lemmas here state what the handlers promise.
- `Site` (`site.dfy`) is the script as it runs. A class `Page` holds the module
  variables, local storage (a `map<string, string>`), the document attributes,
  an `array` of translatable elements and an `array` of language options, plus
  the label, icon, dropdown and menu state. Every method updates these fields in
  place, with the loops of the script over the two arrays. For each handler,
  the method's `ensures` says that its new state is the `PageSpec` function of
  the same name applied to its old state. The element loop
  (`TranslateElements`) is proved against `TranslateAll`, the option loop
  (`MarkActiveOption`) against `ActivateAll`, and the constructor against
  `Loaded`.

Browser inputs become parameters. The `prefers-color-scheme: dark` media query
is the boolean `prefersDark`; it is false where `matchMedia` is missing. A
keydown event is a key name plus an Alt flag. The outside-click test is a
boolean. The initial page content is passed to the constructor. That content is
the stored preferences, the elements found by `[data-en], [data-he]`, the
`.lang-option` entries, and whether the label and icon elements exist.

Three behaviours of the script are worth stating plainly:

- An invalid or missing stored language does not reset the language to `en`. It
  keeps the current language, which is `en` only because that is the module
  variable's initial value.
- Likewise, without a valid stored theme and without a dark system preference,
  the theme stays as it is. It is not set to `light`.
- Start-up is not free of side effects. `initializeLanguage` always writes
  `preferredLanguage` back to storage.

## Model

| member | source | states |
|---|---|---|
| `Preferences.ParseLanguage` | script.js:99 | a stored string is a language exactly when it is `en` or `he`, and then it is the language with that tag |
| `Preferences.ParseTheme` | script.js:135 | a stored string is a theme exactly when it is `light` or `dark`, and then it is the theme with that tag |
| `Preferences.Stored` | script.js:98 | `getItem` yields a value exactly when the key is present, and that value is the stored one |
| `Preferences.Direction` | script.js:8-17 | the direction is `rtl` exactly for Hebrew and `ltr` exactly for English |
| `Preferences.FontFamily` | script.js:8-17 | Hebrew gets the Heebo font stack, and only Hebrew does |
| `Preferences.Title` | script.js:62-66 | the page title is the English title exactly when the language is English |
| `Preferences.SwitcherLabel` | script.js:76-78 | the switcher label reads `English` exactly when the language is English |
| `Preferences.IconClass` | script.js:121-130 | the icon is `fas fa-moon` exactly in the dark theme and `fas fa-sun` exactly in the light theme |
| `Preferences.Toggle` | script.js:110 | toggling always changes the theme |
| `Preferences.ToggleInvolutive` | script.js:109-114 | two toggles restore the theme |
| `Preferences.ResolveLanguage` | script.js:96-101 | a stored value equal to a language's tag selects that language; any other or absent value keeps the current language |
| `Preferences.ResolveTheme` | script.js:132-142 | a valid stored theme wins; otherwise dark when the system prefers dark; otherwise the current theme |
| `Preferences.LanguageStoreRoundTrip` | script.js:96-101 | a language written under `preferredLanguage` is the one a later start-up adopts |
| `Preferences.ThemeStoreRoundTrip` | script.js:132-136 | a theme written under `preferredTheme` is the one a later start-up adopts, whatever the system signal |
| `PageSpec.Loaded` | script.js:1-5 | a freshly loaded page is English and light, with the dropdown and the menu closed, the bars icon shown, and the given storage, elements, options, label and icon kept |
| `PageSpec.TranslateAllAt` | script.js:53-60 | the element loop keeps the number of elements and every payload; it replaces an element's text exactly when its payload for the language is present and non-empty, and then by that payload |
| `PageSpec.TranslateAllIdempotent` | script.js:53-60 | running the element loop twice for one language is the same as running it once |
| `PageSpec.ActivateAllAt` | script.js:80-88 | after the option loop, every option keeps its `data-lang`, and it is active exactly when its `data-lang` is the current language's tag |
| `PageSpec.ActivateAllIdempotent` | script.js:80-88 | running the option loop twice is the same as running it once |
| `PageSpec.LanguageApplied` | script.js:41-70 | after `updateLanguage`, `lang` is the tag, `dir` is `rtl` exactly for Hebrew, storage maps `preferredLanguage` to the tag, other keys keep their values and no other key appears, and the theme, options and dropdown are untouched |
| `PageSpec.SwitcherApplied` | script.js:72-89 | when the label exists it reads English exactly for English, a missing label stays missing, and each option is active exactly when it matches |
| `PageSpec.SwitchLanguagePersists` | script.js:34-39 | `switchLanguage` adopts the language, sets the direction from it, leaves the dropdown closed, and the next start-up adopts the same language |
| `PageSpec.InitializeLanguageResolves` | script.js:96-106 | start-up adopts a stored language only when it is exactly a tag, otherwise keeps the current one, and always persists the result |
| `PageSpec.InitializeThemeResolves` | script.js:132-147 | start-up resolves stored theme, then system signal, then current theme; `data-theme` and the icon (when present) follow the theme; storage is untouched |
| `PageSpec.ToggleThemeTwice` | script.js:109-114 | one toggle changes the theme, updates `data-theme` and the icon (a missing icon stays missing), and stores the new theme, leaving the language, elements, options, dropdown, menu and every other storage key as they were; two toggles restore the original theme and store it |
| `PageSpec.InitializeLanguageSettles` | script.js:96-106 | after language start-up, storage, attributes, elements, options and label all agree with the current language |
| `PageSpec.InitializeIdempotent` | script.js:96-147 | running language and theme start-up a second time, with the storage it left and the same system signal, changes nothing at all |
| `PageSpec.FirstVisitDefaults` | script.js:19-26 | with nothing valid stored, the page starts in English, left to right, and dark exactly when the system prefers dark; `en` is persisted |
| `PageSpec.ToggleMobileMenu` | script.js:183-190 | the menu-toggle listener on its own, and `toggleMobileMenu` at script.js:372-380 which does the same: the menu and each of the two icon classes flip, so an icon that matched the menu state still matches it, and nothing else changes |
| `PageSpec.CloseMobileMenu` | script.js:193-201 | the nav-link listener on its own leaves the menu closed with the bars icon, and changes nothing else |
| `PageSpec.DocumentClick` | script.js:168-176 | the document click listener on its own closes the dropdown for a click outside the switcher, and otherwise changes nothing |
| `PageSpec.NavLinkClick` | script.js:168-201 | a whole click on a nav link (its listener, then the document listener it bubbles to) leaves the menu closed with the bars icon, closes the dropdown when the link is outside the switcher and leaves it as it was otherwise, and changes nothing else |
| `PageSpec.MenuToggleClick` | script.js:168-190 | a whole click on the menu toggle (its listener, then the document listener) flips the menu and each icon class, keeps a consistent icon consistent, closes the dropdown when the toggle is outside the switcher and leaves it as it was otherwise, and changes nothing else |
| `PageSpec.KeyDown` | script.js:340-369 | Escape leaves the dropdown and the menu closed, resets an open menu's icon to bars, leaves a closed menu's icon as it was, and changes nothing else; Alt+l is exactly `toggleLanguageDropdown`; Alt+t is exactly `toggleTheme`, so it also updates `data-theme` and the icon and stores the theme; the default action is prevented exactly for Alt+l and Alt+t; other keys change nothing; a consistent menu icon stays consistent |
| `Site.Page.constructor` | script.js:1-5 | the page object starts in the `Loaded` state |
| `Site.Page.ToggleLanguageDropdown` | script.js:29-32 | flips `dropdownOpen` and nothing else |
| `Site.Page.CloseLanguageDropdown` | script.js:91-94 | clears `dropdownOpen` and nothing else |
| `Site.Page.SwitchLanguage` | script.js:34-39 | the new state is `PageSpec.SwitchLanguage` of the old state |
| `Site.Page.TranslateElements` | script.js:54-60 | the element array afterwards is `TranslateAll` of the array before, element by element |
| `Site.Page.UpdateLanguage` | script.js:41-70 | the new state is `PageSpec.UpdateLanguage` of the old state |
| `Site.Page.MarkActiveOption` | script.js:81-88 | the option array afterwards is `ActivateAll` of the array before |
| `Site.Page.UpdateLanguageSwitcher` | script.js:72-89 | the new state is `PageSpec.UpdateLanguageSwitcher` of the old state |
| `Site.Page.InitializeLanguage` | script.js:96-106 | the new state is `PageSpec.InitializeLanguage` of the old state |
| `Site.Page.ToggleTheme` | script.js:109-114 | the new state is `PageSpec.ToggleTheme` of the old state |
| `Site.Page.UpdateTheme` | script.js:116-119 | `data-theme` becomes the current theme's tag and nothing else changes |
| `Site.Page.UpdateThemeIcon` | script.js:121-130 | the icon class, when the icon exists, becomes the theme's icon and nothing else changes |
| `Site.Page.InitializeTheme` | script.js:132-147 | the new state is `PageSpec.InitializeTheme` of the old state |
| `Site.Page.Initialize` | script.js:20-22 | the new state is language start-up followed by theme start-up |
| `Site.Page.ToggleMobileMenu` | script.js:372-380 | `toggleMobileMenu`, and the identical click listener at script.js:183-190: the new state is `PageSpec.ToggleMobileMenu` of the old state |
| `Site.Page.CloseMobileMenu` | script.js:193-201 | the new state is `PageSpec.CloseMobileMenu` of the old state |
| `Site.Page.DocumentClick` | script.js:168-176 | the new state is `PageSpec.DocumentClick` of the old state |
| `Site.Page.NavLinkClick` | script.js:168-201 | the new state is `PageSpec.NavLinkClick` of the old state |
| `Site.Page.MenuToggleClick` | script.js:168-190 | the new state is `PageSpec.MenuToggleClick` of the old state |
| `Site.Page.KeyDown` | script.js:340-369 | the new state and the `preventDefault` flag are those of `PageSpec.KeyDown` |
| `Site.FirstVisitThenSwitch` | script.js:96-106 | on a fresh page with empty storage, start-up then switching to Hebrew gives `rtl`, and a later page load over the same storage comes up in Hebrew |

## Left out

- Smooth scrolling for navigation links and `scrollToSection`, because they are
  only layout offsets and `scrollTo` calls.
- Navbar background on scroll, the debounced scroll handler and `debounce`,
  because they are style strings and timer scheduling.
- Scroll-reveal animations, because they are `IntersectionObserver` callbacks
  and inline styles with no data model.
- Copy-button injection, because it is clipboard promise I/O plus cosmetic
  timeouts.
- The tutorial-card timeout and the resource-card click forwarding, because
  they are timers and synthetic clicks.
- Mobile-menu style-sheet injection, the `loaded` body class, `safeQuerySelector`,
  console messages and service-worker detection, because they are foreign
  browser calls with no state the preferences depend on.
- Font families are opaque values (`FontStack`). Their full literal strings are
  left out.
- The page title and the Hebrew switcher label are kept as the script's literal
  strings. The Hebrew ones are mis-encoded text and carry no meaning here.
- Site.Page.SwitchLanguage: requires the tag to be `en` or `he`, and what the
  script does with any other tag is not modelled. For most other tags the
  script has already set the language variable and the `lang` attribute when it
  throws at the `dir` update. For a tag that names an inherited object property
  (`toString`, `constructor`), nothing throws: `dir` becomes `"undefined"` and
  the tag is stored. Neither the crash nor these states is modelled.
- A missing language dropdown is not modelled, because the script uses it
  without a check. The nav menu and the menu icon are assumed present too. The
  script checks for the menu in the toggle listener and in the Escape handler,
  but uses it unchecked in the nav-link listener and in `toggleMobileMenu`.
  Only the current-language label and the theme icon may be absent in the model.
- TranslateAllAt: treats the translatable elements as independent cells, so the
  element count and payloads never change. In the script, setting an element's
  `textContent` removes its descendants. A translatable element nested inside
  another one is then detached from the document. The loop still visits it,
  because the element list was captured beforehand, but later queries no longer
  find it. The same happens to the current-language label, a language option
  or the theme icon placed inside a translatable element: later lookups miss
  them, while the model still updates them. The model is exact only when no
  translatable element contains another translatable element, the label, the
  theme icon or a language option, and the label is not itself a translatable
  element (the script would then write that one node twice, while the model
  keeps two texts).
- The attributes the page's HTML sets before the script runs are not modelled.
  `Loaded` assumes start values instead: `lang`, `dir`, the title and
  `data-theme` empty and the body font the Inter stack, all of which every
  start-up overwrites; and the dropdown closed, the menu closed and its icon
  showing bars, which start-up does not touch.
- Other language attributes on an element (any `data-*` beyond `data-en` and
  `data-he`) are not modelled.
- Unavailable local storage is not modelled, because the script does not guard
  against it.
- Event dispatch is modelled only for the two composed clicks `NavLinkClick`
  and `MenuToggleClick`. Every other listener is modelled alone. If the page's
  HTML also calls `toggleMobileMenu()` inline on the same `.mobile-menu-toggle`,
  one click toggles the menu twice. The page's HTML is not part of this model.
