/**
 The two user preferences of the site script, language and theme, as closed
 enumerations; their storage keys and tags; the per-language presentation
 table; and the rules that turn a stored string (and, for the theme, the
 system colour-scheme signal) into a preference.
 */
module Preferences {

  datatype Option<T> = None | Some(value: T)

  datatype Language = En | He

  datatype Theme = Light | Dark

  /** Keys under which the preferences are persisted in local storage. */
  const LanguageKey: string := "preferredLanguage"
  const ThemeKey: string := "preferredTheme"

  function LanguageTag(l: Language): string
  {
    match l
    case En => "en"
    case He => "he"
  }

  function ThemeTag(t: Theme): string
  {
    match t
    case Light => "light"
    case Dark => "dark"
  }

  /** Validation against the closed set: only the exact tags are languages. */
  function ParseLanguage(s: string): (r: Option<Language>)
    ensures r.Some? <==> s == "en" || s == "he"
    ensures forall l :: r == Some(l) <==> s == LanguageTag(l)
  {
    if s == "en" then Some(En)
    else if s == "he" then Some(He)
    else None
  }

  /** Validation against the closed set: only the exact tags are themes. */
  function ParseTheme(s: string): (r: Option<Theme>)
    ensures r.Some? <==> s == "light" || s == "dark"
    ensures forall t :: r == Some(t) <==> s == ThemeTag(t)
  {
    if s == "light" then Some(Light)
    else if s == "dark" then Some(Dark)
    else None
  }

  /** `localStorage.getItem`: the stored string, or None when the key was never set. */
  function Stored(storage: map<string, string>, key: string): (r: Option<string>)
    ensures r.Some? <==> key in storage
    ensures r.Some? ==> r.value == storage[key]
  {
    if key in storage then Some(storage[key]) else None
  }

  // The `languageData` table: text direction and body font per language.

  /**
   The two font-family declarations of the table, as opaque values: the Inter
   stack for English and the Heebo stack for Hebrew, each followed by the same
   system fallbacks.
   */
  datatype FontStack = InterStack | HeeboStack

  function Direction(l: Language): (d: string)
    ensures d == "rtl" <==> l == He
    ensures d == "ltr" <==> l == En
  {
    match l
    case En => "ltr"
    case He => "rtl"
  }

  function FontFamily(l: Language): (f: FontStack)
    ensures f == HeeboStack <==> l == He
  {
    match l
    case En => InterStack
    case He => HeeboStack
  }

  // Page title and switcher label. The non-English strings are kept exactly as
  // the script has them; they are mis-encoded Hebrew and are opaque here.

  const EnglishTitle: string := "Learn Crossplane - DevOps Platform Engineering"
  const HebrewTitle: string := " Crossplane - 住转 驻驻专转 DevOps"
  const EnglishLabel: string := "English"
  const HebrewLabel: string := "注专转"

  function Title(l: Language): (t: string)
    ensures t == EnglishTitle <==> l == En
  {
    if l == En then EnglishTitle else HebrewTitle
  }

  function SwitcherLabel(l: Language): (s: string)
    ensures s == EnglishLabel <==> l == En
  {
    if l == En then EnglishLabel else HebrewLabel
  }

  const MoonIcon: string := "fas fa-moon"
  const SunIcon: string := "fas fa-sun"

  /** Class of the theme icon: a moon in the dark theme, a sun otherwise. */
  function IconClass(t: Theme): (c: string)
    ensures c == MoonIcon <==> t == Dark
    ensures c == SunIcon <==> t == Light
  {
    assert |MoonIcon| != |SunIcon|;
    match t
    case Dark => MoonIcon
    case Light => SunIcon
  }

  /** The theme toggle: light becomes dark and anything else becomes light. */
  function Toggle(t: Theme): (r: Theme)
    ensures r != t
  {
    if t == Light then Dark else Light
  }

  lemma ToggleInvolutive(t: Theme)
    ensures Toggle(Toggle(t)) == t
  {
  }

  /**
   Language chosen at start-up: a stored value that is exactly one of the
   tags is adopted; an absent or any other value keeps the current language.
   */
  function ResolveLanguage(saved: Option<string>, current: Language): (r: Language)
    ensures forall l :: saved == Some(LanguageTag(l)) ==> r == l
    ensures (forall l :: saved != Some(LanguageTag(l))) ==> r == current
  {
    if saved.Some? && ParseLanguage(saved.value).Some? then ParseLanguage(saved.value).value
    else current
  }

  /**
   Theme chosen at start-up, in order: a valid stored value; otherwise dark when
   the system prefers a dark colour scheme; otherwise the current theme.
   */
  function ResolveTheme(saved: Option<string>, prefersDark: bool, current: Theme): (r: Theme)
    ensures forall t :: saved == Some(ThemeTag(t)) ==> r == t
    ensures (forall t :: saved != Some(ThemeTag(t))) ==> r == (if prefersDark then Dark else current)
  {
    if saved.Some? && ParseTheme(saved.value).Some? then ParseTheme(saved.value).value
    else if prefersDark then Dark
    else current
  }

  /** What is written under a key is what a later start-up adopts. */
  lemma LanguageStoreRoundTrip(storage: map<string, string>, l: Language, current: Language)
    ensures ResolveLanguage(Stored(storage[LanguageKey := LanguageTag(l)], LanguageKey), current) == l
  {
  }

  lemma ThemeStoreRoundTrip(storage: map<string, string>, t: Theme, prefersDark: bool, current: Theme)
    ensures ResolveTheme(Stored(storage[ThemeKey := ThemeTag(t)], ThemeKey), prefersDark, current) == t
  {
  }
}
