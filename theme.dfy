/** ThemeProvider and useTheme: the active theme mode, the theme derived from
    it, and its copy in the browser's key-value storage under "theme-mode". */
module ThemeContext {
  import opened Wrappers

  /** The mode is kept as the raw string: the initial read casts whatever
      the storage holds to `ThemeMode` without checking it. */
  type Mode = string

  /** The two values of the TypeScript type `ThemeMode`. */
  predicate IsThemeMode(m: Mode) {
    m == "light" || m == "dark"
  }

  const StorageKey: string := "theme-mode"

  type Storage = map<string, string>

  /** `localStorage.getItem(key)`: null when the key is absent. */
  function GetItem(storage: Storage, key: string): (r: Option<string>)
    ensures r.Some? <==> key in storage
    ensures r.Some? ==> r.value == storage[key]
  {
    if key in storage then Some(storage[key]) else None
  }

  // ---------------------------------------------------------------------
  // The two theme tables

  datatype TextColors = TextColors(primary: string, secondary: string, error: string)
  datatype Colors = Colors(primary: string, secondary: string, background: string,
                           surface: string, text: TextColors, border: string, hover: string)
  datatype Spacing = Spacing(xs: string, sm: string, md: string, lg: string, xl: string)
  datatype BorderRadius = BorderRadius(sm: string, md: string, lg: string)
  datatype Shadows = Shadows(sm: string, md: string, lg: string)
  datatype Theme = Theme(colors: Colors, spacing: Spacing, borderRadius: BorderRadius, shadows: Shadows)

  const LightTheme: Theme := Theme(
    Colors("#3498db", "#2c3e50", "#ffffff", "#f8f9fa",
           TextColors("#2c3e50", "#888", "#e53e3e"), "#e2e8f0", "#f1f5f9"),
    Spacing("0.25rem", "0.5rem", "1rem", "1.5rem", "2rem"),
    BorderRadius("4px", "8px", "12px"),
    Shadows("0 1px 3px rgba(0, 0, 0, 0.1)", "0 4px 6px rgba(0, 0, 0, 0.1)",
            "0 10px 15px rgba(0, 0, 0, 0.1)"))

  const DarkTheme: Theme := Theme(
    Colors("#60a5fa", "#94a3b8", "#0f172a", "#1e293b",
           TextColors("#f1f5f9", "#94a3b8", "#f87171"), "#334155", "#334155"),
    Spacing("0.25rem", "0.5rem", "1rem", "1.5rem", "2rem"),
    BorderRadius("4px", "8px", "12px"),
    Shadows("0 1px 3px rgba(0, 0, 0, 0.3)", "0 4px 6px rgba(0, 0, 0, 0.3)",
            "0 10px 15px rgba(0, 0, 0, 0.3)"))

  /** The two tables differ only in colours and shadows. */
  lemma TablesShareScales()
    ensures LightTheme.spacing == DarkTheme.spacing
    ensures LightTheme.borderRadius == DarkTheme.borderRadius
    ensures LightTheme.colors != DarkTheme.colors && LightTheme.shadows != DarkTheme.shadows
  {
  }

  // ---------------------------------------------------------------------
  // Pure parts of the provider

  /** The initial mode: the stored value when it is present and non-empty
      (`saved || 'light'`), passed through unchecked; otherwise "light". */
  function InitialMode(storage: Storage): (m: Mode)
    ensures m != ""
    ensures StorageKey in storage && storage[StorageKey] != "" ==> m == storage[StorageKey]
    ensures StorageKey !in storage || storage[StorageKey] == "" ==> m == "light"
  {
    match GetItem(storage, StorageKey)
    case Some(saved) => if saved != "" then saved else "light"
    case None => "light"
  }

  /** Reading back is faithful only to non-empty values: an unrecognised
      stored string survives the read. */
  lemma InitialModePassesThrough(storage: Storage, saved: string)
    requires saved != "" && !IsThemeMode(saved)
    ensures InitialMode(storage[StorageKey := saved]) == saved
    ensures !IsThemeMode(InitialMode(storage[StorageKey := saved]))
  {
  }

  /** `themeMode === 'dark' ? darkTheme : lightTheme`. */
  function ThemeFor(m: Mode): (t: Theme)
    ensures t == DarkTheme <==> m == "dark"
    ensures t == LightTheme <==> m != "dark"
  {
    if m == "dark" then DarkTheme else LightTheme
  }

  /** The mode `toggleTheme` switches to. */
  function Toggled(m: Mode): (r: Mode)
    ensures IsThemeMode(r)
    ensures r == "dark" <==> m == "light"
  {
    if m == "light" then "dark" else "light"
  }

  /** Toggling twice restores the mode exactly when it was a recognised one;
      an unrecognised mode toggles to "light" and then to "dark". */
  lemma ToggleTwice(m: Mode)
    ensures Toggled(Toggled(m)) == m <==> IsThemeMode(m)
    ensures !IsThemeMode(m) ==> Toggled(Toggled(m)) == "dark"
  {
  }

  /** `localStorage.setItem(key, value)`. */
  function SetItem(storage: Storage, key: string, value: string): (r: Storage)
    ensures key in r && r[key] == value
    ensures r.Keys == storage.Keys + {key}
    ensures forall k :: k in storage && k != key ==> r[k] == storage[k]
  {
    storage[key := value]
  }

  /** The provider's state: the in-memory mode and the storage. */
  datatype ThemeState = ThemeState(mode: Mode, storage: Storage)

  function InitialState(storage: Storage): ThemeState {
    ThemeState(InitialMode(storage), storage)
  }

  /** Storage and memory agree, and only the theme key differs from `before`. */
  predicate Persisted(before: ThemeState, after: ThemeState) {
    && StorageKey in after.storage
    && after.storage[StorageKey] == after.mode
    && after.storage - {StorageKey} == before.storage - {StorageKey}
  }

  function ToggleStep(s: ThemeState): (r: ThemeState)
    ensures r.mode == Toggled(s.mode)
    ensures Persisted(s, r)
  {
    var newMode := Toggled(s.mode);
    ThemeState(newMode, SetItem(s.storage, StorageKey, newMode))
  }

  function SetStep(s: ThemeState, m: Mode): (r: ThemeState)
    ensures r.mode == m
    ensures Persisted(s, r)
  {
    ThemeState(m, SetItem(s.storage, StorageKey, m))
  }

  /** Setting the same mode twice is the same as setting it once. */
  lemma SetIdempotent(s: ThemeState, m: Mode)
    ensures SetStep(SetStep(s, m), m) == SetStep(s, m)
  {
  }

  /** The storage write makes the choice survive a reload: a provider
      started on the new storage begins in the mode just chosen. */
  lemma ReloadRestoresMode(s: ThemeState, m: Mode)
    requires IsThemeMode(m)
    ensures InitialState(ToggleStep(s).storage) == ToggleStep(s)
    ensures InitialState(SetStep(s, m).storage) == SetStep(s, m)
  {
  }

  /** What the provider hands its consumers (the two callbacks aside). */
  datatype ContextValue = ContextValue(theme: Theme, themeMode: Mode)

  function ProvidedValue(s: ThemeState): (v: ContextValue)
    ensures v.themeMode == s.mode
    ensures v.theme == ThemeFor(s.mode)
    ensures s.mode == "dark" ==> v.theme == DarkTheme
    ensures s.mode != "dark" ==> v.theme == LightTheme
  {
    ContextValue(ThemeFor(s.mode), s.mode)
  }

  const OutsideProviderMessage: string := "useTheme must be used within a ThemeProvider"

  /** `useTheme`: the nearest provider's value, or the error it throws when
      there is none. */
  function UseTheme(context: Option<ContextValue>): (r: Result<ContextValue, string>)
    ensures r.Failure? <==> context.None?
    ensures r.Failure? ==> r.error == OutsideProviderMessage
    ensures r.Success? ==> r.value == context.value
  {
    match context
    case None => Failure(OutsideProviderMessage)
    case Some(v) => Success(v)
  }

  // ---------------------------------------------------------------------
  // The provider component's state

  class ThemeProvider {
    var themeMode: Mode
    var storage: Storage

    function State(): ThemeState
      reads this
    {
      ThemeState(themeMode, storage)
    }

    /** Mounting: the lazy initial state reads the storage once. */
    constructor (initialStorage: Storage)
      ensures State() == InitialState(initialStorage)
      ensures themeMode != ""
    {
      var saved := GetItem(initialStorage, StorageKey);
      themeMode := if saved.Some? && saved.value != "" then saved.value else "light";
      storage := initialStorage;
    }

    function Value(): (v: ContextValue)
      reads this
      ensures v == ProvidedValue(State())
    {
      ContextValue(if themeMode == "dark" then DarkTheme else LightTheme, themeMode)
    }

    method ToggleTheme()
      modifies this
      ensures State() == ToggleStep(old(State()))
      ensures themeMode == (if old(themeMode) == "light" then "dark" else "light")
      ensures Persisted(old(State()), State())
    {
      var newMode := if themeMode == "light" then "dark" else "light";
      themeMode := newMode;
      storage := storage[StorageKey := newMode];
    }

    method SetTheme(mode: Mode)
      requires IsThemeMode(mode)
      modifies this
      ensures State() == SetStep(old(State()), mode)
      ensures themeMode == mode
      ensures Persisted(old(State()), State())
    {
      themeMode := mode;
      storage := storage[StorageKey := mode];
    }
  }
}
