/** The settings store behind every screen (src/Context/StyleContext.js):
    three settings (theme colours, font sizes, display options) with fixed
    defaults, each kept under its own key of the device's key-value store.

    The device store is a `map` from key to the parsed stored value; a stored
    value that does not parse is `Unparsable`. Read and write failures of the
    store are parameters of the operations. */
module Style {
  import opened Wrappers

  const ThemeKey: string := "userTheme"
  const FontSizesKey: string := "userFontSizes"
  const DisplayOptionsKey: string := "userDisplayOptions"

  /** A colour palette: colour role (`bgPrimary`, `accent`, ..., `barStyle`)
      to its value. */
  type Palette = map<string, string>

  /** A theme: its name and its palette (`colors.name`, `colors.colors`). */
  datatype ThemeColors = ThemeColors(name: string, colors: Palette)

  type FontSizes = map<string, int>
  type DisplayOptions = map<string, bool>

  datatype Settings = Settings(colors: ThemeColors, fontSizes: FontSizes, displayOptions: DisplayOptions)

  /** What a store key holds once parsed. */
  datatype Stored =
    | StoredTheme(theme: ThemeColors)
    | StoredFontSizes(sizes: FontSizes)
    | StoredDisplayOptions(options: DisplayOptions)
    | Unparsable

  type Storage = map<string, Stored>

  /** The "Winter Frost" theme. */
  const InitialColors: ThemeColors := ThemeColors("Winter Frost", map[
    "bgPrimary" := "#070B13",
    "bgSecondary" := "#101827",
    "textPrimary" := "#EAF2FF",
    "textSecondary" := "#899BC1",
    "accent" := "#A8C5FF",
    "border" := "#1F293A",
    "barStyle" := "light-content"])

  const InitialFontSizes: FontSizes := map[
    "arabic" := 24,
    "translationEn" := 14,
    "transliterationEn" := 14,
    "translationUr" := 14,
    "transliterationUr" := 14]

  const InitialDisplayOptions: DisplayOptions := map[
    "showArabic" := true,
    "showTranslationEn" := true,
    "showTransliterationEn" := false,
    "showTranslationUr" := true,
    "showTransliterationUr" := false]

  function Defaults(): Settings
  {
    Settings(InitialColors, InitialFontSizes, InitialDisplayOptions)
  }

  /** The theme key holds nothing, or a theme (likewise for the other two). */
  predicate ThemeReadable(storage: Storage)
  {
    ThemeKey !in storage || storage[ThemeKey].StoredTheme?
  }

  predicate FontSizesReadable(storage: Storage)
  {
    FontSizesKey !in storage || storage[FontSizesKey].StoredFontSizes?
  }

  predicate DisplayOptionsReadable(storage: Storage)
  {
    DisplayOptionsKey !in storage || storage[DisplayOptionsKey].StoredDisplayOptions?
  }

  /** The settings after `loadSettings` read `storage` successfully, starting
      from `start`. The keys are applied in order (theme, font sizes, display
      options), each only when present; the first value that does not parse
      throws, so it and every later key are skipped. */
  function Loaded(storage: Storage, start: Settings): (r: Settings)
    ensures r.colors == start.colors ||
      (ThemeKey in storage && storage[ThemeKey].StoredTheme? && r.colors == storage[ThemeKey].theme)
    ensures r.fontSizes == start.fontSizes ||
      (FontSizesKey in storage && storage[FontSizesKey].StoredFontSizes? && r.fontSizes == storage[FontSizesKey].sizes)
    ensures r.displayOptions == start.displayOptions ||
      (DisplayOptionsKey in storage && storage[DisplayOptionsKey].StoredDisplayOptions? &&
       r.displayOptions == storage[DisplayOptionsKey].options)
    ensures !ThemeReadable(storage) ==> r == start
    ensures !FontSizesReadable(storage) ==> r.fontSizes == start.fontSizes && r.displayOptions == start.displayOptions
  {
    if !ThemeReadable(storage) then start
    else
      var s1 := if ThemeKey in storage then start.(colors := storage[ThemeKey].theme) else start;
      if !FontSizesReadable(storage) then s1
      else
        var s2 := if FontSizesKey in storage then s1.(fontSizes := storage[FontSizesKey].sizes) else s1;
        if !DisplayOptionsReadable(storage) then s2
        else if DisplayOptionsKey in storage then s2.(displayOptions := storage[DisplayOptionsKey].options)
        else s2
  }

  /** Loading replaces a setting exactly when its key holds a value (and no
      earlier key failed to parse); every other setting keeps its start value. */
  lemma LoadReplacesOnlyPresent(storage: Storage, start: Settings)
    requires ThemeReadable(storage) && FontSizesReadable(storage) && DisplayOptionsReadable(storage)
    ensures Loaded(storage, start).colors ==
      if ThemeKey in storage then storage[ThemeKey].theme else start.colors
    ensures Loaded(storage, start).fontSizes ==
      if FontSizesKey in storage then storage[FontSizesKey].sizes else start.fontSizes
    ensures Loaded(storage, start).displayOptions ==
      if DisplayOptionsKey in storage then storage[DisplayOptionsKey].options else start.displayOptions
  {
  }

  /** A value that does not parse stops the load: the settings read before it
      stay applied, the one it holds and the later ones keep their start value. */
  lemma UnparsableStopsLoad(storage: Storage, start: Settings)
    requires FontSizesKey in storage && storage[FontSizesKey] == Unparsable
    ensures Loaded(storage, start).fontSizes == start.fontSizes
    ensures Loaded(storage, start).displayOptions == start.displayOptions
    ensures ThemeReadable(storage) && ThemeKey in storage ==>
      Loaded(storage, start).colors == storage[ThemeKey].theme
  {
  }

  /** The store after a successful `resetSettings`. */
  function ResetStorage(storage: Storage): (r: Storage)
    ensures ThemeKey !in r && FontSizesKey !in r && DisplayOptionsKey !in r
    ensures forall k :: k in r <==> k in storage && k != ThemeKey && k != FontSizesKey && k != DisplayOptionsKey
    ensures forall k :: k in r ==> r[k] == storage[k]
  {
    storage - {ThemeKey, FontSizesKey, DisplayOptionsKey}
  }

  /** After a reset nothing is stored, so a later load yields what it starts
      from, in particular the defaults. */
  lemma ResetThenLoad(storage: Storage, start: Settings)
    ensures Loaded(ResetStorage(storage), start) == start
    ensures Loaded(ResetStorage(storage), Defaults()) == Defaults()
  {
  }

  /** A saved theme is what the next load reads back. */
  lemma SavedThemeReloads(storage: Storage, t: ThemeColors, start: Settings)
    ensures Loaded(storage[ThemeKey := StoredTheme(t)], start).colors == t
  {
  }

  /** Saved font sizes are read back when the theme key before them parses. */
  lemma SavedFontSizesReload(storage: Storage, f: FontSizes, start: Settings)
    requires ThemeReadable(storage)
    ensures Loaded(storage[FontSizesKey := StoredFontSizes(f)], start).fontSizes == f
  {
  }

  /** Saved display options are read back when the two keys before them parse. */
  lemma SavedDisplayOptionsReload(storage: Storage, d: DisplayOptions, start: Settings)
    requires ThemeReadable(storage) && FontSizesReadable(storage)
    ensures Loaded(storage[DisplayOptionsKey := StoredDisplayOptions(d)], start).displayOptions == d
  {
  }

  /** `ThemeProvider`: the three settings, the loaded flag, and the store. */
  class ThemeProvider {
    var colors: ThemeColors
    var fontSizes: FontSizes
    var displayOptions: DisplayOptions
    var isLoaded: bool
    var storage: Storage

    function Current(): Settings
      reads this
    {
      Settings(colors, fontSizes, displayOptions)
    }

    /** What the provider renders: nothing until the settings are loaded. */
    function ContextValue(): Option<Settings>
      reads this
    {
      if isLoaded then Some(Current()) else None
    }

    /** The initial state: the three default records, not yet loaded. */
    constructor (deviceStorage: Storage)
      ensures Current() == Defaults()
      ensures !isLoaded && ContextValue() == None
      ensures storage == deviceStorage
    {
      colors := InitialColors;
      fontSizes := InitialFontSizes;
      displayOptions := InitialDisplayOptions;
      isLoaded := false;
      storage := deviceStorage;
    }

    /** `loadSettings`: a failed read changes no setting; either way the
        provider is loaded afterwards and starts rendering. */
    method LoadSettings(readFails: bool)
      modifies this
      ensures isLoaded && ContextValue() == Some(Current())
      ensures storage == old(storage)
      ensures Current() == if readFails then old(Current()) else Loaded(old(storage), old(Current()))
    {
      if !readFails {
        var s := Loaded(storage, Current());
        colors, fontSizes, displayOptions := s.colors, s.fontSizes, s.displayOptions;
      }
      isLoaded := true;
    }

    /** `updateTheme`: the new theme is in memory even when the write fails;
        only the theme key is written. */
    method UpdateTheme(newThemeColors: ThemeColors, writeFails: bool)
      modifies this
      ensures colors == newThemeColors
      ensures fontSizes == old(fontSizes) && displayOptions == old(displayOptions) && isLoaded == old(isLoaded)
      ensures storage == if writeFails then old(storage) else old(storage)[ThemeKey := StoredTheme(newThemeColors)]
    {
      colors := newThemeColors;
      if !writeFails {
        storage := storage[ThemeKey := StoredTheme(newThemeColors)];
      }
    }

    /** `updateFontSizes`: as `updateTheme`, for the font-size key. */
    method UpdateFontSizes(newFontSizes: FontSizes, writeFails: bool)
      modifies this
      ensures fontSizes == newFontSizes
      ensures colors == old(colors) && displayOptions == old(displayOptions) && isLoaded == old(isLoaded)
      ensures storage == if writeFails then old(storage) else old(storage)[FontSizesKey := StoredFontSizes(newFontSizes)]
    {
      fontSizes := newFontSizes;
      if !writeFails {
        storage := storage[FontSizesKey := StoredFontSizes(newFontSizes)];
      }
    }

    /** `updateDisplayOptions`: as `updateTheme`, for the display-option key. */
    method UpdateDisplayOptions(newDisplayOptions: DisplayOptions, writeFails: bool)
      modifies this
      ensures displayOptions == newDisplayOptions
      ensures colors == old(colors) && fontSizes == old(fontSizes) && isLoaded == old(isLoaded)
      ensures storage == if writeFails then old(storage) else old(storage)[DisplayOptionsKey := StoredDisplayOptions(newDisplayOptions)]
    {
      displayOptions := newDisplayOptions;
      if !writeFails {
        storage := storage[DisplayOptionsKey := StoredDisplayOptions(newDisplayOptions)];
      }
    }

    /** `resetSettings`: the defaults in memory, and all three keys removed
        unless the removal fails. */
    method ResetSettings(removeFails: bool)
      modifies this
      ensures Current() == Defaults() && isLoaded == old(isLoaded)
      ensures storage == if removeFails then old(storage) else ResetStorage(old(storage))
    {
      colors := InitialColors;
      fontSizes := InitialFontSizes;
      displayOptions := InitialDisplayOptions;
      if !removeFails {
        storage := ResetStorage(storage);
      }
    }
  }
}
