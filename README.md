# A verified model of the Quran app's core rules

This project models the behaviour of a React Native Quran reader (surah
player, bookmarks, themes and font settings, daily practices) and of its
release script. It is written in Dafny and its properties are proved. It covers:

- **Versioning** (`versioning.dfy`, from `scripts/version-up.js`). Dotted
  versions are compared component by component, with a missing component
  read as 0. The master version is the higher of the `package.json` and
  `build.gradle` versions. Its patch number is bumped after padding it to
  three components, and the Android build code is incremented.
- **Settings store** (`style.dfy`, from `src/Context/StyleContext.js`).
  - The theme, font sizes and display options each have a default and a
    storage key.
  - Loading applies the keys in order and stops at the first value that
    does not parse. Either way the provider counts as loaded afterwards.
  - An update changes memory first and storage only if the write succeeds.
    A reset restores the defaults and removes the three keys.
- **Theme editor** (`theme_editor.dfy`, from `src/Screens/Theme.js`).
  - `isColorDark` is modelled with JavaScript's `substr` and
    `parseInt(.., 16)`: whitespace, sign, the `0x` prefix, a partial digit
    run, and `NaN` when there are no digits.
  - Editing `bgPrimary` sets the status-bar style from the colour's
    darkness. Display flags are negated.
  - A font size moves by ±1 only inside `[12, 40]` for `arabic` and
    `[12, 24]` for every other font.
  - Only one colour editor is open at a time.
- **Surah data** (`surah_data.dfy`, from `src/Hooks/useSurahData.js`). Each
  surah is projected onto a list of keys, and the list is unchanged when no
  keys are given.
- **Player pager** (`player.dfy`, from `src/Screens/Player.js`). The initial
  surah comes from the route, and the page is located by `findIndex`. Next
  and previous step by one and stop at either end. Pages have a fixed-width
  layout, and play/pause flips a flag.
- **Bookmarks** (`bookmarks.dfy`, from `src/Screens/Bookmarks.js`). The list
  is loaded from storage. Removal takes two steps (press, then confirm or
  cancel) and is written to storage before the list changes. Displayed
  bookmarks get surah names, with fixed fallbacks. Opening a bookmark opens
  the player on its surah.
- **Icon** (`icon.dfy`, from `src/Components/Icon.js`). The family is chosen
  by a case-insensitive switch with aliases. An unknown type falls back to
  Material Icons with the `error-outline` glyph. The `lucide` case reaches
  an undeclared binding. Size and colour have default props.
- **Practices** (`practices.dfy`, from `src/Screens/Practices.js`). Ten
  practices with unique ids and list keys form a one-open-at-a-time
  accordion. The search text filters nothing.

`common.dfy` holds the shared vocabulary:

- `Option`, where `None` is `null` or `undefined`.
- JSON values and records, with JavaScript's `===`, truthiness and `||`
  fallback.
- The toggle "pressing the open item closes it, pressing another opens that
  one", used by two screens.

The device key-value store is a map from key to parsed value. Failed reads,
writes and removals are boolean parameters of the operations that use the
store.

## Model

| member | source | states |
|---|---|---|
| Versioning.CompareVersions | scripts/version-up.js:51-62 | the loop with its early returns computes the reference order `Compare` (the sign of the first differing component, missing components read as 0), and always returns 1, 0 or -1 |
| Versioning.EqualIffSameParts | scripts/version-up.js:54-61 | two versions compare equal exactly when they agree in every component, missing components read as 0 |
| Versioning.TrailingZerosIgnored | scripts/version-up.js:56-57 | appending zero components never changes the comparison (`1.2` equals `1.2.0`) |
| Versioning.CompareReflexive | scripts/version-up.js:51-62 | every version compares equal to itself |
| Versioning.CompareAntisymmetric | scripts/version-up.js:58-59 | swapping the arguments negates the result |
| Versioning.GreaterIffFirstDifferenceLarger | scripts/version-up.js:55-60 | the result is 1 exactly when some component of the first version is larger and all earlier components are equal |
| Versioning.NumericNotTextual | scripts/version-up.js:52-53 | components compare as numbers: 1.10 > 1.9, 1.2 = 1.2.0, 2 > 1.99.99 |
| Versioning.CompareTransitive | scripts/version-up.js:51-62 | the order is transitive, and strictly so when either step is strict |
| Versioning.MasterIsHighest | scripts/version-up.js:86-91 | the master version is at least as high as both inputs, and is the package version unless the gradle version is strictly higher |
| Versioning.BumpedShape | scripts/version-up.js:93-99 | the bumped version has max(n, 3) components; the patch is the old patch (0 if missing) plus one, and every other component is the old one (0 where padded) |
| Versioning.BumpedIsGreater | scripts/version-up.js:93-99 | the bump always moves the version strictly up |
| Versioning.NoDowngrade | scripts/version-up.js:86-99 | the new version is strictly higher than both the package and the gradle version |
| Versioning.BumpVersion | scripts/version-up.js:86-101 | the method (a gradle-over-package choice, a zero-padding `while` loop, then the patch increment) returns the bump of the master version, strictly higher than both inputs, with the build code plus one |
| Style.Loaded | src/Context/StyleContext.js:73-84 | each setting ends as its start value or as the value stored under its key; an unparsable theme leaves every setting as it was, and an unparsable font-size value leaves font sizes and display options as they were |
| Style.LoadReplacesOnlyPresent | src/Context/StyleContext.js:71-92 | when every key parses, a setting is replaced exactly when its key holds a value, and otherwise keeps its start value |
| Style.UnparsableStopsLoad | src/Context/StyleContext.js:73-89 | an unparsable font-size value stops the load: the theme read before it stays applied, and font sizes and display options keep their start values |
| Style.ResetStorage | src/Context/StyleContext.js:129-133 | the reset store has none of the three keys and keeps every other key with its value |
| Style.ResetThenLoad | src/Context/StyleContext.js:124-137 | after a reset, loading changes nothing, so the defaults stay the defaults |
| Style.SavedThemeReloads | src/Context/StyleContext.js:94-101 | a saved theme is what the next load reads back |
| Style.SavedFontSizesReload | src/Context/StyleContext.js:103-110 | saved font sizes are read back when the theme key parses |
| Style.SavedDisplayOptionsReload | src/Context/StyleContext.js:112-122 | saved display options are read back when the two earlier keys parse |
| Style.ThemeProvider.constructor | src/Context/StyleContext.js:65-69 | the provider starts with the three default records, not loaded, and renders nothing |
| Style.ThemeProvider.LoadSettings | src/Context/StyleContext.js:71-92 | afterwards the provider is loaded and renders its settings; a failed read changes no setting, and a successful one yields `Loaded` of the store; the store is unchanged |
| Style.ThemeProvider.UpdateTheme | src/Context/StyleContext.js:94-101 | the theme is set in memory even when the write fails; only the theme key is written, and only on success |
| Style.ThemeProvider.UpdateFontSizes | src/Context/StyleContext.js:103-110 | as UpdateTheme, for the font sizes and their key |
| Style.ThemeProvider.UpdateDisplayOptions | src/Context/StyleContext.js:112-122 | as UpdateTheme, for the display options and their key |
| Style.ThemeProvider.ResetSettings | src/Context/StyleContext.js:124-137 | the defaults are in memory; the three keys are removed unless the removal fails; the loaded flag is unchanged |
| ThemeEditor.ParseIntHex | src/Screens/Theme.js:414-416 | `parseInt(.., 16)` is `NaN` for a string with no hexadecimal digit, and never negative for a string without `-` |
| ThemeEditor.Substr | src/Screens/Theme.js:414-416 | `substr(start, length)` gives nothing from a start past the end, exactly the `length` characters from `start` when they exist, and otherwise the rest of the string |
| ThemeEditor.ParsePair | src/Screens/Theme.js:414-416 | `parseInt` of two hex digits, base 16, is 16·high + low |
| ThemeEditor.IsColorDark | src/Screens/Theme.js:411-422 | a missing colour or the empty string counts as dark |
| ThemeEditor.DarkIffWeightedBelow | src/Screens/Theme.js:414-418 | for `#RRGGBB` the colour is dark exactly when 299·r + 587·g + 114·b < 128000, i.e. YIQ brightness below 128 |
| ThemeEditor.BlackIsDark | src/Screens/Theme.js:411-418 | `#000000` is dark |
| ThemeEditor.WhiteIsLight | src/Screens/Theme.js:411-418 | `#FFFFFF` is not dark |
| ThemeEditor.NaNChannelIsLight | src/Screens/Theme.js:414-418 | a non-empty colour with any channel that parses to `NaN` is not dark, since every comparison with `NaN` is false |
| ThemeEditor.MissingChannelIsLight | src/Screens/Theme.js:414-418 | every non-empty colour of at most five characters is not dark: its blue channel is `NaN` |
| ThemeEditor.BarStyleFor | src/Screens/Theme.js:391-393 | the style is `light-content` exactly when the colour is dark, and `dark-content` otherwise |
| ThemeEditor.DefaultBarStyleAgrees | src/Context/StyleContext.js:22-33 | the default theme's `barStyle` is the one its dark background calls for |
| ThemeEditor.StatusBarStyle | src/Screens/Theme.js:455-458 | the status bar uses the palette's `barStyle`, or `dark-content` when it is missing or empty |
| ThemeEditor.StatusBarFollowsBackground | src/Screens/Theme.js:385-396 | after editing `bgPrimary`, the status bar is light exactly when the new background is dark |
| ThemeEditor.Recolor | src/Screens/Theme.js:388-394 | the edited key gets the new colour; editing `bgPrimary` also sets `barStyle` from its darkness; the key set grows only by those keys, and every other colour is kept |
| ThemeEditor.ToggledOption | src/Screens/Theme.js:424-427 | the flag becomes the negation of its old value (a missing flag becomes true), and every other flag is kept |
| ThemeEditor.ToggleOptionTwice | src/Screens/Theme.js:424-427 | toggling a present flag twice restores the options; a missing flag ends as false |
| ThemeEditor.StepFontSize | src/Screens/Theme.js:429-439 | there is an update exactly when the font is present and the stepped size is within [12, 40] for arabic or [12, 24] otherwise; then only that size changes, by +1 for `increment` and -1 for anything else |
| ThemeEditor.FontSizeStaysInBounds | src/Screens/Theme.js:429-439 | a size within bounds stays within bounds, and stepping past either bound is a no-op |
| ThemeEditor.ThemeScreen.constructor | src/Screens/Theme.js:364 | no colour editor is open at first |
| ThemeEditor.ThemeScreen.HandleColorUpdate | src/Screens/Theme.js:385-409 | with no editor open nothing changes; otherwise the theme becomes the recoloured palette under the same name via updateTheme, and every other setting is kept |
| ThemeEditor.ThemeScreen.HandleDisplayOptionChange | src/Screens/Theme.js:424-427 | the display options become the toggled options via updateDisplayOptions, and every other setting is kept |
| ThemeEditor.ThemeScreen.HandleFontSizeChange | src/Screens/Theme.js:429-439 | nothing changes when the step is not allowed; otherwise the font sizes become the stepped sizes via updateFontSizes |
| ThemeEditor.ThemeScreen.ApplyPreset | src/Screens/Theme.js:536-537 | the preset's palette replaces the current one under the same theme name via updateTheme |
| ThemeEditor.ThemeScreen.ToggleColorEditor | src/Screens/Theme.js:441-444 | pressing the open key closes the editor; pressing any other key opens that key |
| SurahData.ProjectOnto | src/Hooks/useSurahData.js:11-16 | the reduce keeps every key of the accumulator and adds only keys the surah has |
| SurahData.Project | src/Hooks/useSurahData.js:11-16 | a projected surah has only keys of the surah, and no key at all for an empty key list |
| SurahData.ProjectOntoContents | src/Hooks/useSurahData.js:11-16 | the reduce's result has a key exactly when the accumulator has it or the key is requested and the surah has it; requested keys carry the surah's value |
| SurahData.ProjectedRecord | src/Hooks/useSurahData.js:10-17 | a projected surah has exactly the requested keys the surah has, with the surah's values |
| SurahData.DuplicateKeysIrrelevant | src/Hooks/useSurahData.js:11-16 | only the set of requested keys matters, not their order or repetitions |
| SurahData.UseSurahData | src/Hooks/useSurahData.js:9-21 | a missing or empty key list returns the data unchanged; otherwise each surah, in order, is projected onto the requested keys it has |
| SurahData.SurahListHook.constructor | src/Hooks/useSurahData.js:5 | the list is empty before the effect runs |
| SurahData.SurahListHook.RunEffect | src/Hooks/useSurahData.js:7-22 | the effect sets the list to the processed data |
| Player.InitialSurahId | src/Screens/Player.js:178 | the route's `surahId`, or 1 when there are no params or no id |
| Player.FindIndexById | src/Screens/Player.js:186 | the first index whose record has that id under `===`, or -1 exactly when none has it |
| Player.GetItemLayout | src/Screens/Player.js:266-273 | a page is one width long, carries its index, and starts after `index` pages of that length |
| Player.LayoutTiles | src/Screens/Player.js:266-273 | each page starts where the previous one ends, and the page at an offset is the offset divided by the width, with no remainder |
| Player.PlayerScreen.IsBeginning | src/Screens/Player.js:306 | on a valid page, `isBeginning` holds exactly when there is no earlier page |
| Player.PlayerScreen.IsEnd | src/Screens/Player.js:307 | on a non-empty list, `isEnd` holds exactly when there is no later page; it never holds while the list is empty |
| Player.PlayerScreen.constructor | src/Screens/Player.js:177-181 | the id comes from the route; the list is empty, the index is 0 and nothing is playing |
| Player.PlayerScreen.SurahDataLoaded | src/Screens/Player.js:184-191 | with data in which the id is found, the index moves to the first surah with that id; otherwise it stays |
| Player.PlayerScreen.HandleNext | src/Screens/Player.js:244-253 | the index goes up by one unless on the last page; it stays a valid page, and it does not move exactly when on the last page |
| Player.PlayerScreen.HandlePrevious | src/Screens/Player.js:255-264 | the index goes down by one unless on the first page; it stays a valid page, and it does not move exactly when on the first page |
| Player.PlayerScreen.TogglePlayPause | src/Screens/Player.js:309 | the play flag is negated |
| Bookmarks.LoadedBookmarks | src/Screens/Bookmarks.js:104-111 | nothing stored gives an empty list; a stored list is loaded; a failed read or an unparsable value keeps the current list |
| Bookmarks.RemoveById | src/Screens/Bookmarks.js:143 | the result holds exactly the items whose `id` is not `===` the given id, and is no longer than the input |
| Bookmarks.RemoveSingle | src/Screens/Bookmarks.js:143 | a one-item list loses its item exactly when the item has the id |
| Bookmarks.RemoveKeepsOrder | src/Screens/Bookmarks.js:143 | filtering splits over concatenation, so the order of the kept items is preserved |
| Bookmarks.RemoveIdempotent | src/Screens/Bookmarks.js:143 | removing twice is removing once, and a list without the id is returned unchanged |
| Bookmarks.FindSurah | src/Screens/Bookmarks.js:127 | none is found exactly when no surah has the id; otherwise the result is the first surah that has it |
| Bookmarks.Enrich | src/Screens/Bookmarks.js:124-131 | an enriched bookmark has the bookmark's keys plus the two name keys, keeps every other field, and gets `Unknown` and `غير معروف` when its surah is not found |
| Bookmarks.Processed | src/Screens/Bookmarks.js:122-132 | without surah data the bookmarks are returned as they are; otherwise each bookmark, in order, keeps its fields and gains `surahName` and `arabicName` from its surah |
| Bookmarks.NameFallbacks | src/Screens/Bookmarks.js:126-130 | a bookmark whose surah is missing gets `Unknown` and `غير معروف`; one whose surah has a non-empty transliteration gets it |
| Bookmarks.NavigationParams | src/Screens/Bookmarks.js:134-139 | the player is opened with exactly the bookmark's `surahId` and `verseId` |
| Bookmarks.OpensOwnSurah | src/Screens/Bookmarks.js:134-139 | opening a bookmark starts the player on its surah, or on surah 1 when it has none |
| Bookmarks.BookmarksScreen.constructor | src/Screens/Bookmarks.js:100-101 | no bookmarks at first and nothing awaiting confirmation |
| Bookmarks.BookmarksScreen.LoadBookmarks | src/Screens/Bookmarks.js:103-114 | the list becomes LoadedBookmarks of the store |
| Bookmarks.BookmarksScreen.ProcessedBookmarks | src/Screens/Bookmarks.js:122-132 | the shown list has one entry per bookmark, and is the bookmarks themselves while there is no surah data |
| Bookmarks.BookmarksScreen.SurahDataLoaded | src/Screens/Bookmarks.js:99 | the surah list arrives from useSurahData, and the shown list becomes `Processed` of the bookmarks with it |
| Bookmarks.BookmarksScreen.HandleRemovePress | src/Screens/Bookmarks.js:167 | the pressed id awaits confirmation, and exactly the bookmarks with that id show confirm/cancel |
| Bookmarks.BookmarksScreen.HandleCancelDelete | src/Screens/Bookmarks.js:170 | nothing awaits confirmation and no bookmark shows confirm/cancel |
| Bookmarks.BookmarksScreen.HandleRemove | src/Screens/Bookmarks.js:141-150 | when the write fails nothing changes; otherwise the filtered list is stored and shown, and the confirmation is cleared |
| Bookmarks.RemovedListReloads | src/Screens/Bookmarks.js:141-150 | the list a successful removal stores is what the next load reads |
| Icon.ComponentFor | src/Components/Icon.js:27-66 | a string that is no case label gets Material Icons, and only `lucide` throws, reaching the `Lucide` binding |
| Icon.GetIconComponent | src/Components/Icon.js:25-67 | a type whose lower-cased form is no case label gets Material Icons, and the resolution throws exactly for `lucide` in any case |
| Icon.ToLower | src/Components/Icon.js:26 | lower-casing keeps the length and lower-cases each character |
| Icon.ToLowerIdempotent | src/Components/Icon.js:26 | lower-casing an already lower-cased string changes nothing |
| Icon.CaseInsensitive | src/Components/Icon.js:26 | a type and its lower-cased form, and any two types that lower-case alike, resolve the same |
| Icon.Aliases | src/Components/Icon.js:55-62 | `materialicons` and `material` give Material Icons; `simplelineicons` and `simpleline` give Simple Line Icons |
| Icon.IconName | src/Components/Icon.js:72-76 | the glyph is `error-outline` exactly when the component is Material Icons and the type is neither Material spelling; otherwise it is the requested name |
| Icon.UnknownTypeFallsBack | src/Components/Icon.js:65-76 | a type matching no case falls back to Material Icons and renders `error-outline` |
| Icon.OtherLabelNotMaterial | src/Components/Icon.js:26-64 | every case other than `lucide` and the two Material spellings names a family other than Material Icons |
| Icon.KnownTypeKeepsName | src/Components/Icon.js:72-76 | every recognised type except `lucide`, the Material aliases included, renders the requested name unchanged |
| Icon.LucideIsNotFallback | src/Components/Icon.js:51-52 | `lucide` is a case of its own, not the fallback; it reaches the undeclared `Lucide` binding and the render throws |
| Icon.Render | src/Components/Icon.js:100-104 | a missing size is 24 and a missing colour is `#000`, while given ones are used; the render throws exactly when the resolution reaches an undeclared binding |
| Practices.PracticeIds | src/Screens/Practices.js:23-191 | the list has ten practices with ids 1 to 10 in order, all distinct |
| Practices.DecimalString | src/Screens/Practices.js:264 | `toString` yields a non-empty string of decimal digits whose last digit is the number mod 10, for every number |
| Practices.DecimalStringInjective | src/Screens/Practices.js:264 | different numbers have different decimal strings |
| Practices.KeysUnique | src/Screens/Practices.js:264 | no two practices share a list key |
| Practices.AtMostOneExpanded | src/Screens/Practices.js:272 | in any state, at most one practice is shown expanded |
| Practices.PracticesScreen.constructor | src/Screens/Practices.js:243-244 | no practice is expanded at first, and the search text is empty |
| Practices.PracticesScreen.HandlePress | src/Screens/Practices.js:246-249 | pressing the expanded practice collapses it; pressing any other practice expands that one |
| Practices.PracticesScreen.SetSearchQuery | src/Screens/Practices.js:257-263 | the search text is kept, and the list shown stays every practice in order |
| Practices.PressTwice | src/Screens/Practices.js:248 | two presses on one practice from the collapsed state collapse it again; a press on another practice after one press opens that one |
| Selection.Toggled | src/Screens/Theme.js:443 | the open item closes when pressed again; any other item opens instead |

## Left out

- Reading and writing `package.json`, `build.gradle` and `Info.plist`: the regular expressions, the `darwin` check and `process.exit` are left out. A version is modelled as its list of numeric components. So the model does not cover a component that `Number` turns into `NaN` (the comparison reads it as 0, but the bump would write `NaN`). It also does not cover floating-point precision on very large components.
- JSON parsing and serialisation: a stored value is either the parsed record of the expected shape or `Unparsable`. A stored value that parses to the wrong shape, and a stored empty string (which `loadBookmarks` treats as "nothing stored"), are not distinguished from those cases.
- Bookmark ids are taken to be present and to be numbers or strings: `id` is a `Value`, not an optional one. A bookmark without an `id` (`undefined`) is not modelled in remove and confirm.
- The async ordering of storage calls and React's batching of state updates: each handler is one atomic step.
- Floating-point layout is left out: `fontPixel`, `SIZES`, `PixelRatio`, the pixel width of pages (an integer in `GetItemLayout`), the style sheets and `LayoutAnimation`.
- `scrollToIndex`, its timers, and the player's `onMomentumScrollEnd` rounding are left out. Scrolling is disabled on that list (`scrollEnabled={false}`), so only the buttons move the page.
- Navigation wiring is left out: header titles, the bookmark count in the title, and `navigation.setOptions`.
- Preset detection by `JSON.stringify` equality and the preset palettes themselves are left out. Pressing a preset (`ApplyPreset`) is modelled for any palette.
- The colour picker and vector-icon libraries are left out.
- Verse timings, preamble offsets, an audio queue, seeking and resume positions exist in no file of this model. The player's play/pause only flips a flag.
- `toLowerCase` is modelled for ASCII letters only. This loses no match: the non-ASCII characters that lower-case to ASCII letters are the Kelvin sign, which becomes `k`, and `İ`, which becomes `i` plus a combining dot. No case label contains `k`, and the dot remains, so neither can complete a case label.
- The text input in the colour editor edits whichever key is open. The model states the identical bodies of `handleLiveThemeUpdate` and `handleTextInputThemeUpdate` once.
- ThemeEditor.IsColorDark: its own contract states only the missing-or-empty case. The test for a well-formed `#RRGGBB` is stated by `DarkIffWeightedBelow`, and the `NaN` case by `NaNChannelIsLight` and `MissingChannelIsLight`. The function is total over every string: the `typeof` check is its `None` case, and the `try { } catch` around it cannot fire for a string.
- String positions are counted in Unicode code points, while JavaScript's `substr` counts UTF-16 code units. The two agree on a colour whose first five characters lie in the Basic Multilingual Plane, which every `#RRGGBB` colour does (`WellFormedHex` asks this of its first character). A colour with a character above U+FFFF among its first five, such as `"😀000000"`, is read at shifted positions by JavaScript and is not modelled.
- The static screens and wiring are not part of this model: `src/Screens/Hadees.js`, `src/Screens/Names.js`, `src/Screens/Home.js`, `src/AppContent.js`, `src/Components/SearchBar.js` and `App.js`.
