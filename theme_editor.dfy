/** The theme screen's editing rules (src/Screens/Theme.js): the YIQ
    darkness test that chooses the status-bar style, single-colour edits,
    display-flag toggles, bounded font-size steps, and which colour editor is
    open. The settings themselves live in `Style.ThemeProvider`. */
module ThemeEditor {
  import opened Wrappers
  import opened Style
  import Selection

  // ---------------------------------------------------------------------
  // parseInt(text, 16) and String.prototype.substr

  /** The characters `parseInt` skips before a number. */
  predicate IsJsWhiteSpace(c: char)
  {
    c == '\t' || c == '\n' || c == '\U{B}' || c == '\U{C}' || c == '\r' || c == ' ' ||
    c == '\U{A0}' || c == '\U{1680}' || ('\U{2000}' <= c <= '\U{200A}') ||
    c == '\U{2028}' || c == '\U{2029}' || c == '\U{202F}' || c == '\U{205F}' ||
    c == '\U{3000}' || c == '\U{FEFF}'
  }

  predicate IsHexDigit(c: char)
  {
    ('0' <= c <= '9') || ('a' <= c <= 'f') || ('A' <= c <= 'F')
  }

  function HexDigitValue(c: char): (d: nat)
    requires IsHexDigit(c)
    ensures d < 16
  {
    if '0' <= c <= '9' then c as int - '0' as int
    else if 'a' <= c <= 'f' then c as int - 'a' as int + 10
    else c as int - 'A' as int + 10
  }

  function TrimStart(s: string): (t: string)
    ensures |t| <= |s| && t == s[|s| - |t|..]
    ensures t == [] || !IsJsWhiteSpace(t[0])
  {
    if s != [] && IsJsWhiteSpace(s[0]) then TrimStart(s[1..]) else s
  }

  /** Length of the longest prefix of hexadecimal digits. */
  function HexRunLength(s: string): (n: nat)
    ensures n <= |s|
    ensures forall i :: 0 <= i < n ==> IsHexDigit(s[i])
    ensures n < |s| ==> !IsHexDigit(s[n])
  {
    if s != [] && IsHexDigit(s[0]) then 1 + HexRunLength(s[1..]) else 0
  }

  /** The number a string of hexadecimal digits denotes. */
  function HexValue(ds: string): nat
    requires forall i :: 0 <= i < |ds| ==> IsHexDigit(ds[i])
  {
    if ds == [] then 0 else 16 * HexValue(ds[..|ds| - 1]) + HexDigitValue(ds[|ds| - 1])
  }

  /** `parseInt(s, 16)`: skip white space, read an optional sign and an
      optional `0x`/`0X`, then the longest run of hexadecimal digits;
      `None` is `NaN` (no digit at all). */
  function ParseIntHex(s: string): (r: Option<int>)
    ensures (forall i :: 0 <= i < |s| ==> !IsHexDigit(s[i])) ==> r.None?
    ensures r.Some? && (forall i :: 0 <= i < |s| ==> s[i] != '-') ==> r.value >= 0
  {
    var t := TrimStart(s);
    var negative := t != [] && t[0] == '-';
    var u := if t != [] && (t[0] == '-' || t[0] == '+') then t[1..] else t;
    var w := if |u| >= 2 && u[0] == '0' && (u[1] == 'x' || u[1] == 'X') then u[2..] else u;
    var n := HexRunLength(w);
    if n == 0 then None
    else
      var magnitude: int := HexValue(w[..n]);
      Some(if negative then -magnitude else magnitude)
  }

  /** `s.substr(start, length)`: at most `length` characters from `start`. */
  function Substr(s: string, start: nat, length: nat): (r: string)
    ensures |r| <= length
    ensures start >= |s| ==> r == []
    ensures start + length <= |s| ==> r == s[start..start + length]
    ensures start < |s| < start + length ==> r == s[start..]
  {
    if start >= |s| then []
    else if start + length <= |s| then s[start..start + length]
    else s[start..]
  }

  /** Two hexadecimal digits read as one channel, `"1F"` being 31. */
  function PairValue(hi: char, lo: char): nat
    requires IsHexDigit(hi) && IsHexDigit(lo)
  {
    16 * HexDigitValue(hi) + HexDigitValue(lo)
  }

  /** Two hexadecimal digits parse to their pair value. */
  lemma ParsePair(hi: char, lo: char)
    requires IsHexDigit(hi) && IsHexDigit(lo)
    ensures ParseIntHex([hi, lo]) == Some(PairValue(hi, lo))
  {
    var s := [hi, lo];
    assert !IsJsWhiteSpace(hi);
    assert TrimStart(s) == s;
    assert !(hi == '0' && (lo == 'x' || lo == 'X'));
    assert s[1..] == [lo] && [lo][1..] == [];
    assert HexRunLength([lo]) == 1;
    assert HexRunLength(s) == 2;
    assert s[..2] == s;
    assert s[..1] == [hi] && [hi][..0] == [];
    assert HexValue([hi]) == HexDigitValue(hi);
    assert HexValue(s) == 16 * HexDigitValue(hi) + HexDigitValue(lo);
  }

  // ---------------------------------------------------------------------
  // isColorDark

  /** `#RRGGBB` (anything may follow): six hexadecimal digits after a first
      character that is one UTF-16 code unit, so that the positions `substr`
      counts in units are the positions of this string. */
  predicate WellFormedHex(s: string)
  {
    |s| >= 7 && s[0] < '\U{10000}' && forall i :: 1 <= i < 7 ==> IsHexDigit(s[i])
  }

  /** `isColorDark(hexColor)`. `None` is a missing or non-string argument. A
      missing argument or the empty string counts as dark. Otherwise the three
      channels are read with `parseInt(substr(.., 2), 16)`, and the colour is
      dark when the YIQ brightness `(299 r + 587 g + 114 b) / 1000` is below
      128; a channel that is `NaN` makes the comparison false. */
  function IsColorDark(hexColor: Option<string>): (dark: bool)
    ensures hexColor == None || hexColor == Some("") ==> dark
  {
    if hexColor.None? || hexColor.value == "" then true
    else
      var s := hexColor.value;
      var r := ParseIntHex(Substr(s, 1, 2));
      var g := ParseIntHex(Substr(s, 3, 2));
      var b := ParseIntHex(Substr(s, 5, 2));
      if r.None? || g.None? || b.None? then false
      else
        YiqBelow128(r.value * 299 + g.value * 587 + b.value * 114)
  }

  /** `yiq < 128` for `yiq = weighted / 1000`, in exact arithmetic. */
  predicate YiqBelow128(weighted: int)
  {
    weighted as real / 1000.0 < 128.0
  }

  /** The integer form of the YIQ test. */
  lemma YiqIntegerForm(weighted: int)
    ensures YiqBelow128(weighted) <==> weighted < 128000
  {
  }

  /** For `#RRGGBB` the test is the integer form of `yiq < 128`:
      `299 r + 587 g + 114 b < 128000`. */
  lemma DarkIffWeightedBelow(s: string)
    requires WellFormedHex(s)
    ensures IsColorDark(Some(s)) <==>
      299 * PairValue(s[1], s[2]) + 587 * PairValue(s[3], s[4]) + 114 * PairValue(s[5], s[6]) < 128000
  {
    ParseChannels(s);
    var r, g, b := PairValue(s[1], s[2]), PairValue(s[3], s[4]), PairValue(s[5], s[6]);
    DarkFromChannels(s, r, g, b);
    YiqIntegerForm(r * 299 + g * 587 + b * 114);
  }

  /** Once the three channels are known numbers, darkness is the YIQ test on them. */
  lemma DarkFromChannels(s: string, r: int, g: int, b: int)
    requires s != ""
    requires ParseIntHex(Substr(s, 1, 2)) == Some(r)
    requires ParseIntHex(Substr(s, 3, 2)) == Some(g)
    requires ParseIntHex(Substr(s, 5, 2)) == Some(b)
    ensures IsColorDark(Some(s)) == YiqBelow128(r * 299 + g * 587 + b * 114)
  {
  }

  /** For a well-formed colour each channel parses to its pair value. */
  lemma ParseChannels(s: string)
    ensures WellFormedHex(s) ==>
      ParseIntHex(Substr(s, 1, 2)) == Some(PairValue(s[1], s[2])) &&
      ParseIntHex(Substr(s, 3, 2)) == Some(PairValue(s[3], s[4])) &&
      ParseIntHex(Substr(s, 5, 2)) == Some(PairValue(s[5], s[6]))
  {
    if WellFormedHex(s) {
      assert Substr(s, 1, 2) == [s[1], s[2]];
      assert Substr(s, 3, 2) == [s[3], s[4]];
      assert Substr(s, 5, 2) == [s[5], s[6]];
      ParsePair(s[1], s[2]);
      ParsePair(s[3], s[4]);
      ParsePair(s[5], s[6]);
    }
  }

  const Black: string := "#000000"
  const White: string := "#FFFFFF"

  /** Black is dark. */
  lemma BlackIsDark()
    ensures IsColorDark(Some(Black))
  {
    assert WellFormedHex(Black);
    DarkIffWeightedBelow(Black);
    assert PairValue(Black[1], Black[2]) == 0 && PairValue(Black[3], Black[4]) == 0 && PairValue(Black[5], Black[6]) == 0;
  }

  /** White is not dark. */
  lemma WhiteIsLight()
    ensures !IsColorDark(Some(White))
  {
    assert WellFormedHex(White);
    DarkIffWeightedBelow(White);
    assert PairValue(White[1], White[2]) == 255 && PairValue(White[3], White[4]) == 255 && PairValue(White[5], White[6]) == 255;
  }

  /** A non-empty colour with any channel that does not parse is never dark:
      that channel is `NaN`, and every comparison with `NaN` is false. */
  lemma NaNChannelIsLight(s: string)
    requires s != ""
    requires ParseIntHex(Substr(s, 1, 2)).None? || ParseIntHex(Substr(s, 3, 2)).None? ||
      ParseIntHex(Substr(s, 5, 2)).None?
    ensures !IsColorDark(Some(s))
  {
  }

  /** In particular a non-empty colour of at most five characters, too short
      to have a blue channel, is never dark. */
  lemma MissingChannelIsLight(s: string)
    requires s != "" && |s| <= 5
    ensures !IsColorDark(Some(s))
  {
    assert Substr(s, 5, 2) == [];
    assert ParseIntHex([]) == None;
    NaNChannelIsLight(s);
  }

  const BarStyleKey: string := "barStyle"
  const BgPrimaryKey: string := "bgPrimary"

  /** The status-bar style that goes with a primary background. */
  function BarStyleFor(color: string): (style: string)
    ensures style == "light-content" || style == "dark-content"
    ensures style == "light-content" <==> IsColorDark(Some(color))
  {
    if IsColorDark(Some(color)) then "light-content" else "dark-content"
  }

  /** The default theme's status-bar style is the one its background calls for. */
  lemma DefaultBarStyleAgrees()
    ensures InitialColors.colors[BarStyleKey] == BarStyleFor(InitialColors.colors[BgPrimaryKey])
  {
    assert InitialColors.colors[BgPrimaryKey] == WinterFrostBackground;
    assert InitialColors.colors[BarStyleKey] == "light-content";
    WinterFrostBackgroundIsDark();
  }

  const WinterFrostBackground: string := "#070B13"

  lemma WinterFrostBackgroundIsDark()
    ensures IsColorDark(Some(WinterFrostBackground))
  {
    var bg := WinterFrostBackground;
    assert bg == ['#', '0', '7', '0', 'B', '1', '3'];
    assert WellFormedHex(bg);
    assert PairValue(bg[1], bg[2]) == 7 by { assert bg[1] == '0' && bg[2] == '7'; }
    assert PairValue(bg[3], bg[4]) == 11 by { assert bg[3] == '0' && bg[4] == 'B'; }
    assert PairValue(bg[5], bg[6]) == 19 by { assert bg[5] == '1' && bg[6] == '3'; }
    DarkIffWeightedBelow(bg);
  }

  /** The status bar's style: the palette's `barStyle`, or `dark-content`
      when it has none (or an empty one). */
  function StatusBarStyle(palette: Palette): (style: string)
    ensures BarStyleKey in palette && palette[BarStyleKey] != "" ==> style == palette[BarStyleKey]
    ensures BarStyleKey !in palette || palette[BarStyleKey] == "" ==> style == "dark-content"
  {
    if BarStyleKey in palette && palette[BarStyleKey] != "" then palette[BarStyleKey] else "dark-content"
  }

  /** After editing the primary background, the status bar follows its darkness. */
  lemma StatusBarFollowsBackground(palette: Palette, newColor: string)
    ensures StatusBarStyle(Recolor(palette, BgPrimaryKey, newColor)) ==
      (if IsColorDark(Some(newColor)) then "light-content" else "dark-content")
  {
  }

  // ---------------------------------------------------------------------
  // Colour edits, display flags and font sizes

  /** The palette after setting `key` to `newColor`
      (`{...colors.colors, [key]: newColor, ...(key === 'bgPrimary' && {barStyle})}`). */
  function Recolor(palette: Palette, key: string, newColor: string): (r: Palette)
    ensures r.Keys == palette.Keys + {key} + (if key == BgPrimaryKey then {BarStyleKey} else {})
    ensures key != BgPrimaryKey ==> r[key] == newColor
    ensures key == BgPrimaryKey ==> r[BgPrimaryKey] == newColor && r[BarStyleKey] == BarStyleFor(newColor)
    ensures forall k :: k in palette && k != key && (key != BgPrimaryKey || k != BarStyleKey) ==> r[k] == palette[k]
  {
    var edited := palette[key := newColor];
    if key == BgPrimaryKey then edited[BarStyleKey := BarStyleFor(newColor)] else edited
  }

  /** `{ ...displayOptions, [key]: !displayOptions[key] }`; a missing flag
      reads as `undefined`, whose negation is `true`. */
  function ToggledOption(options: DisplayOptions, key: string): (r: DisplayOptions)
    ensures key in r && r[key] == !(key in options && options[key])
    ensures r.Keys == options.Keys + {key}
    ensures forall k :: k in options && k != key ==> r[k] == options[k]
  {
    options[key := !(key in options && options[key])]
  }

  /** Toggling a flag twice restores the options when the flag was present;
      a flag that was missing ends up `false`. */
  lemma ToggleOptionTwice(options: DisplayOptions, key: string)
    ensures key in options ==> ToggledOption(ToggledOption(options, key), key) == options
    ensures key !in options ==> ToggledOption(ToggledOption(options, key), key) == options[key := false]
  {
    var twice := ToggledOption(ToggledOption(options, key), key);
    if key in options {
      assert twice.Keys == options.Keys;
      assert forall k :: k in options ==> twice[k] == options[k];
    }
  }

  const MinFontSize: int := 12

  function MaxFontSize(fontKey: string): int
  {
    if fontKey == "arabic" then 40 else 24
  }

  /** `direction === 'increment' ? +1 : -1`. */
  function Delta(direction: string): int
  {
    if direction == "increment" then 1 else -1
  }

  /** `handleFontSizeChange`'s new font sizes, or `None` when nothing is
      updated: the key is missing (its size is `NaN`) or the stepped size
      falls outside `[12, MAX]`, MAX being 40 for `arabic` and 24 otherwise. */
  function StepFontSize(sizes: FontSizes, fontKey: string, direction: string): (r: Option<FontSizes>)
    ensures r.Some? <==>
      (fontKey in sizes && MinFontSize <= sizes[fontKey] + Delta(direction) <= MaxFontSize(fontKey))
    ensures r.Some? ==>
      && r.value.Keys == sizes.Keys
      && r.value[fontKey] - sizes[fontKey] == (if direction == "increment" then 1 else -1)
      && MinFontSize <= r.value[fontKey] <= MaxFontSize(fontKey)
      && forall k :: k in sizes && k != fontKey ==> r.value[k] == sizes[k]
  {
    if fontKey !in sizes then None
    else
      var newSize := sizes[fontKey] + Delta(direction);
      if MinFontSize <= newSize && newSize <= MaxFontSize(fontKey) then Some(sizes[fontKey := newSize])
      else None
  }

  /** A size inside the bounds stays inside them; stepping past a bound is a
      no-op (so 24 is the last `arabic`-free size and 40 the last `arabic` one). */
  lemma FontSizeStaysInBounds(sizes: FontSizes, fontKey: string, direction: string)
    requires fontKey in sizes && MinFontSize <= sizes[fontKey] <= MaxFontSize(fontKey)
    ensures var after := StepFontSize(sizes, fontKey, direction).GetOr(sizes);
      MinFontSize <= after[fontKey] <= MaxFontSize(fontKey)
    ensures sizes[fontKey] == MaxFontSize(fontKey) && direction == "increment" ==>
      StepFontSize(sizes, fontKey, direction) == None
    ensures sizes[fontKey] == MinFontSize && direction != "increment" ==>
      StepFontSize(sizes, fontKey, direction) == None
  {
  }

  // ---------------------------------------------------------------------
  // The screen's own state

  /** The `Theme` screen: which colour editor is open, and the provider it edits. */
  class ThemeScreen {
    const provider: ThemeProvider
    var editingColorKey: Option<string>

    constructor (p: ThemeProvider)
      ensures provider == p && editingColorKey == None
    {
      provider := p;
      editingColorKey := None;
    }

    /** `handleLiveThemeUpdate` and `handleTextInputThemeUpdate`, which have
        the same body: with no editor open (`null` or `""`), nothing happens;
        otherwise the open key gets the new colour through `updateTheme`. */
    method HandleColorUpdate(newColor: string, writeFails: bool)
      modifies provider
      ensures editingColorKey == None || editingColorKey == Some("") ==>
        unchanged(provider)
      ensures editingColorKey.Some? && editingColorKey.value != "" ==>
        && provider.colors == old(provider.colors).(colors := Recolor(old(provider.colors.colors), editingColorKey.value, newColor))
        && provider.fontSizes == old(provider.fontSizes)
        && provider.displayOptions == old(provider.displayOptions)
        && provider.isLoaded == old(provider.isLoaded)
        && provider.storage == if writeFails then old(provider.storage)
                               else old(provider.storage)[ThemeKey := StoredTheme(provider.colors)]
    {
      if editingColorKey.None? || editingColorKey.value == "" {
        return;
      }
      var updatedColors := Recolor(provider.colors.colors, editingColorKey.value, newColor);
      provider.UpdateTheme(provider.colors.(colors := updatedColors), writeFails);
    }

    /** `handleDisplayOptionChange`: one flag negated through `updateDisplayOptions`. */
    method HandleDisplayOptionChange(key: string, writeFails: bool)
      modifies provider
      ensures provider.displayOptions == ToggledOption(old(provider.displayOptions), key)
      ensures provider.colors == old(provider.colors) && provider.fontSizes == old(provider.fontSizes)
      ensures provider.isLoaded == old(provider.isLoaded)
      ensures provider.storage == if writeFails then old(provider.storage)
        else old(provider.storage)[DisplayOptionsKey := StoredDisplayOptions(provider.displayOptions)]
    {
      provider.UpdateDisplayOptions(ToggledOption(provider.displayOptions, key), writeFails);
    }

    /** `handleFontSizeChange`: `updateFontSizes` only when the step is allowed. */
    method HandleFontSizeChange(fontKey: string, direction: string, writeFails: bool)
      modifies provider
      ensures StepFontSize(old(provider.fontSizes), fontKey, direction).None? ==> unchanged(provider)
      ensures StepFontSize(old(provider.fontSizes), fontKey, direction).Some? ==>
        && provider.fontSizes == StepFontSize(old(provider.fontSizes), fontKey, direction).value
        && provider.colors == old(provider.colors) && provider.displayOptions == old(provider.displayOptions)
        && provider.isLoaded == old(provider.isLoaded)
        && provider.storage == if writeFails then old(provider.storage)
             else old(provider.storage)[FontSizesKey := StoredFontSizes(provider.fontSizes)]
    {
      var stepped := StepFontSize(provider.fontSizes, fontKey, direction);
      if stepped.Some? {
        provider.UpdateFontSizes(stepped.value, writeFails);
      }
    }

    /** Pressing a preset: its palette replaces the current one through
        `updateTheme`; the theme keeps its name. */
    method ApplyPreset(presetColors: Palette, writeFails: bool)
      modifies provider
      ensures provider.colors == old(provider.colors).(colors := presetColors)
      ensures provider.fontSizes == old(provider.fontSizes) && provider.displayOptions == old(provider.displayOptions)
      ensures provider.isLoaded == old(provider.isLoaded)
      ensures provider.storage == if writeFails then old(provider.storage)
        else old(provider.storage)[ThemeKey := StoredTheme(provider.colors)]
    {
      provider.UpdateTheme(provider.colors.(colors := presetColors), writeFails);
    }

    /** `toggleColorEditor`: close the editor if `key` is open, else open `key`. */
    method ToggleColorEditor(key: string)
      modifies this
      ensures editingColorKey == Selection.Toggled(old(editingColorKey), key)
      ensures old(editingColorKey) == Some(key) ==> editingColorKey == None
      ensures old(editingColorKey) != Some(key) ==> editingColorKey == Some(key)
    {
      editingColorKey := Selection.Toggled(editingColorKey, key);
    }
  }
}
