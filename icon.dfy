/** The icon wrapper (src/Components/Icon.js): a `type` string picks one of
    the vector-icon families, case-insensitively and with a few aliases; an
    unknown type falls back to Material Icons and shows the `error-outline`
    glyph instead of the requested one. */
module Icon {
  import opened Wrappers

  /** The icon families the file imports. */
  datatype Family =
    | AntDesign | Entypo | EvilIcons | Feather | FontAwesome | FontAwesome5
    | FontAwesome5Brands | FontAwesome6 | FontAwesome6Brands | Fontisto
    | Foundation | Ionicons | MaterialCommunityIcons | MaterialIcons
    | Octicons | SimpleLineIcons | Zocial

  /** The outcome of `getIconComponent`: a family, or the `ReferenceError`
      thrown by a case that returns a binding the file never declares
      (the `Lucide` import is commented out). */
  datatype Resolution = Component(family: Family) | ReferenceError(binding: string)

  const FallbackName: string := "error-outline"

  /** `toLowerCase` on one character (ASCII letters). */
  function LowerChar(c: char): (l: char)
    ensures 'A' <= c <= 'Z' ==> l as int == c as int + 32
    ensures !('A' <= c <= 'Z') ==> l == c
    ensures !('A' <= l <= 'Z')
  {
    if 'A' <= c <= 'Z' then (c as int + 32) as char else c
  }

  /** `toLowerCase` on a string. */
  function ToLower(s: string): (r: string)
    ensures |r| == |s|
    ensures forall i :: 0 <= i < |s| ==> r[i] == LowerChar(s[i])
  {
    if s == [] then [] else [LowerChar(s[0])] + ToLower(s[1..])
  }

  /** Lower-casing a lower-case string changes nothing. */
  lemma {:induction false} ToLowerIdempotent(s: string)
    ensures ToLower(ToLower(s)) == ToLower(s)
  {
    if s != [] {
      ToLowerIdempotent(s[1..]);
      assert ToLower(s)[1..] == ToLower(s[1..]);
    }
  }

  /** The `switch` of `getIconComponent`, on the lower-cased type: a string
      that is no case label gets the Material Icons default, and only
      `lucide` throws. */
  function ComponentFor(lower: string): (r: Resolution)
    ensures lower !in KnownTypes ==> r == Component(MaterialIcons)
    ensures r.ReferenceError? <==> lower == "lucide"
    ensures r.ReferenceError? ==> r.binding == "Lucide"
  {
    match lower
    case "antdesign" => Component(AntDesign)
    case "entypo" => Component(Entypo)
    case "evilicons" => Component(EvilIcons)
    case "feather" => Component(Feather)
    case "fontawesome" => Component(FontAwesome)
    case "fontawesome5" => Component(FontAwesome5)
    case "fontawesome5brands" => Component(FontAwesome5Brands)
    case "fontawesome6" => Component(FontAwesome6)
    case "fontawesome6brands" => Component(FontAwesome6Brands)
    case "fontisto" => Component(Fontisto)
    case "foundation" => Component(Foundation)
    case "ionicons" => Component(Ionicons)
    case "lucide" => ReferenceError("Lucide")
    case "materialcommunity" => Component(MaterialCommunityIcons)
    case "materialicons" => Component(MaterialIcons)
    case "material" => Component(MaterialIcons)
    case "octicons" => Component(Octicons)
    case "simplelineicons" => Component(SimpleLineIcons)
    case "simpleline" => Component(SimpleLineIcons)
    case "zocial" => Component(Zocial)
    case _ => Component(MaterialIcons)
  }

  /** Every case label of the `switch`. */
  const KnownTypes: set<string> := {
    "antdesign", "entypo", "evilicons", "feather", "fontawesome", "fontawesome5",
    "fontawesome5brands", "fontawesome6", "fontawesome6brands", "fontisto",
    "foundation", "ionicons", "lucide", "materialcommunity", "materialicons",
    "material", "octicons", "simplelineicons", "simpleline", "zocial"}

  /** The two labels that ask for Material Icons on purpose. */
  const MaterialAliases: set<string> := {"materialicons", "material"}

  /** `getIconComponent(type)`: the `switch` on `type.toLowerCase()`. */
  function GetIconComponent(type_: string): (r: Resolution)
    ensures ToLower(type_) !in KnownTypes ==> r == Component(MaterialIcons)
    ensures r.ReferenceError? <==> ToLower(type_) == "lucide"
  {
    ComponentFor(ToLower(type_))
  }

  /** Matching ignores case: a type and its lower-cased form (so any two
      spellings that lower-case alike) resolve to the same thing. */
  lemma CaseInsensitive(type_: string, other: string)
    ensures GetIconComponent(ToLower(type_)) == GetIconComponent(type_)
    ensures ToLower(type_) == ToLower(other) ==> GetIconComponent(type_) == GetIconComponent(other)
  {
    ToLowerIdempotent(type_);
  }

  /** The aliases: both Material spellings give Material Icons, both Simple
      Line spellings give Simple Line Icons. */
  lemma Aliases(type_: string)
    ensures ToLower(type_) in MaterialAliases ==> GetIconComponent(type_) == Component(MaterialIcons)
    ensures ToLower(type_) in {"simplelineicons", "simpleline"} ==>
      GetIconComponent(type_) == Component(SimpleLineIcons)
  {
  }

  /** The glyph name passed on: a Material Icons component reached by any type
      other than the two Material spellings shows `error-outline`. */
  function IconName(type_: string, name: string, component: Family): (r: string)
    ensures component != MaterialIcons || ToLower(type_) in MaterialAliases ==> r == name
    ensures component == MaterialIcons && ToLower(type_) !in MaterialAliases ==> r == FallbackName
  {
    if component == MaterialIcons && ToLower(type_) !in MaterialAliases then FallbackName else name
  }

  /** The props after `defaultProps` fill in what the caller left undefined. */
  datatype IconProps = IconProps(type_: string, name: string, size: Option<int>, color: Option<string>)

  /** What the wrapper renders: a glyph of a family, with name, size and colour. */
  datatype Rendered = Glyph(family: Family, glyphName: string, size: int, color: string) | Thrown(binding: string)

  const DefaultSize: int := 24
  const DefaultColor: string := "#000"

  /** `Icon(props)`. */
  function Render(props: IconProps): (r: Rendered)
    ensures props.size.None? && r.Glyph? ==> r.size == DefaultSize
    ensures props.color.None? && r.Glyph? ==> r.color == DefaultColor
    ensures props.size.Some? && r.Glyph? ==> r.size == props.size.value
    ensures props.color.Some? && r.Glyph? ==> r.color == props.color.value
    ensures r.Thrown? <==> GetIconComponent(props.type_).ReferenceError?
  {
    match GetIconComponent(props.type_)
    case ReferenceError(b) => Thrown(b)
    case Component(f) =>
      Glyph(f, IconName(props.type_, props.name, f), props.size.GetOr(DefaultSize), props.color.GetOr(DefaultColor))
  }

  /** A type that is no case label falls back to Material Icons and shows
      `error-outline`. */
  lemma UnknownTypeFallsBack(props: IconProps)
    requires ToLower(props.type_) !in KnownTypes
    ensures GetIconComponent(props.type_) == Component(MaterialIcons)
    ensures Render(props).Glyph? && Render(props).family == MaterialIcons
    ensures Render(props).glyphName == FallbackName
  {
  }

  /** A case label other than `lucide` and the two Material spellings names
      a family other than Material Icons. */
  lemma OtherLabelNotMaterial(lower: string)
    requires lower in KnownTypes && lower != "lucide" && lower !in MaterialAliases
    ensures ComponentFor(lower).Component? && ComponentFor(lower).family != MaterialIcons
  {
  }

  /** Every case label other than `lucide`, the Material aliases included,
      renders the requested glyph unchanged, and never with `error-outline`
      substituted. */
  lemma KnownTypeKeepsName(props: IconProps)
    requires ToLower(props.type_) in KnownTypes && ToLower(props.type_) != "lucide"
    ensures Render(props).Glyph? && Render(props).glyphName == props.name
  {
    var lower := ToLower(props.type_);
    if lower in MaterialAliases {
      Aliases(props.type_);
    } else {
      OtherLabelNotMaterial(lower);
    }
  }

  /** `lucide` is a case label of its own, so it is not the fallback: it
      reaches the undeclared `Lucide` binding and the render throws. */
  lemma LucideIsNotFallback(props: IconProps)
    requires ToLower(props.type_) == "lucide"
    ensures GetIconComponent(props.type_) == ReferenceError("Lucide")
    ensures GetIconComponent(props.type_) != Component(MaterialIcons)
    ensures Render(props) == Thrown("Lucide")
  {
  }
}
