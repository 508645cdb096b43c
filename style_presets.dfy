/**
 * Style presets of the profile builder's blocks: whether a custom background colour
 * is light, the inline style and text classes of a custom-coloured block, the class
 * set of each preset, and the block types that keep their own styling.
 *
 * `isLightColor` compares the floating-point value `(0.299 r + 0.587 g + 0.114 b) / 255`
 * with 0.5; here the comparison is made exactly on integers,
 * `299 r + 587 g + 114 b > 127500`. The two agree except on colours whose weighted sum
 * is exactly 127500, where rounding decides the floating-point answer.
 */
module StylePresets {
  import opened Wrappers
  import opened Strings
  import opened ProfileTemplates

  datatype StylePreset = Clean | Cream | Glass | Primary | Dark | Custom

  /** The style fields of a block; `customBgColor` is "#rrggbb" or
      "gradient:<from>:<to>". */
  datatype StyledBlock = StyledBlock(stylePreset: Option<StylePreset>,
                                     customBgColor: Option<string>,
                                     customTextColor: Option<string>)

  const GradientPrefix: string := "gradient:"

  // ---------------------------------------------------------------------------
  // isLightColor
  // ---------------------------------------------------------------------------

  function HexDigit(c: char): Option<nat> {
    if '0' <= c <= '9' then Some(c as int - '0' as int)
    else if 'a' <= c <= 'f' then Some(c as int - 'a' as int + 10)
    else if 'A' <= c <= 'F' then Some(c as int - 'A' as int + 10)
    else None
  }

  /** The length of the leading run of hexadecimal digits. */
  function HexRun(s: string): (n: nat)
    ensures n <= |s|
  {
    if s == [] || HexDigit(s[0]).None? then 0 else 1 + HexRun(s[1..])
  }

  /** The value of a string of hexadecimal digits. */
  function HexValue(s: string): nat
    decreases |s|
  {
    if s == [] then 0
    else
      var d := HexDigit(s[|s| - 1]);
      HexValue(s[..|s| - 1]) * 16 + (if d.Some? then d.value else 0)
  }

  /** `parseInt(s, 16)` on a string without leading blanks or sign: the value of the
      leading hexadecimal digits, NaN (None) when there are none. */
  function ParseHex(s: string): Option<nat> {
    if HexRun(s) == 0 then None else Some(HexValue(s[..HexRun(s)]))
  }

  /** `s.substring(a, b)` for `0 <= a <= b`: both ends are clamped to the length. */
  function Substring(s: string, a: nat, b: nat): string
    requires a <= b
  {
    var hi := if b < |s| then b else |s|;
    var lo := if a < hi then a else hi;
    s[lo..hi]
  }

  /** `s.replace('#', '')`: only the first `#` is removed. */
  function RemoveFirstHash(s: string): (r: string)
    ensures '#' !in s ==> r == s
    ensures s != [] && s[0] == '#' ==> r == s[1..]
  {
    if s == [] then []
    else if s[0] == '#' then s[1..]
    else [s[0]] + RemoveFirstHash(s[1..])
  }

  lemma GradientSplit(s: string)
    requires StartsWith(s, GradientPrefix)
    ensures |Split(s, ':')| >= 2
    ensures Split(s, ':') == ["gradient"] + Split(s[|GradientPrefix|..], ':')
  {
    assert s == "gradient" + [':'] + s[|GradientPrefix|..];
    SplitAfterPiece("gradient", ':', s[|GradientPrefix|..]);
  }

  /** The colour `isLightColor` reads: the first colour of a gradient, else the value. */
  function ColorOf(hex: string): string {
    if StartsWith(hex, GradientPrefix) then
      GradientSplit(hex);
      Split(hex, ':')[1]
    else hex
  }

  /** The luminance test, exactly, on integers. */
  predicate LightRgb(r: int, g: int, b: int) {
    299 * r + 587 * g + 114 * b > 127500
  }

  /** `isLightColor`: a channel that does not parse makes the luminance NaN, and NaN is
      not greater than 0.5. */
  function IsLightColor(hex: string): bool {
    LightChannels(RemoveFirstHash(ColorOf(hex)))
  }

  /** The channel parsing and luminance test of `isLightColor`, after the `#` is gone. */
  function LightChannels(h: string): bool {
    var r := ParseHex(Substring(h, 0, 2));
    var g := ParseHex(Substring(h, 2, 4));
    var b := ParseHex(Substring(h, 4, 6));
    r.Some? && g.Some? && b.Some? && LightRgb(r.value, g.value, b.value)
  }

  /** A lower-case hexadecimal digit. */
  function HexChar(n: nat): char
    requires n < 16
  {
    if n < 10 then ('0' as int + n) as char else ('a' as int + n - 10) as char
  }

  /** A channel as two lower-case hexadecimal digits. */
  function Hex2(n: nat): string
    requires n < 256
  {
    [HexChar(n / 16), HexChar(n % 16)]
  }

  lemma HexCharDigit(k: nat)
    requires k < 16
    ensures HexDigit(HexChar(k)) == Some(k)
  {
  }

  lemma ParseHex2(n: nat)
    requires n < 256
    ensures ParseHex(Hex2(n)) == Some(n)
  {
    var s := Hex2(n);
    HexCharDigit(n / 16);
    HexCharDigit(n % 16);
    assert s[1..][1..] == [];
    assert HexRun(s[1..]) == 1;
    assert HexRun(s) == 2;
    assert s[..2] == s;
    assert s[..1] == [HexChar(n / 16)];
    assert s[..1][..0] == [];
    assert HexValue(s[..1]) == n / 16;
    assert HexValue(s) == (n / 16) * 16 + n % 16;
  }

  /** Six hexadecimal digits pass the test exactly when their channels do. */
  lemma LightChannelsOfRgb(r: nat, g: nat, b: nat)
    requires r < 256 && g < 256 && b < 256
    ensures LightChannels(Hex2(r) + Hex2(g) + Hex2(b)) == LightRgb(r, g, b)
  {
    var h := Hex2(r) + Hex2(g) + Hex2(b);
    assert Substring(h, 0, 2) == Hex2(r);
    assert Substring(h, 2, 4) == Hex2(g);
    assert Substring(h, 4, 6) == Hex2(b);
    ParseHex2(r);
    ParseHex2(g);
    ParseHex2(b);
  }

  /** "#rrggbb" is light exactly when its channels pass the luminance test; so is
      "rrggbb" without the hash. */
  lemma IsLightColorOfRgb(r: nat, g: nat, b: nat)
    requires r < 256 && g < 256 && b < 256
    ensures IsLightColor("#" + Hex2(r) + Hex2(g) + Hex2(b)) == LightRgb(r, g, b)
    ensures IsLightColor(Hex2(r) + Hex2(g) + Hex2(b)) == LightRgb(r, g, b)
  {
    var h := Hex2(r) + Hex2(g) + Hex2(b);
    var hh := "#" + Hex2(r) + Hex2(g) + Hex2(b);
    assert hh == "#" + h;
    assert hh[0] == '#' && hh[1..] == h;
    assert !StartsWith(hh, GradientPrefix) by {
      assert hh[0] != GradientPrefix[0];
    }
    assert !StartsWith(h, GradientPrefix) by {
      assert h[0] != GradientPrefix[0];
    }
    assert '#' !in h by {
      forall i | 0 <= i < |h| ensures h[i] != '#' {
        assert h[i] in Hex2(r) + Hex2(g) + Hex2(b);
      }
    }
    LightChannelsOfRgb(r, g, b);
  }

  lemma ColorOfGradient(from: string, to: string)
    requires ':' !in from
    ensures ColorOf(GradientPrefix + from + ":" + to) == from
    ensures ColorOf(GradientPrefix + from) == from
    ensures ColorOf(from) == from
  {
    var s := GradientPrefix + from + ":" + to;
    var t := GradientPrefix + from;
    assert StartsWith(s, GradientPrefix) && StartsWith(t, GradientPrefix);
    assert s[|GradientPrefix|..] == from + [':'] + to;
    assert t[|GradientPrefix|..] == from;
    GradientSplit(s);
    GradientSplit(t);
    SplitAfterPiece(from, ':', to);
    SplitNoSeparator(from, ':');
    if |from| >= |GradientPrefix| {
      assert from[8] in from;
      assert GradientPrefix[8] == ':';
    }
  }

  /** A gradient is as light as its first colour. */
  lemma IsLightColorOfGradient(from: string, to: string)
    requires ':' !in from
    ensures IsLightColor(GradientPrefix + from + ":" + to) == IsLightColor(from)
    ensures IsLightColor(GradientPrefix + from) == IsLightColor(from)
  {
    ColorOfGradient(from, to);
  }

  /** Black is not light. */
  lemma BlackIsNotLight()
    ensures !IsLightColor("#000000")
  {
    IsLightColorOfRgb(0, 0, 0);
    assert Hex2(0) == "00";
    assert "#" + Hex2(0) + Hex2(0) + Hex2(0) == "#000000";
  }

  // ---------------------------------------------------------------------------
  // Custom colours
  // ---------------------------------------------------------------------------

  /** The custom background in use: the block is custom and its colour is set and not
      empty (`!block.customBgColor` is false). */
  function CustomBackground(block: StyledBlock): Option<string> {
    if block.stylePreset == Some(Custom) && block.customBgColor.Some? && block.customBgColor.value != ""
    then block.customBgColor
    else None
  }

  datatype InlineStyle = NoStyle | Background(background: string) | BackgroundColor(color: string)

  /** `linear-gradient(135deg, ${from}, ${to})`; a missing part prints as "undefined". */
  function LinearGradient(pieces: seq<string>): string {
    var from := if |pieces| > 1 then pieces[1] else "undefined";
    var to := if |pieces| > 2 then pieces[2] else "undefined";
    "linear-gradient(135deg, " + from + ", " + to + ")"
  }

  /** `getCustomColorStyles`. */
  function CustomColorStyles(block: StyledBlock): (r: InlineStyle)
    ensures r == NoStyle <==> CustomBackground(block).None?
    ensures r.Background? <==>
      CustomBackground(block).Some? && StartsWith(CustomBackground(block).value, GradientPrefix)
    ensures r.BackgroundColor? ==> r.color == CustomBackground(block).value
  {
    var bg := CustomBackground(block);
    if bg.None? then NoStyle
    else if StartsWith(bg.value, GradientPrefix) then Background(LinearGradient(Split(bg.value, ':')))
    else BackgroundColor(bg.value)
  }

  /** A gradient "gradient:<from>:<to>" is drawn from `from` to `to`. */
  lemma GradientStyle(preset: Option<StylePreset>, from: string, to: string, text: Option<string>)
    requires ':' !in from && ':' !in to
    ensures CustomColorStyles(StyledBlock(Some(Custom), Some(GradientPrefix + from + ":" + to), text))
      == Background("linear-gradient(135deg, " + from + ", " + to + ")")
  {
    var s := GradientPrefix + from + ":" + to;
    assert s[|GradientPrefix|..] == from + [':'] + to;
    GradientSplit(s);
    SplitAfterPiece(from, ':', to);
    SplitNoSeparator(to, ':');
  }

  /** `shouldUseLightText`. */
  function ShouldUseLightText(block: StyledBlock): bool {
    var bg := CustomBackground(block);
    if bg.None? then false
    else if block.customTextColor == Some("light") then true
    else if block.customTextColor == Some("dark") then false
    else !IsLightColor(bg.value)
  }

  /** Light text only on a custom background; an explicit choice wins; otherwise light
      text goes on a background that is not light. */
  lemma ShouldUseLightTextSpec(block: StyledBlock)
    ensures CustomBackground(block).None? ==> !ShouldUseLightText(block)
    ensures CustomBackground(block).Some? && block.customTextColor == Some("light")
            ==> ShouldUseLightText(block)
    ensures CustomBackground(block).Some? && block.customTextColor == Some("dark")
            ==> !ShouldUseLightText(block)
    ensures CustomBackground(block).Some? && block.customTextColor != Some("light")
            && block.customTextColor != Some("dark")
            ==> ShouldUseLightText(block) == !IsLightColor(CustomBackground(block).value)
  {
  }

  datatype TextClasses = TextClasses(text: string, heading: string, subtext: string)

  const WhiteText: TextClasses := TextClasses("text-white/90", "text-white", "text-white/70")
  const DeepText: TextClasses := TextClasses("text-deep-700", "text-deep-900", "text-surface-500")

  /** `getCustomTextClasses`. */
  function CustomTextClasses(block: StyledBlock): (r: TextClasses)
    ensures r == WhiteText <==> ShouldUseLightText(block)
    ensures r == DeepText <==> !ShouldUseLightText(block)
  {
    if ShouldUseLightText(block) then WhiteText else DeepText
  }

  // ---------------------------------------------------------------------------
  // Presets
  // ---------------------------------------------------------------------------

  datatype PresetClasses = PresetClasses(container: string, text: string, heading: string,
                                         subtext: string, border: string, isDark: bool)

  const CleanClasses: PresetClasses := PresetClasses(
    "bg-white dark:bg-deep-900", "text-deep-700 dark:text-surface-200",
    "text-deep-900 dark:text-surface-50", "text-surface-500 dark:text-surface-400",
    "border-surface-200 dark:border-deep-700", false)

  /** `getStylePresetClasses`; an absent preset is 'clean'. */
  function StylePresetClasses(preset: Option<StylePreset>): PresetClasses {
    ClassesOf(preset.GetOr(Clean))
  }

  const CreamClasses: PresetClasses := CleanClasses.(container := "bg-surface-50 dark:bg-deep-800")

  const GlassClasses: PresetClasses := CleanClasses.(
    container := "bg-white/50 dark:bg-deep-900/50 backdrop-blur-lg",
    border := "border-white/30 dark:border-deep-600/30")

  const PrimaryClasses: PresetClasses := PresetClasses(
    "bg-gradient-to-br from-primary-600 to-primary-700 dark:from-primary-700 dark:to-primary-800",
    "text-white/90", "text-white", "text-white/70", "border-primary-500/30", true)

  const DarkClasses: PresetClasses := PresetClasses(
    "bg-deep-900 dark:bg-deep-950", "text-surface-200", "text-white", "text-surface-400",
    "border-deep-700 dark:border-deep-600", true)

  const CustomClasses: PresetClasses := PresetClasses("", "", "", "", "border-transparent", false)

  function ClassesOf(preset: StylePreset): PresetClasses {
    match preset
    case Clean => CleanClasses
    case Cream => CreamClasses
    case Glass => GlassClasses
    case Primary => PrimaryClasses
    case Dark => DarkClasses
    case Custom => CustomClasses
  }

  /** Only the primary and dark presets are dark. */
  lemma StylePresetIsDark(preset: Option<StylePreset>)
    ensures StylePresetClasses(preset).isDark <==> preset == Some(Primary) || preset == Some(Dark)
  {
    match preset.GetOr(Clean)
    case Clean =>
    case Cream =>
    case Glass =>
    case Primary =>
    case Dark =>
    case Custom =>
  }

  /** Clean, cream and glass share their text classes; custom leaves the colours to the
      inline style. */
  lemma StylePresetText(preset: Option<StylePreset>)
    ensures preset.GetOr(Clean) in {Clean, Cream, Glass} ==>
      var c := StylePresetClasses(preset);
      c.text == CleanClasses.text && c.heading == CleanClasses.heading && c.subtext == CleanClasses.subtext
    ensures preset == Some(Custom) ==>
      StylePresetClasses(preset).container == "" && StylePresetClasses(preset).text == ""
  {
    match preset
    case None =>
    case Some(Clean) =>
    case Some(Cream) =>
    case Some(Glass) =>
    case Some(Primary) =>
    case Some(Dark) =>
    case Some(Custom) =>
  }

  // ---------------------------------------------------------------------------
  // Inherent styling
  // ---------------------------------------------------------------------------

  const BlocksWithInherentStyling: seq<string> := ["STATS", "MAP", "VIDEO"]

  /** `hasInherentStyling`: `blocksWithInherentStyling.includes(blockType)`. */
  function HasInherentStyling(blockType: string): bool {
    blockType in BlocksWithInherentStyling
  }

  /** The enum value of a block type, as stored. */
  function TypeName(k: BlockType): string {
    match k
    case Text => "TEXT"
    case Media => "MEDIA"
    case Video => "VIDEO"
    case Contact => "CONTACT"
    case Logo => "LOGO"
    case Map => "MAP"
    case Stats => "STATS"
    case Testimonials => "TESTIMONIALS"
    case Certifications => "CERTIFICATIONS"
    case Social => "SOCIAL"
    case Collaborators => "COLLABORATORS"
  }

  /** Among block types, exactly statistics, map and video keep their own styling. */
  lemma HasInherentStylingSpec(k: BlockType)
    ensures HasInherentStyling(TypeName(k)) <==> k == Stats || k == Map || k == Video
  {
  }
}
