/**
 * `App`: the application object. It holds the settings manager, the current theme colour, and the two
 * application resources the core writes: the Material Design theme and the title-bar brush.
 * `ColorConverter.ConvertFromString` is the function `colorConverter` (`None` when it throws).
 */
module EoskApp {
  import opened Wrappers
  import opened Text
  import opened Colors
  import opened SettingsStore

  datatype BaseTheme = LightBase | DarkBase

  /** `PrimaryLight` and `PrimaryMid` of the palette, each a colour with its foreground colour. */
  datatype Primary = Primary(light: Color, lightForeground: Color, mid: Color, midForeground: Color)

  datatype Theme = Theme(baseTheme: BaseTheme, primary: Option<Primary>)

  /** The base theme is dark exactly for the theme type `Dark`. */
  function BaseThemeFor(themeType: Option<string>): (t: BaseTheme)
    ensures t == DarkBase <==> themeType == Some(DarkTheme)
  {
    if themeType == Some(DarkTheme) then DarkBase else LightBase
  }

  /** Text on the theme colour is black on light colours (channel sum above 382) and white otherwise. */
  function ContrastForeground(c: Color): (fg: Color)
    ensures fg == Black || fg == White
    ensures fg == Black <==> c.r + c.g + c.b > 382
  {
    if c.r + c.g + c.b > 382 then Black else White
  }

  /** A colour at least as bright in every channel never needs white text where the darker one needs black. */
  lemma ContrastMonotone(c: Color, d: Color)
    requires c.r <= d.r && c.g <= d.g && c.b <= d.b
    requires ContrastForeground(c) == Black
    ensures ContrastForeground(d) == Black
  {
  }

  /**
   * The primary colours `InitializeTheme` derives from the theme colour: the colour at alpha 100 and the
   * colour itself, both with the same foreground, which is black exactly for a light colour.
   */
  function StartupPrimary(c: Color): (p: Primary)
    ensures p.mid == c && p.light.a == 100 && p.light.(a := c.a) == c
    ensures p.lightForeground == p.midForeground
    ensures p.midForeground == Black <==> c.r + c.g + c.b > 382
  {
    var fg := ContrastForeground(c);
    Primary(WithAlpha(c, 100), fg, c, fg)
  }

  /** The colour a stored `ThemeColor` parses to: none when it is null, empty or rejected by the converter. */
  function ParsedThemeColor(themeColor: Option<string>, convert: string -> Option<Color>): (c: Option<Color>)
    ensures IsNullOrEmpty(themeColor) ==> c.None?
    ensures !IsNullOrEmpty(themeColor) ==> c == convert(themeColor.value)
  {
    if IsNullOrEmpty(themeColor) then None else convert(themeColor.value)
  }

  /** The title-bar colour for a stored `ThemeColor`: purple when it is empty or cannot be parsed. */
  function ThemeColorOrPurple(themeColor: Option<string>, convert: string -> Option<Color>): (c: Color)
    ensures ParsedThemeColor(themeColor, convert).Some? ==> c == ParsedThemeColor(themeColor, convert).value
    ensures ParsedThemeColor(themeColor, convert).None? ==> c == Purple
  {
    ParsedThemeColor(themeColor, convert).GetOr(Purple)
  }

  class App {
    const colorConverter: string -> Option<Color>
    var settingsManager: SettingsManager?
    var currentThemeColor: Color
    var theme: Theme
    /** The colour behind the `TitleBarBackground` resource; `None` until it is first set. */
    var titleBarColor: Option<Color>

    /** The application before `OnStartup`; the theme is the one the markup bundles. */
    constructor (colorConverter: string -> Option<Color>, bundled: Theme)
      ensures this.colorConverter == colorConverter && theme == bundled
      ensures settingsManager == null && currentThemeColor == Purple && titleBarColor.None?
    {
      this.colorConverter := colorConverter;
      settingsManager := null;
      currentThemeColor := Purple;
      theme := bundled;
      titleBarColor := None;
    }

    method GetCurrentThemeColor() returns (c: Color)
      ensures c == currentThemeColor
    {
      c := currentThemeColor;
    }

    method SetCurrentThemeColor(c: Color)
      modifies this`currentThemeColor
      ensures currentThemeColor == c
    {
      currentThemeColor := c;
    }

    /** `InitializeTitleBarColor`: the title-bar brush resource is rebuilt from `c`. */
    method InitializeTitleBarColor(c: Color)
      modifies this`titleBarColor
      ensures titleBarColor == Some(c)
    {
      titleBarColor := Some(c);
    }

    /**
     * `InitializeTheme`: the base theme follows `ThemeType`; a theme colour that parses becomes the current
     * colour, the primary palette and the title bar; otherwise the title bar is purple and the current
     * colour and the palette's primary colours stay as they were.
     */
    method InitializeTheme(settings: AppSettings)
      modifies this`currentThemeColor, this`theme, this`titleBarColor
      ensures theme.baseTheme == BaseThemeFor(settings.themeType)
      ensures titleBarColor == Some(ThemeColorOrPurple(settings.themeColor, colorConverter))
      ensures match ParsedThemeColor(settings.themeColor, colorConverter)
              case Some(c) => currentThemeColor == c && theme.primary == Some(StartupPrimary(c))
              case None => currentThemeColor == old(currentThemeColor) && theme.primary == old(theme.primary)
    {
      var next := theme.(baseTheme := if settings.themeType == Some(DarkTheme) then DarkBase else LightBase);
      if !IsNullOrEmpty(settings.themeColor) {
        var parsed := colorConverter(settings.themeColor.value);
        if parsed.Some? {
          var color := parsed.value;
          currentThemeColor := color;
          var fg := if color.r + color.g + color.b > 382 then Black else White;
          next := next.(primary := Some(Primary(WithAlpha(color, 100), fg, color, fg)));
          InitializeTitleBarColor(color);
        } else {
          InitializeTitleBarColor(Purple);
        }
      } else {
        InitializeTitleBarColor(Purple);
      }
      theme := next;
    }
  }
}
