/**
 * `SettingsView`: the settings page. It shows the current record (a selected colour option and the
 * auto-start toggle), and turns the user's choices back into the shared `AppSettings` object, which it
 * then saves. `_isInitializing` keeps the page from saving while it is itself setting its controls.
 */
module SettingsPage {
  import opened Wrappers
  import opened Text
  import opened Colors
  import opened SettingsStore
  import opened EoskApp

  /** The nine colour radio buttons. */
  datatype ColorOption =
    PurpleOption | BlueOption | GreenOption | OrangeOption | RedOption | PinkOption | IndigoOption | TealOption | LimeOption

  /** The `x:Name` of each radio button. */
  function OptionName(o: ColorOption): string {
    match o
    case PurpleOption => "PurpleColorOption"
    case BlueOption => "BlueColorOption"
    case GreenOption => "GreenColorOption"
    case OrangeOption => "OrangeColorOption"
    case RedOption => "RedColorOption"
    case PinkOption => "PinkColorOption"
    case IndigoOption => "IndigoColorOption"
    case TealOption => "TealColorOption"
    case LimeOption => "LimeColorOption"
  }

  /** The colour each option stands for. */
  function OptionColor(o: ColorOption): Color {
    match o
    case PurpleOption => Purple
    case BlueOption => Blue
    case GreenOption => Green
    case OrangeOption => Orange
    case RedOption => Red
    case PinkOption => DeepPink
    case IndigoOption => Indigo
    case TealOption => Teal
    case LimeOption => LimeGreen
  }

  /** `GetColorFromRadioButton`: the colour for a radio button's name; purple for any other name. */
  function ColorFromRadioButton(name: string): (c: Color)
    ensures OptionColor(OptionForColor(c)) == c
  {
    match name
    case "PurpleColorOption" => Purple
    case "BlueColorOption" => Blue
    case "GreenColorOption" => Green
    case "OrangeColorOption" => Orange
    case "RedColorOption" => Red
    case "PinkColorOption" => DeepPink
    case "IndigoColorOption" => Indigo
    case "TealColorOption" => Teal
    case "LimeColorOption" => LimeGreen
    case _ => Purple
  }

  /** Each of the nine buttons gives the colour its option stands for. */
  lemma RadioButtonColor(o: ColorOption)
    ensures ColorFromRadioButton(OptionName(o)) == OptionColor(o)
  {
  }

  /** The option a radio button's name belongs to, if it is one of the nine. */
  function OptionNamed(name: string): Option<ColorOption> {
    match name
    case "PurpleColorOption" => Some(PurpleOption)
    case "BlueColorOption" => Some(BlueOption)
    case "GreenColorOption" => Some(GreenOption)
    case "OrangeColorOption" => Some(OrangeOption)
    case "RedColorOption" => Some(RedOption)
    case "PinkColorOption" => Some(PinkOption)
    case "IndigoColorOption" => Some(IndigoOption)
    case "TealColorOption" => Some(TealOption)
    case "LimeColorOption" => Some(LimeOption)
    case _ => None
  }

  /** `OptionNamed` inverts `OptionName`, and finds nothing for any other name. */
  lemma OptionNamedInvertsName(o: ColorOption, name: string)
    ensures OptionNamed(OptionName(o)) == Some(o)
    ensures OptionNamed(name).Some? ==> OptionName(OptionNamed(name).value) == name
  {
  }

  /** A name that is none of the nine gives purple. */
  lemma UnknownRadioButtonIsPurple(name: string)
    requires forall o :: name != OptionName(o)
    ensures ColorFromRadioButton(name) == Purple
  {
    assert name != OptionName(PurpleOption) && name != OptionName(BlueOption) && name != OptionName(GreenOption);
    assert name != OptionName(OrangeOption) && name != OptionName(RedOption) && name != OptionName(PinkOption);
    assert name != OptionName(IndigoOption) && name != OptionName(TealOption) && name != OptionName(LimeOption);
  }

  /**
   * The option `RestoreColorSelection` checks for a colour, compared channel by channel: purple exactly for
   * a colour outside the eight other option colours, and otherwise the option standing for that colour.
   */
  function OptionForColor(c: Color): (o: ColorOption)
    ensures o == PurpleOption <==> c !in {Red, Green, Blue, Orange, DeepPink, Indigo, Teal, LimeGreen}
    ensures o != PurpleOption ==> OptionColor(o) == c
  {
    if c == Red then RedOption
    else if c == Green then GreenOption
    else if c == Blue then BlueOption
    else if c == Orange then OrangeOption
    else if c == DeepPink then PinkOption
    else if c == Indigo then IndigoOption
    else if c == Teal then TealOption
    else if c == LimeGreen then LimeOption
    else PurpleOption
  }

  /** Restoring the selection from the colour an option stands for checks that same option. */
  lemma RestoreSelectsChosenOption(o: ColorOption)
    ensures OptionForColor(ColorFromRadioButton(OptionName(o))) == o
  {
    RadioButtonColor(o);
    match o
    case PurpleOption =>
    case BlueOption =>
    case GreenOption =>
    case OrangeOption =>
    case RedOption =>
    case PinkOption =>
    case IndigoOption =>
    case TealOption =>
    case LimeOption =>
  }

  /** The `ThemeColor` string `UpdateCurrentSettings` stores: `#` and the colour's string without any `#`. */
  function ThemeColorText(c: Color): (s: string)
    ensures s == ToHexString(c)
    ensures s[0] == '#' && Count(s, '#') == 1
  {
    var s := "#" + Remove(ToHexString(c), '#');
    PrefixedRemoveHasSingleMark(ToHexString(c), '#');
    HexStringShape(c);
    s
  }

  /** `Color.ToString()` has its only `#` in front, so removing `#` and adding one back changes nothing. */
  lemma HexStringShape(c: Color)
    ensures "#" + Remove(ToHexString(c), '#') == ToHexString(c)
  {
    var h := ToHexString(c);
    forall i | 1 <= i < |h| ensures h[i] != '#' {
      assert IsHexDigit(h[i]);
    }
    SingleLeadingMark(h, '#');
  }

  /** A string whose only `c` is its first character is `c` followed by the string with `c` removed. */
  lemma SingleLeadingMark(h: string, c: char)
    requires |h| >= 1 && h[0] == c
    requires forall i :: 1 <= i < |h| ==> h[i] != c
    ensures [c] + Remove(h, c) == h
  {
    var t := h[1..];
    assert c !in t by {
      forall i | 0 <= i < |t| ensures t[i] != c {
        assert t[i] == h[i + 1];
      }
    }
    assert h == [c] + t;
    RemoveSplit([c], t, c);
    assert Remove([c], c) == [] by {
      assert [c][1..] == [];
    }
  }

  /**
   * The primary colours `ApplyThemeColor` sets: fixed black and white foregrounds, so for no colour is it the
   * palette `InitializeTheme` derives with the contrast rule.
   */
  function SettingsPrimary(c: Color): (p: Primary)
    ensures p.mid == c && p.light.a == 100 && p.light.(a := c.a) == c
    ensures p.lightForeground != p.midForeground
    ensures p != StartupPrimary(c)
  {
    Primary(WithAlpha(c, 100), Black, c, White)
  }

  /** The record a confirmed reset leaves: purple, no auto-start, volume 80, light theme. */
  function ResetRecord(r: Record): (q: Record)
    ensures PassesRepair(q)
    ensures q.enableSound == r.enableSound
  {
    r.(themeColor := Some(ToHexString(Purple)), autoStart := false, volume := 80, themeType := Some(LightTheme))
  }

  /** A reset does not restore what `CreateDefaultSettings` builds: colour and volume differ. */
  lemma ResetIsNotDefault(r: Record)
    ensures ResetRecord(r).themeColor != Default.themeColor
    ensures ResetRecord(r).volume != Default.volume
  {
    var p := ToHexString(Purple);
    assert p[1] == 'F';
    assert DefaultThemeColor[1] == '6';
  }

  class SettingsView {
    const app: App
    /** `_currentThemeColor`. */
    var currentThemeColor: Color
    /** `_currentSettings`: after a load, normally the very object the manager holds. */
    var currentSettings: AppSettings?
    var isInitializing: bool
    /** The checked colour options; the radio buttons form one group. */
    var checkedOptions: set<ColorOption>
    /** `AutoStartToggle.IsChecked`. */
    var autoStartToggle: Option<bool>
    var toggleHandlersRegistered: bool
    var loadedHandlerAttached: bool
    /** The colours `ThemeColorChanged` has been raised with. */
    var themeColorChanged: seq<Color>
    /** How often `RefreshSettings` has run. */
    ghost var refreshCount: nat

    /** The application's settings manager is set before any view exists. */
    ghost predicate Valid()
      reads this, app
    {
      app.settingsManager != null
    }

    constructor (app: App)
      ensures this.app == app && isInitializing && currentSettings == null && currentThemeColor == Purple
      ensures checkedOptions == {} && autoStartToggle == Some(false)
      ensures !toggleHandlersRegistered && loadedHandlerAttached && themeColorChanged == [] && refreshCount == 0
    {
      this.app := app;
      currentThemeColor := Purple;
      currentSettings := null;
      isInitializing := true;
      checkedOptions := {};
      autoStartToggle := Some(false);
      toggleHandlersRegistered := false;
      loadedHandlerAttached := true;
      themeColorChanged := [];
      refreshCount := 0;
    }

    /** What a load leaves on the page, given the manager's current record. */
    twostate predicate ShowsCurrentSettings()
      requires Valid()
      reads this, app, app.settingsManager, app.settingsManager.current, currentSettings
    {
      var m := app.settingsManager;
      var tc := m.current.themeColor;
      var c := ThemeColorOrPurple(tc, app.colorConverter);
      && currentThemeColor == c
      && checkedOptions == {OptionForColor(c)}
      && app.currentThemeColor == c && app.titleBarColor == Some(c)
      && app.theme == old(app.theme).(primary := Some(SettingsPrimary(c)))
      && currentSettings != null
      && (if IsNullOrEmpty(tc) || app.colorConverter(tc.value).Some? then currentSettings == m.current
          else fresh(currentSettings) && currentSettings.Value() == Unset)
      && autoStartToggle == Some(currentSettings.autoStart)
    }

    /** `ApplyThemeColor`: the palette's primary colours and the application's current colour. */
    method ApplyThemeColor(c: Color)
      modifies app`theme, app`currentThemeColor
      ensures app.theme == old(app.theme).(primary := Some(SettingsPrimary(c)))
      ensures app.currentThemeColor == c
    {
      app.theme := app.theme.(primary := Some(SettingsPrimary(c)));
      app.SetCurrentThemeColor(c);
    }

    /** `UpdateTitleBarColor`. */
    method UpdateTitleBarColor(c: Color)
      modifies app`titleBarColor
      ensures app.titleBarColor == Some(c)
    {
      app.titleBarColor := Some(c);
    }

    /**
     * `RestoreColorSelection`: check the option for the current colour. Its handlers are detached
     * meanwhile, so no `Checked` handler runs.
     */
    method RestoreColorSelection()
      modifies this`checkedOptions
      ensures checkedOptions == {OptionForColor(currentThemeColor)}
      ensures |checkedOptions| == 1
    {
      var o: ColorOption;
      if currentThemeColor == Red { o := RedOption; }
      else if currentThemeColor == Green { o := GreenOption; }
      else if currentThemeColor == Blue { o := BlueOption; }
      else if currentThemeColor == Orange { o := OrangeOption; }
      else if currentThemeColor == DeepPink { o := PinkOption; }
      else if currentThemeColor == Indigo { o := IndigoOption; }
      else if currentThemeColor == Teal { o := TealOption; }
      else if currentThemeColor == LimeGreen { o := LimeOption; }
      else { o := PurpleOption; }
      checkedOptions := {o};
    }

    /**
     * `RestoreToggleStates`. Setting the toggle raises `Toggle_Checked` when its handlers are attached;
     * every caller holds `_isInitializing`, so that handler returns at its guard.
     */
    method RestoreToggleStates()
      requires isInitializing
      modifies this`autoStartToggle
      ensures currentSettings != null ==> autoStartToggle == Some(currentSettings.autoStart)
      ensures currentSettings == null ==> autoStartToggle == old(autoStartToggle)
    {
      if currentSettings != null {
        autoStartToggle := Some(currentSettings.autoStart);
      }
    }

    /** `ApplySettingsToUI`; `ok` is false when `ColorConverter` throws, which happens before any change. */
    method ApplySettingsToUI() returns (ok: bool)
      requires isInitializing
      modifies this`currentThemeColor, this`checkedOptions, this`autoStartToggle
      modifies app`theme, app`currentThemeColor, app`titleBarColor
      ensures currentSettings == null ==> ok && unchanged(this, app)
      ensures currentSettings != null ==>
                var tc := currentSettings.themeColor;
                && (ok <==> IsNullOrEmpty(tc) || app.colorConverter(tc.value).Some?)
                && (!ok ==> unchanged(this, app))
                && (ok ==> var c := ThemeColorOrPurple(tc, app.colorConverter);
                           && currentThemeColor == c && checkedOptions == {OptionForColor(c)}
                           && app.currentThemeColor == c && app.titleBarColor == Some(c)
                           && app.theme == old(app.theme).(primary := Some(SettingsPrimary(c)))
                           && autoStartToggle == Some(currentSettings.autoStart))
    {
      if currentSettings == null {
        return true;
      }
      if !IsNullOrEmpty(currentSettings.themeColor) {
        var parsed := app.colorConverter(currentSettings.themeColor.value);
        if parsed.None? {
          return false;
        }
        var color := parsed.value;
        currentThemeColor := color;
        UpdateTitleBarColor(color);
        ApplyThemeColor(color);
      } else {
        currentThemeColor := Purple;
        UpdateTitleBarColor(Purple);
        ApplyThemeColor(Purple);
      }
      RestoreColorSelection();
      RestoreToggleStates();
      ok := true;
    }

    /**
     * `LoadCurrentSettings`: take the manager's object and show it. If its colour cannot be parsed the page
     * falls back to a new, empty `AppSettings` shown in purple.
     */
    method LoadCurrentSettings()
      requires Valid() && isInitializing
      modifies this`currentSettings, this`currentThemeColor, this`checkedOptions, this`autoStartToggle
      modifies app`theme, app`currentThemeColor, app`titleBarColor
      ensures ShowsCurrentSettings()
    {
      currentSettings := app.settingsManager.GetCurrentSettings();
      var ok := ApplySettingsToUI();
      if !ok {
        currentSettings := new AppSettings();
        currentThemeColor := Purple;
        ok := ApplySettingsToUI();
      }
    }

    /** `SettingsView_Loaded`: attach the toggle handlers and load under the guard, once. */
    method OnLoaded()
      requires Valid()
      modifies this, app`theme, app`currentThemeColor, app`titleBarColor
      ensures !old(loadedHandlerAttached) ==> unchanged(this, app)
      ensures old(loadedHandlerAttached) ==>
                && ShowsCurrentSettings() && !isInitializing && toggleHandlersRegistered && !loadedHandlerAttached
                && themeColorChanged == old(themeColorChanged)
    {
      if !loadedHandlerAttached {
        return;
      }
      isInitializing := true;
      toggleHandlersRegistered := true;
      LoadCurrentSettings();
      isInitializing := false;
      loadedHandlerAttached := false;
    }

    /** `RefreshSettings`: reload under the guard. */
    method RefreshSettings()
      requires Valid()
      modifies this, app`theme, app`currentThemeColor, app`titleBarColor
      ensures ShowsCurrentSettings() && !isInitializing
      ensures toggleHandlersRegistered == old(toggleHandlersRegistered)
      ensures loadedHandlerAttached == old(loadedHandlerAttached) && themeColorChanged == old(themeColorChanged)
      ensures refreshCount == old(refreshCount) + 1
    {
      isInitializing := true;
      LoadCurrentSettings();
      isInitializing := false;
      refreshCount := refreshCount + 1;
    }

    /**
     * `UpdateCurrentSettings`: write the current colour and, when the toggle has a value, the auto-start
     * flag into the page's settings object (the manager's object if the page had none).
     */
    method UpdateCurrentSettings()
      requires Valid()
      modifies this`currentSettings, currentSettings, app.settingsManager.current
      ensures currentSettings == if old(currentSettings) != null then old(currentSettings) else app.settingsManager.current
      ensures var s := currentSettings;
                && s.themeColor == Some(ThemeColorText(currentThemeColor))
                && s.autoStart == (if autoStartToggle.Some? then autoStartToggle.value else old(s.autoStart))
                && s.enableSound == old(s.enableSound) && s.volume == old(s.volume) && s.themeType == old(s.themeType)
      ensures currentSettings != app.settingsManager.current ==> unchanged(app.settingsManager.current)
    {
      if currentSettings == null {
        currentSettings := app.settingsManager.GetCurrentSettings();
      }
      currentSettings.themeColor := Some("#" + Remove(ToHexString(currentThemeColor), '#'));
      if autoStartToggle.Some? {
        currentSettings.autoStart := autoStartToggle.value;
      }
    }

    /**
     * What `UpdateCurrentSettings` followed by `SaveSettings(_currentSettings)` leaves: the page's settings
     * object (the manager's when it had none) holds the current colour and the toggle, and is on disk.
     */
    twostate predicate SavedPageSettings(writeOk: bool)
      requires Valid() && old(app.settingsManager) == app.settingsManager
      reads this, app, app.settingsManager, currentSettings
    {
      var m := app.settingsManager;
      && currentSettings == (if old(currentSettings) != null then old(currentSettings) else old(m.current))
      && var s := currentSettings;
      && s.themeColor == Some(ToHexString(currentThemeColor))
      && s.autoStart == (if autoStartToggle.Some? then autoStartToggle.value else old(s.autoStart))
      && s.enableSound == old(s.enableSound) && s.volume == old(s.volume) && s.themeType == old(s.themeType)
      && m.disk == Written(old(m.disk), Some(s.Value()), m.codec, writeOk)
    }

    /** The shared tail of both handlers: update the settings object from the page, then save it. */
    method SavePageSettings(writeOk: bool)
      requires Valid()
      modifies this`currentSettings, app.settingsManager`disk, app.settingsManager.current, currentSettings
      ensures SavedPageSettings(writeOk)
      ensures currentSettings != app.settingsManager.current ==> unchanged(app.settingsManager.current)
    {
      UpdateCurrentSettings();
      app.settingsManager.SaveSettings(currentSettings, writeOk);
    }

    /** Applying a colour: page colour, palette, application colour and title bar. */
    method ShowColor(color: Color)
      modifies this`currentThemeColor, app`theme, app`currentThemeColor, app`titleBarColor
      ensures currentThemeColor == color && app.currentThemeColor == color && app.titleBarColor == Some(color)
      ensures app.theme == old(app.theme).(primary := Some(SettingsPrimary(color)))
    {
      currentThemeColor := color;
      ApplyThemeColor(color);
      UpdateTitleBarColor(color);
    }

    /**
     * A click on a colour radio button: the button becomes the group's one checked option, then
     * `ColorOption_Checked` runs. The handler is ignored while initialising or for a sender that is not a
     * radio button; otherwise it applies, saves and announces the button's colour.
     */
    method ColorOptionChecked(sender: Option<string>, writeOk: bool)
      requires Valid()
      modifies this, app`theme, app`currentThemeColor, app`titleBarColor
      modifies app.settingsManager`disk, app.settingsManager.current, currentSettings
      ensures old(isInitializing) || sender.None? ==>
                unchanged(this, app, app.settingsManager, app.settingsManager.current) &&
                (currentSettings != null ==> unchanged(currentSettings))
      ensures !old(isInitializing) && sender.Some? ==>
                var color := ColorFromRadioButton(sender.value);
                && currentThemeColor == color && app.currentThemeColor == color && app.titleBarColor == Some(color)
                && app.theme == old(app.theme).(primary := Some(SettingsPrimary(color)))
                && SavedPageSettings(writeOk)
                && themeColorChanged == old(themeColorChanged) + [color]
                && isInitializing == old(isInitializing) && autoStartToggle == old(autoStartToggle)
                && checkedOptions == match OptionNamed(sender.value)
                                     case Some(o) => {o}
                                     case None => old(checkedOptions)
    {
      if isInitializing || sender.None? {
        return;
      }
      var clicked := OptionNamed(sender.value);
      if clicked.Some? {
        checkedOptions := {clicked.value};
      }
      var color := ColorFromRadioButton(sender.value);
      ShowColor(color);
      SavePageSettings(writeOk);
      themeColorChanged := themeColorChanged + [color];
    }

    /** `Toggle_Checked`: ignored while initialising; otherwise update the settings object and save it. */
    method ToggleChecked(writeOk: bool)
      requires Valid()
      modifies this`currentSettings, app.settingsManager`disk, app.settingsManager.current, currentSettings
      ensures old(isInitializing) ==>
                unchanged(this, app.settingsManager, app.settingsManager.current) &&
                (currentSettings != null ==> unchanged(currentSettings))
      ensures !old(isInitializing) ==> SavedPageSettings(writeOk)
    {
      if isInitializing {
        return;
      }
      SavePageSettings(writeOk);
    }

    /** The field assignments of a confirmed reset. */
    static method ResetFields(s: AppSettings)
      modifies s
      ensures s.Value() == ResetRecord(old(s.Value()))
    {
      s.themeColor := Some(ToHexString(Purple));
      s.autoStart := false;
      s.volume := 80;
      s.themeType := Some(LightTheme);
    }

    /** `ResetSettingsButton_Click`; `confirmed` is the answer to the confirmation box. */
    method ResetSettingsButtonClick(confirmed: bool, writeOk: bool)
      requires Valid()
      modifies this, app`theme, app`currentThemeColor, app`titleBarColor
      modifies app.settingsManager`disk, currentSettings
      ensures !confirmed ==>
                unchanged(this, app, app.settingsManager) && (currentSettings != null ==> unchanged(currentSettings))
      ensures confirmed ==>
                var m := app.settingsManager;
                && currentThemeColor == Purple && checkedOptions == {PurpleOption}
                && app.currentThemeColor == Purple && app.titleBarColor == Some(Purple)
                && app.theme == old(app.theme).(primary := Some(SettingsPrimary(Purple)))
                && currentSettings != null
                && (old(currentSettings) != null ==>
                      currentSettings == old(currentSettings) && currentSettings.Value() == ResetRecord(old(currentSettings.Value())))
                && (old(currentSettings) == null ==> fresh(currentSettings) && currentSettings.Value() == ResetRecord(Unset))
                && m.disk == Written(old(m.disk), Some(currentSettings.Value()), m.codec, writeOk)
                && themeColorChanged == old(themeColorChanged) + [Purple]
                && isInitializing == old(isInitializing) && autoStartToggle == old(autoStartToggle)
    {
      if !confirmed {
        return;
      }
      currentThemeColor := Purple;
      RestoreColorSelection();
      ApplyThemeColor(currentThemeColor);
      UpdateTitleBarColor(currentThemeColor);
      if currentSettings == null {
        currentSettings := new AppSettings();
      }
      ResetFields(currentSettings);
      app.settingsManager.SaveSettings(currentSettings, writeOk);
      themeColorChanged := themeColorChanged + [currentThemeColor];
    }
  }
}
