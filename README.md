# EOSK core, modelled in Dafny

EOSK is a WPF desktop application: a shell window with an icon sidebar, a settings page with nine
theme-colour radio buttons and an auto-start toggle, a virtual keyboard control, and a settings store
that persists a small record as JSON next to the executable. This project models the logic behind those
pieces and proves what it promises:

- **Settings store** (`SettingsStore`, settings_store.dfy). `AppSettings` is a class whose objects the
  manager shares with its callers, who change them in place. `SettingsManager` holds the current object
  and the settings file (`disk`, an ordinary field because `LoadSettings` branches on it). Load falls back
  to the default record and writes it back whenever the file gives no record. Repair fixes exactly the
  invalid fields. Save/load round-trips under a `Lawful` codec hypothesis.
- **Resource images** (`ResourceImages`): validation of a `res://` path (prefix compared ignoring ASCII
  case), the embedded-resource name, and the three sources tried in order by `LoadImageFromResource`.
- **Sidebar item** (`Sidebar`): text visibility, the icon dispatch by prefix, the active visuals, and the
  mouse handlers. Dependency-property callbacks run only when the value changes, as in WPF.
- **Application** (`EoskApp`, `Startup`): the base theme, the `R+G+B > 382` contrast rule, the current
  theme colour, the title-bar colour, and `OnStartup`'s order (manager, load, theme, window).
- **Settings page** (`SettingsPage`): the name to colour and colour to option maps and their round trip,
  the `_isInitializing` guard, `UpdateCurrentSettings`, and the reset rule.
- **Shell** (`Shell`): four sidebar items with at most one active, the settings page created once and
  refreshed on later visits, a new page per visit otherwise, and the close path's end state.
- **Virtual keyboard** (`Keyboard`): key selection from a button tag, the highlight refresh over the grid's
  buttons, and the three visibility converters.

The calls into foreign code are parameters or constant function fields:
- Newtonsoft's serialiser and parser are the two functions of `Codec`.
- `ColorConverter.ConvertFromString` is `App.colorConverter`; `None` means it throws.
- `Enum.TryParse<Key>` is `VirtualKeyboard.parseKey`.
- An image load is `env: ImageSource -> Attempt`.
- A file write that throws is `writeOk == false`.
- The confirmation box of the reset is the `confirmed` argument.
- The storyboard branches of the close animation are an `AnimationPath`.

`null` strings and references are `Option` values or nullable class types.

Where the code differs from its own comments, the model follows the code:
- A confirmed reset writes `#FF800080` (what purple's `ToString()` gives) and volume 80, which is not the
  record `CreateDefaultSettings` builds; `ResetIsNotDefault` states the difference.
- The settings page's `ApplyThemeColor` uses fixed black and white foregrounds; only `InitializeTheme`
  applies the contrast rule.
- The mouse-enter handler passes `true` to `AnimateBackgroundColor`, so a hovered item shows the active
  gradient, and `HoverBackgroundBrush` is never used.

## Model

| member | source | states |
|---|---|---|
| Text.Replace | EOSK/Services/ResourceImageLoader.cs:37 | the result has the input's length, and each character equal to the searched one is replaced while every other character is kept |
| Text.Remove | EOSK/Views/SettingsView.xaml.cs:322 | removing a character keeps exactly the other characters (same set), never lengthens the string, and changes nothing when the character is absent |
| Text.PrefixedRemoveHasSingleMark | EOSK/Views/SettingsView.xaml.cs:322 | a mark followed by the string with every mark removed has exactly one mark, at index 0 |
| Colors.WithAlpha | EOSK/App.xaml.cs:74-75 | `FromArgb(alpha, R, G, B)` keeps the three colour channels and sets the alpha |
| Colors.ToHexString | EOSK/Views/SettingsView.xaml.cs:285 | an sRGB colour's `Color.ToString()` is nine characters: `#` then eight upper-case hexadecimal digits |
| Colors.ToHexStringRoundTrip | EOSK/Views/SettingsView.xaml.cs:285 | the `#AARRGGBB` text parses back to the very colour it was made from |
| Colors.ToHexStringInjective | EOSK/Views/SettingsView.xaml.cs:322 | two colours have equal strings exactly when they are equal, so the stored `ThemeColor` identifies the colour |
| SettingsStore.Repair | EOSK/Services/SettingsManager.cs:227-241 | after repair, ThemeColor is non-empty and ThemeType is `Light` or `Dark`; AutoStart, EnableSound and Volume are never changed |
| SettingsStore.RepairTouchesOnlyInvalidFields | EOSK/Services/SettingsManager.cs:230-240 | an empty ThemeColor becomes `#673AB7` and any other is kept; a ThemeType outside {Light, Dark} becomes `Light` and a known one is kept |
| SettingsStore.RepairFixesExactlyInvalid | EOSK/Services/SettingsManager.cs:227-241 | repair leaves a record unchanged exactly when it passes validation, and repairing twice equals repairing once |
| SettingsStore.DefaultPassesRepair | EOSK/Services/SettingsManager.cs:156-164 | the default record needs no repair |
| SettingsStore.Adopted | EOSK/Services/SettingsManager.cs:66-87 | a record is adopted exactly from a present, non-blank file that parses to a non-null record; otherwise the file was missing, unreadable, blank, parsed to null, or the parser threw |
| SettingsStore.FileAfterLoad | EOSK/Services/SettingsManager.cs:91-104 | an adopted file, or one whose write fails, is left as it is; a file that changes had no usable record and now holds the serialised default |
| SettingsStore.Written | EOSK/Services/SettingsManager.cs:174-200 | a successful save leaves the serialised object in the file; a failed write is swallowed and leaves the file as it was |
| SettingsStore.LoadedRecord | EOSK/Services/SettingsManager.cs:66-106 | the record a load makes current always passes validation |
| SettingsStore.LoadFallsBackToDefault | EOSK/Services/SettingsManager.cs:66-104 | a missing, unreadable, blank or null-parsing file, or one whose parse throws, loads as the default record and the default is written back |
| SettingsStore.LoadAdoptsParsedRecord | EOSK/Services/SettingsManager.cs:73-87 | a file that parses to a record loads as that record, repaired, and the file is not rewritten |
| SettingsStore.SaveLoadRoundTrip | EOSK/Services/SettingsManager.cs:114-120 | for a lawful codec, saving a record that passes repair and then loading gives back the same record |
| SettingsStore.LoadHealsFile | EOSK/Services/SettingsManager.cs:91-104 | after a load that found no record, the file holds the default record, and loading it again gives the default |
| SettingsStore.LoadTwiceAgrees | EOSK/Services/SettingsManager.cs:56-108 | two loads with no save in between give equal records, whether or not the first load's write succeeded |
| SettingsStore.AppSettings.constructor | EOSK/Services/SettingsManager.cs:262-289 | `new AppSettings()` holds null strings, AutoStart false, EnableSound true and Volume 0 |
| SettingsStore.AppSettings.FromRecord | EOSK/Services/SettingsManager.cs:158-163 | an object initialiser or the deserialiser builds an object holding exactly the given record |
| SettingsStore.SettingsManager.constructor | EOSK/Services/SettingsManager.cs:35-45 | a new manager's current object is a fresh default record (ThemeColor `#673AB7`, Light, AutoStart false, EnableSound true, Volume 0) |
| SettingsStore.SettingsManager.CreateDefaultSettings | EOSK/Services/SettingsManager.cs:156-164 | a new object holding the default record, which passes validation |
| SettingsStore.SettingsManager.ValidateAndRepairSettings | EOSK/Services/SettingsManager.cs:227-241 | the given object is repaired in place: its new value is the repair of its old value |
| SettingsStore.SettingsManager.SaveSettingsInternal | EOSK/Services/SettingsManager.cs:174-202 | only the file changes: it holds the serialised object (or JSON `null`), or is untouched when the write fails |
| SettingsStore.SettingsManager.SaveSettings | EOSK/Services/SettingsManager.cs:114-120 | saving an object changes only the file, as `SaveSettingsInternal` does |
| SettingsStore.SettingsManager.SaveCurrentSettings | EOSK/Services/SettingsManager.cs:147-150 | saving without an argument writes the current object |
| SettingsStore.SettingsManager.GetCurrentSettings | EOSK/Services/SettingsManager.cs:126-129 | returns the held object itself, not a copy, and changes neither it nor the file |
| SettingsStore.SettingsManager.UpdateSettings | EOSK/Services/SettingsManager.cs:135-142 | `null` changes nothing; a non-null object becomes current and is written to the file |
| SettingsStore.SettingsManager.LoadSettings | EOSK/Services/SettingsManager.cs:56-108 | the returned object is the one now held, a new object with the loaded record; the file is left as it was when a record was adopted, and gets the default written back otherwise |
| SettingsStore.SaveThenLoad | EOSK/Services/SettingsManager.cs:114-120 | `SaveSettings(r)` then `LoadSettings()` returns an object equal to `r` when `r` passes repair |
| ResourceImages.ValidateResourcePath | EOSK/Services/ResourceImageLoader.cs:20-28 | a null or empty path fails with the first error; a path not starting with `res://` (ignoring case) fails with the second; otherwise the result is the path without its first six characters |
| ResourceImages.EmbeddedResourceName | EOSK/Services/ResourceImageLoader.cs:37 | `EOSK.` then the name with every `/` and `\` turned into `.`: five characters longer, with neither separator left |
| ResourceImages.Candidates | EOSK/Services/ResourceImageLoader.cs:37-76 | the three sources, in order: embedded resource, `pack://application:,,,/EOSK;component/<name>`, and the same under `Icons/` |
| ResourceImages.FirstLoaded | EOSK/Services/ResourceImageLoader.cs:39-85 | the image comes from the first source that loads and every earlier one failed; the empty image is returned exactly when no source loads |
| ResourceImages.LoadImageFromResource | EOSK/Services/ResourceImageLoader.cs:18-86 | an invalid path gives its argument error; a valid one gives the first source that loads, or the empty image; load errors never escape |
| ResourceImages.PrefixCaseIgnored | EOSK/Services/ResourceImageLoader.cs:24 | `RES://` and `Res://` name the same resource as `res://` |
| Sidebar.TextVisibilityFor | EOSK/Components/SidebarItem.xaml.cs:85-92 | the text presenter is collapsed exactly when the text is null or empty, and visible otherwise |
| Sidebar.IconRouteOf | EOSK/Components/SidebarItem.xaml.cs:99-157 | an empty path clears the icon; a `res://` path (ignoring case) goes to the resource route with the loader's name; a `pack://` path is an absolute URI; anything else is a relative-or-absolute URI |
| Sidebar.IconSourceFor | EOSK/Components/SidebarItem.xaml.cs:94-171 | an icon is shown only if its source loaded; an empty path, an exception, or a failed load clears the icon |
| Sidebar.IconSourceFollowsRoute | EOSK/Components/SidebarItem.xaml.cs:99-171 | a `pack://` path shows its absolute URI's image exactly when that loads, any other non-resource path its relative-or-absolute URI's image likewise; a resource path shows the embedded image exactly when it loads and the pack image exactly when no embedded stream is found and the pack URI loads |
| Sidebar.ResourceIconAgreesWithLoader | EOSK/Components/SidebarItem.xaml.cs:106-143 | for a `res://` path, any icon shown is the one `LoadImageFromResource` would return; none is shown exactly when the embedded load throws, or it finds nothing and the pack URI fails too |
| Sidebar.VisualsFor | EOSK/Components/SidebarItem.xaml.cs:189-225 | a changed `IsActive` always replaces the markup background and sets an icon size; the active gradient, the blue foreground and the larger icon each hold exactly when the item is active |
| Sidebar.SidebarItem.constructor | EOSK/Components/SidebarItem.xaml.cs:45-65 | a new item is inactive with no text and no icon, a black foreground, no click raised yet |
| Sidebar.SidebarItem.SetText | EOSK/Components/SidebarItem.xaml.cs:67-71 | the text is set, and the visibility is recomputed exactly when the value changed |
| Sidebar.SidebarItem.SetIcon | EOSK/Components/SidebarItem.xaml.cs:73-77 | the icon path is set, and the icon source is recomputed exactly when the value changed |
| Sidebar.SidebarItem.SetIsActive | EOSK/Components/SidebarItem.xaml.cs:79-83 | the flag is set; on a change the background, foreground and icon size take the targets for the new state, and an active item always shows the active visuals |
| Sidebar.SidebarItem.MouseEnter | EOSK/Components/SidebarItem.xaml.cs:236-242 | only an inactive item changes, taking the active background |
| Sidebar.SidebarItem.MouseLeave | EOSK/Components/SidebarItem.xaml.cs:244-250 | only an inactive item changes, going back to transparent |
| Sidebar.SidebarItem.MouseLeftButtonUp | EOSK/Components/SidebarItem.xaml.cs:231-234 | raises `Click` once |
| EoskApp.BaseThemeFor | EOSK/App.xaml.cs:62-64 | the base theme is dark exactly when ThemeType is `Dark` |
| EoskApp.ContrastForeground | EOSK/App.xaml.cs:76-78 | the foreground is black exactly when R+G+B > 382, and white otherwise |
| EoskApp.ContrastMonotone | EOSK/App.xaml.cs:76-78 | a colour at least as bright in every channel than one that takes black text also takes black text |
| EoskApp.StartupPrimary | EOSK/App.xaml.cs:74-78 | PrimaryMid is the colour and PrimaryLight the same colour at alpha 100; both share one foreground, which is black exactly when R+G+B exceeds 382 |
| EoskApp.ParsedThemeColor | EOSK/App.xaml.cs:67-71 | an empty ThemeColor parses to nothing; a non-empty one to what the converter gives |
| EoskApp.ThemeColorOrPurple | EOSK/MainWindow.xaml.cs:209-248 | the parsed colour when there is one, purple when the text is empty or the converter throws |
| EoskApp.App.constructor | EOSK/App.xaml.cs:24-27 | a new application has no manager, the current theme colour purple, and no title-bar colour yet |
| EoskApp.App.GetCurrentThemeColor | EOSK/App.xaml.cs:143-146 | returns the current theme colour |
| EoskApp.App.SetCurrentThemeColor | EOSK/App.xaml.cs:152-155 | the current theme colour becomes the argument |
| EoskApp.App.InitializeTitleBarColor | EOSK/App.xaml.cs:115-137 | the title bar takes the given colour |
| EoskApp.App.InitializeTheme | EOSK/App.xaml.cs:51-113 | the base theme follows ThemeType; a colour that parses becomes the current colour, the title bar and the primary palette; otherwise the title bar is purple and the current colour and palette stay as they were |
| Startup.OnStartup | EOSK/App.xaml.cs:29-49 | the manager is taken, the settings are loaded once, and the theme follows the loaded record; then a new open window shows the home page |
| SettingsPage.RadioButtonColor | EOSK/Views/SettingsView.xaml.cs:421-442 | each of the nine option names gives its colour: purple, blue, green, orange, red, deep pink, indigo, teal, lime green |
| SettingsPage.UnknownRadioButtonIsPurple | EOSK/Views/SettingsView.xaml.cs:443-444 | any other name gives purple |
| SettingsPage.RestoreSelectsChosenOption | EOSK/Views/SettingsView.xaml.cs:194-238 | restoring the selection from an option's colour checks that same option |
| SettingsPage.OptionForColor | EOSK/Views/SettingsView.xaml.cs:194-238 | the purple option is checked exactly for colours outside the eight non-purple option colours; any other option checked stands for exactly the current colour |
| SettingsPage.ColorFromRadioButton | EOSK/Views/SettingsView.xaml.cs:421-445 | every name, known or not, gives the colour of one of the nine options, the option restoring picks for it |
| SettingsPage.OptionNamedInvertsName | EOSK/Views/SettingsView.xaml.cs:423-442 | the nine button names and the nine options correspond one to one |
| SettingsPage.ThemeColorText | EOSK/Views/SettingsView.xaml.cs:322 | the stored ThemeColor is an sRGB colour's `#AARRGGBB` string, with exactly one `#`, at index 0 |
| SettingsPage.HexStringShape | EOSK/Views/SettingsView.xaml.cs:322 | removing every `#` from the colour string and putting one back in front gives the string unchanged |
| SettingsPage.SettingsPrimary | EOSK/Views/SettingsView.xaml.cs:457-460 | PrimaryMid is the colour and PrimaryLight the colour at alpha 100; their foregrounds always differ, so the palette is never the one `InitializeTheme` builds |
| SettingsPage.ResetRecord | EOSK/Views/SettingsView.xaml.cs:285-289 | a reset record passes validation and keeps EnableSound |
| SettingsPage.ResetIsNotDefault | EOSK/Views/SettingsView.xaml.cs:285-288 | a reset's ThemeColor and Volume differ from the default record's |
| SettingsPage.SettingsView.constructor | EOSK/Views/SettingsView.xaml.cs:22-34 | a new page is initialising, has no settings object and the colour purple, and waits for `Loaded` |
| SettingsPage.SettingsView.ApplyThemeColor | EOSK/Views/SettingsView.xaml.cs:448-481 | the palette's primary colours follow the colour and the application's current colour is set to it |
| SettingsPage.SettingsView.UpdateTitleBarColor | EOSK/Views/SettingsView.xaml.cs:483-501 | the title bar takes the colour |
| SettingsPage.SettingsView.RestoreColorSelection | EOSK/Views/SettingsView.xaml.cs:185-242 | exactly one option is checked, the one for the current colour |
| SettingsPage.SettingsView.RestoreToggleStates | EOSK/Views/SettingsView.xaml.cs:245-260 | the toggle shows AutoStart when there is a settings object, and is untouched otherwise |
| SettingsPage.SettingsView.ApplySettingsToUI | EOSK/Views/SettingsView.xaml.cs:139-182 | with no settings object nothing changes; an unparsable colour fails before any change; otherwise page, palette, title bar, checked option and toggle all show the record |
| SettingsPage.SettingsView.LoadCurrentSettings | EOSK/Views/SettingsView.xaml.cs:103-136 | the page shows the manager's object, or, when its colour cannot be parsed, a new empty object in purple |
| SettingsPage.SettingsView.OnLoaded | EOSK/Views/SettingsView.xaml.cs:36-48 | the first `Loaded` registers the handlers, shows the current settings and ends with the guard off; later ones change nothing |
| SettingsPage.SettingsView.RefreshSettings | EOSK/Views/SettingsView.xaml.cs:53-58 | the page shows the current settings again and ends with the guard off |
| SettingsPage.SettingsView.UpdateCurrentSettings | EOSK/Views/SettingsView.xaml.cs:301-345 | the page's object (the manager's if it had none) gets the colour string with one leading `#`, and AutoStart only when the toggle has a value; the other fields are kept |
| SettingsPage.SettingsView.SavePageSettings | EOSK/Views/SettingsView.xaml.cs:389-398 | the updated object is what the file then holds, or the file is unchanged if the write fails |
| SettingsPage.SettingsView.ShowColor | EOSK/Views/SettingsView.xaml.cs:366-373 | the page, the application, the palette and the title bar all take the colour |
| SettingsPage.SettingsView.ColorOptionChecked | EOSK/Views/SettingsView.xaml.cs:347-410 | while initialising, or for a sender that is no radio button, nothing changes and nothing is saved; otherwise the clicked option becomes the only checked one, and the button's colour is applied, saved and announced once |
| SettingsPage.SettingsView.ToggleChecked | EOSK/Views/SettingsView.xaml.cs:503-523 | while initialising nothing changes and nothing is saved; otherwise the page's settings are updated and saved |
| SettingsPage.SettingsView.ResetFields | EOSK/Views/SettingsView.xaml.cs:285-289 | the object takes the reset record: purple, AutoStart false, Volume 80, Light |
| SettingsPage.SettingsView.ResetSettingsButtonClick | EOSK/Views/SettingsView.xaml.cs:262-299 | declining changes nothing; confirming shows purple, resets the page's object (a new one if it had none), saves it and announces purple |
| Shell.ItemIndex | EOSK/MainWindow.xaml.cs:321-339 | Home, Settings, Sponsor and About select items 0 to 3, and exactly these four select an item |
| Shell.NavTargetsSelectThemselves | EOSK/MainWindow.xaml.cs:273-300 | each item's content type selects that same item |
| Shell.CloseOutcome | EOSK/MainWindow.xaml.cs:502-544 | the window never stays open, and it is closed exactly when it is not asked to hide |
| Shell.MainWindow.constructor | EOSK/MainWindow.xaml.cs:33-46 | a new window is open, shows a new home page and has no sidebar items yet |
| Shell.MainWindow.NewItem | EOSK/MainWindow.xaml.cs:268-272 | a new inactive item with empty, collapsed text and the given icon |
| Shell.MainWindow.NewSidebar | EOSK/MainWindow.xaml.cs:268-302 | four distinct new items with the four icons in order, none active |
| Shell.MainWindow.InitializeSidebar | EOSK/MainWindow.xaml.cs:261-309 | whatever was there before, exactly four new items, only the first active, each bound to its content type |
| Shell.MainWindow.UpdateSidebarSelection | EOSK/MainWindow.xaml.cs:312-340 | exactly the item for the content type is active, when the list is long enough; an unknown type leaves none active; an item switched off takes the inactive visuals |
| Shell.MainWindow.SwitchContent | EOSK/MainWindow.xaml.cs:347-378 | Home, Sponsor and About show a new page; Settings creates the page once and later refreshes it; an unknown type shows nothing |
| Shell.MainWindow.LoadContent | EOSK/MainWindow.xaml.cs:343-382 | the page is shown as `SwitchContent` states, and the sidebar selection matches the content type |
| Shell.MainWindow.ItemClicked | EOSK/MainWindow.xaml.cs:273-300 | clicking an item raises its `Click` once and loads its content type, which selects that item |
| Shell.MainWindow.ApplySavedTitleBarColor | EOSK/MainWindow.xaml.cs:201-249 | the title bar takes the saved colour, or purple when it is empty or cannot be parsed |
| Shell.MainWindow.OnLoaded | EOSK/MainWindow.xaml.cs:125-136 | four items with the first active, a new home page, the settings page untouched, and the saved title-bar colour |
| Shell.MainWindow.StartCloseSlideOutAnimation | EOSK/MainWindow.xaml.cs:484-546 | whether the animation completes, there is no root, or it throws, the window ends hidden when asked to hide and closed otherwise |
| Shell.MainWindow.CloseButtonClick | EOSK/MainWindow.xaml.cs:420-425 | the close button always closes the window, never hides it |
| Keyboard.Buttons | EOSK/Components/VirtualKeyboard.xaml.cs:68-74 | the buttons are exactly the grid children that are buttons |
| Keyboard.VirtualKeyboard.constructor | EOSK/Components/VirtualKeyboard.xaml.cs:22-27 | a new keyboard has no key selected and has raised no event |
| Keyboard.VirtualKeyboard.ButtonKey | EOSK/Components/VirtualKeyboard.xaml.cs:81 | a button stands for a key only if its tag is a string that parses as a key, and then for that key |
| Keyboard.VirtualKeyboard.Highlight | EOSK/Components/VirtualKeyboard.xaml.cs:87 | the theme brush when the resource, which is present, is a brush; the light-blue gradient when it is present and not a brush |
| Keyboard.VirtualKeyboard.Refreshed | EOSK/Components/VirtualKeyboard.xaml.cs:81-96 | a button for the selected key is highlighted, a button for another key is cleared, and one whose tag names no key keeps its background |
| Keyboard.VirtualKeyboard.KeyButtonClick | EOSK/Components/VirtualKeyboard.xaml.cs:36-49 | a button whose string tag parses selects that key and raises `KeySelected` once with it; anything else changes nothing and raises nothing |
| Keyboard.VirtualKeyboard.UpdateButtonVisualState | EOSK/Components/VirtualKeyboard.xaml.cs:78-97 | only that button's background changes, as `Refreshed` states |
| Keyboard.VirtualKeyboard.RefreshVisualState | EOSK/Components/VirtualKeyboard.xaml.cs:65-75 | every button of the grid is refreshed, and only the grid's buttons' backgrounds change |
| Keyboard.VirtualKeyboard.GetKeySound | EOSK/Components/VirtualKeyboard.xaml.cs:58-62 | there is never a sound for a key |
| Keyboard.VirtualKeyboard.SetKeySound | EOSK/Components/VirtualKeyboard.xaml.cs:52-55 | setting a sound changes nothing |
| Keyboard.WidthToVisibility | EOSK/Components/VirtualKeyboard.xaml.cs:117-124 | hidden exactly for a double that is not positive (NaN included); visible otherwise, never collapsed |
| Keyboard.BoolToVisibility | EOSK/Components/VirtualKeyboard.xaml.cs:135-142 | visible exactly for `true`; collapsed otherwise, never hidden |
| Keyboard.BoolToVisibilityInverse | EOSK/Components/VirtualKeyboard.xaml.cs:153-160 | collapsed exactly for `true`; visible otherwise, never hidden |
| Keyboard.InverseConverterDisagrees | EOSK/Components/VirtualKeyboard.xaml.cs:137-159 | the two boolean converters never give the same visibility, and for a `bool` the inverse of `b` is the converter of `!b` |

## Left out

- Storyboards, page transitions, slide and easing animations: only the values animated towards and the
  window state the close path ends in are kept, because the rest is timing-driven UI.
- The colour scaling by 0.7, 0.8 and 1.2 (`PrimaryDark`, the pressed-button colour) and the brushes of
  `BrushHelper`: floating-point truncation that only feeds brush constructors. The title bar is modelled
  as the colour its brush is built from.
- `CreateGradientButtonStyle` and `UpdateGradientButtonStyle`: they only rebuild a WPF style from the
  current theme colour.
- The JSON text itself (the `$id` written by `PreserveReferencesHandling`), the `File` and `Directory`
  calls, and `EnsureDirectoryExists`: the file is the `disk` value and serialisation is the `Codec`.
- `lock` and the `Lazy` singleton: the store is sequential, and `SettingsManager.Instance` is the manager
  passed to `Startup.OnStartup`.
- The About, Sponsor and Home views: they launch browsers, show message boxes, load images and record a
  key. They are identity-only stand-in classes here.
- The P/Invoke structs, window dragging, minimising, the `WindowProc` hook, `MessageBox` prompts
  (the reset confirmation is a boolean input), and `StartMinimizeSlideOutAnimation`.
- The `ThemeColorChanged` subscription in `MainWindow`, which only calls `InvalidateVisual`: the page
  records the colours it raises the event with.
- Non-ASCII case folding in `OrdinalIgnoreCase` comparisons: only ASCII letters are folded.
- The outer `catch` of `InitializeTheme` around `PaletteHelper`, the `catch` blocks of the settings page's
  `ApplyThemeColor` and `UpdateTitleBarColor`, and the `Application.Current == null` guards: foreign code
  that is assumed not to throw. A throwing `PaletteHelper` would leave the palette and the current colour
  as they were, since `SetCurrentThemeColor` comes after it.
- Colours are sRGB byte quadruples only. `ConvertFromString` also accepts the scRGB `sc#…` form and
  `ContextColor` strings, whose `ToString()` is not `#AARRGGBB` (the stored text for `sc#1, 1, 0, 0`
  would differ from the sRGB form); `Colors.ToHexString` and `SettingsPage.ThemeColorText` speak of
  sRGB colours.
- The number of times the colour radio handlers are registered: every handler run is modelled directly.
- The `SecondaryHueMidBrush` lookup and `KeySelected`'s subscribers: the lookup's outcome is a constant,
  and the raised keys are recorded as a sequence. The resource is assumed present: `FindResource` throws
  when it is missing, which would end `RefreshVisualState` part-way.
- The `FunctionKeys` and `Placeholder` converters and every `ConvertBack`: not part of the keyboard's
  selection logic, and `ConvertBack` only throws.
- The XAML markup: initial control states are the constructors' values, and the settings page's static
  `_currentThemeColor` is an instance field of the one page the shell ever creates.
- Shell.MainWindow.InitializeSidebar: the icon image each item shows is stated by `SetIcon` and
  `IconSourceFor`, but not carried into the sidebar's own ensures.
- Shell.MainWindow.LoadContent: for a reused settings page it states that the page was refreshed once;
  what the refresh shows is stated by `SwitchContent` and `SettingsView.RefreshSettings`.
- SettingsPage.SettingsView.RestoreToggleStates: the `Toggle_Checked` it raises is not run; every caller
  holds the initialising guard, under which that handler returns at once, and the method requires it.
- SettingsPage.SettingsView.LoadCurrentSettings: `GetCurrentSettings` never returns `null` here, because
  the manager always holds an object, so the `null` branch of `LoadCurrentSettings` (and the same branch of
  `UpdateCurrentSettings`) is not modelled.
