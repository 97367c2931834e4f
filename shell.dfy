/**
 * `MainWindow`: the shell. A sidebar of four icon items selects what the content area shows; the
 * settings page is created once and refreshed on every later visit. Storyboards are left out, and only
 * the window state the close animation ends in is kept.
 */
module Shell {
  import opened Wrappers
  import opened Text
  import opened Colors
  import opened SettingsStore
  import opened ResourceImages
  import opened Presentation
  import opened Sidebar
  import opened EoskApp
  import opened SettingsPage

  /** The home, sponsor and about pages: each visit creates a new one, so only their identity matters. */
  class HomeView {
    constructor () {}
  }

  class SponsorView {
    constructor () {}
  }

  class AboutView {
    constructor () {}
  }

  /** `MainContentArea.Content`; `NoContent` is `null`. */
  datatype ContentView =
    | NoContent
    | HomePage(home: HomeView)
    | SettingsContent(settings: SettingsView)
    | SponsorPage(sponsor: SponsorView)
    | AboutPage(about: AboutView)

  datatype WindowState = Open | Closed | HiddenWindow

  /** Which branch of `StartCloseSlideOutAnimation` runs: the storyboard completes, no root element, or a throw. */
  datatype AnimationPath = AnimationCompleted | RootMissing | AnimationThrew

  /** The content types of the four sidebar items, in sidebar order. */
  const NavTargets: seq<string> := ["Home", "Settings", "Sponsor", "About"]

  /** The icons of the four sidebar items, in sidebar order. */
  const NavIcons: seq<string> :=
    ["res://Assets/Icons/home.png", "res://Assets/Icons/settings.png",
     "res://Assets/Icons/sponsor.png", "res://Assets/Icons/info.png"]

  /** The sidebar index `UpdateSidebarSelection` activates for a content type, if any. */
  function ItemIndex(t: string): (k: Option<nat>)
    ensures k.Some? <==> t in NavTargets
    ensures k.Some? ==> k.value < |NavTargets| && NavTargets[k.value] == t
  {
    match t
    case "Home" => Some(0)
    case "Settings" => Some(1)
    case "Sponsor" => Some(2)
    case "About" => Some(3)
    case _ => None
  }

  /** Every sidebar item's content type selects that same item. */
  lemma NavTargetsSelectThemselves(i: nat)
    requires i < |NavTargets|
    ensures ItemIndex(NavTargets[i]) == Some(i)
  {
  }

  /** The window state the close path ends in: `Hide` when asked to hide, `Close` otherwise. */
  function CloseOutcome(hideAfterAnimation: bool): (s: WindowState)
    ensures s != Open
    ensures s == Closed <==> !hideAfterAnimation
  {
    if hideAfterAnimation then HiddenWindow else Closed
  }

  /** At most one item of a sidebar is active. */
  ghost predicate AtMostOneActive(items: seq<SidebarItem>)
    reads items
  {
    forall i, j :: 0 <= i < |items| && 0 <= j < |items| && items[i].isActive && items[j].isActive ==> i == j
  }

  class MainWindow {
    const app: App
    /** `sidebarItems`. */
    var items: seq<SidebarItem>
    /** The content type each item's `Click` handler loads. */
    var targets: seq<string>
    /** `_settingsView`. */
    var settingsView: SettingsView?
    var content: ContentView
    var state: WindowState

    ghost predicate Valid()
      reads this, items, app
    {
      && |targets| == |items|
      && (forall i, j :: 0 <= i < j < |items| ==> items[i] != items[j])
      && (forall i :: 0 <= i < |items| ==> items[i].Valid())
      && Wired()
    }

    /** The settings page, once created, belongs to this application, whose manager is set. */
    ghost predicate Wired()
      reads this, app
    {
      app.settingsManager != null && (settingsView != null ==> settingsView.app == app)
    }

    /** The constructor with `InitializeNavigation`: a home page and no sidebar items yet. */
    constructor (app: App)
      requires app.settingsManager != null
      ensures Valid() && this.app == app && items == [] && settingsView == null && state == Open
      ensures content.HomePage? && fresh(content.home)
    {
      this.app := app;
      items := [];
      targets := [];
      settingsView := null;
      var home := new HomeView();
      content := HomePage(home);
      state := Open;
    }

    /** One item of `InitializeSidebar`: no text, an icon, not active. */
    static method NewItem(path: string, env: ImageSource -> Attempt) returns (item: SidebarItem)
      ensures fresh(item) && item.Valid() && !item.isActive && item.clicks == 0
      ensures item.text == Some("") && item.textVisibility == Collapsed
      ensures item.icon == Some(path)
      ensures item.Visuals() == ActiveVisuals(MarkupBackground, Black, None)
    {
      item := new SidebarItem();
      item.SetText(Some(""));
      item.SetIcon(Some(path), env);
    }

    /** The four new items of `InitializeSidebar`, none of them active yet. */
    static method NewSidebar(env: ImageSource -> Attempt) returns (s: seq<SidebarItem>)
      ensures |s| == 4
      ensures forall i :: 0 <= i < 4 ==> fresh(s[i]) && s[i].Valid() && !s[i].isActive
      ensures forall i, j :: 0 <= i < j < 4 ==> s[i] != s[j]
      ensures forall i :: 0 <= i < 4 ==> s[i].text == Some("") && s[i].icon == Some(NavIcons[i])
      ensures forall i :: 0 <= i < 4 ==> s[i].Visuals() == ActiveVisuals(MarkupBackground, Black, None)
    {
      var home := NewItem(NavIcons[0], env);
      var settings := NewItem(NavIcons[1], env);
      var sponsor := NewItem(NavIcons[2], env);
      var about := NewItem(NavIcons[3], env);
      s := [home, settings, sponsor, about];
    }

    /** `InitializeSidebar`: four new items whatever was there before, the first one active. */
    method InitializeSidebar(env: ImageSource -> Attempt)
      requires Valid()
      modifies this`items, this`targets
      ensures Valid() && |items| == 4 && targets == NavTargets
      ensures forall i :: 0 <= i < 4 ==> fresh(items[i])
      ensures forall i :: 0 <= i < 4 ==> items[i].isActive == (i == 0)
      ensures forall i :: 0 <= i < 4 ==>
                && items[i].text == Some("") && items[i].icon == Some(NavIcons[i])
      ensures items[0].Visuals() == VisualsFor(true)
      ensures forall i :: 1 <= i < 4 ==> items[i].Visuals() == ActiveVisuals(MarkupBackground, Black, None)
      ensures AtMostOneActive(items)
    {
      var s := NewSidebar(env);
      s[0].SetIsActive(true);
      items := s;
      targets := NavTargets;
    }

    /**
     * `UpdateSidebarSelection`: deactivate every item, then activate the one for the content type when
     * the list is long enough. An item that was active and is active again passes through inactive.
     */
    method UpdateSidebarSelection(t: string)
      requires Valid()
      modifies items`isActive, items`background, items`foreground, items`iconSize
      ensures Valid() && AtMostOneActive(items)
      ensures forall i :: 0 <= i < |items| ==> items[i].isActive == (ItemIndex(t) == Some(i))
      ensures forall i :: 0 <= i < |items| && items[i].isActive ==> items[i].Visuals() == VisualsFor(true)
      ensures forall i :: 0 <= i < |items| && !items[i].isActive ==>
                items[i].Visuals() == if old(items[i].isActive) then VisualsFor(false) else old(items[i].Visuals())
    {
      var i := 0;
      while i < |items|
        invariant 0 <= i <= |items|
        invariant forall j :: 0 <= j < |items| ==> items[j].Valid()
        invariant forall j :: 0 <= j < i ==>
                    && !items[j].isActive
                    && items[j].Visuals() == if old(items[j].isActive) then VisualsFor(false) else old(items[j].Visuals())
        invariant forall j :: i <= j < |items| ==>
                    items[j].isActive == old(items[j].isActive) && items[j].Visuals() == old(items[j].Visuals())
      {
        items[i].SetIsActive(false);
        i := i + 1;
      }
      var k := ItemIndex(t);
      if k.Some? && k.value < |items| {
        items[k.value].SetIsActive(true);
      }
    }

    /**
     * What `LoadContent` shows for a content type: a new home, sponsor or about page; the settings page,
     * created on the first visit and refreshed once on each later one; nothing for an unknown type.
     */
    twostate predicate ShowsPage(t: string)
      requires Wired()
      reads this, app, app.settingsManager, app.settingsManager.current, settingsView
      reads if settingsView != null then {settingsView.currentSettings} else {}
    {
      && (t == "Home" ==> content.HomePage? && fresh(content.home))
      && (t == "Sponsor" ==> content.SponsorPage? && fresh(content.sponsor))
      && (t == "About" ==> content.AboutPage? && fresh(content.about))
      && (t !in NavTargets ==> content == NoContent)
      && (t != "Settings" ==>
            && settingsView == old(settingsView)
            && app.theme == old(app.theme) && app.currentThemeColor == old(app.currentThemeColor)
            && app.titleBarColor == old(app.titleBarColor)
            && (settingsView != null ==> unchanged(settingsView)))
      && (t == "Settings" ==> settingsView != null && content == SettingsContent(settingsView))
      && (t == "Settings" && old(settingsView) == null ==>
            fresh(settingsView) && settingsView.isInitializing && settingsView.currentSettings == null)
      && (t == "Settings" && old(settingsView) != null ==>
            settingsView == old(settingsView) && settingsView.refreshCount == old(settingsView.refreshCount) + 1
            && !settingsView.isInitializing)
    }

    /** The `switch` of `LoadContent` and the assignment of the content area. */
    method SwitchContent(t: string)
      requires Valid()
      modifies this`settingsView, this`content
      modifies settingsView, app`theme, app`currentThemeColor, app`titleBarColor
      ensures Valid() && ShowsPage(t)
      ensures t == "Settings" && old(settingsView) != null ==> settingsView.ShowsCurrentSettings()
    {
      var next: ContentView;
      match t {
        case "Home" =>
          var v := new HomeView();
          next := HomePage(v);
        case "Settings" =>
          if settingsView == null {
            settingsView := new SettingsView(app);
          } else {
            settingsView.RefreshSettings();
          }
          next := SettingsContent(settingsView);
        case "Sponsor" =>
          var v := new SponsorView();
          next := SponsorPage(v);
        case "About" =>
          var v := new AboutView();
          next := AboutPage(v);
        case _ =>
          next := NoContent;
      }
      content := next;
    }

    /** `LoadContent`: show the page for a content type, then select its sidebar item. */
    method LoadContent(t: string)
      requires Valid()
      modifies this`settingsView, this`content
      modifies items`isActive, items`background, items`foreground, items`iconSize
      modifies settingsView, app`theme, app`currentThemeColor, app`titleBarColor
      ensures Valid() && AtMostOneActive(items) && ShowsPage(t)
      ensures forall i :: 0 <= i < |items| ==> items[i].isActive == (ItemIndex(t) == Some(i))
    {
      SwitchContent(t);
      UpdateSidebarSelection(t);
    }

    /** Releasing the mouse on item `i` raises its `Click`, whose handler loads that item's content type. */
    method ItemClicked(i: nat)
      requires Valid() && i < |items|
      modifies this`settingsView, this`content
      modifies items`clicks, items`isActive, items`background, items`foreground, items`iconSize
      modifies settingsView, app`theme, app`currentThemeColor, app`titleBarColor
      ensures Valid() && AtMostOneActive(items)
      ensures forall j :: 0 <= j < |items| ==> items[j].clicks == old(items[j].clicks) + (if j == i then 1 else 0)
      ensures forall j :: 0 <= j < |items| ==> items[j].isActive == (ItemIndex(targets[i]) == Some(j))
    {
      items[i].MouseLeftButtonUp();
      LoadContent(targets[i]);
    }

    /** `ApplySavedTitleBarColor`: the saved colour, or purple when it is empty or does not parse. */
    method ApplySavedTitleBarColor()
      requires Valid()
      modifies app`titleBarColor
      ensures app.titleBarColor == Some(ThemeColorOrPurple(app.settingsManager.current.themeColor, app.colorConverter))
    {
      var settings := app.settingsManager.GetCurrentSettings();
      if !IsNullOrEmpty(settings.themeColor) {
        var parsed := app.colorConverter(settings.themeColor.value);
        if parsed.Some? {
          app.titleBarColor := Some(parsed.value);
        } else {
          app.titleBarColor := Some(Purple);
        }
      } else {
        app.titleBarColor := Some(Purple);
      }
    }

    /** `MainWindow_Loaded`: build the sidebar, show the home page, apply the saved title-bar colour. */
    method OnLoaded(env: ImageSource -> Attempt)
      requires Valid()
      modifies this`items, this`targets, this`settingsView, this`content
      modifies settingsView, app`theme, app`currentThemeColor, app`titleBarColor
      ensures Valid() && |items| == 4 && targets == NavTargets
      ensures forall i :: 0 <= i < 4 ==> fresh(items[i]) && items[i].isActive == (i == 0)
      ensures items[0].Visuals() == VisualsFor(true)
      ensures content.HomePage? && fresh(content.home) && settingsView == old(settingsView)
      ensures app.theme == old(app.theme) && app.currentThemeColor == old(app.currentThemeColor)
      ensures app.titleBarColor == Some(ThemeColorOrPurple(app.settingsManager.current.themeColor, app.colorConverter))
    {
      InitializeSidebar(env);
      LoadContent("Home");
      ApplySavedTitleBarColor();
    }

    /**
     * `StartCloseSlideOutAnimation`: on every path (when the storyboard completes, when there is no root
     * element, when starting it throws) the window ends hidden when asked to hide and closed otherwise.
     */
    method StartCloseSlideOutAnimation(hideAfterAnimation: bool, path: AnimationPath)
      modifies this`state
      ensures state == CloseOutcome(hideAfterAnimation)
    {
      match path {
        case AnimationCompleted =>
          if hideAfterAnimation { state := HiddenWindow; } else { state := Closed; }
        case RootMissing =>
          if hideAfterAnimation { state := HiddenWindow; } else { state := Closed; }
        case AnimationThrew =>
          if hideAfterAnimation { state := HiddenWindow; } else { state := Closed; }
      }
    }

    /** `CloseButton_Click`: the close path without hiding, so the window closes. */
    method CloseButtonClick(path: AnimationPath)
      modifies this`state
      ensures state == Closed
    {
      StartCloseSlideOutAnimation(false, path);
    }
  }
}
