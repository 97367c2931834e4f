/**
 * `SidebarItem`: a navigation button with a text, an icon path and an active state.
 * Its dependency-property callbacks run only when a property's value actually changes, as WPF
 * calls them. Animations are reduced to the values they animate towards.
 */
module Sidebar {
  import opened Wrappers
  import opened Text
  import opened Colors
  import opened Presentation
  import opened ResourceImages

  /** The brush of the item's border. `MarkupBackground` is whatever the XAML sets. */
  datatype BackgroundBrush = MarkupBackground | ActiveGradient | TransparentBrush

  /** How `OnIconChanged` treats an icon path. */
  datatype IconRoute = NoIcon | FromResource(name: string) | FromPack(uri: string) | FromPathUri(uri: string)

  /** The text presenter is shown exactly when there is text. */
  function TextVisibilityFor(text: Option<string>): (v: Visibility)
    ensures v == Collapsed <==> IsNullOrEmpty(text)
    ensures v != Hidden
  {
    if IsNullOrEmpty(text) then Collapsed else Visible
  }

  /** The dispatch of `OnIconChanged` on the path's prefix. */
  function IconRouteOf(path: Option<string>): (route: IconRoute)
    ensures route == NoIcon <==> IsNullOrEmpty(path)
    ensures route.FromResource? <==> ValidateResourcePath(path).Success?
    ensures route.FromResource? ==> route.name == ValidateResourcePath(path).value
    ensures route.FromPack? ==> StartsWithIgnoreCase(path.value, PackPrefix) && route.uri == path.value
    ensures route.FromPathUri? ==> !StartsWithIgnoreCase(path.value, ResPrefix)
                                   && !StartsWithIgnoreCase(path.value, PackPrefix) && route.uri == path.value
  {
    if IsNullOrEmpty(path) then NoIcon
    else if StartsWithIgnoreCase(path.value, ResPrefix) then FromResource(path.value[6..])
    else if StartsWithIgnoreCase(path.value, PackPrefix) then FromPack(path.value)
    else FromPathUri(path.value)
  }

  /**
   * The icon `OnIconChanged` shows (`None` clears it). A resource path tries the embedded resource and,
   * only when no stream is found, the pack URI; any exception clears the icon.
   */
  function IconSourceFor(path: Option<string>, env: ImageSource -> Attempt): (icon: Option<Image>)
    ensures icon.Some? ==> icon.value.Bitmap? && env(icon.value.source) == Loaded
    ensures IsNullOrEmpty(path) ==> icon.None?
  {
    match IconRouteOf(path)
    case NoIcon => None
    case FromResource(name) =>
      var embedded := EmbeddedResource(EmbeddedResourceName(name));
      var pack := AbsoluteUri(ComponentUri + name);
      (match env(embedded)
       case Loaded => Some(Bitmap(embedded))
       case NotFound => if env(pack) == Loaded then Some(Bitmap(pack)) else None
       case Threw => None)
    case FromPack(uri) =>
      if env(AbsoluteUri(uri)) == Loaded then Some(Bitmap(AbsoluteUri(uri))) else None
    case FromPathUri(uri) =>
      if env(RelativeOrAbsoluteUri(uri)) == Loaded then Some(Bitmap(RelativeOrAbsoluteUri(uri))) else None
  }

  /**
   * For a `res://` path the item agrees with `ResourceImageLoader` whenever it shows an icon, and it
   * shows none exactly when the embedded load throws or neither of the first two sources loads.
   */
  lemma ResourceIconAgreesWithLoader(path: Option<string>, env: ImageSource -> Attempt)
    requires ValidateResourcePath(path).Success?
    ensures var name := ValidateResourcePath(path).value;
            var icon := IconSourceFor(path, env);
            var cs := Candidates(name);
            && (icon.Some? ==> icon.value == FirstLoaded(cs, env))
            && (icon.None? <==> env(cs[0]) == Threw || (env(cs[0]) == NotFound && env(cs[1]) != Loaded))
  {
    var name := ValidateResourcePath(path).value;
    var cs := Candidates(name);
    assert cs[1..][1..] == [cs[2]];
    assert cs[1..][1..][1..] == [];
  }

  /**
   * Whatever the route, the icon shown is the image of that route's source: a `pack://` path and any other
   * path show their URI's image exactly when it loads; a resource path shows the embedded image when it
   * loads, falls back to the pack URI only when no embedded stream is found, and shows nothing when the
   * embedded load throws.
   */
  lemma IconSourceFollowsRoute(path: Option<string>, env: ImageSource -> Attempt)
    ensures var icon := IconSourceFor(path, env);
            match IconRouteOf(path)
            case NoIcon => icon.None?
            case FromPack(uri) =>
              (icon.Some? <==> env(AbsoluteUri(uri)) == Loaded) && (icon.Some? ==> icon.value == Bitmap(AbsoluteUri(uri)))
            case FromPathUri(uri) =>
              (icon.Some? <==> env(RelativeOrAbsoluteUri(uri)) == Loaded)
              && (icon.Some? ==> icon.value == Bitmap(RelativeOrAbsoluteUri(uri)))
            case FromResource(name) =>
              var embedded := EmbeddedResource(EmbeddedResourceName(name));
              var pack := AbsoluteUri(ComponentUri + name);
              && (icon == Some(Bitmap(embedded)) <==> env(embedded) == Loaded)
              && (icon == Some(Bitmap(pack)) <==> env(embedded) == NotFound && env(pack) == Loaded)
              && (icon.Some? ==> icon.value in {Bitmap(embedded), Bitmap(pack)})
  {
  }

  /** The values `OnIsActiveChanged` sets or animates towards. */
  datatype ActiveVisuals = ActiveVisuals(background: BackgroundBrush, foreground: Color, iconSize: Option<int>)

  /**
   * Once `IsActive` has changed, the markup background and the unset icon size are gone, and the gradient,
   * the blue foreground and the larger icon each mark an active item.
   */
  function VisualsFor(active: bool): (v: ActiveVisuals)
    ensures v.background != MarkupBackground && v.iconSize.Some?
    ensures active <==> v.background == ActiveGradient
    ensures active <==> v.foreground == Blue
    ensures active <==> v.iconSize.value > 24
  {
    if active then ActiveVisuals(ActiveGradient, Blue, Some(28)) else ActiveVisuals(TransparentBrush, Black, Some(24))
  }

  class SidebarItem {
    var text: Option<string>
    var icon: Option<string>
    var isActive: bool
    var textVisibility: Visibility
    var iconSource: Option<Image>
    var background: BackgroundBrush
    /** The colour the foreground animation runs towards. */
    var foreground: Color
    /** The size the icon animation runs towards; `None` before any animation. */
    var iconSize: Option<int>
    /** How often `Click` has been raised. */
    var clicks: nat

    function Visuals(): ActiveVisuals
      reads this
    {
      ActiveVisuals(background, foreground, iconSize)
    }

    /** An active item always shows the active visuals: hovering never changes an active item. */
    ghost predicate Valid()
      reads this
    {
      isActive ==> Visuals() == VisualsFor(true)
    }

    constructor ()
      ensures Valid() && !isActive && text.None? && icon.None? && iconSource.None? && clicks == 0
      ensures textVisibility == Visible && background == MarkupBackground && foreground == Black && iconSize.None?
    {
      text, icon, isActive := None, None, false;
      textVisibility, iconSource := Visible, None;
      background, foreground, iconSize := MarkupBackground, Black, None;
      clicks := 0;
    }

    /** Setting `Text`: `OnTextChanged` runs when the value changes. */
    method SetText(t: Option<string>)
      modifies this`text, this`textVisibility
      ensures text == t
      ensures textVisibility == if t == old(text) then old(textVisibility) else TextVisibilityFor(t)
    {
      if t != text {
        text := t;
        textVisibility := TextVisibilityFor(t);
      }
    }

    /** Setting `Icon`: `OnIconChanged` runs when the value changes. */
    method SetIcon(p: Option<string>, env: ImageSource -> Attempt)
      modifies this`icon, this`iconSource
      ensures icon == p
      ensures iconSource == if p == old(icon) then old(iconSource) else IconSourceFor(p, env)
    {
      if p != icon {
        icon := p;
        iconSource := IconSourceFor(p, env);
      }
    }

    /** Setting `IsActive`: `OnIsActiveChanged` sets the background and the animation targets on a change. */
    method SetIsActive(v: bool)
      requires Valid()
      modifies this`isActive, this`background, this`foreground, this`iconSize
      ensures Valid() && isActive == v
      ensures Visuals() == if v == old(isActive) then old(Visuals()) else VisualsFor(v)
    {
      if v != isActive {
        isActive := v;
        background := if v then ActiveGradient else TransparentBrush;
        foreground := if v then Blue else Black;
        iconSize := if v then Some(28) else Some(24);
      }
    }

    /** `MouseEnter`: an inactive item takes the active background (the source passes `true`). */
    method MouseEnter()
      requires Valid()
      modifies this`background
      ensures Valid()
      ensures background == if old(isActive) then old(background) else ActiveGradient
    {
      if !isActive {
        background := ActiveGradient;
      }
    }

    /** `MouseLeave`: an inactive item goes back to the transparent background. */
    method MouseLeave()
      requires Valid()
      modifies this`background
      ensures Valid()
      ensures background == if old(isActive) then old(background) else TransparentBrush
    {
      if !isActive {
        background := TransparentBrush;
      }
    }

    /** `MouseLeftButtonUp` raises `Click`. */
    method MouseLeftButtonUp()
      modifies this`clicks
      ensures clicks == old(clicks) + 1
    {
      clicks := clicks + 1;
    }
  }
}
