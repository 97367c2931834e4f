/**
 * `VirtualKeyboard`: a grid of key buttons whose `Tag` names a key. A click selects the button's key and
 * raises `KeySelected`; refreshing highlights the button of the selected key and clears the others. The
 * file also holds the value converters the keyboard's markup binds to.
 */
module Keyboard {
  import opened Wrappers
  import opened Colors
  import opened Presentation

  /** A `System.Windows.Input.Key` value; `KeyNone` (0) is the default of an unset field. */
  type Key = nat

  const KeyNone: Key := 0

  /** A button's `Tag`: a string, or anything else (including `null`). */
  datatype Tag = TextTag(name: string) | OtherTag

  /** A button's `Background`: cleared to the style's value, the theme's brush, or the fallback gradient. */
  datatype ButtonBackground = ClearedBackground | SecondaryHueMidBrush | FallbackGradient(base: Color) | StyledBackground

  class KeyButton {
    var tag: Tag
    var background: ButtonBackground

    constructor (tag: Tag)
      ensures this.tag == tag && background == StyledBackground
    {
      this.tag := tag;
      background := StyledBackground;
    }
  }

  /** The `sender` of a click, and a child of the keyboard's grid: a button or some other element. */
  datatype Sender = ButtonSender(button: KeyButton) | OtherSender

  datatype Child = ButtonChild(button: KeyButton) | OtherChild

  /** The buttons among some grid children. */
  function Buttons(cs: seq<Child>): (bs: set<KeyButton>)
    ensures forall i :: 0 <= i < |cs| && cs[i].ButtonChild? ==> cs[i].button in bs
    ensures forall b :: b in bs ==> exists i :: 0 <= i < |cs| && cs[i] == ButtonChild(b)
  {
    set i | 0 <= i < |cs| && cs[i].ButtonChild? :: cs[i].button
  }

  /** Taking one more child adds its button, if it is one. */
  lemma ButtonsOfLonger(cs: seq<Child>, i: nat)
    requires i < |cs|
    ensures Buttons(cs[..i + 1]) == Buttons(cs[..i]) + (if cs[i].ButtonChild? then {cs[i].button} else {})
  {
    var a := Buttons(cs[..i + 1]);
    var b := Buttons(cs[..i]) + (if cs[i].ButtonChild? then {cs[i].button} else {});
    forall x | x in a ensures x in b {
      var j :| 0 <= j < i + 1 && cs[..i + 1][j] == ButtonChild(x);
      if j < i {
        assert cs[..i][j] == ButtonChild(x);
      }
    }
    forall x | x in b ensures x in a {
      if x in Buttons(cs[..i]) {
        var j :| 0 <= j < i && cs[..i][j] == ButtonChild(x);
        assert cs[..i + 1][j] == ButtonChild(x);
      } else {
        assert cs[..i + 1][i] == ButtonChild(x);
      }
    }
  }

  class VirtualKeyboard {
    /** `Enum.TryParse<Key>`: `None` when the name is not a key. */
    const parseKey: string -> Option<Key>
    /**
     * Whether the `SecondaryHueMidBrush` resource, which the theme always supplies, is a `Brush`; a theme
     * without the resource is not modelled.
     */
    const secondaryIsBrush: bool
    /** `MainGrid.Children`, fixed by the markup. */
    const children: seq<Child>
    /** `_selectedKey`. */
    var selectedKey: Key
    /** The keys `KeySelected` has been raised with. */
    var raised: seq<Key>

    constructor (parseKey: string -> Option<Key>, secondaryIsBrush: bool, children: seq<Child>)
      ensures this.parseKey == parseKey && this.secondaryIsBrush == secondaryIsBrush && this.children == children
      ensures selectedKey == KeyNone && raised == []
    {
      this.parseKey := parseKey;
      this.secondaryIsBrush := secondaryIsBrush;
      this.children := children;
      selectedKey := KeyNone;
      raised := [];
    }

    /** The key a button stands for: its string tag parsed as a key. */
    function ButtonKey(b: KeyButton): (k: Option<Key>)
      reads b
      ensures k.Some? ==> b.tag.TextTag? && parseKey(b.tag.name) == k
      ensures b.tag.TextTag? ==> k == parseKey(b.tag.name)
    {
      match b.tag
      case TextTag(name) => parseKey(name)
      case OtherTag => None
    }

    /** The highlight brush: the theme's brush, or a light-blue gradient when the resource is no brush. */
    function Highlight(): (bg: ButtonBackground)
      ensures bg == SecondaryHueMidBrush <==> secondaryIsBrush
      ensures !secondaryIsBrush ==> bg == FallbackGradient(LightBlue)
    {
      if secondaryIsBrush then SecondaryHueMidBrush else FallbackGradient(LightBlue)
    }

    /** The background a refresh leaves on a button whose background was `prior`. */
    function Refreshed(b: KeyButton, prior: ButtonBackground): (bg: ButtonBackground)
      reads this, b
      ensures ButtonKey(b).None? ==> bg == prior
      ensures ButtonKey(b) == Some(selectedKey) ==> bg == Highlight()
      ensures ButtonKey(b).Some? && ButtonKey(b) != Some(selectedKey) ==> bg == ClearedBackground
    {
      match ButtonKey(b)
      case None => prior
      case Some(k) => if k == selectedKey then Highlight() else ClearedBackground
    }

    /** `KeyButton_Click`: a button whose tag names a key selects it and raises `KeySelected` once. */
    method KeyButtonClick(sender: Sender)
      modifies this`selectedKey, this`raised
      ensures sender.ButtonSender? && ButtonKey(sender.button).Some? ==>
                selectedKey == ButtonKey(sender.button).value && raised == old(raised) + [selectedKey]
      ensures !(sender.ButtonSender? && ButtonKey(sender.button).Some?) ==>
                selectedKey == old(selectedKey) && raised == old(raised)
    {
      if sender.ButtonSender? && sender.button.tag.TextTag? {
        var parsed := parseKey(sender.button.tag.name);
        if parsed.Some? {
          selectedKey := parsed.value;
          raised := raised + [parsed.value];
        }
      }
    }

    /** `UpdateButtonVisualState`: highlight the selected key's button, clear the others, skip unknown tags. */
    method UpdateButtonVisualState(b: KeyButton)
      modifies b`background
      ensures b.background == Refreshed(b, old(b.background))
    {
      if b.tag.TextTag? {
        var parsed := parseKey(b.tag.name);
        if parsed.Some? {
          if parsed.value == selectedKey {
            b.background := Highlight();
          } else {
            b.background := ClearedBackground;
          }
        }
      }
    }

    /** `RefreshVisualState`: update every button of the grid, and nothing else. */
    method RefreshVisualState()
      modifies Buttons(children)`background
      ensures forall b :: b in Buttons(children) ==> b.background == Refreshed(b, old(b.background))
    {
      var i := 0;
      while i < |children|
        invariant 0 <= i <= |children|
        invariant forall b :: b in Buttons(children) ==>
                    b.background == if b in Buttons(children[..i]) then Refreshed(b, old(b.background)) else old(b.background)
      {
        ButtonsOfLonger(children, i);
        if children[i].ButtonChild? {
          UpdateButtonVisualState(children[i].button);
        }
        i := i + 1;
      }
      assert children[..i] == children;
    }

    /** `GetKeySound`: no sound is stored for any key. */
    method GetKeySound(key: Key) returns (path: Option<string>)
      ensures path.None?
    {
      path := None;
    }

    /** `SetKeySound`: ignored. */
    method SetKeySound(key: Key, soundPath: string)
      ensures unchanged(this)
    {
    }
  }

  /** A `double` as a binding delivers it. */
  datatype Double = Finite(x: real) | PositiveInfinity | NegativeInfinity | NaN

  /** `width > 0` on a `double`: false for NaN. */
  predicate IsPositive(d: Double) {
    (d.Finite? && d.x > 0.0) || d.PositiveInfinity?
  }

  /** A boxed binding value: a `bool`, a `double`, or anything else. */
  datatype Boxed = BoxedBool(b: bool) | BoxedDouble(d: Double) | OtherValue

  /** `WidthToVisibilityConverter.Convert`. */
  function WidthToVisibility(v: Boxed): (r: Visibility)
    ensures r == Hidden <==> v.BoxedDouble? && !IsPositive(v.d)
    ensures r != Collapsed
  {
    match v
    case BoxedDouble(d) => if IsPositive(d) then Visible else Hidden
    case _ => Visible
  }

  /** `BoolToVisibilityConverter.Convert`. */
  function BoolToVisibility(v: Boxed): (r: Visibility)
    ensures r == Visible <==> v == BoxedBool(true)
    ensures r != Hidden
  {
    match v
    case BoxedBool(b) => if b then Visible else Collapsed
    case _ => Collapsed
  }

  /** `BoolToVisibilityInverseConverter.Convert`. */
  function BoolToVisibilityInverse(v: Boxed): (r: Visibility)
    ensures r == Collapsed <==> v == BoxedBool(true)
    ensures r != Hidden
  {
    match v
    case BoxedBool(b) => if b then Collapsed else Visible
    case _ => Visible
  }

  /** The two boolean converters never agree, whatever the value; for a `bool` they swap. */
  lemma InverseConverterDisagrees(v: Boxed)
    ensures BoolToVisibility(v) != BoolToVisibilityInverse(v)
    ensures v.BoxedBool? ==> BoolToVisibilityInverse(v) == BoolToVisibility(BoxedBool(!v.b))
  {
  }
}
