/**
 * The `Focusable` component: it picks the focus key, selects the values to
 * inject into its child for the focused and blurred states by the declared
 * value kind, and through `FocusableWrapper` calls the user `onFocus` with the
 * focusable path on each focus gain.
 */
module Focusable {
  import opened Wrappers
  import opened Edges

  /** The `focusPropType` property. */
  datatype FocusPropType = StringType | BooleanType | NumberType | ColorType

  /** A value injected into the child, tagged by its kind. */
  datatype PropValue =
    | StringValue(str: string)
    | BooleanValue(boolean: bool)
    | NumberValue(number: real)
    | ColorValue(color: string)

  function KindOf(v: PropValue): FocusPropType {
    match v
    case StringValue(_) => StringType
    case BooleanValue(_) => BooleanType
    case NumberValue(_) => NumberType
    case ColorValue(_) => ColorType
  }

  /** `v` is one of the four values offered, each taken as its own kind. */
  predicate OneOf(v: PropValue, str: string, boolean: bool, number: real, color: string) {
    v == StringValue(str) || v == BooleanValue(boolean) || v == NumberValue(number) || v == ColorValue(color)
  }

  /** `getFocusedValue`: the focused value of the declared kind. */
  function GetFocusedValue(focusPropType: FocusPropType, focusedValueString: string, focusedValueBoolean: bool,
                           focusedValueNumber: real, focusedValueColor: string): (r: PropValue)
    ensures KindOf(r) == focusPropType
    ensures OneOf(r, focusedValueString, focusedValueBoolean, focusedValueNumber, focusedValueColor)
  {
    match focusPropType
    case StringType => StringValue(focusedValueString)
    case BooleanType => BooleanValue(focusedValueBoolean)
    case NumberType => NumberValue(focusedValueNumber)
    case ColorType => ColorValue(focusedValueColor)
  }

  /** `getBlurredValue`: the blurred value of the declared kind. */
  function GetBlurredValue(focusPropType: FocusPropType, blurredValueString: string, blurredValueBoolean: bool,
                           blurredValueNumber: real, blurredValueColor: string): (r: PropValue)
    ensures KindOf(r) == focusPropType
    ensures OneOf(r, blurredValueString, blurredValueBoolean, blurredValueNumber, blurredValueColor)
  {
    match focusPropType
    case StringType => StringValue(blurredValueString)
    case BooleanType => BooleanValue(blurredValueBoolean)
    case NumberType => NumberValue(blurredValueNumber)
    case ColorType => ColorValue(blurredValueColor)
  }

  /**
   * A kind and the four offered values determine the selection: the two
   * contracts above leave exactly one possible result.
   */
  lemma SelectionIsDetermined(v: PropValue, w: PropValue, str: string, boolean: bool, number: real, color: string)
    requires KindOf(v) == KindOf(w)
    requires OneOf(v, str, boolean, number, color) && OneOf(w, str, boolean, number, color)
    ensures v == w
  {
  }

  /** The properties of a `Focusable` that this model reads. */
  datatype FocusableProps = FocusableProps(
    focusableKey: Option<string>,
    hasOnFocus: bool,
    focusProp: string,
    focusPropType: FocusPropType,
    focusedValueString: string,
    focusedValueBoolean: bool,
    focusedValueNumber: real,
    focusedValueColor: string,
    blurredValueString: string,
    blurredValueBoolean: bool,
    blurredValueNumber: real,
    blurredValueColor: string
  )

  /** A JavaScript string is truthy when it is defined and not empty. */
  predicate Truthy(s: Option<string>) {
    s.Some? && s.value != ""
  }

  /** `focusableKey || randomKey`. */
  function FocusKey(focusableKey: Option<string>, randomKey: string): (r: string)
    ensures Truthy(focusableKey) ==> r == focusableKey.value
    ensures !Truthy(focusableKey) ==> r == randomKey
    ensures randomKey != "" ==> r != ""
  {
    if Truthy(focusableKey) then focusableKey.value else randomKey
  }

  /**
   * The value injected into the child under `focusProp`: the focused value of
   * the declared kind while focused, the blurred one otherwise.
   */
  function InjectedValue(p: FocusableProps, focused: bool): (r: PropValue)
    ensures KindOf(r) == p.focusPropType
    ensures focused ==> OneOf(r, p.focusedValueString, p.focusedValueBoolean, p.focusedValueNumber, p.focusedValueColor)
    ensures !focused ==> OneOf(r, p.blurredValueString, p.blurredValueBoolean, p.blurredValueNumber, p.blurredValueColor)
  {
    var focusedValue := GetFocusedValue(p.focusPropType, p.focusedValueString, p.focusedValueBoolean,
                                        p.focusedValueNumber, p.focusedValueColor);
    var blurredValue := GetBlurredValue(p.focusPropType, p.blurredValueString, p.blurredValueBoolean,
                                        p.blurredValueNumber, p.blurredValueColor);
    if focused then focusedValue else blurredValue
  }

  /**
   * `FocusableWrapper` with its `usePrevious(focused, focused)`: the previous
   * cell starts at the mounting value and is overwritten after each render.
   */
  class FocusableWrapper {
    var prevFocused: bool

    constructor (focused: bool)
      ensures prevFocused == focused
    {
      prevFocused := focused;
    }

    /**
     * One render and commit. The wrapper's own `onFocus`, which the component
     * always passes, fires on a focus gain; it forwards the render's `path` to
     * the user `onFocus` when there is one. Returns the path the user callback
     * received, if it was called.
     */
    method Render(focused: bool, path: seq<string>, hasOnFocus: bool) returns (delivered: Option<seq<string>>)
      modifies this
      ensures prevFocused == focused
      ensures delivered == if Rising(old(prevFocused), focused) && hasOnFocus then Some(path) else None
    {
      var prev := prevFocused;
      delivered := None;
      if prev != focused {
        if focused {
          if hasOnFocus {
            delivered := Some(path);
          }
        }
      }
      prevFocused := focused;
    }
  }

  /**
   * A mounted `Focusable`: its random key is drawn once at mount (its
   * generator is left out), and the wrapper is mounted with the first focus
   * state the focus tree reports.
   */
  class FocusableInstance {
    const randomKey: string
    const wrapper: FocusableWrapper

    constructor (randomKey: string, focused: bool)
      requires randomKey != ""
      ensures this.randomKey == randomKey
      ensures fresh(wrapper) && wrapper.prevFocused == focused
    {
      this.randomKey := randomKey;
      wrapper := new FocusableWrapper(focused);
    }

    /**
     * One render with the focus tree's `focused` and `path`: the key the
     * focusable registers with, the value injected into the child, and the
     * path handed to the user `onFocus`. The drawn key is a decimal numeral,
     * so it is never empty, and neither is the registered key.
     */
    method Render(p: FocusableProps, focused: bool, path: seq<string>)
      returns (focusKey: string, injected: PropValue, delivered: Option<seq<string>>)
      requires randomKey != ""
      modifies wrapper
      ensures focusKey == FocusKey(p.focusableKey, randomKey)
      ensures focusKey != ""
      ensures injected == InjectedValue(p, focused)
      ensures wrapper.prevFocused == focused
      ensures delivered == if Rising(old(wrapper.prevFocused), focused) && p.hasOnFocus then Some(path) else None
    {
      focusKey := FocusKey(p.focusableKey, randomKey);
      injected := InjectedValue(p, focused);
      delivered := wrapper.Render(focused, path, p.hasOnFocus);
    }
  }
}
