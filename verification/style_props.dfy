/**
 * The prop-resolution rules the container observers apply when they build
 * an overlay's props from the container's defaults and the caller's options:
 * the class-name rule (shared by all four observers), the close-button /
 * header rule of modals, and the footer / sibling rule of bottom sheets.
 */
module StyleProps {
  import opened Js
  import opened PropValidator
  import opened MergeClasses

  /** A caller's `classes` / `className`: absent, a value, or a function of the default. */
  datatype StyleProp<!T> = Unset | Given(value: T) | Computed(f: Option<T> -> Option<T>)

  /**
   * The four-way rule: a function is applied to the default; a truthy default
   * and a truthy given value are combined; a truthy default alone is used;
   * otherwise the given value is used as it is.
   */
  function ResolveStyle<T>(default: Option<T>, given: StyleProp<T>, truthy: T -> bool, combine: (T, T) -> T): Option<T> {
    match given
    case Computed(f) => f(default)
    case _ =>
      if default.Some? && truthy(default.value) then
        if given.Given? && truthy(given.value) then Some(combine(default.value, given.value))
        else default
      else if given.Given? then Some(given.value)
      else None
  }

  /** Class maps are objects, and every object is truthy. */
  predicate ClassMapTruthy(m: ClassMap) {
    true
  }

  predicate ClassNameTruthy(s: string) {
    s != ""
  }

  /** `clsx(a, b)` on two non-empty class names joins them with a space. */
  function Clsx(a: string, b: string): string {
    a + " " + b
  }

  /** The `classes` rule of modals and alert dialogs, combining with `mergeClasses`. */
  function ResolveClasses(default: Option<ClassMap>, given: StyleProp<ClassMap>): Option<ClassMap> {
    ResolveStyle(default, given, ClassMapTruthy, Merged)
  }

  /** The `className` rule of lightboxes and bottom sheets, combining with `clsx`. */
  function ResolveClassName(default: Option<string>, given: StyleProp<string>): Option<string> {
    ResolveStyle(default, given, ClassNameTruthy, Clsx)
  }

  /**
   * With a default class map present, a caller's class map never drops a
   * default slot: the result has every slot of both, each default class is
   * kept as a prefix, and each given class ends the slot's value. Without a
   * default, the given map (or nothing) is used unchanged.
   */
  lemma ClassesKeepDefaults(default: Option<ClassMap>, given: ClassMap)
    ensures default.Some? ==>
      var r := ResolveClasses(default, Given(given));
      && r.Some?
      && r.value.Keys == default.value.Keys + given.Keys
      && (forall key :: key in default.value ==> default.value[key] <= r.value[key])
    ensures default.None? ==> ResolveClasses(default, Given(given)) == Some(given)
    ensures ResolveClasses(default, Unset) == default
  {
    if default.Some? {
      var r := ResolveClasses(default, Given(given));
      assert r == Some(Merged(default.value, given));
      MergedKeys(default.value, given);
      forall key | key in default.value
        ensures default.value[key] <= r.value[key]
      {
        MergedKeepsBoth(default.value, given, key);
      }
    }
  }

  /**
   * The class-name rule: a non-empty default and a non-empty given name are
   * both kept; an empty given name falls back to the default; with no
   * non-empty default, the given name is used as it is.
   */
  lemma ClassNameRule(default: string, given: string)
    ensures default != "" && given != "" ==> ResolveClassName(Some(default), Given(given)) == Some(default + " " + given)
    ensures default != "" && given == "" ==> ResolveClassName(Some(default), Given(given)) == Some(default)
    ensures default == "" ==> ResolveClassName(Some(default), Given(given)) == Some(given)
    ensures ResolveClassName(None, Given(given)) == Some(given)
  {
  }

  /**
   * `closeButton` / `header`: `false` or a renderable value from the caller
   * wins; `true` asks for the default when that is renderable and is kept as
   * `true` otherwise; anything else keeps the default.
   */
  function ResolveControl(default: Value, given: Value): (r: Value)
    ensures r == given || r == default || r == Bool(true)
    ensures r == Bool(true) ==> given == Bool(true) || default == Bool(true)
  {
    if given == Bool(false) || CanBeRendered(given) then given
    else if given == Bool(true) then (if CanBeRendered(default) then default else Bool(true))
    else default
  }

  /**
   * The rule is a projection: resolving the resolved value again against
   * the same default changes nothing, a caller's explicit `false` always
   * hides the control whatever the default, and a caller's `true` shows the
   * default when it can be rendered and stays `true` otherwise.
   */
  lemma ResolveControlStable(default: Value, given: Value)
    ensures ResolveControl(default, ResolveControl(default, given)) == ResolveControl(default, given)
    ensures ResolveControl(default, Bool(false)) == Bool(false)
    ensures CanBeRendered(default) && !(given == Bool(false) || CanBeRendered(given)) ==> ResolveControl(default, given) == default
    ensures ResolveControl(default, Bool(true)) == (if CanBeRendered(default) then default else Bool(true))
  {
  }

  /** A resolved footer or sibling: unset, the result of calling a function, or a clone of an element. */
  datatype Slot = NoSlot | RenderedBy(renderer: Value) | ClonedFrom(element: Value)

  /**
   * `footer` / `sibling`: `false` or a renderable value from the caller
   * overrides the default; the chosen value is kept only when it is a
   * function (called with the render props) or an element (cloned).
   */
  function ResolveSlot(default: Value, given: Value): (r: Slot)
    ensures r.RenderedBy? ==> IsFn(r.renderer) && (r.renderer == given || r.renderer == default)
    ensures r.ClonedFrom? ==> IsElement(r.element) && (r.element == given || r.element == default)
  {
    var chosen := if given == Bool(false) || CanBeRendered(given) then given else default;
    if Truthy(chosen) then
      if IsFn(chosen) then RenderedBy(chosen)
      else if IsElement(chosen) then ClonedFrom(chosen)
      else NoSlot
    else NoSlot
  }

  /**
   * A caller's `false` removes the default slot; a string or number slot is
   * renderable, so it overrides the default, and then is dropped because it
   * is neither a function nor an element.
   */
  lemma SlotOverrides(default: Value, given: Value)
    ensures ResolveSlot(default, Bool(false)) == NoSlot
    ensures IsStr(given) || IsNum(given) ==> ResolveSlot(default, given) == NoSlot
    ensures IsFn(given) ==> ResolveSlot(default, given) == RenderedBy(given)
    ensures IsElement(given) ==> ResolveSlot(default, given) == ClonedFrom(given)
    ensures !(given == Bool(false) || CanBeRendered(given)) ==> ResolveSlot(default, given) == ResolveSlot(default, default)
  {
  }
}
