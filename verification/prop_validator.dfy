/**
 * The type predicates every layer of the library uses to accept ids and
 * renderable content. `isValidElement` (React) is abstract: a value is an
 * element exactly when it is an `Element`.
 */
module PropValidator {
  import opened Js

  /** `typeof v === 'number' && !isNaN(v)` */
  predicate IsNum(v: Value) {
    v.Num?
  }

  /** `typeof v === 'string'` */
  predicate IsStr(v: Value) {
    v.Str?
  }

  /** `typeof v === 'function'` */
  predicate IsFn(v: Value) {
    v.Fn?
  }

  /** `React.isValidElement(v)` */
  predicate IsElement(v: Value) {
    v.Element?
  }

  predicate IsId(v: Value) {
    IsStr(v) || IsNum(v)
  }

  predicate CanBeRendered(v: Value) {
    IsElement(v) || IsStr(v) || IsFn(v) || IsNum(v)
  }

  /** An overlay id: a string or a (non-NaN) number. */
  type Id = v: Value | IsId(v) witness Str("")

  /** What an id generator hands out: an id that is also truthy. */
  type TruthyId = v: Value | IsId(v) && Truthy(v) witness Str("overlay")

  /** `NaN` is a number to `typeof` but neither an id nor renderable. */
  lemma NaNIsNeitherIdNorRenderable()
    ensures !IsNum(NaN) && !IsId(NaN) && !CanBeRendered(NaN)
  {
  }

  /** Booleans, `null` and `undefined` are never rendered; every id is renderable content. */
  lemma RenderableValues(v: Value)
    ensures v.Bool? || v == Null || v == Undefined ==> !CanBeRendered(v)
    ensures IsId(v) ==> CanBeRendered(v)
    ensures CanBeRendered(v) && !IsId(v) ==> IsFn(v) || IsElement(v)
  {
  }

  /** An id may still be falsy: `''` and `0` pass `isId`. */
  lemma FalsyIds()
    ensures IsId(Str("")) && !Truthy(Str(""))
    ensures IsId(Num(0)) && !Truthy(Num(0))
  {
  }
}
