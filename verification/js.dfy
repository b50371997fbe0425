/**
 * The slice of JavaScript semantics the overlay library relies on:
 * dynamically typed values and their truthiness, `a || b`, `Array.prototype.at(-1)`,
 * `Array.prototype.slice(0, -1)`, the start index of `Array.prototype.splice(start)`,
 * and the depth number the library keeps in `history.state`.
 */
module Js {

  datatype Option<T> = None | Some(value: T) {
    function GetOr(default: T): T {
      if Some? then value else default
    }
  }

  datatype Result<T, E> = Ok(value: T) | Err(error: E)

  /**
   * A JavaScript value as far as the library inspects it. Numbers are
   * integers (fractional numbers play no part in ids, counts or depths);
   * `NaN` is kept apart because `isNum` rejects it. Functions, React
   * elements and other objects are identified by an opaque token.
   */
  datatype Value =
    | Undefined
    | Null
    | Bool(b: bool)
    | Num(n: int)
    | NaN
    | Str(s: string)
    | Fn(fnToken: nat)
    | Element(elementToken: nat)
    | Obj(objToken: nat)

  /** JavaScript truthiness: `false`, `0`, `NaN`, `''`, `null` and `undefined` are falsy. */
  predicate Truthy(v: Value) {
    match v
    case Undefined => false
    case Null => false
    case NaN => false
    case Bool(b) => b
    case Num(n) => n != 0
    case Str(s) => s != ""
    case Fn(_) => true
    case Element(_) => true
    case Obj(_) => true
  }

  /** `a || b` */
  function Or(a: Value, b: Value): Value {
    if Truthy(a) then a else b
  }

  /**
   * `Default.CONTAINER_ID`. The constants file is not part of this model; the
   * model only needs the default container id to be a truthy value.
   */
  const DEFAULT_CONTAINER_ID: Value := Str("default-container")

  /** `containerId || Default.CONTAINER_ID`, the rule every registry uses to name a container. */
  function ContainerIdOf(requested: Value): (id: Value)
    ensures Truthy(id)
    ensures Truthy(requested) ==> id == requested
    ensures !Truthy(requested) ==> id == DEFAULT_CONTAINER_ID
  {
    Or(requested, DEFAULT_CONTAINER_ID)
  }

  /** `(e.state?.rmoStackLength as number | null) || 0`: the depth a history entry records. */
  function RecordedDepth(state: Option<int>): int {
    state.GetOr(0)
  }

  /**
   * The index from which `array.splice(start)` removes elements when the
   * array has `len` elements: a negative start counts from the end and is
   * clamped at 0, a start past the end is clamped at `len`. `-0` is `0`.
   */
  function SpliceStart(len: nat, start: int): (k: nat)
    ensures k <= len
  {
    if start < 0 then (if len + start >= 0 then len + start else 0)
    else if start <= len then start
    else len
  }

  function Abs(x: int): nat {
    if x < 0 then -x else x
  }

  /** `array.at(-1)`, with `undefined` for an empty array. */
  function LastOr<T>(s: seq<T>, undefined: T): T {
    if |s| == 0 then undefined else s[|s| - 1]
  }

  /** `array.slice(0, -1)`: everything but the last element, and `[]` for `[]`. */
  function DropLast<T>(s: seq<T>): (r: seq<T>)
    ensures |s| > 0 ==> |r| == |s| - 1
    ensures |s| == 0 ==> r == []
    ensures forall i :: 0 <= i < |r| ==> r[i] == s[i]
  {
    if |s| == 0 then [] else s[..|s| - 1]
  }

  predicate Distinct<T(==)>(s: seq<T>) {
    forall i, j :: 0 <= i < j < |s| ==> s[i] != s[j]
  }

  function Elems<T(==)>(s: seq<T>): set<T> {
    set x | x in s
  }

  /** `array.indexOf(x)`: the first position of `x`, or -1. */
  function IndexOf<T(==)>(s: seq<T>, x: T): (i: int)
    ensures -1 <= i < |s|
    ensures i == -1 <==> x !in s
    ensures 0 <= i ==> s[i] == x && x !in s[..i]
  {
    if |s| == 0 then -1
    else if s[0] == x then 0
    else
      var j := IndexOf(s[1..], x);
      assert s[1..][..if j < 0 then 0 else j] == s[1..if j < 0 then 1 else j + 1];
      if j < 0 then -1 else j + 1
  }

  /** The sequence without the element `x` (a `Map.delete` on ordered keys). */
  function Without<T(==)>(s: seq<T>, x: T): (r: seq<T>)
    ensures Elems(r) == Elems(s) - {x}
    ensures Distinct(s) ==> Distinct(r)
    ensures x !in s ==> r == s
  {
    if |s| == 0 then []
    else
      var rest := Without(s[1..], x);
      assert s == [s[0]] + s[1..];
      assert Elems(s) == {s[0]} + Elems(s[1..]);
      assert Elems([s[0]] + rest) == {s[0]} + Elems(rest);
      assert Distinct(s) ==> s[0] !in Elems(s[1..]);
      if s[0] == x then rest else [s[0]] + rest
  }

  lemma {:induction false} ElemsOfSplit<T>(s: seq<T>, k: nat)
    requires k <= |s|
    requires Distinct(s)
    ensures Elems(s) == Elems(s[..k]) + Elems(s[k..])
    ensures Elems(s[..k]) !! Elems(s[k..])
  {
    assert s == s[..k] + s[k..];
    forall x | x in Elems(s[..k])
      ensures x !in Elems(s[k..])
    {
      var i :| 0 <= i < k && s[i] == x;
      assert forall j :: k <= j < |s| ==> s[j] != s[i];
    }
  }

  lemma ElemsOfSnoc<T>(s: seq<T>, x: T)
    ensures Elems(s + [x]) == Elems(s) + {x}
  {
  }

  /** A sequence without repetitions has as many distinct elements as entries. */
  lemma {:induction false} DistinctCount<T>(s: seq<T>)
    requires Distinct(s)
    ensures |Elems(s)| == |s|
  {
    if |s| > 0 {
      var prefix := s[..|s| - 1];
      assert s == prefix + [s[|s| - 1]];
      assert Distinct(prefix);
      DistinctCount(prefix);
      ElemsOfSnoc(prefix, s[|s| - 1]);
      assert s[|s| - 1] !in Elems(prefix);
    }
  }
}
