/**
 * Rules shared by the four container observers (modal, alert dialog,
 * lightbox, bottom sheet): the last-active guard of a close, the counter
 * that never drops below zero, how one caller option overlays a default,
 * and the log of user callbacks (`onOpen` / `onClose`) an observer calls.
 */
module ObserverRules {
  import opened Js
  import opened PropValidator
  import opened RmoStack

  /** A user callback the observer has called, with the overlay it belongs to. */
  datatype Notice = OpenCalled(overlayId: Id, callback: Value) | CloseCalled(overlayId: Id, callback: Value)

  /** A build refused because an overlay with that id is already registered. */
  datatype BuildError = Duplicated(overlayId: Id)

  /**
   * How a registry's dispatch of a build to its containers ended: there was
   * nothing to do, every container built, or the container at
   * `containerIndex` (in registration order) threw and the rest were not asked.
   */
  datatype Dispatch = Skipped | Delivered | Threw(containerIndex: nat, error: BuildError)

  /** `active.at(-1) !== overlayId`: a close is ignored unless its overlay is the last active one. */
  function IgnoresClose(active: seq<Id>, overlayId: Id): (r: bool)
    ensures !r <==> |active| > 0 && active[|active| - 1] == overlayId
  {
    LastOr(active, Undefined) != overlayId
  }

  /** `count--; if (count < 0) count = 0;` */
  function Decremented(count: nat): (r: nat)
    ensures count > 0 ==> r + 1 == count
    ensures count == 0 ==> r == 0
  {
    if count - 1 < 0 then 0 else count - 1
  }

  /**
   * One scalar option after `enhancedMerge(defaults, options-without-null)`:
   * a caller value that is neither `null` nor `undefined` replaces the default.
   */
  function Overlay(default: Value, given: Value): (r: Value)
    ensures r == given || r == default
    ensures given != Null && given != Undefined ==> r == given
  {
    if given == Null || given == Undefined then default else given
  }

  /** The callback a push calls: `onOpen` when it is a function, nothing otherwise. */
  function OpenNotices(overlayId: Id, onOpen: Value): seq<Notice> {
    if IsFn(onOpen) then [OpenCalled(overlayId, onOpen)] else []
  }

  /** The callback a delete calls: `onClose` when it is a function, nothing otherwise. */
  function CloseNotices(overlayId: Id, onClose: Value): seq<Notice> {
    if IsFn(onClose) then [CloseCalled(overlayId, onClose)] else []
  }

  /**
   * The id an overlay gets from its push options: the caller's id when it is
   * a string or a number, and the generated one otherwise.
   */
  function ChooseId(requested: Value, generated: Id): (id: Id)
    ensures id == requested <==> IsId(requested)
    ensures id == requested || id == generated
  {
    if IsId(requested) then requested else generated
  }

  /**
   * Choosing again from a chosen id keeps it, so merging options that are
   * already merged changes nothing. The overlay stack files the entry under
   * the id the entry point returns exactly when the caller's id is not `''`
   * or `0`: those pass `isId` but not the stack's `options.id && isId(..)`,
   * and the stack replaces them with an id of its own.
   */
  lemma ChooseIdRules(requested: Value, generated: TruthyId, again: Id, stackGenerated: TruthyId)
    ensures ChooseId(ChooseId(requested, generated), again) == ChooseId(requested, generated)
    ensures ChosenId(ChooseId(requested, generated), stackGenerated) == ChooseId(requested, generated)
      <==> requested != Str("") && requested != Num(0)
  {
  }

  /** A caller option that is not `null` or `undefined` survives; one that is yields the default. */
  lemma OverlayKeepsDefaultOnlyWhenUnset(default: Value, given: Value)
    ensures Overlay(default, given) == default <==> given == Null || given == Undefined || given == default
    ensures Overlay(default, Overlay(default, given)) == Overlay(default, given)
  {
  }

  /**
   * The guarded close of an overlay is allowed for at most one id at a time:
   * two different ids cannot both be the last active one.
   */
  lemma AtMostOneCloseAllowed(active: seq<Id>, a: Id, b: Id)
    requires !IgnoresClose(active, a) && !IgnoresClose(active, b)
    ensures a == b
  {
  }

  /** Decrementing never goes below zero, and after an increment it undoes it. */
  lemma DecrementUndoesIncrement(count: nat)
    ensures Decremented(count + 1) == count
    ensures Decremented(count) <= count
  {
  }
}
