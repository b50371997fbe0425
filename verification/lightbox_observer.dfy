/**
 * A lightbox container's observer: the same shape as the alert-dialog one,
 * with the `className` rule (joined with a space) instead of class maps. Its
 * counter is exposed under the getter name `alertDialogCount`.
 */
module LightboxObserver {
  import opened Js
  import opened PropValidator
  import opened StyleProps
  import opened ObserverRules
  import opened RmoStack

  datatype LightboxDefaults = LightboxDefaults(className: Option<string>, onOpen: Value, onClose: Value)

  /** A caller's options; the observer's build receives them with an id as `lightboxId`. */
  datatype LightboxOptions = LightboxOptions(
    lightboxId: Value,
    containerId: Value,
    className: StyleProp<string>,
    onOpen: Value,
    onClose: Value)

  datatype LightboxProps = LightboxProps(
    lightboxId: Id,
    containerId: Value,
    className: Option<string>,
    onOpen: Value,
    onClose: Value)

  /** The props `buildLightbox` computes from the container's defaults and the caller's options. */
  function LightboxPropsFor(defaults: LightboxDefaults, options: LightboxOptions, lightboxId: Id, containerId: Value): LightboxProps {
    LightboxProps(
      lightboxId,
      containerId,
      ResolveClassName(defaults.className, options.className),
      Overlay(defaults.onOpen, options.onOpen),
      Overlay(defaults.onClose, options.onClose))
  }

  /**
   * A built lightbox belongs to its id and to the building container; a
   * non-empty caller class name is appended to a non-empty default one; with
   * no caller class name, an empty default leaves the prop unset; the
   * caller's callbacks replace the defaults unless they are unset.
   */
  lemma LightboxPropsRules(defaults: LightboxDefaults, options: LightboxOptions, lightboxId: Id, containerId: Value)
    ensures var p := LightboxPropsFor(defaults, options, lightboxId, containerId);
      && p.lightboxId == lightboxId && p.containerId == containerId
      && (defaults.className.Some? && defaults.className.value != "" && options.className.Given? && options.className.value != "" ==>
            p.className == Some(defaults.className.value + " " + options.className.value))
      && (options.className.Unset? ==> p.className == if defaults.className == Some("") then None else defaults.className)
      && (options.onOpen != Null && options.onOpen != Undefined ==> p.onOpen == options.onOpen)
      && (options.onClose != Null && options.onClose != Undefined ==> p.onClose == options.onClose)
  {
    if defaults.className.Some? && options.className.Given? {
      ClassNameRule(defaults.className.value, options.className.value);
    }
  }

  class LightboxContainer {
    const id: Value
    var defaultOptions: LightboxDefaults
    var lightboxCount: nat
    var activeLightboxes: seq<Id>
    var lightboxed: map<Id, LightboxProps>
    var notices: seq<Notice>

    /** Every registered lightbox is stored under its own id. */
    ghost predicate Valid()
      reads this
    {
      forall k :: k in lightboxed ==> lightboxed[k].lightboxId == k
    }

    /** `createContainerObserver(id, containerDefaultOptions)` */
    constructor (containerId: Value, containerDefaultOptions: LightboxDefaults)
      ensures Valid()
      ensures id == containerId && defaultOptions == containerDefaultOptions
      ensures lightboxCount == 0 && activeLightboxes == [] && lightboxed == map[] && notices == []
    {
      id := containerId;
      defaultOptions := containerDefaultOptions;
      lightboxCount := 0;
      activeLightboxes := [];
      lightboxed := map[];
      notices := [];
    }

    /** The `alertDialogCount` getter, which reports the lightbox counter. */
    function AlertDialogCount(): nat
      reads this
    {
      lightboxCount
    }

    /**
     * `isLightboxActive(id)`: whether the id is among the shown ones. Only an id can be
     * active, nothing is active in an empty container, and the last one shown
     * (the only one a close is allowed for) is active; a push makes its id
     * active and a pop keeps the closed id active only if it was shown twice.
     */
    function IsLightboxActive(lightboxId: Value): (r: bool)
      reads this
      ensures r ==> IsId(lightboxId) && |activeLightboxes| > 0
      ensures |activeLightboxes| > 0 && activeLightboxes[|activeLightboxes| - 1] == lightboxId ==> r
    {
      lightboxId in activeLightboxes
    }

    /** `shouldIgnorePop(lightboxId)` */
    function ShouldIgnorePop(lightboxId: Id): (r: bool)
      reads this
      ensures !r <==> |activeLightboxes| > 0 && activeLightboxes[|activeLightboxes| - 1] == lightboxId
    {
      IgnoresClose(activeLightboxes, lightboxId)
    }

    /** `popLightbox()`: drop the last active id; the registered lightboxes stay. */
    method PopLightbox()
      modifies this`activeLightboxes
      ensures |old(activeLightboxes)| > 0 ==> activeLightboxes == old(activeLightboxes)[..|old(activeLightboxes)| - 1]
      ensures |old(activeLightboxes)| == 0 ==> activeLightboxes == []
      ensures forall x :: IsLightboxActive(x) ==> old(IsLightboxActive(x))
      ensures |old(activeLightboxes)| > 0 ==>
        var closed := old(activeLightboxes)[|old(activeLightboxes)| - 1];
        (IsLightboxActive(closed) <==> closed in old(activeLightboxes)[..|old(activeLightboxes)| - 1])
    {
      activeLightboxes := DropLast(activeLightboxes);
    }

    /** `pushLightbox(lightbox)`: register, make last active, then call `onOpen`. */
    method PushLightbox(lightbox: LightboxProps)
      requires Valid()
      modifies this`lightboxed, this`activeLightboxes, this`notices
      ensures Valid()
      ensures lightboxed == old(lightboxed)[lightbox.lightboxId := lightbox]
      ensures activeLightboxes == old(activeLightboxes) + [lightbox.lightboxId]
      ensures notices == old(notices) + OpenNotices(lightbox.lightboxId, lightbox.onOpen)
      ensures IsLightboxActive(lightbox.lightboxId)
      ensures forall x :: old(IsLightboxActive(x)) ==> IsLightboxActive(x)
    {
      var lightboxId := lightbox.lightboxId;
      lightboxed := lightboxed[lightboxId := lightbox];
      activeLightboxes := activeLightboxes + [lightboxId];
      if IsFn(lightbox.onOpen) {
        notices := notices + [OpenCalled(lightboxId, lightbox.onOpen)];
      }
    }

    /**
     * `buildLightbox(options)`: refuse a registered id before touching
     * anything; otherwise count the lightbox and return its props, without
     * registering them.
     */
    method BuildLightbox(options: LightboxOptions) returns (r: Result<LightboxProps, BuildError>)
      requires IsId(options.lightboxId)
      modifies this`lightboxCount
      ensures options.lightboxId in lightboxed ==>
        r == Err(Duplicated(options.lightboxId)) && lightboxCount == old(lightboxCount)
      ensures options.lightboxId !in lightboxed ==>
        && r == Ok(LightboxPropsFor(defaultOptions, options, options.lightboxId, id))
        && lightboxCount == old(lightboxCount) + 1
    {
      var lightboxId: Id := options.lightboxId;
      if lightboxId in lightboxed {
        return Err(Duplicated(lightboxId));
      }
      lightboxCount := lightboxCount + 1;
      r := Ok(LightboxPropsFor(defaultOptions, options, lightboxId, id));
    }

    /**
     * `closeLightbox()` of the lightbox `lightboxId`: nothing unless it is the
     * last active one; otherwise pop it and ask the overlay stack to pop its
     * entry with callbacks suppressed.
     */
    method CloseLightbox(lightboxId: Id, stack: OverlayStack)
      requires stack.Valid()
      modifies this`activeLightboxes, stack
      ensures stack.Valid()
      ensures old(ShouldIgnorePop(lightboxId)) ==> activeLightboxes == old(activeLightboxes) && unchanged(stack)
      ensures !old(ShouldIgnorePop(lightboxId)) ==>
        && activeLightboxes == old(activeLightboxes)[..|old(activeLightboxes)| - 1]
        && stack.SingleReleased(lightboxId, true)
    {
      if ShouldIgnorePop(lightboxId) {
        return;
      }
      PopLightbox();
      stack.Pop(PopOne(lightboxId, true));
    }

    /**
     * `deleteLightbox()` of the lightbox `lightboxId`: call its `onClose`,
     * forget it and decrement the counter, never below zero. An unregistered
     * id makes the source fail on reading its props; the model reports it and
     * changes nothing.
     */
    method DeleteLightbox(lightboxId: Id) returns (deleted: bool)
      requires Valid()
      modifies this`lightboxed, this`lightboxCount, this`notices
      ensures Valid()
      ensures deleted <==> lightboxId in old(lightboxed)
      ensures !deleted ==>
        lightboxed == old(lightboxed) && lightboxCount == old(lightboxCount) && notices == old(notices)
      ensures deleted ==>
        && lightboxed == old(lightboxed) - {lightboxId}
        && lightboxCount == Decremented(old(lightboxCount))
        && notices == old(notices) + CloseNotices(lightboxId, old(lightboxed)[lightboxId].onClose)
    {
      if lightboxId !in lightboxed {
        return false;
      }
      var onClose := lightboxed[lightboxId].onClose;
      if IsFn(onClose) {
        notices := notices + [CloseCalled(lightboxId, onClose)];
      }
      lightboxed := lightboxed - {lightboxId};
      lightboxCount := Decremented(lightboxCount);
      deleted := true;
    }

    /** `setDefaultOptions(d)` */
    method SetDefaultOptions(d: LightboxDefaults)
      modifies this`defaultOptions
      ensures defaultOptions == d
    {
      defaultOptions := d;
    }
  }
}
