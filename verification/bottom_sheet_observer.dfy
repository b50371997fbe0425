/**
 * A bottom-sheet container's observer. Unlike the other observers, its build
 * decides by itself whether the sheet is meant for this container, and a
 * build that is not ignored registers and activates the sheet at once.
 * Closing a sheet pops the last active id with no last-active guard.
 */
module BottomSheetObserver {
  import opened Js
  import opened PropValidator
  import opened StyleProps
  import opened ObserverRules

  /** The container's props (`IBottomSheetContainerProps`), as far as the model reads them. */
  datatype BottomSheetDefaults = BottomSheetDefaults(
    className: Option<string>,
    footer: Value,
    sibling: Value,
    onOpen: Value,
    onClose: Value)

  /** A caller's options; the observer's build receives them with an id as `bottomSheetId`. */
  datatype BottomSheetOptions = BottomSheetOptions(
    bottomSheetId: Value,
    containerId: Value,
    className: StyleProp<string>,
    footer: Value,
    sibling: Value,
    onOpen: Value,
    onClose: Value)

  datatype BottomSheetProps = BottomSheetProps(
    bottomSheetId: Id,
    containerId: Value,
    className: Option<string>,
    footer: Slot,
    sibling: Slot,
    onOpen: Value,
    onClose: Value)

  datatype BottomSheet = BottomSheet(content: Value, props: BottomSheetProps)

  /** The props `buildBottomSheet` computes from the container's props and the caller's options. */
  function BottomSheetPropsFor(defaults: BottomSheetDefaults, options: BottomSheetOptions, bottomSheetId: Id, containerId: Value): BottomSheetProps {
    BottomSheetProps(
      bottomSheetId,
      containerId,
      ResolveClassName(defaults.className, options.className),
      ResolveSlot(defaults.footer, options.footer),
      ResolveSlot(defaults.sibling, options.sibling),
      Overlay(defaults.onOpen, options.onOpen),
      Overlay(defaults.onClose, options.onClose))
  }

  /**
   * A built sheet belongs to its id and to the building container; a
   * caller's `false` footer or sibling removes the default one; a caller's
   * function is called and a caller's element cloned; the caller's callbacks
   * replace the defaults unless they are unset.
   */
  lemma BottomSheetPropsRules(defaults: BottomSheetDefaults, options: BottomSheetOptions, bottomSheetId: Id, containerId: Value)
    ensures var p := BottomSheetPropsFor(defaults, options, bottomSheetId, containerId);
      && p.bottomSheetId == bottomSheetId && p.containerId == containerId
      && (options.footer == Bool(false) ==> p.footer == NoSlot)
      && (options.sibling == Bool(false) ==> p.sibling == NoSlot)
      && (IsFn(options.footer) ==> p.footer == RenderedBy(options.footer))
      && (IsElement(options.sibling) ==> p.sibling == ClonedFrom(options.sibling))
      && (options.onOpen != Null && options.onOpen != Undefined ==> p.onOpen == options.onOpen)
      && (options.onClose != Null && options.onClose != Undefined ==> p.onClose == options.onClose)
  {
    SlotOverrides(defaults.footer, options.footer);
    SlotOverrides(defaults.sibling, options.sibling);
  }

  class BottomSheetContainer {
    const id: Value
    var props: BottomSheetDefaults
    var bottomSheetCount: nat
    var activeBottomSheets: seq<Id>
    var bottomSheets: map<Id, BottomSheet>
    var notices: seq<Notice>

    /** Every registered sheet is stored under its own id. */
    ghost predicate Valid()
      reads this
    {
      forall k :: k in bottomSheets ==> bottomSheets[k].props.bottomSheetId == k
    }

    /** `createContainerObserver(id, containerProps)` */
    constructor (containerId: Value, containerProps: BottomSheetDefaults)
      ensures Valid()
      ensures id == containerId && props == containerProps
      ensures bottomSheetCount == 0 && activeBottomSheets == [] && bottomSheets == map[] && notices == []
    {
      id := containerId;
      props := containerProps;
      bottomSheetCount := 0;
      activeBottomSheets := [];
      bottomSheets := map[];
      notices := [];
    }

    /**
     * `isBottomSheetActive(id)`: whether the id is among the shown ones. Only an id can be
     * active, nothing is active in an empty container, and the last one shown
     * (the only one a close is allowed for) is active; a push makes its id
     * active and a pop keeps the closed id active only if it was shown twice.
     */
    function IsBottomSheetActive(bottomSheetId: Value): (r: bool)
      reads this
      ensures r ==> IsId(bottomSheetId) && |activeBottomSheets| > 0
      ensures |activeBottomSheets| > 0 && activeBottomSheets[|activeBottomSheets| - 1] == bottomSheetId ==> r
    {
      bottomSheetId in activeBottomSheets
    }

    /**
     * `shouldIgnoreBottomSheet(options)`: the sheet is for another container
     * (its container id, or the default one when it names none, is not this
     * container's), or its id is already registered here.
     */
    function ShouldIgnoreBottomSheet(options: BottomSheetOptions): (r: bool)
      reads this
      ensures !r <==> ContainerIdOf(options.containerId) == id && options.bottomSheetId !in bottomSheets
    {
      var containerMismatch := if Truthy(options.containerId) then options.containerId != id else id != DEFAULT_CONTAINER_ID;
      var isDuplicate := options.bottomSheetId in bottomSheets;
      containerMismatch || isDuplicate
    }

    /**
     * `popBottomSheet()`: drop the last active id. A sheet's `closeBottomSheet`
     * starts with exactly this, with no check that the sheet is the last
     * active one.
     */
    method PopBottomSheet()
      modifies this`activeBottomSheets
      ensures |old(activeBottomSheets)| > 0 ==> activeBottomSheets == old(activeBottomSheets)[..|old(activeBottomSheets)| - 1]
      ensures |old(activeBottomSheets)| == 0 ==> activeBottomSheets == []
      ensures forall x :: IsBottomSheetActive(x) ==> old(IsBottomSheetActive(x))
      ensures |old(activeBottomSheets)| > 0 ==>
        var closed := old(activeBottomSheets)[|old(activeBottomSheets)| - 1];
        (IsBottomSheetActive(closed) <==> closed in old(activeBottomSheets)[..|old(activeBottomSheets)| - 1])
    {
      activeBottomSheets := DropLast(activeBottomSheets);
    }

    /** `pushBottomSheet(bottomSheet)`: register, make last active, then call `onOpen`. */
    method PushBottomSheet(bottomSheet: BottomSheet)
      requires Valid()
      modifies this`bottomSheets, this`activeBottomSheets, this`notices
      ensures Valid()
      ensures bottomSheets == old(bottomSheets)[bottomSheet.props.bottomSheetId := bottomSheet]
      ensures activeBottomSheets == old(activeBottomSheets) + [bottomSheet.props.bottomSheetId]
      ensures notices == old(notices) + OpenNotices(bottomSheet.props.bottomSheetId, bottomSheet.props.onOpen)
      ensures IsBottomSheetActive(bottomSheet.props.bottomSheetId)
      ensures forall x :: old(IsBottomSheetActive(x)) ==> IsBottomSheetActive(x)
    {
      var bottomSheetId := bottomSheet.props.bottomSheetId;
      bottomSheets := bottomSheets[bottomSheetId := bottomSheet];
      activeBottomSheets := activeBottomSheets + [bottomSheetId];
      if IsFn(bottomSheet.props.onOpen) {
        notices := notices + [OpenCalled(bottomSheetId, bottomSheet.props.onOpen)];
      }
    }

    /**
     * The container after it built and showed `sheet`: counted, registered
     * under its id, the last one shown, its `onOpen` called; the container's
     * props are as they were.
     */
    twostate predicate Opened(sheet: BottomSheet)
      reads this
    {
      && bottomSheetCount == old(bottomSheetCount) + 1
      && bottomSheets == old(bottomSheets)[sheet.props.bottomSheetId := sheet]
      && activeBottomSheets == old(activeBottomSheets) + [sheet.props.bottomSheetId]
      && notices == old(notices) + OpenNotices(sheet.props.bottomSheetId, sheet.props.onOpen)
      && props == old(props)
    }

    /**
     * `buildBottomSheet(content, options)`: an ignored sheet gives `false`
     * and changes nothing; otherwise the sheet is counted, registered under
     * its id, made the last active one (with its `onOpen` called), and the
     * result is `true`. The content is kept as given.
     */
    method BuildBottomSheet(content: Value, options: BottomSheetOptions) returns (built: bool)
      requires Valid() && IsId(options.bottomSheetId)
      modifies this`bottomSheetCount, this`bottomSheets, this`activeBottomSheets, this`notices
      ensures Valid()
      ensures built <==> !old(ShouldIgnoreBottomSheet(options))
      ensures !built ==>
        && bottomSheetCount == old(bottomSheetCount) && bottomSheets == old(bottomSheets)
        && activeBottomSheets == old(activeBottomSheets) && notices == old(notices)
      ensures built ==> Opened(BottomSheet(content, BottomSheetPropsFor(props, options, options.bottomSheetId, id)))
    {
      if ShouldIgnoreBottomSheet(options) {
        return false;
      }
      var bottomSheetId: Id := options.bottomSheetId;
      bottomSheetCount := bottomSheetCount + 1;
      PushBottomSheet(BottomSheet(content, BottomSheetPropsFor(props, options, bottomSheetId, id)));
      built := true;
    }

    /**
     * `deleteBottomSheet()` of the sheet `bottomSheetId`: call its `onClose`,
     * forget it and decrement the counter, never below zero. An unregistered
     * id makes the source fail on reading its props; the model reports it and
     * changes nothing.
     */
    method DeleteBottomSheet(bottomSheetId: Id) returns (deleted: bool)
      requires Valid()
      modifies this`bottomSheets, this`bottomSheetCount, this`notices
      ensures Valid()
      ensures deleted <==> bottomSheetId in old(bottomSheets)
      ensures !deleted ==>
        bottomSheets == old(bottomSheets) && bottomSheetCount == old(bottomSheetCount) && notices == old(notices)
      ensures deleted ==>
        && bottomSheets == old(bottomSheets) - {bottomSheetId}
        && bottomSheetCount == Decremented(old(bottomSheetCount))
        && notices == old(notices) + CloseNotices(bottomSheetId, old(bottomSheets)[bottomSheetId].props.onClose)
    {
      if bottomSheetId !in bottomSheets {
        return false;
      }
      var onClose := bottomSheets[bottomSheetId].props.onClose;
      if IsFn(onClose) {
        notices := notices + [CloseCalled(bottomSheetId, onClose)];
      }
      bottomSheets := bottomSheets - {bottomSheetId};
      bottomSheetCount := Decremented(bottomSheetCount);
      deleted := true;
    }

    /** `setProps(p)` */
    method SetProps(p: BottomSheetDefaults)
      modifies this`props
      ensures props == p
    {
      props := p;
    }
  }

  /**
   * Only one container builds a given sheet: a sheet that names no container
   * is for the default container alone, and one that names a container is for
   * that container alone.
   */
  lemma AtMostOneContainerBuilds(a: BottomSheetContainer, b: BottomSheetContainer, options: BottomSheetOptions)
    requires !a.ShouldIgnoreBottomSheet(options) && !b.ShouldIgnoreBottomSheet(options)
    ensures a.id == b.id
    ensures !Truthy(options.containerId) ==> a.id == DEFAULT_CONTAINER_ID
  {
  }
}
