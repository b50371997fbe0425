/**
 * A modal container's observer (`createContainerObserver` for modals): the
 * modals registered in the container, the ids currently shown, in opening
 * order, a counter of built modals that never drops below zero, and the
 * container's default options. Closing a modal is guarded by "is it the last
 * active one" and tells the overlay stack to drop its entry without calling
 * the entry's callback back.
 */
module ModalObserver {
  import opened Js
  import opened PropValidator
  import opened MergeClasses
  import opened StyleProps
  import opened ObserverRules
  import opened RmoStack

  /** The container's defaults (`IModalDefaultOptions`), as far as the model reads them. */
  datatype ModalDefaults = ModalDefaults(
    classes: Option<ClassMap>,
    closeButton: Value,
    header: Value,
    closeButtonIcon: Value,
    onOpen: Value,
    onClose: Value)

  /**
   * A caller's options. Before `mergeOptions` the `modalId` may be anything;
   * the observer's build receives options whose `modalId` is an id.
   */
  datatype ModalOptions = ModalOptions(
    modalId: Value,
    containerId: Value,
    classes: StyleProp<ClassMap>,
    closeButton: Value,
    header: Value,
    closeButtonIcon: Value,
    onOpen: Value,
    onClose: Value)

  /** The props a built modal carries. */
  datatype ModalProps = ModalProps(
    modalId: Id,
    containerId: Value,
    classes: Option<ClassMap>,
    closeButton: Value,
    header: Value,
    closeButtonIcon: Value,
    onOpen: Value,
    onClose: Value)

  datatype Modal = Modal(content: Value, props: ModalProps)

  /** The props `buildModal` computes from the container's defaults and the caller's options. */
  function ModalPropsFor(defaults: ModalDefaults, options: ModalOptions, modalId: Id, containerId: Value): ModalProps {
    ModalProps(
      modalId,
      containerId,
      ResolveClasses(defaults.classes, options.classes),
      ResolveControl(defaults.closeButton, options.closeButton),
      ResolveControl(defaults.header, options.header),
      Or(options.closeButtonIcon, defaults.closeButtonIcon),
      Overlay(defaults.onOpen, options.onOpen),
      Overlay(defaults.onClose, options.onClose))
  }

  /**
   * What a built modal's props promise: it belongs to its own id and to the
   * building container; a caller's `false` hides the close button and the
   * header whatever the defaults; a renderable caller value is shown as it
   * is; a caller's callbacks replace the defaults unless they are unset.
   */
  lemma ModalPropsRules(defaults: ModalDefaults, options: ModalOptions, modalId: Id, containerId: Value)
    ensures var p := ModalPropsFor(defaults, options, modalId, containerId);
      && p.modalId == modalId && p.containerId == containerId
      && (options.closeButton == Bool(false) ==> p.closeButton == Bool(false))
      && (options.header == Bool(false) ==> p.header == Bool(false))
      && (CanBeRendered(options.closeButton) ==> p.closeButton == options.closeButton)
      && (CanBeRendered(options.header) ==> p.header == options.header)
      && (options.closeButton.Undefined? ==> p.closeButton == defaults.closeButton)
      && (Truthy(options.closeButtonIcon) ==> p.closeButtonIcon == options.closeButtonIcon)
      && (!Truthy(options.closeButtonIcon) ==> p.closeButtonIcon == defaults.closeButtonIcon)
      && (options.onOpen != Null && options.onOpen != Undefined ==> p.onOpen == options.onOpen)
      && (options.onClose != Null && options.onClose != Undefined ==> p.onClose == options.onClose)
  {
  }

  class ModalContainer {
    const id: Value
    var defaultOptions: ModalDefaults
    var modalCount: nat
    var activeModals: seq<Id>
    var modals: map<Id, Modal>
    var notices: seq<Notice>

    /** Every registered modal is stored under its own id. */
    ghost predicate Valid()
      reads this
    {
      forall k :: k in modals ==> modals[k].props.modalId == k
    }

    /** `createContainerObserver(containerId, containerDefaultOptions)` */
    constructor (containerId: Value, containerDefaultOptions: ModalDefaults)
      ensures Valid()
      ensures id == containerId && defaultOptions == containerDefaultOptions
      ensures modalCount == 0 && activeModals == [] && modals == map[] && notices == []
    {
      id := containerId;
      defaultOptions := containerDefaultOptions;
      modalCount := 0;
      activeModals := [];
      modals := map[];
      notices := [];
    }

    /**
     * `isModalActive(id)`: whether the id is among the shown ones. Only an id can be
     * active, nothing is active in an empty container, and the last one shown
     * (the only one a close is allowed for) is active; a push makes its id
     * active and a pop keeps the closed id active only if it was shown twice.
     */
    function IsModalActive(modalId: Value): (r: bool)
      reads this
      ensures r ==> IsId(modalId) && |activeModals| > 0
      ensures |activeModals| > 0 && activeModals[|activeModals| - 1] == modalId ==> r
    {
      modalId in activeModals
    }

    /** `shouldIgnorePop(modalId)` */
    function ShouldIgnorePop(modalId: Id): (r: bool)
      reads this
      ensures !r <==> |activeModals| > 0 && activeModals[|activeModals| - 1] == modalId
    {
      IgnoresClose(activeModals, modalId)
    }

    /** `popModal()`: drop the last active id, if there is one; the registered modals stay. */
    method PopModal()
      modifies this`activeModals
      ensures |old(activeModals)| > 0 ==> activeModals == old(activeModals)[..|old(activeModals)| - 1]
      ensures |old(activeModals)| == 0 ==> activeModals == []
      ensures forall x :: IsModalActive(x) ==> old(IsModalActive(x))
      ensures |old(activeModals)| > 0 ==>
        var closed := old(activeModals)[|old(activeModals)| - 1];
        (IsModalActive(closed) <==> closed in old(activeModals)[..|old(activeModals)| - 1])
    {
      activeModals := DropLast(activeModals);
    }

    /** `pushModal(modal)`: register the modal under its id, make it the last active, then call `onOpen`. */
    method PushModal(modal: Modal)
      requires Valid()
      modifies this`modals, this`activeModals, this`notices
      ensures Valid()
      ensures modals == old(modals)[modal.props.modalId := modal]
      ensures activeModals == old(activeModals) + [modal.props.modalId]
      ensures notices == old(notices) + OpenNotices(modal.props.modalId, modal.props.onOpen)
      ensures IsModalActive(modal.props.modalId)
      ensures forall x :: old(IsModalActive(x)) ==> IsModalActive(x)
    {
      var modalId := modal.props.modalId;
      modals := modals[modalId := modal];
      activeModals := activeModals + [modalId];
      if IsFn(modal.props.onOpen) {
        notices := notices + [OpenCalled(modalId, modal.props.onOpen)];
      }
    }

    /**
     * `buildModal(content, options)`: refuse an id already registered before
     * touching anything; otherwise count the modal and return it with its
     * resolved props. The content is kept as given.
     */
    method BuildModal(content: Value, options: ModalOptions) returns (r: Result<Modal, BuildError>)
      requires IsId(options.modalId)
      modifies this`modalCount
      ensures options.modalId in modals ==> r == Err(Duplicated(options.modalId)) && modalCount == old(modalCount)
      ensures options.modalId !in modals ==>
        && r == Ok(Modal(content, ModalPropsFor(defaultOptions, options, options.modalId, id)))
        && modalCount == old(modalCount) + 1
    {
      var modalId: Id := options.modalId;
      if modalId in modals {
        return Err(Duplicated(modalId));
      }
      modalCount := modalCount + 1;
      r := Ok(Modal(content, ModalPropsFor(defaultOptions, options, modalId, id)));
    }

    /**
     * `closeModal()` of the modal `modalId`: nothing unless it is the last
     * active modal; otherwise pop it from the active list and ask the overlay
     * stack to pop its entry with callbacks suppressed, so no callback fires.
     */
    method CloseModal(modalId: Id, stack: OverlayStack)
      requires stack.Valid()
      modifies this`activeModals, stack
      ensures stack.Valid()
      ensures old(ShouldIgnorePop(modalId)) ==> activeModals == old(activeModals) && unchanged(stack)
      ensures !old(ShouldIgnorePop(modalId)) ==>
        && activeModals == old(activeModals)[..|old(activeModals)| - 1]
        && stack.SingleReleased(modalId, true)
    {
      if ShouldIgnorePop(modalId) {
        return;
      }
      PopModal();
      stack.Pop(PopOne(modalId, true));
    }

    /**
     * `deleteModal()` of the modal `modalId`: call its `onClose`, forget it
     * and decrement the counter, never below zero. A modal that is not
     * registered makes the source fail on reading its props; the model
     * reports it and changes nothing.
     */
    method DeleteModal(modalId: Id) returns (deleted: bool)
      requires Valid()
      modifies this`modals, this`modalCount, this`notices
      ensures Valid()
      ensures deleted <==> modalId in old(modals)
      ensures !deleted ==> modals == old(modals) && modalCount == old(modalCount) && notices == old(notices)
      ensures deleted ==>
        && modals == old(modals) - {modalId}
        && modalCount == Decremented(old(modalCount))
        && notices == old(notices) + CloseNotices(modalId, old(modals)[modalId].props.onClose)
    {
      if modalId !in modals {
        return false;
      }
      var onClose := modals[modalId].props.onClose;
      if IsFn(onClose) {
        notices := notices + [CloseCalled(modalId, onClose)];
      }
      modals := modals - {modalId};
      modalCount := Decremented(modalCount);
      deleted := true;
    }

    /** `setDefaultOptions(d)` */
    method SetDefaultOptions(d: ModalDefaults)
      modifies this`defaultOptions
      ensures defaultOptions == d
    {
      defaultOptions := d;
    }
  }
}
