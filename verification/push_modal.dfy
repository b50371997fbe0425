/**
 * The `pushModal(content, options)` entry point: choose the modal id, build
 * the modal in its container, push an entry for it onto the overlay stack,
 * and only then show it in the container. Any failure on the way yields
 * `null` (`None`). The entry's back-navigation callback pops the caller's
 * container.
 */
module PushModalApi {
  import opened Js
  import opened PropValidator
  import opened ObserverRules
  import opened ModalObserver
  import opened ModalStore
  import opened StyleProps
  import opened RmoStack
  import opened BrowserHistory

  /**
   * The whole sequence, against the container that builds the modal. The id
   * rule (`getModalId` / `mergeOptions`) is the one of the modal registry:
   * `isId` is exactly "a string or a number". The returned id is the chosen
   * one, even where the stack, which keeps only truthy ids, filed the entry
   * under an id of its own (a caller id of `''` or `0`). While a pop holds
   * the stack's mutex the push waits after the build; the model answers
   * `None` for that call, which has not settled.
   */
  method PushModal(content: Value, options: ModalOptions, generated: Id, stackGenerated: TruthyId,
                   container: ModalContainer, stack: OverlayStack) returns (r: Option<Id>)
    requires container.Valid() && stack.Valid()
    modifies container, stack
    ensures container.Valid() && stack.Valid()
    ensures var modalId := GetModalId(options, generated);
      && (modalId in old(container.modals) ==>
            r == None && unchanged(container) && stack.Untouched())
      && (modalId !in old(container.modals) && (old(stack.locked) || ChosenId(modalId, stackGenerated) in old(stack.stack)) ==>
            && r == None && stack.Untouched()
            && container.modalCount == old(container.modalCount) + 1
            && container.modals == old(container.modals)
            && container.activeModals == old(container.activeModals)
            && container.notices == old(container.notices))
      && (modalId !in old(container.modals) && !old(stack.locked) && ChosenId(modalId, stackGenerated) !in old(stack.stack) ==>
            var props := ModalPropsFor(old(container.defaultOptions), MergeOptions(options, generated), modalId, container.id);
            && r == Some(modalId)
            && stack.stack == old(stack.stack) + [ChosenId(modalId, stackGenerated)]
            && stack.listeners == old(stack.listeners)[ChosenId(modalId, stackGenerated) := ClosesContainer(ModalKind, options.containerId)]
            && stack.log == old(stack.log) + [HistoryPushed(|stack.stack|)]
            && stack.history == PushState(old(stack.history), |stack.stack|) && !stack.locked
            && container.modalCount == old(container.modalCount) + 1
            && container.modals == old(container.modals)[modalId := Modal(content, props)]
            && container.activeModals == old(container.activeModals) + [modalId]
            && container.notices == old(container.notices) + OpenNotices(modalId, props.onOpen))
  {
    var merged := MergeOptions(options, generated);
    assert merged.modalId == GetModalId(options, generated);
    var built := container.BuildModal(content, merged);
    if built.Err? {
      return None;
    }
    var pushed := stack.Push(PushOptions(merged.modalId, ClosesContainer(ModalKind, options.containerId)), stackGenerated);
    if pushed.Err? {
      return None;
    }
    container.PushModal(built.value);
    r := Some(merged.modalId);
  }

  /** The first half of the scenario below: one modal opened in a fresh container on a fresh stack. */
  method OpenOne(content: Value, onClose: Value) returns (stack: OverlayStack, container: ModalContainer, pushed: Option<Id>)
    requires IsFn(onClose)
    ensures fresh(stack) && fresh(container) && stack.Valid() && container.Valid()
    ensures pushed.Some? && pushed.value == Str("m1")
    ensures stack.stack == [Str("m1")] && stack.log == [HistoryPushed(1)] && !stack.locked
    ensures container.activeModals == [Str("m1")] && container.notices == []
    ensures container.modals.Keys == {Str("m1")} && container.modals[Str("m1")].props.onClose == onClose
  {
    stack := new OverlayStack.Initialize(None);
    var defaults := ModalDefaults(None, Undefined, Undefined, Undefined, Undefined, Undefined);
    container := new ModalContainer(DEFAULT_CONTAINER_ID, defaults);
    var options := ModalOptions(Str("m1"), Undefined, Unset, Undefined, Undefined, Undefined, Undefined, onClose);
    assert GetModalId(options, Str("generated")) == Str("m1");
    assert ChosenId(Str("m1"), Str("stack-generated")) == Str("m1");
    assert ModalPropsFor(defaults, MergeOptions(options, Str("generated")), Str("m1"), DEFAULT_CONTAINER_ID).onClose == onClose;
    pushed := PushModal(content, options, Str("generated"), Str("stack-generated"), container, stack);
  }

  /**
   * Opening a modal with a close callback and closing it from the modal
   * itself: the stack entry is gone, the only navigations are the push and
   * one step back, the entry's own callback is never fired (the close
   * suppresses it), and deleting the modal afterwards calls `onClose` once.
   */
  method PushCloseDelete(content: Value, onClose: Value) returns (pushed: Option<Id>, deleted: bool, stackLog: seq<RmoStack.Effect>, notices: seq<Notice>)
    requires IsFn(onClose)
    ensures pushed.Some? && pushed.value == Str("m1") && deleted
    ensures stackLog == [HistoryPushed(1), HistoryBack(1)]
    ensures notices == [CloseCalled(Str("m1"), onClose)]
  {
    var stack, container;
    stack, container, pushed := OpenOne(content, onClose);
    assert SinglePopApplies(stack.stack, Str("m1"));
    container.CloseModal(Str("m1"), stack);
    assert stack.stack == [];
    deleted := container.DeleteModal(Str("m1"));
    stackLog := stack.log;
    notices := container.notices;
  }
}
