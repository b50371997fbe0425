/**
 * The `pushAlertDialog(options)` entry point: the same sequence as
 * `pushModal` (choose the id, build, push onto the overlay stack, then show
 * in the container), for a dialog that has no content apart from its props.
 */
module PushAlertDialogApi {
  import opened Js
  import opened PropValidator
  import opened ObserverRules
  import opened AlertDialogObserver
  import opened RmoStack
  import opened BrowserHistory

  /**
   * `getAlertDialogId(options)`: the caller's id survives exactly when `isId`
   * accepts it; any other value is replaced by the generated one.
   */
  function GetAlertDialogId(options: AlertDialogOptions, generated: Id): (id: Id)
    ensures id == options.alertDialogId <==> IsId(options.alertDialogId)
    ensures id != options.alertDialogId ==> id == generated
  {
    ChooseId(options.alertDialogId, generated)
  }

  /** `mergeOptions(options)`: every option kept, only `alertDialogId` replaced by the chosen id. */
  function MergeOptions(options: AlertDialogOptions, generated: Id): (r: AlertDialogOptions)
    ensures IsId(r.alertDialogId)
    ensures r.(alertDialogId := options.alertDialogId) == options
    ensures IsId(options.alertDialogId) ==> r == options
    ensures !IsId(options.alertDialogId) ==> r.alertDialogId == generated
  {
    options.(alertDialogId := GetAlertDialogId(options, generated))
  }

  /**
   * The whole sequence, against the container that builds the dialog: a
   * duplicate in the container gives `None` before the stack is touched; a
   * duplicate on the stack, or a stack whose mutex a pop still holds,
   * gives `None` after the build counted the dialog but before it is shown
   * (in the second case the source's call waits without settling);
   * otherwise the dialog is on the stack and shown, and its id is returned.
   */
  method PushAlertDialog(options: AlertDialogOptions, generated: Id, stackGenerated: TruthyId,
                         container: AlertDialogContainer, stack: OverlayStack) returns (r: Option<Id>)
    requires container.Valid() && stack.Valid()
    modifies container, stack
    ensures container.Valid() && stack.Valid()
    ensures var alertDialogId := GetAlertDialogId(options, generated);
      && (alertDialogId in old(container.alertDialogs) ==>
            r == None && unchanged(container) && stack.Untouched())
      && (alertDialogId !in old(container.alertDialogs) && (old(stack.locked) || ChosenId(alertDialogId, stackGenerated) in old(stack.stack)) ==>
            && r == None && stack.Untouched()
            && container.alertDialogCount == old(container.alertDialogCount) + 1
            && container.alertDialogs == old(container.alertDialogs)
            && container.activeAlertDialogs == old(container.activeAlertDialogs)
            && container.notices == old(container.notices))
      && (alertDialogId !in old(container.alertDialogs) && !old(stack.locked) && ChosenId(alertDialogId, stackGenerated) !in old(stack.stack) ==>
            var props := AlertDialogPropsFor(old(container.defaultOptions), MergeOptions(options, generated), alertDialogId, container.id);
            && r == Some(alertDialogId)
            && stack.stack == old(stack.stack) + [ChosenId(alertDialogId, stackGenerated)]
            && stack.listeners == old(stack.listeners)[ChosenId(alertDialogId, stackGenerated) := ClosesContainer(AlertDialogKind, options.containerId)]
            && stack.log == old(stack.log) + [HistoryPushed(|stack.stack|)]
            && stack.history == PushState(old(stack.history), |stack.stack|) && !stack.locked
            && container.alertDialogCount == old(container.alertDialogCount) + 1
            && container.alertDialogs == old(container.alertDialogs)[alertDialogId := props]
            && container.activeAlertDialogs == old(container.activeAlertDialogs) + [alertDialogId]
            && container.notices == old(container.notices) + OpenNotices(alertDialogId, props.onOpen))
  {
    var merged := MergeOptions(options, generated);
    var built := container.BuildAlertDialog(merged);
    if built.Err? {
      return None;
    }
    var pushed := stack.Push(PushOptions(merged.alertDialogId, ClosesContainer(AlertDialogKind, options.containerId)), stackGenerated);
    if pushed.Err? {
      return None;
    }
    container.PushAlertDialog(built.value);
    r := Some(merged.alertDialogId);
  }
}
