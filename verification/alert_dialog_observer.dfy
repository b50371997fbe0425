/**
 * An alert-dialog container's observer: the same shape as the modal one,
 * with the dialog's props registered directly (there is no separate
 * content), and only the `classes` rule applied to the container's defaults.
 */
module AlertDialogObserver {
  import opened Js
  import opened PropValidator
  import opened MergeClasses
  import opened StyleProps
  import opened ObserverRules
  import opened RmoStack

  datatype AlertDialogDefaults = AlertDialogDefaults(classes: Option<ClassMap>, onOpen: Value, onClose: Value)

  /** A caller's options; the observer's build receives them with an id as `alertDialogId`. */
  datatype AlertDialogOptions = AlertDialogOptions(
    alertDialogId: Value,
    containerId: Value,
    classes: StyleProp<ClassMap>,
    onOpen: Value,
    onClose: Value)

  datatype AlertDialogProps = AlertDialogProps(
    alertDialogId: Id,
    containerId: Value,
    classes: Option<ClassMap>,
    onOpen: Value,
    onClose: Value)

  /** The props `buildAlertDialog` computes from the container's defaults and the caller's options. */
  function AlertDialogPropsFor(defaults: AlertDialogDefaults, options: AlertDialogOptions, alertDialogId: Id, containerId: Value): AlertDialogProps {
    AlertDialogProps(
      alertDialogId,
      containerId,
      ResolveClasses(defaults.classes, options.classes),
      Overlay(defaults.onOpen, options.onOpen),
      Overlay(defaults.onClose, options.onClose))
  }

  /**
   * A built dialog belongs to its id and to the building container; a
   * caller's class map keeps every default slot; a caller's callbacks replace
   * the defaults unless they are unset.
   */
  lemma AlertDialogPropsRules(defaults: AlertDialogDefaults, options: AlertDialogOptions, alertDialogId: Id, containerId: Value)
    ensures var p := AlertDialogPropsFor(defaults, options, alertDialogId, containerId);
      && p.alertDialogId == alertDialogId && p.containerId == containerId
      && (defaults.classes.Some? && options.classes.Given? ==>
            p.classes.Some? && defaults.classes.value.Keys <= p.classes.value.Keys)
      && (options.classes.Unset? ==> p.classes == defaults.classes)
      && (options.onOpen != Null && options.onOpen != Undefined ==> p.onOpen == options.onOpen)
      && (options.onClose != Null && options.onClose != Undefined ==> p.onClose == options.onClose)
  {
    if defaults.classes.Some? && options.classes.Given? {
      ClassesKeepDefaults(defaults.classes, options.classes.value);
    }
  }

  class AlertDialogContainer {
    const id: Value
    var defaultOptions: AlertDialogDefaults
    var alertDialogCount: nat
    var activeAlertDialogs: seq<Id>
    var alertDialogs: map<Id, AlertDialogProps>
    var notices: seq<Notice>

    /** Every registered dialog is stored under its own id. */
    ghost predicate Valid()
      reads this
    {
      forall k :: k in alertDialogs ==> alertDialogs[k].alertDialogId == k
    }

    /** `createContainerObserver(id, containerDefaultOptions)` */
    constructor (containerId: Value, containerDefaultOptions: AlertDialogDefaults)
      ensures Valid()
      ensures id == containerId && defaultOptions == containerDefaultOptions
      ensures alertDialogCount == 0 && activeAlertDialogs == [] && alertDialogs == map[] && notices == []
    {
      id := containerId;
      defaultOptions := containerDefaultOptions;
      alertDialogCount := 0;
      activeAlertDialogs := [];
      alertDialogs := map[];
      notices := [];
    }

    /**
     * `isAlertDialogActive(id)`: whether the id is among the shown ones. Only an id can be
     * active, nothing is active in an empty container, and the last one shown
     * (the only one a close is allowed for) is active; a push makes its id
     * active and a pop keeps the closed id active only if it was shown twice.
     */
    function IsAlertDialogActive(alertDialogId: Value): (r: bool)
      reads this
      ensures r ==> IsId(alertDialogId) && |activeAlertDialogs| > 0
      ensures |activeAlertDialogs| > 0 && activeAlertDialogs[|activeAlertDialogs| - 1] == alertDialogId ==> r
    {
      alertDialogId in activeAlertDialogs
    }

    /** `shouldIgnorePop(alertDialogId)` */
    function ShouldIgnorePop(alertDialogId: Id): (r: bool)
      reads this
      ensures !r <==> |activeAlertDialogs| > 0 && activeAlertDialogs[|activeAlertDialogs| - 1] == alertDialogId
    {
      IgnoresClose(activeAlertDialogs, alertDialogId)
    }

    /** `popAlertDialog()`: drop the last active id; the registered dialogs stay. */
    method PopAlertDialog()
      modifies this`activeAlertDialogs
      ensures |old(activeAlertDialogs)| > 0 ==> activeAlertDialogs == old(activeAlertDialogs)[..|old(activeAlertDialogs)| - 1]
      ensures |old(activeAlertDialogs)| == 0 ==> activeAlertDialogs == []
      ensures forall x :: IsAlertDialogActive(x) ==> old(IsAlertDialogActive(x))
      ensures |old(activeAlertDialogs)| > 0 ==>
        var closed := old(activeAlertDialogs)[|old(activeAlertDialogs)| - 1];
        (IsAlertDialogActive(closed) <==> closed in old(activeAlertDialogs)[..|old(activeAlertDialogs)| - 1])
    {
      activeAlertDialogs := DropLast(activeAlertDialogs);
    }

    /** `pushAlertDialog(alertDialog)`: register, make last active, then call `onOpen`. */
    method PushAlertDialog(alertDialog: AlertDialogProps)
      requires Valid()
      modifies this`alertDialogs, this`activeAlertDialogs, this`notices
      ensures Valid()
      ensures alertDialogs == old(alertDialogs)[alertDialog.alertDialogId := alertDialog]
      ensures activeAlertDialogs == old(activeAlertDialogs) + [alertDialog.alertDialogId]
      ensures notices == old(notices) + OpenNotices(alertDialog.alertDialogId, alertDialog.onOpen)
      ensures IsAlertDialogActive(alertDialog.alertDialogId)
      ensures forall x :: old(IsAlertDialogActive(x)) ==> IsAlertDialogActive(x)
    {
      var alertDialogId := alertDialog.alertDialogId;
      alertDialogs := alertDialogs[alertDialogId := alertDialog];
      activeAlertDialogs := activeAlertDialogs + [alertDialogId];
      if IsFn(alertDialog.onOpen) {
        notices := notices + [OpenCalled(alertDialogId, alertDialog.onOpen)];
      }
    }

    /**
     * `buildAlertDialog(options)`: refuse a registered id before touching
     * anything; otherwise count the dialog and return its props, without
     * registering them.
     */
    method BuildAlertDialog(options: AlertDialogOptions) returns (r: Result<AlertDialogProps, BuildError>)
      requires IsId(options.alertDialogId)
      modifies this`alertDialogCount
      ensures options.alertDialogId in alertDialogs ==>
        r == Err(Duplicated(options.alertDialogId)) && alertDialogCount == old(alertDialogCount)
      ensures options.alertDialogId !in alertDialogs ==>
        && r == Ok(AlertDialogPropsFor(defaultOptions, options, options.alertDialogId, id))
        && alertDialogCount == old(alertDialogCount) + 1
    {
      var alertDialogId: Id := options.alertDialogId;
      if alertDialogId in alertDialogs {
        return Err(Duplicated(alertDialogId));
      }
      alertDialogCount := alertDialogCount + 1;
      r := Ok(AlertDialogPropsFor(defaultOptions, options, alertDialogId, id));
    }

    /**
     * `closeAlertDialog()` of the dialog `alertDialogId`: nothing unless it is
     * the last active one; otherwise pop it and ask the overlay stack to pop
     * its entry with callbacks suppressed.
     */
    method CloseAlertDialog(alertDialogId: Id, stack: OverlayStack)
      requires stack.Valid()
      modifies this`activeAlertDialogs, stack
      ensures stack.Valid()
      ensures old(ShouldIgnorePop(alertDialogId)) ==> activeAlertDialogs == old(activeAlertDialogs) && unchanged(stack)
      ensures !old(ShouldIgnorePop(alertDialogId)) ==>
        && activeAlertDialogs == old(activeAlertDialogs)[..|old(activeAlertDialogs)| - 1]
        && stack.SingleReleased(alertDialogId, true)
    {
      if ShouldIgnorePop(alertDialogId) {
        return;
      }
      PopAlertDialog();
      stack.Pop(PopOne(alertDialogId, true));
    }

    /**
     * `deleteAlertDialog()` of the dialog `alertDialogId`: call its `onClose`,
     * forget it and decrement the counter, never below zero. An unregistered
     * id makes the source fail on reading its props; the model reports it and
     * changes nothing.
     */
    method DeleteAlertDialog(alertDialogId: Id) returns (deleted: bool)
      requires Valid()
      modifies this`alertDialogs, this`alertDialogCount, this`notices
      ensures Valid()
      ensures deleted <==> alertDialogId in old(alertDialogs)
      ensures !deleted ==>
        alertDialogs == old(alertDialogs) && alertDialogCount == old(alertDialogCount) && notices == old(notices)
      ensures deleted ==>
        && alertDialogs == old(alertDialogs) - {alertDialogId}
        && alertDialogCount == Decremented(old(alertDialogCount))
        && notices == old(notices) + CloseNotices(alertDialogId, old(alertDialogs)[alertDialogId].onClose)
    {
      if alertDialogId !in alertDialogs {
        return false;
      }
      var onClose := alertDialogs[alertDialogId].onClose;
      if IsFn(onClose) {
        notices := notices + [CloseCalled(alertDialogId, onClose)];
      }
      alertDialogs := alertDialogs - {alertDialogId};
      alertDialogCount := Decremented(alertDialogCount);
      deleted := true;
    }

    /** `setDefaultOptions(d)` */
    method SetDefaultOptions(d: AlertDialogDefaults)
      modifies this`defaultOptions
      ensures defaultOptions == d
    {
      defaultOptions := d;
    }
  }
}
