# Overlay stack of react-material-overlay, in Dafny

This project models the part of react-material-overlay that keeps track of
open overlays. The library shows modals, alert dialogs, lightboxes and bottom
sheets, and ties each open overlay to a browser-history entry, so that the
browser's back button closes the top overlay.

- **The overlay stack** (`RmoStack`, in `rmo_stack.dfy`) is a class with these fields:
  - an ordered stack of overlay ids;
  - a map from id to its back-navigation callback;
  - the page's browser history: the depth each entry records, and the entry
    the browser is on (`BrowserHistory`, in `browser_history.dfy`);
  - the mutex flag;
  - a log of the callbacks it fired and the history steps it took.

  Push, single pop, counted pop, flush, lookup and the `popstate` rule are
  its methods. A pop goes back `n` entries and then waits for a `popstate`
  event whose entry records the new stack length; while it waits, the mutex
  stays held, and the `popstate` method is what ends the wait. A history in
  step with the stack (entries 0, 1, …, length) confirms at once; a user who
  moved through history on their own can leave the stack waiting for good.
- **The older modal-only stack** (`RMO`, in `rmo.dfy`) is the same kind of
  class, with the same history. Its entries are `{type: 'modal', containerId}`
  records. It talks to the modal containers through `PushModal` and
  `PopModal` events, which are recorded in its log. Its batch wait also ends
  on an entry that records 0.
- **The container observers**, one class per overlay kind
  (`*_observer.dfy`), hold:
  - the registered overlays, by id;
  - the ids currently shown, in opening order;
  - a counter that never drops below zero;
  - the container's defaults;
  - a log of the user callbacks (`onOpen` / `onClose`) they called.

  Build, show, pop, guarded close and delete are their methods. The close
  of modals, alert dialogs and lightboxes calls into the overlay stack
  object. The rules that turn the container's defaults and a caller's
  options into an overlay's props are pure functions, in `style_props.dfy`
  and `observer_rules.dfy`.
- **The registries** (`*_store.dfy`) map container ids to mounted
  containers, in registration order. They provide lookup, dispatch of a
  build to the containers, and subscribe / unsubscribe.
- **The entry points** (`push_*.dfy`, `pop.dfy`) run one sequence: choose
  the id, build, push onto the overlay stack, then show in the container.
  Any failure answers `null` (`None`).
- **Shared helpers**: the JavaScript semantics the code relies on
  (truthiness, `||`, `splice`, `at(-1)`, `slice(0, -1)`, `indexOf`) are in
  `js.dfy`. The id and renderability predicates are in
  `prop_validator.dfy`. `mergeClasses` is in `merge_classes.dfy`.

JavaScript values are the datatype `Js.Value`. An id (`isId`) is a string or a
non-NaN number; ids handed out by a generator are truthy ids and are
parameters of the operations that need one. The lightbox observer exposes its
count under the getter name `alertDialogCount`
(`LightboxObserver.LightboxContainer.AlertDialogCount`).

## Model

| member | source | states |
|---|---|---|
| PropValidator.NaNIsNeitherIdNorRenderable | src/utils/propValidator.ts:5-15 | `NaN` passes `typeof` but is neither a number id nor renderable content |
| PropValidator.RenderableValues | src/utils/propValidator.ts:12-15 | booleans, `null` and `undefined` are never renderable; every id is renderable; renderable non-ids are functions or elements |
| PropValidator.FalsyIds | src/utils/propValidator.ts:12 | `''` and `0` are ids although they are falsy |
| MergeClasses.MergeClasses | src/utils/mergeClasses.ts:1-17 | the two copy loops produce exactly the merged map `Merged(obj1, obj2)` |
| MergeClasses.MergedKeys | src/utils/mergeClasses.ts:4-15 | the merged map has every key of either input and no other |
| MergeClasses.MergedValues | src/utils/mergeClasses.ts:6-14 | per key: only in `obj1` keeps it; only in `obj2` takes it; in both, a non-empty `obj1` value is joined to `obj2`'s with a space, an empty one is replaced |
| MergeClasses.MergedKeepsBoth | src/utils/mergeClasses.ts:12 | no class is lost: the merged value starts with `obj1`'s value and ends with `obj2`'s |
| MergeClasses.MergedIdentity | src/utils/mergeClasses.ts:1-17 | merging with an empty map on either side gives back the other map |
| Js.ContainerIdOf | src/core/Modal/store.ts:68 | `containerId \|\| default` is always truthy, keeps a truthy id and otherwise gives the default container id |
| Js.IndexOf | src/core/RmoStack/index.ts:232-234 | `indexOf`: -1 exactly when absent, otherwise the first position holding the value |
| Js.DistinctCount | src/core/RmoStack/index.ts:8-9 | a stack without repeated ids has as many distinct ids as entries |
| BrowserHistory.PushState | src/core/RmoStack/index.ts:87-95 | `pushState` keeps the entries up to the current one, drops those ahead, and the new entry with its depth becomes the current one |
| BrowserHistory.GoBack | src/core/RmoStack/index.ts:115 | `history.go(-steps)` moves back exactly `steps` entries when there are that many behind, and otherwise leaves the browser where it was |
| BrowserHistory.PushStateKeepsStep | src/core/RmoStack/index.ts:87-95 | writing the next depth keeps entries 0..n recording 0..n |
| BrowserHistory.GoBackInStep | src/core/RmoStack/index.ts:103-117 | going back from a history in step always reaches an entry, and that entry records exactly the depth left, so the wait ends at once |
| RmoStack.StackIdRule | src/core/RmoStack/index.ts:165 | the caller's id is kept only when it is a truthy id; `''`, `0` and missing ids are replaced by the generated one, so the stack never holds a falsy id |
| RmoStack.FireAllInStackOrder | src/core/RmoStack/index.ts:47 | a batch fires one callback per removed entry, each with its own registered callback, in stack order (deepest removed entry first) |
| RmoStack.FireAllSuppressed | src/core/RmoStack/index.ts:75-78 | with `preventEventTriggering` a batch fires nothing |
| RmoStack.OneNavigationPerBatch | src/core/RmoStack/index.ts:47-48 | a batch's effects contain exactly one back-navigation, whatever fires |
| RmoStack.BatchSize | src/core/RmoStack/index.ts:41 | `splice(-Math.abs(count))` removes the last `min(\|count\|, length)` entries, and a count of 0 removes everything |
| RmoStack.OverlayStack.Initialize | src/core/RmoStack/index.ts:123-128 | the stack starts empty and unlocked; a positive depth recorded by an earlier session is undone by going back that many steps, and the page then stands at an entry recording 0 |
| RmoStack.OverlayStack.FindIndexById | src/core/RmoStack/index.ts:232-234 | -1 exactly when the id is not on the stack, otherwise its position; reads only |
| RmoStack.OverlayStack.LengthCountsListeners | src/core/RmoStack/index.ts:240-242 | on a consistent stack, `length` equals the number of registered listeners |
| RmoStack.OverlayStack.UpdateHistoryState | src/core/RmoStack/index.ts:87-95 | a history entry recording the stack length is pushed after the current one, dropping the entries ahead of it |
| RmoStack.OverlayStack.PopHistoryState | src/core/RmoStack/index.ts:103-117 | `history.go(-count)` lands `count` entries back; the mutex stays held unless that entry records the stack length, and stays held when there are fewer than `count` entries behind (no event comes) |
| RmoStack.OverlayStack.TriggerListener | src/core/RmoStack/index.ts:75-81 | the id's callback fires unless suppressed or missing, and the listener is forgotten either way |
| RmoStack.OverlayStack.ReleaseBatch | src/core/RmoStack/index.ts:47-48 | every removed entry's listener is forgotten, their callbacks fire in stack order, then one back-navigation of the batch's size, with its wait for confirmation |
| RmoStack.OverlayStack.Push | src/core/RmoStack/index.ts:163-177 | while the mutex is held the push waits and changes nothing; a duplicate id is refused with nothing changed; otherwise the id is appended, its callback registered, its index is the old length, a history entry records the new length, ids stay distinct with listener keys equal to the stacked ids, and a history in step with the stack stays in step |
| RmoStack.OverlayStack.PopMultiple | src/core/RmoStack/index.ts:40-49 | waits while the mutex is held; removes the last `min(\|count\|, length)` entries (all for 0), forgets their listeners, fires them in stack order and navigates back once; removing nothing fires nothing and does not navigate; from a history in step the navigation is confirmed at once and the history stays in step |
| RmoStack.OverlayStack.PopSingle | src/core/RmoStack/index.ts:56-67 | waits while the mutex is held; a no-op on an empty stack or when a given id is not the tail; otherwise removes exactly the tail, fires its callback unless suppressed, forgets it and goes back one step, confirmed at once from a history in step |
| RmoStack.OverlayStack.Pop | src/core/RmoStack/index.ts:179-192 | a number selects the counted pop, anything else the single pop; from an unlocked stack in step with its history, the pop leaves it unlocked and in step |
| RmoStack.OverlayStack.Flush | src/core/RmoStack/index.ts:214-225 | waits while the mutex is held; otherwise the whole stack is released as one batch, confirmed at once from a history in step |
| RmoStack.OverlayStack.OnPopState | src/core/RmoStack/index.ts:130-146 | the browser stands on the event's entry; while locked, a pop's wait ends exactly when that entry records the stack length, and nothing else changes; otherwise, when the entry's depth is below the length, exactly the tail is removed and its callback fired, with no navigation |
| RmoStack.PushPushPopPop | src/core/RmoStack/index.ts:163-192 | push `'m1'`, push unnamed, pop twice: indices 0 and 1, lengths 1, 2, 1, 0, the second callback fires before the first, one step back per pop |
| RmoStack.BackForwardThenPopHangs | src/core/RmoStack/index.ts:103-146 | with `a`, `b`, `c` pushed, the user goes back and then forward; the next single pop lands on the entry recording 2 while the stack holds 1, so the mutex stays held and a later push only waits |
| Rmo.PopEventsInOrder | src/core/RMO.ts:16-24 | every removed item announces its own container, in stack order |
| Rmo.PopCountRule | src/core/RMO.ts:74-76 | `splice(-count)`: a positive count removes the last `min(count, length)` items, 0 removes all, a negative `-c` keeps the first `min(c, length)` |
| Rmo.LegacyStack.Initialize | src/core/RMO.ts:93-98 | starts empty; a positive recorded depth is undone by going back, and the page then stands at an entry recording 0 |
| Rmo.LegacyStack.PushModal | src/core/RMO.ts:46-60 | does nothing while a batch waits; otherwise announces the modal and its options with the old length as sequence number, appends the container its options name (or the default), and pushes a history entry recording the new length; a history in step stays in step |
| Rmo.LegacyStack.MultiplePop | src/core/RMO.ts:22-41 | an empty list does nothing; otherwise one pop event per item in order, then one back-navigation of the list's size, and the wait stays held unless the landing entry records 0 or the stack length |
| Rmo.LegacyStack.Pop | src/core/RMO.ts:74-80 | the count defaults to 1; does nothing while a batch waits; otherwise removes `splice(-count)` and announces the removed items as one batch; from a history in step it is confirmed at once |
| Rmo.LegacyStack.PopAll | src/core/RMO.ts:85-91 | does nothing while a batch waits; otherwise removes every item as one batch; from a history in step it is confirmed at once |
| Rmo.LegacyStack.OnPopState | src/core/RMO.ts:100-114 | the browser stands on the event's entry; while locked, the wait ends when that entry records 0 or the stack length; otherwise a depth below the length removes exactly the last item and announces its container |
| Rmo.PushPushPopAll | src/core/RMO.ts:46-91 | two pushes then `popAll` announce container `'a'` before the default one and go back two steps at once |
| Rmo.JumpBackThenPopReleases | src/core/RMO.ts:22-41 | with three items, the user goes back two entries (one item popped); a pop of one then lands on the entry recording 0, which the legacy rule accepts, so the stack is released with one item left |
| Rmo.PopWithoutCountRemovesLast | src/core/RMO.ts:63-80 | `pop()` without a count removes only the last modal: container `'c'` is told to pop, the browser goes back one entry, and the mutex is free again |
| ObserverRules.IgnoresClose | src/core/Modal/containerObserver.ts:33-36 | a close is allowed exactly when its overlay is the last active one |
| ObserverRules.Decremented | src/core/Modal/containerObserver.ts:100-104 | the counter goes down by one and never below zero |
| ObserverRules.Overlay | src/core/Modal/containerObserver.ts:86 | a caller option that is neither `null` nor `undefined` replaces the default; otherwise the default stays |
| ObserverRules.ChooseId | src/core/Modal/store.ts:39-41 | the chosen id is the caller's value exactly when that value is an id; otherwise it is the generated one |
| ObserverRules.ChooseIdRules | src/core/RmoStack/index.ts:165 | choosing again from a chosen id keeps it; the overlay stack files the entry under the id the entry point chose exactly when the caller's id is not `''` or `0` |
| ObserverRules.OverlayKeepsDefaultOnlyWhenUnset | src/core/Modal/containerObserver.ts:86 | the default survives exactly when the caller's value is unset or equal to it; overlaying twice changes nothing more |
| ObserverRules.AtMostOneCloseAllowed | src/core/Modal/containerObserver.ts:33-36 | two different overlays cannot both pass the last-active guard |
| ObserverRules.DecrementUndoesIncrement | src/core/Modal/containerObserver.ts:72-104 | a decrement after an increment restores the count; a decrement never increases it |
| StyleProps.ClassesKeepDefaults | src/core/Modal/containerObserver.ts:121-129 | with default classes, a caller's class map keeps every default slot and class; without defaults the given map is used; no caller classes keep the defaults |
| StyleProps.ClassNameRule | src/core/Lightbox/containerObserver.ts:102-110 | two non-empty class names are joined; an empty given name falls back to the default; without a non-empty default the given name is used |
| StyleProps.ResolveControl | src/core/Modal/containerObserver.ts:131-147 | the close button / header is the caller's value, the default, or `true`, and `true` only when one of them was `true` |
| StyleProps.ResolveControlStable | src/core/Modal/containerObserver.ts:131-147 | a caller's `false` always hides the control; a caller's `true` shows a renderable default and is kept as `true` otherwise; resolving twice changes nothing; a value that is neither `false` nor renderable keeps a renderable default |
| StyleProps.ResolveSlot | src/core/BottomSheet/containerObserver.ts:124-150 | a resolved footer / sibling is a function called with the render props or an element cloned with them, taken from the caller or the default |
| StyleProps.SlotOverrides | src/core/BottomSheet/containerObserver.ts:124-150 | `false` removes the slot; a string or number overrides the default and is then dropped; functions and elements from the caller win |
| ModalObserver.ModalPropsRules | src/core/Modal/containerObserver.ts:83-147 | a built modal belongs to its id and its container; `false` hides close button and header; renderable caller values are shown; set callbacks replace the defaults |
| ModalObserver.ModalContainer.constructor | src/core/Modal/containerObserver.ts:14-21 | a new container has its id and defaults and nothing registered or shown |
| ModalObserver.ModalContainer.IsModalActive | src/core/Modal/containerObserver.ts:181 | only an id can be active, nothing is active in an empty container, and the last one shown is active |
| ModalObserver.ModalContainer.ShouldIgnorePop | src/core/Modal/containerObserver.ts:33-36 | false exactly when the id is the last active one |
| ModalObserver.ModalContainer.PopModal | src/core/Modal/containerObserver.ts:38-41 | drops only the last active id; registered modals stay; no id becomes active, and the closed id stays active exactly when it was shown earlier too |
| ModalObserver.ModalContainer.PushModal | src/core/Modal/containerObserver.ts:43-54 | registers the modal under its id, appends the id to the active list, then calls `onOpen` if it is a function; the modal is then active and every active id stays active |
| ModalObserver.ModalContainer.BuildModal | src/core/Modal/containerObserver.ts:56-166 | a registered id is refused with the count unchanged; otherwise the count grows by one and the modal carries the resolved props |
| ModalObserver.ModalContainer.CloseModal | src/core/Modal/containerObserver.ts:63-70 | nothing unless the modal is the last active; otherwise it is dropped and the overlay stack pops its entry with callbacks suppressed |
| ModalObserver.ModalContainer.DeleteModal | src/core/Modal/containerObserver.ts:90-107 | calls `onClose` if it is a function, forgets the modal, and decrements the count clamped at 0 |
| ModalObserver.ModalContainer.SetDefaultOptions | src/core/Modal/containerObserver.ts:178-180 | replaces the defaults |
| AlertDialogObserver.AlertDialogPropsRules | src/core/AlertDialog/containerObserver.ts:78-111 | a built dialog belongs to its id and container; caller classes keep the default slots; set callbacks replace the defaults |
| AlertDialogObserver.AlertDialogContainer.constructor | src/core/AlertDialog/containerObserver.ts:13-20 | a new container has its id and defaults and nothing registered or shown |
| AlertDialogObserver.AlertDialogContainer.IsAlertDialogActive | src/core/AlertDialog/containerObserver.ts:129 | only an id can be active, nothing is active in an empty container, and the last one shown is active |
| AlertDialogObserver.AlertDialogContainer.ShouldIgnorePop | src/core/AlertDialog/containerObserver.ts:32-36 | false exactly when the id is the last active one |
| AlertDialogObserver.AlertDialogContainer.PopAlertDialog | src/core/AlertDialog/containerObserver.ts:38-41 | drops only the last active id; no id becomes active, and the closed id stays active exactly when it was shown earlier too |
| AlertDialogObserver.AlertDialogContainer.PushAlertDialog | src/core/AlertDialog/containerObserver.ts:43-54 | registers the props under the id, appends it to the active list, then calls `onOpen`; the dialog is then active and every active id stays active |
| AlertDialogObserver.AlertDialogContainer.BuildAlertDialog | src/core/AlertDialog/containerObserver.ts:56-114 | a registered id is refused with the count unchanged; otherwise the count grows by one and the resolved props are returned, not registered |
| AlertDialogObserver.AlertDialogContainer.CloseAlertDialog | src/core/AlertDialog/containerObserver.ts:63-70 | nothing unless last active; otherwise dropped and its stack entry popped with callbacks suppressed |
| AlertDialogObserver.AlertDialogContainer.DeleteAlertDialog | src/core/AlertDialog/containerObserver.ts:83-100 | calls `onClose`, forgets the dialog, decrements the count clamped at 0 |
| AlertDialogObserver.AlertDialogContainer.SetDefaultOptions | src/core/AlertDialog/containerObserver.ts:126-128 | replaces the defaults |
| LightboxObserver.LightboxPropsRules | src/core/Lightbox/containerObserver.ts:77-110 | a built lightbox belongs to its id and container; class names follow the class-name rule; set callbacks replace the defaults |
| LightboxObserver.LightboxContainer.constructor | src/core/Lightbox/containerObserver.ts:13-20 | a new container has its id and defaults and nothing registered or shown |
| LightboxObserver.LightboxContainer.IsLightboxActive | src/core/Lightbox/containerObserver.ts:140 | only an id can be active, nothing is active in an empty container, and the last one shown is active |
| LightboxObserver.LightboxContainer.ShouldIgnorePop | src/core/Lightbox/containerObserver.ts:32-35 | false exactly when the id is the last active one |
| LightboxObserver.LightboxContainer.PopLightbox | src/core/Lightbox/containerObserver.ts:37-40 | drops only the last active id; no id becomes active, and the closed id stays active exactly when it was shown earlier too |
| LightboxObserver.LightboxContainer.PushLightbox | src/core/Lightbox/containerObserver.ts:42-53 | registers the props under the id, appends it to the active list, then calls `onOpen`; the lightbox is then active and every active id stays active |
| LightboxObserver.LightboxContainer.BuildLightbox | src/core/Lightbox/containerObserver.ts:55-125 | a registered id is refused with the count unchanged; otherwise the count grows by one and the resolved props are returned |
| LightboxObserver.LightboxContainer.CloseLightbox | src/core/Lightbox/containerObserver.ts:62-69 | nothing unless last active; otherwise dropped and its stack entry popped with callbacks suppressed |
| LightboxObserver.LightboxContainer.DeleteLightbox | src/core/Lightbox/containerObserver.ts:82-99 | calls `onClose`, forgets the lightbox, decrements the count clamped at 0 |
| LightboxObserver.LightboxContainer.SetDefaultOptions | src/core/Lightbox/containerObserver.ts:137-139 | replaces the defaults |
| BottomSheetObserver.BottomSheetPropsRules | src/core/BottomSheet/containerObserver.ts:84-150 | a built sheet belongs to its id and container; class name, footer and sibling follow their rules; set callbacks replace the defaults |
| BottomSheetObserver.BottomSheetContainer.constructor | src/core/BottomSheet/containerObserver.ts:22-29 | a new container has its id and props and nothing registered or shown |
| BottomSheetObserver.BottomSheetContainer.IsBottomSheetActive | src/core/BottomSheet/containerObserver.ts:182 | only an id can be active, nothing is active in an empty container, and the last one shown is active |
| BottomSheetObserver.BottomSheetContainer.ShouldIgnoreBottomSheet | src/core/BottomSheet/containerObserver.ts:41-46 | a sheet is taken exactly when it names this container (or names none and this is the default one) and its id is not registered |
| BottomSheetObserver.BottomSheetContainer.PopBottomSheet | src/core/BottomSheet/containerObserver.ts:48-51 | drops the last active id, with no last-active guard (this is also the whole of the sheet's close); no id becomes active, and the closed id stays active exactly when it was shown earlier too |
| BottomSheetObserver.BottomSheetContainer.PushBottomSheet | src/core/BottomSheet/containerObserver.ts:53-64 | registers the sheet under its id, appends it to the active list, then calls `onOpen`; the sheet is then active and every active id stays active |
| BottomSheetObserver.BottomSheetContainer.BuildBottomSheet | src/core/BottomSheet/containerObserver.ts:66-168 | an ignored sheet gives false and changes nothing; otherwise the count grows by one, the sheet with its resolved props is registered under its id and shown, `onOpen` is called, and the answer is true |
| BottomSheetObserver.BottomSheetContainer.DeleteBottomSheet | src/core/BottomSheet/containerObserver.ts:92-109 | calls `onClose`, forgets the sheet, decrements the count clamped at 0 |
| BottomSheetObserver.BottomSheetContainer.SetProps | src/core/BottomSheet/containerObserver.ts:179-181 | replaces the container props |
| BottomSheetObserver.AtMostOneContainerBuilds | src/core/BottomSheet/containerObserver.ts:41-46 | two containers that both take the same sheet have the same id, the default one when the sheet names none |
| ModalStore.GetModalId | src/core/Modal/store.ts:39-41 | the caller's id when it is a string or number, else the generated one |
| ModalStore.MergeOptions | src/core/Modal/store.ts:46-51 | every option is kept, only `modalId` is replaced, and the result's `modalId` is an id |
| ModalStore.ModalRegistry.constructor | src/core/Modal/store.ts:17 | no container is mounted |
| ModalStore.ModalRegistry.IsModalActive | src/core/Modal/store.ts:21-34 | with a container id, only that container answers (false when unmounted); without one, true exactly when some container has the modal active |
| ModalStore.ModalRegistry.OnPushModal | src/core/Modal/store.ts:53-61 | nothing for unrenderable content or no containers; otherwise each container in order builds the modal and counts it, until one throws on a duplicate |
| ModalStore.ModalRegistry.OnPopModal | src/core/Modal/store.ts:63-65 | only the named container pops; an unknown id changes nothing |
| ModalStore.ModalRegistry.Subscribe | src/core/Modal/store.ts:67-75 | a fresh container is mounted under the id or the default, keeping that id's place in the order |
| ModalStore.ModalRegistry.Unsubscribe | src/core/Modal/store.ts:78-81 | the container under the id is forgotten |
| AlertDialogStore.AlertDialogRegistry.constructor | src/core/AlertDialog/store.ts:6 | no container is mounted |
| AlertDialogStore.AlertDialogRegistry.IsAlertDialogActive | src/core/AlertDialog/store.ts:10-23 | named container only (false when unmounted), or any container when none is named |
| AlertDialogStore.AlertDialogRegistry.PushAlertDialog | src/core/AlertDialog/store.ts:25-41 | false with no containers; otherwise each container builds in order, and the answer is true once all have built, unless one throws on a duplicate |
| AlertDialogStore.AlertDialogRegistry.PopAlertDialog | src/core/AlertDialog/store.ts:43-45 | only the named container pops |
| AlertDialogStore.AlertDialogRegistry.Subscribe | src/core/AlertDialog/store.ts:47-55 | a fresh container is mounted under the id or the default |
| AlertDialogStore.AlertDialogRegistry.Unsubscribe | src/core/AlertDialog/store.ts:58-61 | the container under the id is forgotten |
| LightboxStore.LightboxRegistry.constructor | src/core/Lightbox/store.ts:6 | no container is mounted |
| LightboxStore.LightboxRegistry.IsLightboxActive | src/core/Lightbox/store.ts:10-23 | named container only (false when unmounted), or any container when none is named |
| LightboxStore.LightboxRegistry.PushLightbox | src/core/Lightbox/store.ts:25-41 | false with no containers; otherwise each container builds in order, true once all have, unless one throws on a duplicate |
| LightboxStore.LightboxRegistry.PopLightbox | src/core/Lightbox/store.ts:43-45 | only the named container pops |
| LightboxStore.LightboxRegistry.Subscribe | src/core/Lightbox/store.ts:47-55 | a fresh container is mounted under the id or the default |
| LightboxStore.LightboxRegistry.Unsubscribe | src/core/Lightbox/store.ts:58-61 | the container under the id is forgotten |
| BottomSheetStore.PopTarget | src/core/BottomSheet/store.ts:57 | the default parameter applies to `undefined` only |
| BottomSheetStore.PopTargetVersusContainerIdOf | src/core/BottomSheet/store.ts:42-57 | the pop's default agrees with the `\|\|` rule on `undefined` and truthy ids but keeps an explicit `''` or `null` |
| BottomSheetStore.BottomSheetRegistry.constructor | src/core/BottomSheet/store.ts:14 | no container is mounted |
| BottomSheetStore.BottomSheetRegistry.IsBottomSheetActive | src/core/BottomSheet/store.ts:18-31 | named container only (false when unmounted), or any container when none is named |
| BottomSheetStore.BottomSheetRegistry.BuildBottomSheet | src/core/BottomSheet/store.ts:33-51 | unrenderable content, no containers and an unmounted target are errors in that order, and nothing changes; otherwise the target container builds; a true answer means the target registered and showed the sheet with its resolved props and called `onOpen`, a false one that nothing changed |
| BottomSheetStore.BottomSheetRegistry.PopBottomSheet | src/core/BottomSheet/store.ts:57-59 | only the named (or default) container pops |
| BottomSheetStore.BottomSheetRegistry.Subscribe | src/core/BottomSheet/store.ts:61-69 | a fresh container is mounted under the id or the default |
| BottomSheetStore.BottomSheetRegistry.Unsubscribe | src/core/BottomSheet/store.ts:72-75 | the container under the id is forgotten |
| PushModalApi.PushModal | src/api/pushModal.ts:11-48 | a container duplicate gives `null` before the stack is touched; a push while the stack's mutex is held, or a stack duplicate, gives `null` with the modal counted but not shown and the stack untouched; otherwise the stack gets the entry (callback: pop the caller's container) and a history entry recording its length, the modal is shown, and its id is returned |
| PushModalApi.PushCloseDelete | src/api/pushModal.ts:31-40 | open, close from the modal, delete: the stack is back to empty after one push and one step back, the entry's callback never fires, `onClose` is called once |
| PushAlertDialogApi.GetAlertDialogId | src/api/pushAlertDialog.ts:11-13 | the chosen id is the caller's value exactly when that value is an id; otherwise it is the generated one |
| PushAlertDialogApi.MergeOptions | src/api/pushAlertDialog.ts:18-23 | every option kept, only the id settled |
| PushAlertDialogApi.PushAlertDialog | src/api/pushAlertDialog.ts:31-49 | the three outcomes of `pushModal`, for dialogs, including the held mutex and the history entry |
| PushLightboxApi.GetLightboxId | src/api/pushLightbox.ts:10-12 | the chosen id is the caller's value exactly when that value is an id; otherwise it is the fixed `'lightbox-overlay'` |
| PushLightboxApi.MergeOptions | src/api/pushLightbox.ts:17-22 | every option kept, only the id settled |
| PushLightboxApi.PushLightbox | src/api/pushLightbox.ts:30-47 | the three outcomes of `pushModal`, for lightboxes, including the held mutex and the history entry |
| PushLightboxApi.PushTwoUnnamed | src/api/pushLightbox.ts:10-39 | a second unnamed lightbox is refused while the first is registered, and the stack keeps one entry |
| PushBottomSheetApi.GetBottomSheetId | src/api/pushBottomSheet.ts:11-13 | the chosen id is the caller's value exactly when that value is an id; otherwise it is the generated one |
| PushBottomSheetApi.MergeOptions | src/api/pushBottomSheet.ts:18-23 | every option kept, only the id settled |
| PushBottomSheetApi.PushBottomSheetAsWritten | src/api/pushBottomSheet.ts:31-48 | the answer is always `null`; only the target container and the stack may change; a failed build changes nothing; otherwise a new id is stored with its resolved props and shown (`onOpen` called), and the stack entry and its history entry are pushed unless the mutex is held or the id is already stacked |
| PushBottomSheetApi.AsWrittenLosesTheId | src/api/pushBottomSheet.ts:34-40 | pushing `'b1'` into the default container shows it and stacks it, yet answers `null` |
| PushBottomSheetApi.PushBottomSheet | src/api/pushBottomSheet.ts:31-48 | corrected: only the target container and the stack may change; a failed or refused build gives `null` with the stack untouched; a shown sheet is stored with its resolved props; while the mutex is held or when the id is already stacked the answer is `null` with the stack untouched; otherwise the stack gets the entry and a history entry and the id is returned |
| PushBottomSheetApi.CorrectedKeepsTheId | src/api/pushBottomSheet.ts:34-40 | the same push with the corrected sequence answers `'b1'` |
| PopApi.Pop | src/api/pop.ts:15-17 | nothing happens while the stack's mutex is held; otherwise a counted pop with callbacks fired; no count closes exactly the top overlay; a count `n >= 1` removes `min(n, length)` entries |

## Findings

| source | as written | input that shows it | evidently intended | confidence | as-written member | corrected member |
|---|---|---|---|---|---|---|
| src/api/pushBottomSheet.ts:34-40 | `buildBottomSheet` of the bottom-sheet registry answers a boolean, and that boolean is passed to `pushBottomSheet`, which reads `.props.containerId` of it; the read throws, the catch answers `null` | `pushBottomSheet('x', {bottomSheetId: 'b1'})` with one default container mounted | answer `'b1'` (the sheet is shown and on the stack) | not executed; the bottom-sheet registry's `pushBottomSheet` is typed for a built sheet, not a boolean, and calls a container `pushBottomSheet` that the observer it sits beside does not return, so these files look like they come from different releases and the seam may never have existed in one release | PushBottomSheetApi.PushBottomSheetAsWritten | PushBottomSheetApi.PushBottomSheet |

## Left out

- Browser history: only the page's own entries are modelled. Going back further than the page's first entry counts as no `popstate` event, so a waiting pop stays waiting; a real browser would leave the page. The stack starts on an entry recording 0 after undoing an earlier session's depth.
- Asynchrony: promises and interleaving are not modelled. Each mutex-guarded section is one atomic method, and a pop's wait is the `locked` flag left set. A call made while the mutex is held is modelled as having no effect; the source queues it and runs it once a confirming `popstate` event releases the mutex, which the model does not replay.
- RmoStack.OverlayStack.Push: a push while the mutex is held answers `Err(MutexHeld)` and changes nothing, where the source's call stays pending until the mutex is released.
- PushModalApi.PushModal: a push while the stack's mutex is held answers `null` (`None`), where the source's promise stays pending; the modal is counted but not shown.
- PushAlertDialogApi.PushAlertDialog: a push while the stack's mutex is held answers `null`, where the source's promise stays pending.
- PushLightboxApi.PushLightbox: a push while the stack's mutex is held answers `null`, where the source's promise stays pending.
- PushBottomSheetApi.PushBottomSheet: a push while the stack's mutex is held answers `null` with the sheet shown and the stack untouched, where the source's promise stays pending.
- Id generators (`genRmoStackId`, `genModalId` and the others) are parameters.
- The event emitter is not modelled as such. The legacy stack logs its `PushModal` / `PopModal` events, and the modal registry's handlers are separate methods.
- React: rendering and the cloning or calling of content with render props are left out. Content is kept as given.
- `sx` styles and the deep merge of object-valued options are left out. Scalar options follow the `null` / `undefined` rule.
- Console output (warnings, errors) is left out.
- `observe`, `notify`, `getSnapshot` and the snapshot of every container are left out. They only serve React's store subscription.
- `setProps` of the modal, alert-dialog and lightbox registries is left out: it calls a method their containers do not have.
- The bottom-sheet registry's `pushBottomSheet` is left out for the same reason. It is typed for a built sheet, but its caller passes a boolean; see Findings.
- The bottom-sheet registry's `setDefaultOptions` is left out: it calls a method its containers do not have.
- The bottom-sheet close's `popRMOStackState` call is left out: that function is not part of this model. The close is modelled as its `popBottomSheet` step.
- The entry points `pushModal`, `pushAlertDialog` and `pushLightbox` import build and push functions their registries do not define. The model runs their sequence against one container observer, which does define them.
- Numbers are integers: fractional counts, depths and ids are not modelled. `NaN` is kept apart.
- `Default.CONTAINER_ID`: the constants file is not part of this model. It is a fixed truthy string here.
- `RmoStack.pop` with a non-number, non-object argument is not modelled: requests are either a count or a single-pop request.
- Missing `options` objects are modelled as options whose fields are all `undefined`.
- ModalStore.ModalRegistry.OnPushModal: the modals it builds are discarded, as in the code. The sequence number and `options` of the event are passed but unused.
- LightboxObserver.LightboxContainer.AlertDialogCount: only returns the count, so it carries no contract of its own.
- RmoStack.FireAllInStackOrder: assumes every removed entry still has a listener, which every consistent stack guarantees.
