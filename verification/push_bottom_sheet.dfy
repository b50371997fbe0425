/**
 * The `pushBottomSheet(content, options)` entry point. Unlike the other
 * overlays, the bottom-sheet registry's build already registers and shows
 * the sheet and answers with a boolean; the entry point then pushes the
 * stack entry and hands that boolean to the registry's `pushBottomSheet`,
 * which reads `.props.containerId` of it. A boolean has no `props`, so that
 * read throws, and the entry point answers `null` after the sheet is shown
 * and its stack entry pushed. `PushBottomSheetAsWritten` models this;
 * `PushBottomSheet` is the sequence with the id returned, a refused build
 * treated as the duplicate it is, and the redundant second push dropped.
 */
module PushBottomSheetApi {
  import opened Js
  import opened PropValidator
  import opened StyleProps
  import opened ObserverRules
  import opened BottomSheetObserver
  import opened BottomSheetStore
  import opened RmoStack
  import opened BrowserHistory

  /**
   * `getBottomSheetId(options)`: the caller's id survives exactly when
   * `isId` accepts it; any other value is replaced by the generated one.
   */
  function GetBottomSheetId(options: BottomSheetOptions, generated: Id): (id: Id)
    ensures id == options.bottomSheetId <==> IsId(options.bottomSheetId)
    ensures id != options.bottomSheetId ==> id == generated
  {
    ChooseId(options.bottomSheetId, generated)
  }

  /** `mergeOptions(options)`: every option kept, only `bottomSheetId` replaced by the chosen id. */
  function MergeOptions(options: BottomSheetOptions, generated: Id): (r: BottomSheetOptions)
    ensures IsId(r.bottomSheetId)
    ensures r.(bottomSheetId := options.bottomSheetId) == options
    ensures IsId(options.bottomSheetId) ==> r == options
    ensures !IsId(options.bottomSheetId) ==> r.bottomSheetId == generated
  {
    options.(bottomSheetId := GetBottomSheetId(options, generated))
  }

  /** Whether the registry's build, as specified, succeeds for these options. */
  predicate BuildSucceeds(registry: BottomSheetRegistry, content: Value, options: BottomSheetOptions)
    reads registry
  {
    CanBeRendered(content) && |registry.order| > 0 && ContainerIdOf(options.containerId) in registry.containers
  }

  /** The container the sheet is built in: the one the options name, or the default one. */
  function Target(registry: BottomSheetRegistry, options: BottomSheetOptions): set<object>
    reads registry
  {
    if ContainerIdOf(options.containerId) in registry.containers then {registry.containers[ContainerIdOf(options.containerId)]} else {}
  }

  /**
   * The code as written: whatever happens, the answer is `None`. A failed
   * build leaves everything as it was; otherwise the target container shows
   * the sheet unless it already has one with that id, and (the sheet shown
   * or refused alike) the stack entry is pushed unless its id is already on
   * the stack or a pop still holds the stack's mutex. No other container
   * changes.
   */
  method PushBottomSheetAsWritten(content: Value, options: BottomSheetOptions, generated: Id, stackGenerated: TruthyId,
                                  registry: BottomSheetRegistry, stack: OverlayStack) returns (r: Option<Id>)
    requires registry.Valid() && stack.Valid()
    modifies Target(registry, options), stack
    ensures registry.Valid() && stack.Valid()
    ensures r == None
    ensures !BuildSucceeds(registry, content, options) ==> unchanged(registry.containers.Values) && stack.Untouched()
    ensures BuildSucceeds(registry, content, options) ==>
      var bottomSheetId := GetBottomSheetId(options, generated);
      var target := registry.containers[ContainerIdOf(options.containerId)];
      var id := ChosenId(bottomSheetId, stackGenerated);
      var sheet := BottomSheet(content, BottomSheetPropsFor(old(target.props), MergeOptions(options, generated), bottomSheetId, target.id));
      && (bottomSheetId in old(target.bottomSheets) ==> unchanged(target))
      && (bottomSheetId !in old(target.bottomSheets) ==> target.Opened(sheet))
      && (old(stack.locked) || id in old(stack.stack) ==> stack.Untouched())
      && (!old(stack.locked) && id !in old(stack.stack) ==>
            && stack.stack == old(stack.stack) + [id]
            && stack.listeners == old(stack.listeners)[id := ClosesContainer(BottomSheetKind, options.containerId)]
            && stack.log == old(stack.log) + [HistoryPushed(|stack.stack|)]
            && stack.history == PushState(old(stack.history), |stack.stack|) && !stack.locked)
  {
    var merged := MergeOptions(options, generated);
    var built := registry.BuildBottomSheet(content, merged);
    if built.Err? {
      return None;
    }
    var pushed := stack.Push(PushOptions(merged.bottomSheetId, ClosesContainer(BottomSheetKind, options.containerId)), stackGenerated);
    if pushed.Err? {
      return None;
    }
    // `pushBottomSheet(true)` or `pushBottomSheet(false)`: `bottomSheet.props` is
    // `undefined` and reading its `containerId` throws; the catch answers `null`.
    r := None;
  }

  /**
   * The sequence with the evident intent of the documented contract ("the
   * id, or `null` when the container is not mounted or the sheet is a
   * duplicate"): a failed or refused build gives `None` and leaves the stack
   * alone; a sheet that was shown gets its stack entry and its id is
   * returned, unless the stack already holds that id or a pop still holds
   * the stack's mutex (the model answers `None` for that call, which has not
   * settled). No other container changes.
   */
  method PushBottomSheet(content: Value, options: BottomSheetOptions, generated: Id, stackGenerated: TruthyId,
                         registry: BottomSheetRegistry, stack: OverlayStack) returns (r: Option<Id>)
    requires registry.Valid() && stack.Valid()
    modifies Target(registry, options), stack
    ensures registry.Valid() && stack.Valid()
    ensures !BuildSucceeds(registry, content, options) ==>
      r == None && unchanged(registry.containers.Values) && stack.Untouched()
    ensures BuildSucceeds(registry, content, options) ==>
      var bottomSheetId := GetBottomSheetId(options, generated);
      var target := registry.containers[ContainerIdOf(options.containerId)];
      var id := ChosenId(bottomSheetId, stackGenerated);
      var sheet := BottomSheet(content, BottomSheetPropsFor(old(target.props), MergeOptions(options, generated), bottomSheetId, target.id));
      && (bottomSheetId in old(target.bottomSheets) ==> r == None && unchanged(target) && stack.Untouched())
      && (bottomSheetId !in old(target.bottomSheets) ==>
            && target.Opened(sheet)
            && (old(stack.locked) || id in old(stack.stack) ==> r == None && stack.Untouched())
            && (!old(stack.locked) && id !in old(stack.stack) ==>
                  && r == Some(bottomSheetId)
                  && stack.stack == old(stack.stack) + [id]
                  && stack.listeners == old(stack.listeners)[id := ClosesContainer(BottomSheetKind, options.containerId)]
                  && stack.log == old(stack.log) + [HistoryPushed(|stack.stack|)]
                  && stack.history == PushState(old(stack.history), |stack.stack|) && !stack.locked))
  {
    var merged := MergeOptions(options, generated);
    var built := registry.BuildBottomSheet(content, merged);
    if built.Err? || !built.value {
      return None;
    }
    var pushed := stack.Push(PushOptions(merged.bottomSheetId, ClosesContainer(BottomSheetKind, options.containerId)), stackGenerated);
    if pushed.Err? {
      return None;
    }
    r := Some(merged.bottomSheetId);
  }

  /** A registry with one default container, and an empty stack. */
  method Mounted() returns (registry: BottomSheetRegistry, container: BottomSheetContainer, stack: OverlayStack)
    ensures fresh(registry) && fresh(container) && fresh(stack)
    ensures registry.Valid() && stack.Valid() && stack.stack == [] && !stack.locked
    ensures registry.order == [DEFAULT_CONTAINER_ID] && registry.containers == map[DEFAULT_CONTAINER_ID := container]
    ensures container.bottomSheets == map[] && container.activeBottomSheets == []
  {
    registry := new BottomSheetRegistry();
    var defaults := BottomSheetDefaults(None, Undefined, Undefined, Undefined, Undefined);
    container := registry.Subscribe(Undefined, defaults);
    stack := new OverlayStack.Initialize(None);
  }

  /** The sheet `'b1'` pushed into the default container. */
  function SheetB1(): BottomSheetOptions {
    BottomSheetOptions(Str("b1"), Undefined, Unset, Undefined, Undefined, Undefined, Undefined)
  }

  /**
   * The code as written on the simplest push there is: the sheet `'b1'` is
   * shown and on the stack, and the caller is told `null`.
   */
  method AsWrittenLosesTheId(content: Value) returns (r: Option<Id>, stackIds: seq<Id>, shown: seq<Id>)
    requires CanBeRendered(content)
    ensures r.None?
    ensures stackIds == [Str("b1")] && shown == [Str("b1")]
  {
    var registry, container, stack := Mounted();
    assert BuildSucceeds(registry, content, SheetB1()) && Target(registry, SheetB1()) == {container};
    r := PushBottomSheetAsWritten(content, SheetB1(), Str("generated"), Str("stack-generated"), registry, stack);
    stackIds := stack.stack;
    shown := container.activeBottomSheets;
  }

  /** The same push with the corrected sequence answers the sheet's id. */
  method CorrectedKeepsTheId(content: Value) returns (r: Option<Id>, stackIds: seq<Id>, shown: seq<Id>)
    requires CanBeRendered(content)
    ensures r.Some? && r.value == Str("b1")
    ensures stackIds == [Str("b1")] && shown == [Str("b1")]
  {
    var registry, container, stack := Mounted();
    assert BuildSucceeds(registry, content, SheetB1()) && Target(registry, SheetB1()) == {container};
    r := PushBottomSheet(content, SheetB1(), Str("generated"), Str("stack-generated"), registry, stack);
    stackIds := stack.stack;
    shown := container.activeBottomSheets;
  }
}
