/**
 * The `pushLightbox(options)` entry point: the same sequence as `pushModal`,
 * except that a lightbox without a usable id is not given a fresh one: it
 * is filed under the fixed id `'lightbox-overlay'`, so only one unnamed
 * lightbox can be registered at a time.
 */
module PushLightboxApi {
  import opened Js
  import opened PropValidator
  import opened ObserverRules
  import opened StyleProps
  import opened LightboxObserver
  import opened RmoStack
  import opened BrowserHistory

  /** The id every lightbox without an id of its own shares. */
  const LIGHTBOX_OVERLAY_ID: Id := Str("lightbox-overlay")

  /**
   * `getLightboxId(options)`: the caller's id survives exactly when `isId`
   * accepts it; any other value is replaced by the fixed id, which all
   * lightboxes without an id of their own share.
   */
  function GetLightboxId(options: LightboxOptions): (id: Id)
    ensures id == options.lightboxId <==> IsId(options.lightboxId)
    ensures id != options.lightboxId ==> id == LIGHTBOX_OVERLAY_ID
  {
    ChooseId(options.lightboxId, LIGHTBOX_OVERLAY_ID)
  }

  /** `mergeOptions(options)`: every option kept, only `lightboxId` replaced by the chosen id. */
  function MergeOptions(options: LightboxOptions): (r: LightboxOptions)
    ensures IsId(r.lightboxId)
    ensures r.(lightboxId := options.lightboxId) == options
    ensures IsId(options.lightboxId) ==> r == options
    ensures !IsId(options.lightboxId) ==> r.lightboxId == LIGHTBOX_OVERLAY_ID
  {
    options.(lightboxId := GetLightboxId(options))
  }

  /**
   * The whole sequence, against the container that builds the lightbox,
   * with the same outcomes as `pushModal`.
   */
  method PushLightbox(options: LightboxOptions, stackGenerated: TruthyId,
                      container: LightboxContainer, stack: OverlayStack) returns (r: Option<Id>)
    requires container.Valid() && stack.Valid()
    modifies container, stack
    ensures container.Valid() && stack.Valid()
    ensures var lightboxId := GetLightboxId(options);
      && (lightboxId in old(container.lightboxed) ==>
            r == None && unchanged(container) && stack.Untouched())
      && (lightboxId !in old(container.lightboxed) && (old(stack.locked) || ChosenId(lightboxId, stackGenerated) in old(stack.stack)) ==>
            && r == None && stack.Untouched()
            && container.lightboxCount == old(container.lightboxCount) + 1
            && container.lightboxed == old(container.lightboxed)
            && container.activeLightboxes == old(container.activeLightboxes)
            && container.notices == old(container.notices))
      && (lightboxId !in old(container.lightboxed) && !old(stack.locked) && ChosenId(lightboxId, stackGenerated) !in old(stack.stack) ==>
            var props := LightboxPropsFor(old(container.defaultOptions), MergeOptions(options), lightboxId, container.id);
            && r == Some(lightboxId)
            && stack.stack == old(stack.stack) + [ChosenId(lightboxId, stackGenerated)]
            && stack.listeners == old(stack.listeners)[ChosenId(lightboxId, stackGenerated) := ClosesContainer(LightboxKind, options.containerId)]
            && stack.log == old(stack.log) + [HistoryPushed(|stack.stack|)]
            && stack.history == PushState(old(stack.history), |stack.stack|) && !stack.locked
            && container.lightboxCount == old(container.lightboxCount) + 1
            && container.lightboxed == old(container.lightboxed)[lightboxId := props]
            && container.activeLightboxes == old(container.activeLightboxes) + [lightboxId]
            && container.notices == old(container.notices) + OpenNotices(lightboxId, props.onOpen))
  {
    var merged := MergeOptions(options);
    var built := container.BuildLightbox(merged);
    if built.Err? {
      return None;
    }
    var pushed := stack.Push(PushOptions(merged.lightboxId, ClosesContainer(LightboxKind, options.containerId)), stackGenerated);
    if pushed.Err? {
      return None;
    }
    container.PushLightbox(built.value);
    r := Some(merged.lightboxId);
  }

  /**
   * Two unnamed lightboxes in a row: the first is shown under the fixed id,
   * the second is refused as a duplicate by the container and never reaches
   * the stack, which keeps one entry.
   */
  method PushTwoUnnamed() returns (first: Option<Id>, second: Option<Id>, stackIds: seq<Id>)
    ensures first.Some? && first.value == LIGHTBOX_OVERLAY_ID
    ensures second.None?
    ensures stackIds == [LIGHTBOX_OVERLAY_ID]
  {
    var stack := new OverlayStack.Initialize(None);
    var container := new LightboxContainer(DEFAULT_CONTAINER_ID, LightboxDefaults(None, Undefined, Undefined));
    var options := LightboxOptions(Undefined, Undefined, Unset, Undefined, Undefined);
    first := PushLightbox(options, Str("stack-generated"), container, stack);
    assert LIGHTBOX_OVERLAY_ID in container.lightboxed;
    second := PushLightbox(options, Str("stack-generated"), container, stack);
    stackIds := stack.stack;
  }
}
