/**
 * The bottom-sheet registry (`BottomSheet/store`): the mounted bottom-sheet
 * containers by container id, in registration order. Unlike the other
 * registries it sends a build to one container only, chosen by the sheet's
 * container id, and reports each way of failing as an error.
 */
module BottomSheetStore {
  import opened Js
  import opened PropValidator
  import opened BottomSheetObserver

  /** The three errors `buildBottomSheet` throws. */
  datatype SheetError = NotRenderable | NoContainers | NoSuchContainer(containerId: Value)

  /** `popBottomSheet(containerId = Default.CONTAINER_ID)`: the default applies to `undefined` only. */
  function PopTarget(containerId: Value): (id: Value)
    ensures containerId != Undefined ==> id == containerId
    ensures containerId == Undefined ==> id == DEFAULT_CONTAINER_ID
  {
    if containerId == Undefined then DEFAULT_CONTAINER_ID else containerId
  }

  /**
   * The default argument is not the `||` rule the rest of the library uses
   * for container ids: both agree on `undefined` and on truthy ids, but an
   * explicit `''` or `null` is kept as it is.
   */
  lemma PopTargetVersusContainerIdOf(containerId: Value)
    ensures containerId == Undefined || Truthy(containerId) ==> PopTarget(containerId) == ContainerIdOf(containerId)
    ensures PopTarget(Str("")) == Str("") && ContainerIdOf(Str("")) == DEFAULT_CONTAINER_ID
    ensures PopTarget(Null) == Null
  {
  }

  class BottomSheetRegistry {
    var order: seq<Value>
    var containers: map<Value, BottomSheetContainer>

    /**
     * Each container id is listed once, the list matches the map, each
     * container sits under its own id, and each container is consistent.
     */
    ghost predicate Valid()
      reads this, containers.Values
    {
      && Distinct(order)
      && Elems(order) == containers.Keys
      && (forall k :: k in containers ==> containers[k].id == k && containers[k].Valid())
    }

    constructor ()
      ensures Valid() && order == [] && containers == map[]
    {
      order := [];
      containers := map[];
    }

    /**
     * `isBottomSheetActive(id, containerId)`: the named container only (false
     * when it is not mounted), or any container when none is named.
     */
    method IsBottomSheetActive(bottomSheetId: Value, containerId: Value) returns (isActive: bool)
      requires Valid()
      ensures Truthy(containerId) ==>
        isActive == (containerId in containers && containers[containerId].IsBottomSheetActive(bottomSheetId))
      ensures !Truthy(containerId) ==>
        isActive == exists k :: k in containers && containers[k].IsBottomSheetActive(bottomSheetId)
    {
      if Truthy(containerId) {
        return containerId in containers && containers[containerId].IsBottomSheetActive(bottomSheetId);
      }
      isActive := false;
      var i := 0;
      while i < |order|
        invariant 0 <= i <= |order|
        invariant isActive == exists j :: 0 <= j < i && containers[order[j]].IsBottomSheetActive(bottomSheetId)
      {
        if containers[order[i]].IsBottomSheetActive(bottomSheetId) {
          isActive := true;
        }
        i := i + 1;
      }
      assert forall k :: k in containers ==> exists j :: 0 <= j < |order| && order[j] == k;
    }

    /**
     * `buildBottomSheet(content, options)`: content that cannot be rendered,
     * an empty registry and an unmounted target container are errors, checked
     * in that order; otherwise the target container (the sheet's container id,
     * or the default one) builds the sheet and its answer is returned.
     */
    method BuildBottomSheet(content: Value, options: BottomSheetOptions) returns (r: Result<bool, SheetError>)
      requires Valid() && IsId(options.bottomSheetId)
      modifies if ContainerIdOf(options.containerId) in containers then {containers[ContainerIdOf(options.containerId)]} else {}
      ensures Valid()
      ensures !CanBeRendered(content) ==> r == Err(NotRenderable)
      ensures CanBeRendered(content) && |order| == 0 ==> r == Err(NoContainers)
      ensures CanBeRendered(content) && |order| > 0 && ContainerIdOf(options.containerId) !in containers ==>
        r == Err(NoSuchContainer(ContainerIdOf(options.containerId)))
      ensures r.Ok? <==> CanBeRendered(content) && |order| > 0 && ContainerIdOf(options.containerId) in containers
      ensures r.Err? ==> unchanged(containers.Values)
      ensures r.Ok? ==>
        var target := containers[ContainerIdOf(options.containerId)];
        && CanBeRendered(content)
        && (r.value <==> options.bottomSheetId !in old(target.bottomSheets))
        && (r.value ==> target.Opened(BottomSheet(content, BottomSheetPropsFor(old(target.props), options, options.bottomSheetId, target.id))))
        && (!r.value ==> unchanged(target))
    {
      if !CanBeRendered(content) {
        return Err(NotRenderable);
      }
      if |order| == 0 {
        return Err(NoContainers);
      }
      var id := Or(options.containerId, DEFAULT_CONTAINER_ID);
      if id !in containers {
        return Err(NoSuchContainer(id));
      }
      var container := containers[id];
      var built := container.BuildBottomSheet(content, options);
      r := Ok(built);
    }

    /**
     * `popBottomSheet(containerId)`: pop the named container (the default one
     * when the argument is `undefined`), if mounted; no other container changes.
     */
    method PopBottomSheet(containerId: Value)
      requires Valid()
      modifies containers.Values`activeBottomSheets
      ensures Valid()
      ensures forall k :: k in containers ==>
        containers[k].activeBottomSheets ==
          (if k == PopTarget(containerId) then DropLast(old(containers[k].activeBottomSheets)) else old(containers[k].activeBottomSheets))
    {
      var id := PopTarget(containerId);
      if id in containers {
        containers[id].PopBottomSheet();
      }
    }

    /**
     * `registerBottomSheetContainer(props).subscribe(notify)`: a fresh
     * container under `containerId` or the default id, replacing any
     * container there but keeping that id's place in the order.
     */
    method Subscribe(containerId: Value, defaults: BottomSheetDefaults) returns (c: BottomSheetContainer)
      requires Valid()
      modifies this
      ensures Valid() && fresh(c)
      ensures c.id == ContainerIdOf(containerId) && c.props == defaults
      ensures c.bottomSheetCount == 0 && c.activeBottomSheets == [] && c.bottomSheets == map[]
      ensures containers == old(containers)[c.id := c]
      ensures order == if c.id in old(order) then old(order) else old(order) + [c.id]
    {
      var id := Or(containerId, DEFAULT_CONTAINER_ID);
      c := new BottomSheetContainer(id, defaults);
      if id !in order {
        ElemsOfSnoc(order, id);
        order := order + [id];
      }
      containers := containers[id := c];
    }

    /** The unsubscribe function `subscribe` returns: forget whatever container is under the id. */
    method Unsubscribe(containerId: Value)
      requires Valid()
      modifies this
      ensures Valid()
      ensures containers == old(containers) - {ContainerIdOf(containerId)}
      ensures order == Without(old(order), ContainerIdOf(containerId))
    {
      var id := ContainerIdOf(containerId);
      containers := containers - {id};
      order := Without(order, id);
    }
  }
}
