/**
 * The modal registry (`Modal/store`): the mounted modal containers by
 * container id, in registration order (a JavaScript `Map` keeps the order in
 * which keys were first set), and the handlers of the legacy stack's
 * `PushModal` and `PopModal` events.
 */
module ModalStore {
  import opened Js
  import opened PropValidator
  import opened ObserverRules
  import opened ModalObserver

  /** `getModalId(options)`: the caller's id when it is a string or a number, else a generated one. */
  function GetModalId(options: ModalOptions, generated: Id): (id: Id)
    ensures id == ChooseId(options.modalId, generated)
  {
    if IsStr(options.modalId) || IsNum(options.modalId) then options.modalId else generated
  }

  /** `mergeOptions(options)`: the caller's options with only `modalId` settled. */
  function MergeOptions(options: ModalOptions, generated: Id): (r: ModalOptions)
    ensures IsId(r.modalId)
    ensures r.(modalId := options.modalId) == options
    ensures IsId(options.modalId) ==> r == options
    ensures !IsId(options.modalId) ==> r.modalId == generated
  {
    options.(modalId := GetModalId(options, generated))
  }

  class ModalRegistry {
    var order: seq<Value>
    var containers: map<Value, ModalContainer>

    /**
     * The registration order lists each container id once, exactly the ids
     * in the map, and each container is stored under its own id (so no
     * container is stored twice).
     */
    ghost predicate Valid()
      reads this
    {
      && Distinct(order)
      && Elems(order) == containers.Keys
      && (forall k :: k in containers ==> containers[k].id == k)
    }

    constructor ()
      ensures Valid() && order == [] && containers == map[]
    {
      order := [];
      containers := map[];
    }

    /**
     * `isModalActive(id, containerId)`: with a (truthy) container id, only
     * that container is asked and an unknown one answers false; without one,
     * the answer is whether any container has the modal active.
     */
    method IsModalActive(modalId: Value, containerId: Value) returns (isActive: bool)
      requires Valid()
      ensures Truthy(containerId) ==>
        isActive == (containerId in containers && containers[containerId].IsModalActive(modalId))
      ensures !Truthy(containerId) ==>
        isActive == exists k :: k in containers && containers[k].IsModalActive(modalId)
    {
      if Truthy(containerId) {
        return containerId in containers && containers[containerId].IsModalActive(modalId);
      }
      isActive := false;
      var i := 0;
      while i < |order|
        invariant 0 <= i <= |order|
        invariant isActive == exists j :: 0 <= j < i && containers[order[j]].IsModalActive(modalId)
      {
        if containers[order[i]].IsModalActive(modalId) {
          isActive := true;
        }
        i := i + 1;
      }
      assert forall k :: k in containers ==> exists j :: 0 <= j < |order| && order[j] == k;
    }

    /**
     * The `PushModal` handler. Nothing happens for content that cannot be
     * rendered or when no container is mounted. Otherwise every container,
     * in registration order, builds the modal from freshly merged options
     * (the `i`-th container with the `i`-th generated id); the built modals
     * are discarded. A container that already has the id throws, which stops
     * the remaining containers from being asked.
     */
    method OnPushModal(content: Value, options: ModalOptions, generated: nat -> Id) returns (outcome: Dispatch)
      requires Valid()
      modifies containers.Values`modalCount
      ensures Valid()
      ensures !CanBeRendered(content) || |order| == 0 ==> outcome == Skipped
      ensures outcome.Skipped? ==> !CanBeRendered(content) || |order| == 0
      ensures outcome.Threw? ==>
        var at := outcome.containerIndex;
        && at < |order|
        && outcome.error == Duplicated(MergeOptions(options, generated(at)).modalId)
        && MergeOptions(options, generated(at)).modalId in containers[order[at]].modals
      ensures forall j :: 0 <= j < |order| && (outcome.Delivered? || (outcome.Threw? && j < outcome.containerIndex)) ==>
        MergeOptions(options, generated(j)).modalId !in containers[order[j]].modals
      ensures forall j :: 0 <= j < |order| ==>
        containers[order[j]].modalCount == old(containers[order[j]].modalCount) +
          (if outcome.Delivered? || (outcome.Threw? && j < outcome.containerIndex) then 1 else 0)
    {
      if !CanBeRendered(content) || |order| == 0 {
        return Skipped;
      }
      var i := 0;
      while i < |order|
        invariant 0 <= i <= |order|
        invariant forall j :: 0 <= j < i ==> MergeOptions(options, generated(j)).modalId !in containers[order[j]].modals
        invariant forall j :: 0 <= j < |order| ==>
          containers[order[j]].modalCount == old(containers[order[j]].modalCount) + (if j < i then 1 else 0)
      {
        var built := BuildIn(i, content, MergeOptions(options, generated(i)));
        if built.Err? {
          return Threw(i, built.error);
        }
        i := i + 1;
      }
      outcome := Delivered;
    }

    /** The `i`-th container builds the modal; only its count can change. */
    method BuildIn(i: nat, content: Value, merged: ModalOptions) returns (built: Result<Modal, BuildError>)
      requires Valid() && i < |order| && IsId(merged.modalId)
      modifies containers.Values`modalCount
      ensures built.Err? <==> merged.modalId in containers[order[i]].modals
      ensures built.Err? ==> built.error == Duplicated(merged.modalId)
      ensures forall j :: 0 <= j < |order| ==>
        containers[order[j]].modalCount == old(containers[order[j]].modalCount) + (if j == i && built.Ok? then 1 else 0)
    {
      var c := containers[order[i]];
      assert forall j :: 0 <= j < |order| && j != i ==> containers[order[j]] != c;
      built := c.BuildModal(content, merged);
    }

    /** The `PopModal` handler: pop the named container, if it is mounted; no other container changes. */
    method OnPopModal(containerId: Value)
      requires Valid()
      modifies containers.Values`activeModals
      ensures forall k :: k in containers ==>
        containers[k].activeModals ==
          (if k == containerId then DropLast(old(containers[k].activeModals)) else old(containers[k].activeModals))
    {
      if containerId in containers {
        containers[containerId].PopModal();
      }
    }

    /**
     * `registerModalContainer(props).subscribe(notify)`: a fresh container
     * under `containerId`, or the default id, replacing any container already
     * there but keeping that id's place in the registration order.
     */
    method Subscribe(containerId: Value, defaults: ModalDefaults) returns (c: ModalContainer)
      requires Valid()
      modifies this
      ensures Valid() && fresh(c)
      ensures c.id == ContainerIdOf(containerId) && c.defaultOptions == defaults
      ensures c.modalCount == 0 && c.activeModals == [] && c.modals == map[]
      ensures containers == old(containers)[c.id := c]
      ensures order == if c.id in old(order) then old(order) else old(order) + [c.id]
    {
      var id := Or(containerId, DEFAULT_CONTAINER_ID);
      c := new ModalContainer(id, defaults);
      if id !in order {
        ElemsOfSnoc(order, id);
        order := order + [id];
      }
      containers := containers[id := c];
    }

    /** The unsubscribe function `subscribe` returns: forget whatever container is under the id. */
    method Unsubscribe(containerId: Value)
      requires Valid()
      modifies this
      ensures Valid()
      ensures containers == old(containers) - {ContainerIdOf(containerId)}
      ensures order == Without(old(order), ContainerIdOf(containerId))
    {
      var id := ContainerIdOf(containerId);
      containers := containers - {id};
      order := Without(order, id);
    }
  }
}
