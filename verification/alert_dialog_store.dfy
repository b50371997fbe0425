/**
 * The alert-dialog registry (`AlertDialog/store`): the mounted alert-dialog
 * containers by container id, in registration order, with the lookup,
 * dispatch and pop rules the library exposes for them.
 */
module AlertDialogStore {
  import opened Js
  import opened PropValidator
  import opened ObserverRules
  import opened AlertDialogObserver

  class AlertDialogRegistry {
    var order: seq<Value>
    var containers: map<Value, AlertDialogContainer>

    /** Each container id is listed once, the list matches the map, and each container sits under its own id. */
    ghost predicate Valid()
      reads this
    {
      && Distinct(order)
      && Elems(order) == containers.Keys
      && (forall k :: k in containers ==> containers[k].id == k)
    }

    constructor ()
      ensures Valid() && order == [] && containers == map[]
    {
      order := [];
      containers := map[];
    }

    /**
     * `isAlertDialogActive(id, containerId)`: with a (truthy) container id
     * only that container is asked, and an unknown one answers false; without
     * one, any container having the dialog active makes it true.
     */
    method IsAlertDialogActive(alertDialogId: Value, containerId: Value) returns (isActive: bool)
      requires Valid()
      ensures Truthy(containerId) ==>
        isActive == (containerId in containers && containers[containerId].IsAlertDialogActive(alertDialogId))
      ensures !Truthy(containerId) ==>
        isActive == exists k :: k in containers && containers[k].IsAlertDialogActive(alertDialogId)
    {
      if Truthy(containerId) {
        return containerId in containers && containers[containerId].IsAlertDialogActive(alertDialogId);
      }
      isActive := false;
      var i := 0;
      while i < |order|
        invariant 0 <= i <= |order|
        invariant isActive == exists j :: 0 <= j < i && containers[order[j]].IsAlertDialogActive(alertDialogId)
      {
        if containers[order[i]].IsAlertDialogActive(alertDialogId) {
          isActive := true;
        }
        i := i + 1;
      }
      assert forall k :: k in containers ==> exists j :: 0 <= j < |order| && order[j] == k;
    }

    /**
     * `pushAlertDialog(options)`: `false` (`Skipped`) when no container is
     * mounted; otherwise every container, in registration order, builds the
     * dialog, and the result is `true` (`Delivered`) once all have. A
     * container that already has the id throws and the rest are not asked.
     */
    method PushAlertDialog(options: AlertDialogOptions) returns (outcome: Dispatch)
      requires Valid() && IsId(options.alertDialogId)
      modifies containers.Values`alertDialogCount
      ensures Valid()
      ensures outcome.Skipped? <==> |order| == 0
      ensures outcome.Threw? ==>
        && outcome.containerIndex < |order|
        && outcome.error == Duplicated(options.alertDialogId)
        && options.alertDialogId in containers[order[outcome.containerIndex]].alertDialogs
      ensures forall j :: 0 <= j < |order| && (outcome.Delivered? || (outcome.Threw? && j < outcome.containerIndex)) ==>
        options.alertDialogId !in containers[order[j]].alertDialogs
      ensures forall j :: 0 <= j < |order| ==>
        containers[order[j]].alertDialogCount == old(containers[order[j]].alertDialogCount) +
          (if outcome.Delivered? || (outcome.Threw? && j < outcome.containerIndex) then 1 else 0)
    {
      if |order| == 0 {
        return Skipped;
      }
      var i := 0;
      while i < |order|
        invariant 0 <= i <= |order|
        invariant forall j :: 0 <= j < i ==> options.alertDialogId !in containers[order[j]].alertDialogs
        invariant forall j :: 0 <= j < |order| ==>
          containers[order[j]].alertDialogCount == old(containers[order[j]].alertDialogCount) + (if j < i then 1 else 0)
      {
        var c := containers[order[i]];
        assert forall j :: 0 <= j < |order| && j != i ==> containers[order[j]] != c;
        var built := c.BuildAlertDialog(options);
        if built.Err? {
          return Threw(i, built.error);
        }
        i := i + 1;
      }
      outcome := Delivered;
    }

    /** `popAlertDialog(containerId)`: pop the named container, if mounted; no other container changes. */
    method PopAlertDialog(containerId: Value)
      requires Valid()
      modifies containers.Values`activeAlertDialogs
      ensures forall k :: k in containers ==>
        containers[k].activeAlertDialogs ==
          (if k == containerId then DropLast(old(containers[k].activeAlertDialogs)) else old(containers[k].activeAlertDialogs))
    {
      if containerId in containers {
        containers[containerId].PopAlertDialog();
      }
    }

    /**
     * `registerAlertDialogContainer(props).subscribe(notify)`: a fresh
     * container under `containerId` or the default id, replacing any
     * container there but keeping that id's place in the order.
     */
    method Subscribe(containerId: Value, defaults: AlertDialogDefaults) returns (c: AlertDialogContainer)
      requires Valid()
      modifies this
      ensures Valid() && fresh(c)
      ensures c.id == ContainerIdOf(containerId) && c.defaultOptions == defaults
      ensures c.alertDialogCount == 0 && c.activeAlertDialogs == [] && c.alertDialogs == map[]
      ensures containers == old(containers)[c.id := c]
      ensures order == if c.id in old(order) then old(order) else old(order) + [c.id]
    {
      var id := Or(containerId, DEFAULT_CONTAINER_ID);
      c := new AlertDialogContainer(id, defaults);
      if id !in order {
        ElemsOfSnoc(order, id);
        order := order + [id];
      }
      containers := containers[id := c];
    }

    /** The unsubscribe function `subscribe` returns: forget whatever container is under the id. */
    method Unsubscribe(containerId: Value)
      requires Valid()
      modifies this
      ensures Valid()
      ensures containers == old(containers) - {ContainerIdOf(containerId)}
      ensures order == Without(old(order), ContainerIdOf(containerId))
    {
      var id := ContainerIdOf(containerId);
      containers := containers - {id};
      order := Without(order, id);
    }
  }
}
