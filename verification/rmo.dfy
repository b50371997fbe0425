/**
 * The older, modal-only stack (`RMO`): it records which modal container each
 * open modal belongs to and talks to the containers through `PushModal` and
 * `PopModal` events instead of per-entry callbacks. As in the overlay stack,
 * each mutex-guarded section is one atomic method, browser history is the
 * page's entries plus a log, and a batch pop holds the mutex until a
 * `popstate` event confirms it; the legacy stack also takes an entry
 * recording depth 0 as confirmation.
 */
module Rmo {
  import opened Js
  import opened BrowserHistory
  import StyleProps
  import ModalObserver

  /** `{ type: 'modal', containerId }`: the only kind of entry there is. */
  datatype StackItem = ModalItem(containerId: Value)

  /** What the legacy stack does to the outside world, in order. */
  datatype Effect =
    | PushModalEvent(content: Value, options: Option<ModalObserver.ModalOptions>, sequenceNumber: nat)
    | PopModalEvent(containerId: Value)
    | HistoryPushed(depth: nat)
    | HistoryBack(steps: nat)

  /** `options?.containerId`: the container the caller's options name, `undefined` without options. */
  function RequestedContainer(options: Option<ModalObserver.ModalOptions>): Value {
    if options.Some? then options.value.containerId else Undefined
  }

  /** Options that name only the container `containerId`. */
  function InContainer(containerId: Value): ModalObserver.ModalOptions {
    ModalObserver.ModalOptions(Undefined, containerId, StyleProps.Unset, Undefined, Undefined, Undefined, Undefined, Undefined)
  }

  /** `items.forEach(emitPopEventHandler)`: one `PopModal` event per item, first item first. */
  function PopEvents(items: seq<StackItem>): seq<Effect> {
    if |items| == 0 then []
    else PopEvents(items[..|items| - 1]) + [PopModalEvent(items[|items| - 1].containerId)]
  }

  /**
   * `!stackLength || stackLength === stack.length`: the `popstate` depth that
   * ends the wait of a legacy batch, the stack length or 0 (an entry without
   * a recorded depth), even while items remain.
   */
  predicate BatchConfirmed(depth: int, len: nat) {
    depth == 0 || depth == len
  }

  /** Every removed item announces its own container, in stack order. */
  lemma {:induction false} PopEventsInOrder(items: seq<StackItem>)
    ensures |PopEvents(items)| == |items|
    ensures forall i :: 0 <= i < |items| ==> PopEvents(items)[i] == PopModalEvent(items[i].containerId)
  {
    if |items| > 0 {
      PopEventsInOrder(items[..|items| - 1]);
    }
  }

  /**
   * `stack.splice(-count)` with the count taken as given: a positive count
   * removes the last `min(count, length)` items, a count of 0 removes all, and
   * a negative count `-c` keeps the first `min(c, length)` items and removes
   * the rest.
   */
  lemma PopCountRule(len: nat, count: int)
    ensures count > 0 ==> len - SpliceStart(len, -count) == (if count <= len then count else len)
    ensures count == 0 ==> SpliceStart(len, -count) == 0
    ensures count < 0 ==> SpliceStart(len, -count) == (if -count <= len then -count else len)
  {
  }

  class LegacyStack {
    var stack: seq<StackItem>
    var history: History
    var locked: bool
    var log: seq<Effect>

    /** The browser is on one of the page's entries. */
    ghost predicate Valid()
      reads this
    {
      Wf(history)
    }

    /** The browser's history is the one the stack wrote, and the browser is on the entry recording the stack length. */
    ghost predicate InSync()
      reads this
    {
      InStep(history, |stack|)
    }

    /**
     * The outcome of `history.go(-steps)` and the wait for the confirming
     * event: the browser lands `steps` entries back, and the mutex stays held
     * unless that entry records 0 or the stack length; with too few entries
     * behind the current one no event comes and the mutex stays held.
     */
    twostate predicate WentBack(steps: nat)
      reads this
    {
      && history == GoBack(old(history), steps)
      && (locked <==> !CanGoBack(old(history), steps) || !BatchConfirmed(Current(history), |stack|))
    }

    /** The module-level start-up: a positive recorded depth is undone by going back. */
    constructor Initialize(recordedDepth: Option<int>)
      ensures Valid() && stack == [] && !locked
      ensures recordedDepth.Some? && recordedDepth.value > 0 ==>
        log == [HistoryBack(recordedDepth.value)] && history == Start(0)
      ensures !(recordedDepth.Some? && recordedDepth.value > 0) ==>
        log == [] && history == Start(RecordedDepth(recordedDepth))
    {
      stack := [];
      locked := false;
      if recordedDepth.Some? && recordedDepth.value > 0 {
        log := [HistoryBack(recordedDepth.value)];
        history := Start(0);
      } else {
        log := [];
        history := Start(RecordedDepth(recordedDepth));
      }
    }

    /**
     * `pushModal(content, options)`, once the mutex is free: announce the
     * modal with the current length as its sequence number, record its
     * container (or the default), and push a history entry with the new
     * length. While a batch holds the mutex the call waits without effect.
     */
    method PushModal(content: Value, options: Option<ModalObserver.ModalOptions>)
      requires Valid()
      modifies this
      ensures Valid() && locked == old(locked)
      ensures old(locked) ==> stack == old(stack) && log == old(log) && history == old(history)
      ensures !old(locked) ==>
        && stack == old(stack) + [ModalItem(ContainerIdOf(RequestedContainer(options)))]
        && log == old(log) + [PushModalEvent(content, options, |old(stack)|), HistoryPushed(|stack|)]
        && history == PushState(old(history), |stack|)
      ensures old(InSync()) ==> InSync()
    {
      if locked {
        return;
      }
      if InSync() {
        PushStateKeepsStep(history, |stack|);
      }
      log := log + [PushModalEvent(content, options, |stack|)];
      stack := stack + [ModalItem(Or(RequestedContainer(options), DEFAULT_CONTAINER_ID))];
      log := log + [HistoryPushed(|stack|)];
      history := PushState(history, |stack|);
    }

    /**
     * `multiplePop(items)`: announce every removed item, then go back once
     * for all of them and hold the mutex until the landing is confirmed.
     */
    method MultiplePop(items: seq<StackItem>)
      modifies this`log, this`history, this`locked
      ensures |items| == 0 ==> log == old(log) && history == old(history) && locked == old(locked)
      ensures |items| > 0 ==> log == old(log) + PopEvents(items) + [HistoryBack(|items|)] && WentBack(|items|)
    {
      if |items| == 0 {
        return;
      }
      var i := 0;
      while i < |items|
        invariant 0 <= i <= |items|
        invariant log == old(log) + PopEvents(items[..i])
        invariant history == old(history)
      {
        assert items[..i + 1][..i] == items[..i];
        log := log + [PopModalEvent(items[i].containerId)];
        i := i + 1;
      }
      assert items[..i] == items;
      log := log + [HistoryBack(|items|)];
      if CanGoBack(history, |items|) {
        history := GoBack(history, |items|);
        locked := !BatchConfirmed(Current(history), |stack|);
      } else {
        locked := true;
      }
    }

    /**
     * `pop(count = 1)`, once the mutex is free: remove `splice(-count)` and
     * pass the removed items on.
     */
    method Pop(count: int := 1)
      requires Valid()
      modifies this
      ensures Valid()
      ensures old(locked) ==> stack == old(stack) && log == old(log) && history == old(history) && locked
      ensures !old(locked) ==> var k := SpliceStart(|old(stack)|, -count);
        && stack == old(stack)[..k]
        && (k == |old(stack)| ==> log == old(log) && history == old(history) && !locked)
        && (k < |old(stack)| ==> log == old(log) + PopEvents(old(stack)[k..]) + [HistoryBack(|old(stack)| - k)] && WentBack(|old(stack)| - k))
      ensures old(InSync()) && !old(locked) ==> InSync() && !locked
    {
      if locked {
        return;
      }
      var k := SpliceStart(|stack|, -count);
      if InSync() {
        GoBackInStep(history, |stack|, |stack| - k);
      }
      var items := stack[k..];
      stack := stack[..k];
      MultiplePop(items);
    }

    /** `popAll()`, once the mutex is free: remove everything as one batch. */
    method PopAll()
      requires Valid()
      modifies this
      ensures Valid()
      ensures old(locked) ==> stack == old(stack) && log == old(log) && history == old(history) && locked
      ensures !old(locked) ==>
        && stack == []
        && (|old(stack)| == 0 ==> log == old(log) && history == old(history) && !locked)
        && (|old(stack)| > 0 ==> log == old(log) + PopEvents(old(stack)) + [HistoryBack(|old(stack)|)] && WentBack(|old(stack)|))
      ensures old(InSync()) && !old(locked) ==> InSync() && !locked
    {
      if locked {
        return;
      }
      var items := stack;
      if InSync() {
        GoBackInStep(history, |stack|, |stack|);
      }
      stack := [];
      MultiplePop(items);
    }

    /**
     * A `popstate` event after the user moved to entry `to`. While a batch
     * holds the mutex, the module-level listener ignores the event and the
     * batch's own listener releases the mutex on an entry recording 0 or the
     * stack length. Otherwise, when the entry's depth is below the stack
     * length, the last item is removed and its container told to pop.
     */
    method OnPopState(to: nat)
      requires Valid() && to < |history.entries|
      modifies this
      ensures Valid()
      ensures history == old(history).(position := to)
      ensures old(locked) ==>
        stack == old(stack) && log == old(log) && (locked <==> !BatchConfirmed(Current(history), |stack|))
      ensures !old(locked) ==> !locked
      ensures !old(locked) && 0 < |old(stack)| && Current(history) < |old(stack)| ==>
        && stack == old(stack)[..|old(stack)| - 1]
        && log == old(log) + [PopModalEvent(old(stack)[|old(stack)| - 1].containerId)]
      ensures !old(locked) && (|old(stack)| == 0 || Current(history) >= |old(stack)|) ==>
        stack == old(stack) && log == old(log)
    {
      history := history.(position := to);
      if locked {
        locked := !BatchConfirmed(Current(history), |stack|);
        return;
      }
      if Current(history) < |stack| && |stack| > 0 {
        var item := stack[|stack| - 1];
        stack := stack[..|stack| - 1];
        log := log + [PopModalEvent(item.containerId)];
      }
    }
  }

  /**
   * Pushing two modals, one with options naming container 'a' and one
   * without options (so into the default container), and popping both
   * announces container 'a' first, then the default one, and goes back two
   * history entries at once.
   */
  method PushPushPopAll(content: Value) returns (log: seq<Effect>)
    ensures log == [
      PushModalEvent(content, Some(InContainer(Str("a"))), 0), HistoryPushed(1),
      PushModalEvent(content, None, 1), HistoryPushed(2),
      PopModalEvent(Str("a")), PopModalEvent(DEFAULT_CONTAINER_ID), HistoryBack(2)]
  {
    var s := new LegacyStack.Initialize(None);
    s.PushModal(content, Some(InContainer(Str("a"))));
    s.PushModal(content, None);
    assert s.stack == [ModalItem(Str("a")), ModalItem(DEFAULT_CONTAINER_ID)];
    s.PopAll();
    PopEventsInOrder([ModalItem(Str("a")), ModalItem(DEFAULT_CONTAINER_ID)]);
    log := s.log;
  }

  /** Three modals pushed into containers 'a', 'b' and 'c' on a fresh stack. */
  method PushThree(content: Value) returns (s: LegacyStack)
    ensures fresh(s) && s.Valid() && !s.locked
    ensures s.stack == [ModalItem(Str("a")), ModalItem(Str("b")), ModalItem(Str("c"))]
    ensures s.history == History([0, 1, 2, 3], 3)
  {
    s := new LegacyStack.Initialize(None);
    s.PushModal(content, Some(InContainer(Str("a"))));
    assert s.history == History([0, 1], 1);
    s.PushModal(content, Some(InContainer(Str("b"))));
    assert s.history == History([0, 1, 2], 2);
    s.PushModal(content, Some(InContainer(Str("c"))));
  }

  /**
   * The user jumps from the third entry straight to the first: the listener
   * removes only 'c'. A later `pop()` removes 'b' and lands on the entry
   * recording 0 while 'a' remains; the legacy rule takes depth 0 as
   * confirmation, so the mutex is free again although the history is out
   * of step with the stack.
   */
  method JumpBackThenPopReleases(content: Value) returns (s: LegacyStack)
    ensures s.stack == [ModalItem(Str("a"))]
    ensures !s.locked && Current(s.history) == 0
  {
    s := PushThree(content);
    s.OnPopState(1);
    assert s.stack == [ModalItem(Str("a")), ModalItem(Str("b"))];
    s.Pop(1);
  }

  /**
   * `pop()` without a count removes the last modal only: from three modals
   * in step with the history, container 'c' is told to pop, the browser goes
   * back one entry, and that entry confirms at once.
   */
  method PopWithoutCountRemovesLast(content: Value) returns (s: LegacyStack, popped: seq<Effect>)
    ensures s.stack == [ModalItem(Str("a")), ModalItem(Str("b"))]
    ensures popped == [PopModalEvent(Str("c")), HistoryBack(1)]
    ensures !s.locked && s.history == History([0, 1, 2, 3], 2)
  {
    s := PushThree(content);
    var before := s.log;
    assert s.InSync();
    assert s.stack[2..] == [ModalItem(Str("c"))];
    s.Pop();
    popped := s.log[|before|..];
  }
}
