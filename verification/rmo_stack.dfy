/**
 * The overlay stack (`RmoStack`): one ordered stack of open-overlay ids, each
 * with an `onPopState` callback, kept in step with a depth number written into
 * browser history.
 *
 * Every mutex-guarded section (`mutex.runExclusive`) is one atomic method.
 * Browser history is the page's entries with the depth each records, plus a
 * log of navigations: `history.pushState` appends `HistoryPushed(depth)` and
 * `history.go(-n)` appends `HistoryBack(n)`. A pop then waits, holding the
 * mutex, for a `popstate` event whose depth equals the new stack length;
 * when the entry the browser lands on records another depth, the mutex
 * stays held (`locked`) until some later event brings one that does, and
 * every push, pop and flush meanwhile waits without effect.
 */
module RmoStack {
  import opened Js
  import opened PropValidator
  import opened BrowserHistory

  /** The four overlay registries that push entries. */
  datatype OverlayKind = ModalKind | AlertDialogKind | LightboxKind | BottomSheetKind

  /**
   * What an entry's `onPopState` does when it fires: the push orchestrators
   * register "pop this registry's container", other callers an opaque listener.
   */
  datatype Callback = ClosesContainer(kind: OverlayKind, containerId: Value) | Listener(token: nat)

  datatype PushOptions = PushOptions(id: Value, onPopState: Callback)

  datatype Pushed = Pushed(id: Id, index: nat)

  /**
   * Why a push did not settle with an entry: the id is already stacked, or
   * the mutex is held by a pop still waiting for its confirming `popstate`,
   * so the call waits and has no effect yet.
   */
  datatype PushError = DuplicateEntry(id: Id) | MutexHeld

  /** The two overloads of `pop`: a numeric count, or the single-pop options object. */
  datatype PopRequest =
    | PopCount(count: int, preventEventTriggering: bool)
    | PopOne(id: Value, preventEventTriggering: bool)

  /** What the stack does to the outside world, in order. */
  datatype Effect = Fired(id: Id, callback: Callback) | HistoryPushed(depth: nat) | HistoryBack(steps: nat)

  /** `options.id && isId(options.id) ? options.id : genRmoStackId()` */
  function ChosenId(requested: Value, generated: TruthyId): TruthyId {
    if Truthy(requested) && IsId(requested) then requested else generated
  }

  /** `triggerListener(id, prevent)`: the callback fires unless suppressed, if one is registered. */
  function FireOne(id: Id, listeners: map<Id, Callback>, prevent: bool): seq<Effect> {
    if !prevent && id in listeners then [Fired(id, listeners[id])] else []
  }

  /** `items.forEach(id => triggerListener(id, prevent))`, the first item first. */
  function FireAll(items: seq<Id>, listeners: map<Id, Callback>, prevent: bool): seq<Effect> {
    if |items| == 0 then []
    else FireAll(items[..|items| - 1], listeners, prevent) + FireOne(items[|items| - 1], listeners, prevent)
  }

  /**
   * One step of a batch over distinct ids: the next id has not been removed
   * yet, so it fires with its original callback and the removed set grows by it.
   */
  lemma {:induction false} BatchStep(items: seq<Id>, i: nat, listeners: map<Id, Callback>, prevent: bool)
    requires Distinct(items) && i < |items|
    ensures FireOne(items[i], listeners - Elems(items[..i]), prevent) == FireOne(items[i], listeners, prevent)
    ensures FireAll(items[..i + 1], listeners, prevent) == FireAll(items[..i], listeners, prevent) + FireOne(items[i], listeners, prevent)
    ensures (listeners - Elems(items[..i])) - {items[i]} == listeners - Elems(items[..i + 1])
  {
    assert items[..i + 1][..i] == items[..i];
    assert items[..i + 1] == items[..i] + [items[i]];
    ElemsOfSnoc(items[..i], items[i]);
    assert items[i] !in Elems(items[..i]);
  }

  /** The number of back-navigations in a log. */
  function Navigations(effects: seq<Effect>): nat {
    if |effects| == 0 then 0
    else Navigations(effects[..|effects| - 1]) + (if effects[|effects| - 1].HistoryBack? then 1 else 0)
  }

  /** `stack.at(-1)` is a truthy id and no supplied id contradicts it. */
  predicate SinglePopApplies(stack: seq<Id>, id: Value) {
    |stack| > 0 && Truthy(stack[|stack| - 1]) && !(Truthy(id) && id != stack[|stack| - 1])
  }

  /** How many entries `splice(-Math.abs(count))` removes from a stack of `len` entries. */
  function BatchStart(len: nat, count: int): nat {
    var magnitude: int := Abs(count);
    SpliceStart(len, -magnitude)
  }

  /**
   * A batch fires its callbacks in stack order, the deepest removed entry
   * first, one for every removed entry that still has a listener.
   */
  lemma {:induction false} FireAllInStackOrder(items: seq<Id>, listeners: map<Id, Callback>)
    requires Elems(items) <= listeners.Keys
    ensures |FireAll(items, listeners, false)| == |items|
    ensures forall i :: 0 <= i < |items| ==> FireAll(items, listeners, false)[i] == Fired(items[i], listeners[items[i]])
  {
    if |items| > 0 {
      var init := items[..|items| - 1];
      assert Elems(init) <= Elems(items);
      FireAllInStackOrder(init, listeners);
      assert items[|items| - 1] in Elems(items);
    }
  }

  /** With `preventEventTriggering`, no callback of the batch fires. */
  lemma {:induction false} FireAllSuppressed(items: seq<Id>, listeners: map<Id, Callback>)
    ensures FireAll(items, listeners, true) == []
  {
    if |items| > 0 {
      FireAllSuppressed(items[..|items| - 1], listeners);
    }
  }

  lemma {:induction false} NavigationsOfConcat(a: seq<Effect>, b: seq<Effect>)
    ensures Navigations(a + b) == Navigations(a) + Navigations(b)
  {
    if |b| > 0 {
      assert (a + b)[..|a + b| - 1] == a + b[..|b| - 1];
      NavigationsOfConcat(a, b[..|b| - 1]);
    } else {
      assert a + b == a;
    }
  }

  lemma {:induction false} FireAllDoesNotNavigate(items: seq<Id>, listeners: map<Id, Callback>, prevent: bool)
    ensures Navigations(FireAll(items, listeners, prevent)) == 0
  {
    if |items| > 0 {
      FireAllDoesNotNavigate(items[..|items| - 1], listeners, prevent);
      NavigationsOfConcat(FireAll(items[..|items| - 1], listeners, prevent), FireOne(items[|items| - 1], listeners, prevent));
    }
  }

  /** A batch pop or flush navigates back exactly once, whatever the batch size. */
  lemma OneNavigationPerBatch(items: seq<Id>, listeners: map<Id, Callback>, prevent: bool)
    ensures Navigations(FireAll(items, listeners, prevent) + [HistoryBack(|items|)]) == 1
  {
    FireAllDoesNotNavigate(items, listeners, prevent);
    NavigationsOfConcat(FireAll(items, listeners, prevent), [HistoryBack(|items|)]);
  }

  /**
   * The stack keeps a caller's id only when it is a truthy id; `''`, `0`, a
   * missing id and anything that is not an id are replaced by the generated
   * one, so no falsy id ever reaches the stack.
   */
  lemma StackIdRule(requested: Value, generated: TruthyId)
    ensures Truthy(requested) && IsId(requested) ==> ChosenId(requested, generated) == requested
    ensures !(Truthy(requested) && IsId(requested)) ==> ChosenId(requested, generated) == generated
    ensures ChosenId(Str(""), generated) == generated && ChosenId(Num(0), generated) == generated
    ensures Truthy(ChosenId(requested, generated))
  {
  }

  /**
   * `splice(-Math.abs(count))` removes the last `min(|count|, length)`
   * entries, except that a count of 0 is `splice(-0)`, which removes all.
   */
  lemma BatchSize(len: nat, count: int)
    ensures count != 0 ==> len - BatchStart(len, count) == (if Abs(count) <= len then Abs(count) else len)
    ensures count == 0 ==> BatchStart(len, count) == 0
  {
  }

  class OverlayStack {
    var stack: seq<Id>
    var listeners: map<Id, Callback>
    var history: History
    var locked: bool
    var log: seq<Effect>

    /** Ids are distinct and truthy, exactly the stacked ids have a listener, and the browser is on an entry. */
    ghost predicate Valid()
      reads this
    {
      && Distinct(stack)
      && listeners.Keys == Elems(stack)
      && (forall i :: 0 <= i < |stack| ==> Truthy(stack[i]))
      && Wf(history)
    }

    /**
     * `initialize()`: a positive depth recorded by an earlier page session is
     * undone by navigating back that many steps; the stack starts empty.
     */
    constructor Initialize(recordedDepth: Option<int>)
      ensures Valid() && stack == [] && listeners == map[] && !locked
      ensures recordedDepth.Some? && recordedDepth.value > 0 ==>
        log == [HistoryBack(recordedDepth.value)] && history == Start(0)
      ensures !(recordedDepth.Some? && recordedDepth.value > 0) ==>
        log == [] && history == Start(RecordedDepth(recordedDepth))
    {
      stack := [];
      listeners := map[];
      locked := false;
      if recordedDepth.Some? && recordedDepth.value > 0 {
        log := [HistoryBack(recordedDepth.value)];
        history := Start(0);
      } else {
        log := [];
        history := Start(RecordedDepth(recordedDepth));
      }
    }

    /** `length` */
    function Length(): nat
      reads this
    {
      |stack|
    }

    /** `findIndexById(id)`: the position of `id`, or -1; reads only. */
    function FindIndexById(id: Value): (i: int)
      reads this
      ensures -1 <= i < |stack|
      ensures i == -1 <==> id !in stack
      ensures 0 <= i ==> stack[i] == id && id !in stack[..i]
    {
      if IsId(id) then IndexOf(stack, id) else -1
    }

    /** On a consistent stack, `length` is also the number of registered listeners. */
    lemma LengthCountsListeners()
      requires Valid()
      ensures Length() == |listeners|
    {
      DistinctCount(stack);
      assert |listeners| == |listeners.Keys|;
    }

    /** The browser's history is the one the stack wrote: entries 0, 1, …, and the browser on the one recording the stack length. */
    ghost predicate InSync()
      reads this
    {
      InStep(history, |stack|)
    }

    /** Nothing the stack holds has changed. */
    twostate predicate Untouched()
      reads this
    {
      stack == old(stack) && listeners == old(listeners) && history == old(history)
      && locked == old(locked) && log == old(log)
    }

    /**
     * The outcome of `history.go(-steps)` and the wait for the confirming
     * event: the browser lands `steps` entries back, and the mutex stays held
     * unless that entry records the stack length; with too few entries behind
     * the current one no event comes and the mutex stays held.
     */
    twostate predicate WentBack(steps: nat)
      reads this
    {
      && history == GoBack(old(history), steps)
      && (locked <==> !CanGoBack(old(history), steps) || Current(history) != |stack|)
    }

    /**
     * The stack after a batch that removed everything from position `k` on;
     * while the mutex is held the batch waits and nothing changes.
     */
    twostate predicate BatchReleased(k: nat, prevent: bool)
      reads this
      requires k <= |old(stack)|
    {
      && (old(locked) ==> Untouched())
      && (!old(locked) ==>
            && stack == old(stack)[..k]
            && listeners == old(listeners) - Elems(old(stack)[k..])
            && (k == |old(stack)| ==> log == old(log) && history == old(history) && !locked)
            && (k < |old(stack)| ==>
                  && log == old(log) + FireAll(old(stack)[k..], old(listeners), prevent) + [HistoryBack(|old(stack)| - k)]
                  && WentBack(|old(stack)| - k)))
    }

    /**
     * The stack after a single pop with id `id`: the tail is gone, or
     * nothing changed; while the mutex is held the pop waits.
     */
    twostate predicate SingleReleased(id: Value, prevent: bool)
      reads this
    {
      && (old(locked) ==> Untouched())
      && (!old(locked) && SinglePopApplies(old(stack), id) ==>
            var tail := old(stack)[|old(stack)| - 1];
            && stack == old(stack)[..|old(stack)| - 1]
            && listeners == old(listeners) - {tail}
            && log == old(log) + FireOne(tail, old(listeners), prevent) + [HistoryBack(1)]
            && WentBack(1))
      && (!old(locked) && !SinglePopApplies(old(stack), id) ==>
            stack == old(stack) && listeners == old(listeners) && log == old(log) && history == old(history) && !locked)
    }

    /** `updateHistoryState()`: push a history entry recording the stack length. */
    method UpdateHistoryState()
      requires Wf(history)
      modifies this`history, this`log
      ensures history == PushState(old(history), |stack|) && log == old(log) + [HistoryPushed(|stack|)]
    {
      history := PushState(history, |stack|);
      log := log + [HistoryPushed(|stack|)];
    }

    /**
     * `popHistoryState(count)`: `history.go(-count)`, then hold the mutex
     * until a `popstate` event records the stack length.
     */
    method PopHistoryState(count: nat)
      modifies this`history, this`log, this`locked
      ensures log == old(log) + [HistoryBack(count)]
      ensures WentBack(count)
    {
      log := log + [HistoryBack(count)];
      if CanGoBack(history, count) {
        history := GoBack(history, count);
        locked := Current(history) != |stack|;
      } else {
        locked := true;
      }
    }

    /** `triggerListener(id, prevent)`: fire unless suppressed, then forget the listener either way. */
    method TriggerListener(id: Id, prevent: bool)
      modifies this`listeners, this`log
      ensures listeners == old(listeners) - {id}
      ensures log == old(log) + FireOne(id, old(listeners), prevent)
    {
      if !prevent && id in listeners {
        log := log + [Fired(id, listeners[id])];
      }
      listeners := listeners - {id};
    }

    /** The loop of a batch: fire every removed entry in stack order, forgetting each listener. */
    method TriggerAll(items: seq<Id>, prevent: bool)
      requires Distinct(items)
      modifies this`listeners, this`log
      ensures listeners == old(listeners) - Elems(items)
      ensures log == old(log) + FireAll(items, old(listeners), prevent)
    {
      ghost var before := listeners;
      var i := 0;
      while i < |items|
        invariant 0 <= i <= |items|
        invariant listeners == before - Elems(items[..i])
        invariant log == old(log) + FireAll(items[..i], before, prevent)
      {
        BatchStep(items, i, before, prevent);
        TriggerListener(items[i], prevent);
        i := i + 1;
      }
      assert items[..i] == items;
    }

    /** The shared tail of `popMultiple` and `flush`: fire every removed entry, then go back once. */
    method ReleaseBatch(items: seq<Id>, prevent: bool)
      requires Distinct(items)
      modifies this`listeners, this`log, this`history, this`locked
      ensures listeners == old(listeners) - Elems(items)
      ensures log == old(log) + FireAll(items, old(listeners), prevent) + [HistoryBack(|items|)]
      ensures WentBack(|items|)
    {
      TriggerAll(items, prevent);
      PopHistoryState(|items|);
    }

    /**
     * `push(options)`: wait while the mutex is held; choose the id, refuse a
     * duplicate without touching anything, otherwise append the id, register
     * its callback and write a history entry recording the new length;
     * resolve with the id and its index.
     */
    method Push(options: PushOptions, generated: TruthyId) returns (r: Result<Pushed, PushError>)
      requires Valid()
      modifies this
      ensures Valid() && locked == old(locked)
      ensures old(locked) ==> r == Err(MutexHeld) && Untouched()
      ensures !old(locked) ==> var id := ChosenId(options.id, generated);
        if id in old(stack) then
          && r == Err(DuplicateEntry(id))
          && Untouched()
        else
          && r == Ok(Pushed(id, |old(stack)|))
          && stack == old(stack) + [id]
          && listeners == old(listeners)[id := options.onPopState]
          && history == PushState(old(history), |stack|)
          && log == old(log) + [HistoryPushed(|stack|)]
      ensures old(InSync()) ==> InSync()
    {
      if locked {
        return Err(MutexHeld);
      }
      var id := ChosenId(options.id, generated);
      if id in stack {
        return Err(DuplicateEntry(id));
      }
      ghost var inSync := InSync();
      ElemsOfSnoc(stack, id);
      stack := stack + [id];
      listeners := listeners[id := options.onPopState];
      if inSync {
        PushStateKeepsStep(history, |stack| - 1);
      }
      UpdateHistoryState();
      r := Ok(Pushed(id, |stack| - 1));
    }

    /** `popMultiple(count, prevent)`, run once the mutex is free. */
    method PopMultiple(count: int, prevent: bool)
      requires Valid()
      modifies this
      ensures Valid()
      ensures BatchReleased(BatchStart(|old(stack)|, count), prevent)
      ensures old(InSync()) && !old(locked) ==> InSync() && !locked
    {
      if locked {
        return;
      }
      ReleaseFrom(BatchStart(|stack|, count), prevent);
    }

    /**
     * The shared body of `popMultiple` and `flush` once the mutex is free:
     * cut the stack at `k`, then release the removed entries as one batch.
     */
    method ReleaseFrom(k: nat, prevent: bool)
      requires Valid() && !locked && k <= |stack|
      modifies this
      ensures Valid()
      ensures BatchReleased(k, prevent)
      ensures old(InSync()) ==> InSync() && !locked
    {
      if InSync() {
        GoBackInStep(history, |stack|, |stack| - k);
      }
      var items := Cut(k);
      if |items| == 0 {
        return;
      }
      ReleaseBatch(items, prevent);
    }

    /** `stack.splice(k)`: the entries from `k` on leave the stack, which stays distinct and truthy. */
    method Cut(k: nat) returns (items: seq<Id>)
      requires Valid() && k <= |stack|
      modifies this`stack
      ensures stack == old(stack)[..k] && items == old(stack)[k..]
      ensures Distinct(items) && Distinct(stack)
      ensures forall i :: 0 <= i < |stack| ==> Truthy(stack[i])
      ensures listeners.Keys - Elems(items) == Elems(stack)
    {
      items := stack[k..];
      ElemsOfSplit(stack, k);
      stack := stack[..k];
    }

    /** The body of `popSingle` once the tail is known to go: remove it, fire it, go back one entry. */
    method ReleaseTail(prevent: bool)
      requires Valid() && !locked && |stack| > 0
      modifies this
      ensures Valid()
      ensures var tail := old(stack)[|old(stack)| - 1];
        && stack == old(stack)[..|old(stack)| - 1]
        && listeners == old(listeners) - {tail}
        && log == old(log) + FireOne(tail, old(listeners), prevent) + [HistoryBack(1)]
        && WentBack(1)
      ensures old(InSync()) ==> InSync() && !locked
    {
      ghost var tail := stack[|stack| - 1];
      assert stack[|stack| - 1..] == [tail];
      assert Elems([tail]) == {tail};
      assert FireAll([tail], listeners, prevent) == FireOne(tail, listeners, prevent);
      ReleaseFrom(|stack| - 1, prevent);
    }

    /** `popSingle(options)`: remove the tail unless the stack is empty or the given id is not the tail. */
    method PopSingle(id: Value, prevent: bool)
      requires Valid()
      modifies this
      ensures Valid()
      ensures SingleReleased(id, prevent)
      ensures old(InSync()) && !old(locked) ==> InSync() && !locked
    {
      if locked {
        return;
      }
      var lastItemId := LastOr(stack, Undefined);
      if !Truthy(lastItemId) || (Truthy(id) && id != lastItemId) {
        return;
      }
      ReleaseTail(prevent);
    }

    /** `pop(...)`: a number selects the counted pop, anything else the single pop. */
    method Pop(request: PopRequest)
      requires Valid()
      modifies this
      ensures Valid()
      ensures request.PopCount? ==> BatchReleased(BatchStart(|old(stack)|, request.count), request.preventEventTriggering)
      ensures request.PopOne? ==> SingleReleased(request.id, request.preventEventTriggering)
      ensures old(InSync()) && !old(locked) ==> InSync() && !locked
    {
      match request
      case PopCount(count, prevent) =>
        PopMultiple(count, prevent);
      case PopOne(id, prevent) =>
        PopSingle(id, prevent);
    }

    /** `flush(prevent)`: empty the whole stack as one batch, once the mutex is free. */
    method Flush(prevent: bool)
      requires Valid()
      modifies this
      ensures Valid()
      ensures BatchReleased(0, prevent)
      ensures old(InSync()) && !old(locked) ==> InSync() && !locked
    {
      if locked {
        return;
      }
      ReleaseFrom(0, prevent);
    }

    /**
     * A `popstate` event after the user moved to entry `to` (the back or
     * forward button). While a pop holds the mutex, the module-level listener
     * ignores the event and the pop's own listener releases the mutex only if
     * the entry records the stack length. Otherwise, when the entry's depth
     * is below the stack length, the tail entry is popped and its callback
     * fired, with no navigation of the library's own.
     */
    method OnPopState(to: nat)
      requires Valid() && to < |history.entries|
      modifies this
      ensures Valid()
      ensures history == old(history).(position := to)
      ensures old(locked) ==>
        && stack == old(stack) && listeners == old(listeners) && log == old(log)
        && (locked <==> Current(history) != |stack|)
      ensures !old(locked) ==> !locked
      ensures !old(locked) && 0 < |old(stack)| && Current(history) < |old(stack)| ==>
        var tail := old(stack)[|old(stack)| - 1];
        && stack == old(stack)[..|old(stack)| - 1]
        && listeners == old(listeners) - {tail}
        && log == old(log) + FireOne(tail, old(listeners), false)
      ensures !old(locked) && (|old(stack)| == 0 || Current(history) >= |old(stack)|) ==>
        stack == old(stack) && listeners == old(listeners) && log == old(log)
    {
      history := history.(position := to);
      if locked {
        locked := Current(history) != |stack|;
        return;
      }
      if Current(history) < |stack| && |stack| > 0 {
        // `stack.pop()` on an empty stack yields `undefined`, which fires nothing.
        var id := stack[|stack| - 1];
        ElemsOfSplit(stack, |stack| - 1);
        assert stack[|stack| - 1..] == [id];
        stack := stack[..|stack| - 1];
        if Truthy(id) {
          TriggerListener(id, false);
        }
      }
    }
  }

  /** The first half of the scenario below: two pushes onto a fresh stack. */
  method PushTwo(cb1: Callback, cb2: Callback, generated: TruthyId)
    returns (s: OverlayStack, first: Result<Pushed, PushError>, second: Result<Pushed, PushError>, l1: nat, l2: nat)
    requires generated != Str("m1")
    ensures fresh(s) && s.Valid() && !s.locked && s.InSync()
    ensures first == Ok(Pushed(Str("m1"), 0)) && second == Ok(Pushed(generated, 1))
    ensures l1 == 1 && l2 == 2
    ensures s.stack == [Str("m1"), generated]
    ensures s.listeners == map[Str("m1") := cb1, generated := cb2]
    ensures s.log == [HistoryPushed(1), HistoryPushed(2)]
  {
    s := new OverlayStack.Initialize(None);
    StartInStep();
    first := s.Push(PushOptions(Str("m1"), cb1), generated);
    assert s.stack == [Str("m1")] && s.log == [HistoryPushed(1)];
    l1 := s.Length();
    second := s.Push(PushOptions(Undefined, cb2), generated);
    assert s.stack == [Str("m1"), generated];
    l2 := s.Length();
  }

  /**
   * The usage scenario of the design: push 'm1', push an unnamed entry,
   * pop twice. The generated id lands at index 1; the first pop fires the
   * second callback, the second pop fires the first; every pop is one
   * back-navigation that the browser confirms at once.
   */
  method PushPushPopPop(cb1: Callback, cb2: Callback, generated: TruthyId)
    returns (first: Result<Pushed, PushError>, second: Result<Pushed, PushError>, lengths: seq<nat>, log: seq<Effect>)
    requires generated != Str("m1")
    ensures first == Ok(Pushed(Str("m1"), 0))
    ensures second == Ok(Pushed(generated, 1))
    ensures lengths == [1, 2, 1, 0]
    ensures log == [HistoryPushed(1), HistoryPushed(2), Fired(generated, cb2), HistoryBack(1), Fired(Str("m1"), cb1), HistoryBack(1)]
  {
    var s, l1, l2;
    s, first, second, l1, l2 := PushTwo(cb1, cb2, generated);
    assert SinglePopApplies(s.stack, Undefined);
    s.Pop(PopOne(Undefined, false));
    assert s.stack == [Str("m1")];
    assert s.listeners == map[Str("m1") := cb1];
    assert s.log == [HistoryPushed(1), HistoryPushed(2), Fired(generated, cb2), HistoryBack(1)];
    var l3 := s.Length();
    assert SinglePopApplies(s.stack, Str("m1"));
    s.Pop(PopOne(Str("m1"), false));
    var l4 := s.Length();
    lengths := [l1, l2, l3, l4];
    log := s.log;
  }

  /** Three entries 'a', 'b', 'c' pushed onto a fresh stack. */
  method PushThree(cb: Callback, generated: TruthyId) returns (s: OverlayStack)
    ensures fresh(s) && s.Valid() && !s.locked
    ensures s.stack == [Str("a"), Str("b"), Str("c")]
    ensures s.history == History([0, 1, 2, 3], 3)
  {
    s := new OverlayStack.Initialize(None);
    var r := s.Push(PushOptions(Str("a"), cb), generated);
    assert s.stack == [Str("a")] && s.history == History([0, 1], 1);
    r := s.Push(PushOptions(Str("b"), cb), generated);
    assert s.stack == [Str("a"), Str("b")] && s.history == History([0, 1, 2], 2);
    r := s.Push(PushOptions(Str("c"), cb), generated);
  }

  /**
   * Back, then forward, then a pop: the back button pops 'c' and the
   * forward button returns to the entry recording 3 without pushing
   * anything. The pop of 'b' goes one entry back, to the one recording 2,
   * which is not the stack length 1, so its wait never ends on its own: the
   * mutex stays held and a later push waits without effect.
   */
  method BackForwardThenPopHangs(cb: Callback, generated: TruthyId) returns (s: OverlayStack, pushed: Result<Pushed, PushError>)
    ensures s.stack == [Str("a")] && s.locked
    ensures Current(s.history) == 2
    ensures pushed == Err(MutexHeld)
  {
    s := PushThree(cb, generated);
    s.OnPopState(2);
    assert s.stack == [Str("a"), Str("b")];
    s.OnPopState(3);
    assert s.stack == [Str("a"), Str("b")] && !s.locked;
    s.Pop(PopOne(Undefined, false));
    pushed := s.Push(PushOptions(Str("d"), cb), generated);
  }
}
