/**
 * The `pop(count = 1)` entry point: a counted pop of the overlay stack with
 * callbacks fired. Leaving the count out closes the top overlay only; while
 * an earlier pop still holds the stack's mutex, the call waits and nothing
 * changes.
 */
module PopApi {
  import opened Js
  import opened RmoStack

  /** `RmoStack.pop(count)` with `count` defaulting to 1. */
  method Pop(count: Option<int>, stack: OverlayStack)
    requires stack.Valid()
    modifies stack
    ensures stack.Valid()
    ensures stack.BatchReleased(BatchStart(|old(stack.stack)|, count.GetOr(1)), false)
    ensures old(stack.locked) ==> stack.Untouched()
    ensures !old(stack.locked) && count.None? && |old(stack.stack)| > 0 ==>
      var tail := old(stack.stack)[|old(stack.stack)| - 1];
      && stack.stack == old(stack.stack)[..|old(stack.stack)| - 1]
      && stack.log == old(stack.log) + FireOne(tail, old(stack.listeners), false) + [HistoryBack(1)]
    ensures !old(stack.locked) && count.Some? && count.value >= 1 ==>
      |old(stack.stack)| - |stack.stack| == (if count.value <= |old(stack.stack)| then count.value else |old(stack.stack)|)
  {
    var n := count.GetOr(1);
    BatchSize(|stack.stack|, n);
    stack.Pop(PopCount(n, false));
    if !old(stack.locked) && count.None? && |old(stack.stack)| > 0 {
      var items := old(stack.stack)[|old(stack.stack)| - 1..];
      assert items == [old(stack.stack)[|old(stack.stack)| - 1]];
      assert FireAll(items, old(stack.listeners), false) == FireOne(items[0], old(stack.listeners), false);
    }
  }
}
