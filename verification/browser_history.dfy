/**
 * The part of the browser's session history the two stacks see: the depth
 * each of the page's history entries records (`state.rmoStackLength || 0`),
 * oldest first, and the entry the browser is on. The stacks write entries
 * with `history.pushState`, walk back with `history.go(-n)`, and learn where
 * the browser landed from the depth a `popstate` event carries.
 */
module BrowserHistory {

  datatype History = History(entries: seq<int>, position: nat)

  /** The browser is on one of the page's entries. */
  predicate Wf(h: History) {
    h.position < |h.entries|
  }

  /** The depth the current entry records (0 for an entry without one). */
  function Current(h: History): int {
    if h.position < |h.entries| then h.entries[h.position] else 0
  }

  /** A page whose only entry records `depth`. */
  function Start(depth: int): (h: History)
    ensures Wf(h) && Current(h) == depth && h.position == 0
  {
    History([depth], 0)
  }

  /**
   * `history.pushState({ rmoStackLength: depth })`: the entries after the
   * current one are dropped and the new entry becomes the current one.
   */
  function PushState(h: History, depth: int): (r: History)
    requires Wf(h)
    ensures Wf(r) && Current(r) == depth && r.position == h.position + 1
    ensures forall i :: 0 <= i <= h.position ==> r.entries[i] == h.entries[i]
    ensures |r.entries| == h.position + 2
  {
    History(h.entries[..h.position + 1] + [depth], h.position + 1)
  }

  /** `history.go(-steps)` reaches an entry of the page (and fires `popstate`) only when there are `steps` entries behind the current one. */
  predicate CanGoBack(h: History, steps: nat) {
    steps <= h.position
  }

  /** Where `history.go(-steps)` leaves the browser: `steps` entries back, or where it was. */
  function GoBack(h: History, steps: nat): (r: History)
    ensures r.entries == h.entries
    ensures CanGoBack(h, steps) ==> r.position == h.position - steps
    ensures !CanGoBack(h, steps) ==> r == h
    ensures Wf(h) ==> Wf(r)
  {
    if CanGoBack(h, steps) then h.(position := h.position - steps) else h
  }

  /**
   * The history the library writes when nothing else moves the browser:
   * the entries up to the current one record 0, 1, …, `depth`.
   */
  predicate InStep(h: History, depth: nat) {
    && Wf(h)
    && h.position == depth
    && forall i :: 0 <= i <= h.position ==> h.entries[i] == i
  }

  /** A page that starts at an entry recording 0 is in step at depth 0. */
  lemma StartInStep()
    ensures InStep(Start(0), 0)
  {
  }

  /** Writing the next depth keeps the history in step. */
  lemma PushStateKeepsStep(h: History, depth: nat)
    requires InStep(h, depth)
    ensures InStep(PushState(h, depth + 1), depth + 1)
  {
  }

  /**
   * Going back `steps` entries of a history in step lands on an entry that
   * records exactly the depth left, and the history stays in step; so a
   * wait for "the depth equals the new stack length" ends at once.
   */
  lemma GoBackInStep(h: History, depth: nat, steps: nat)
    requires InStep(h, depth) && steps <= depth
    ensures CanGoBack(h, steps)
    ensures InStep(GoBack(h, steps), depth - steps)
    ensures Current(GoBack(h, steps)) == depth - steps
  {
  }
}
