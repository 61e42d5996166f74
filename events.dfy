/** The Click event of a control and the `_handle_click` handler the wrappers
    subscribe to it. The event holds a number of subscriptions of that one
    handler; each subscription runs the handler once per click, and the
    handler calls the callback stored at click time, if any. */
module Events {
  import opened Toolkit
  import opened Wrappers

  /** The callbacks one click runs, in order, when `handlers` subscriptions of
      `_handle_click` are attached and `onClick` is the stored callback. */
  function ClickCalls(handlers: nat, onClick: Option<Callback>): (calls: seq<Callback>)
    ensures |calls| == if onClick.Some? then handlers else 0
    ensures forall i :: 0 <= i < |calls| ==> calls[i] == onClick.value
  {
    if handlers == 0 || onClick.None? then [] else ClickCalls(handlers - 1, onClick) + [onClick.value]
  }

  /** `Click -= handler`: removes one subscription when there is one; on an
      event without one it is a no-op. */
  function Unsubscribe(handlers: nat): (h: nat)
    ensures handlers > 0 ==> h + 1 == handlers
    ensures handlers == 0 ==> h == 0
  {
    if handlers > 0 then handlers - 1 else 0
  }

  /** Subscriptions after an `on_click` assignment that first unsubscribes the
      handler when a callback was set, then subscribes it when the new one is
      set. */
  function Resubscribe(handlers: nat, current: Option<Callback>, value: Option<Callback>): (h: nat)
    ensures handlers == (if current.Some? then 1 else 0) ==> h == if value.Some? then 1 else 0
  {
    var kept := if current.Some? then Unsubscribe(handlers) else handlers;
    if value.Some? then kept + 1 else kept
  }

  /** Subscriptions after a series of `on_click` assignments under the
      unsubscribe-then-subscribe rule, starting from `handlers` and callback
      `current`. */
  function ResubscribeAll(handlers: nat, current: Option<Callback>, values: seq<Option<Callback>>): nat
    decreases |values|
  {
    if |values| == 0 then handlers
    else ResubscribeAll(Resubscribe(handlers, current, values[0]), values[0], values[1..])
  }

  /** Under that rule a click calls the callback assigned last exactly once,
      and nothing when the last assignment was None, however many
      assignments were made. */
  lemma {:induction false} ResubscribeOneCallPerClick(current: Option<Callback>, values: seq<Option<Callback>>)
    requires |values| > 0
    decreases |values|
    ensures var last := values[|values| - 1];
      ClickCalls(ResubscribeAll(if current.Some? then 1 else 0, current, values), last) ==
        if last.Some? then [last.value] else []
  {
    var h := if current.Some? then 1 else 0;
    var h1 := Resubscribe(h, current, values[0]);
    if |values| == 1 {
      assert ResubscribeAll(h1, values[0], values[1..]) == h1;
    } else {
      ResubscribeOneCallPerClick(values[0], values[1..]);
      assert values[1..][|values[1..]| - 1] == values[|values| - 1];
    }
  }
}
