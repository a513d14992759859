/** Callback fan-out as done by `EventLogger.log` and
    `StateMachine._notify_state_change`: every registered callback is called
    once per notification, in registration order, inside its own
    `try/except`, so one that raises stops nothing. */
module Observers {

  /** A registered callback, identified by its position-independent id. */
  type CallbackId = nat

  /** One callback invocation and whether it raised. */
  datatype Call<E> = Call(callback: CallbackId, event: E, raised: bool)

  /** Calls every callback with `e`; `raising` is the set of callbacks whose
      body throws (an input, since the callbacks' code is not modelled). */
  function Notify<E>(callbacks: seq<CallbackId>, raising: set<CallbackId>, e: E): (calls: seq<Call<E>>)
    ensures |calls| == |callbacks|
    ensures forall i :: 0 <= i < |calls| ==>
              calls[i].callback == callbacks[i] && calls[i].event == e
    ensures forall i :: 0 <= i < |calls| ==> (calls[i].raised <==> callbacks[i] in raising)
  {
    if callbacks == [] then []
    else [Call(callbacks[0], e, callbacks[0] in raising)] + Notify(callbacks[1..], raising, e)
  }

  /** The callbacks a notification reached, whatever they did. */
  function Reached<E>(calls: seq<Call<E>>): (ids: seq<CallbackId>)
    ensures |ids| == |calls|
    ensures forall i :: 0 <= i < |ids| ==> ids[i] == calls[i].callback
  {
    if calls == [] then [] else [calls[0].callback] + Reached(calls[1..])
  }

  /** Exception isolation: which callbacks are reached, and with what, does
      not depend on which of them raise. */
  lemma NotifyIsolatesFailures<E>(callbacks: seq<CallbackId>, raising1: set<CallbackId>,
                                  raising2: set<CallbackId>, e: E)
    ensures Reached(Notify(callbacks, raising1, e)) == callbacks
    ensures Reached(Notify(callbacks, raising1, e)) == Reached(Notify(callbacks, raising2, e))
  {
  }
}
