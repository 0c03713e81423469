/** The publish/subscribe event handler of balance_bot/event.py: a map from
    event type to the list of callbacks subscribed to it. Posting calls the
    type's callbacks in subscription order. Callbacks are identified by a
    number; a call is recorded instead of being run. */
module EventHandler {
  import opened Wrappers

  /** A subscribed callback. */
  type Callback = nat

  /** A posted message: text, or text with one interpolated number (the
      f-strings that report a speed). */
  datatype Message = Text(text: string) | TextWithValue(text: string, value: real)

  /** One callback invocation: `fn(event_type, message, level)`. */
  datatype Call = Call(fn: Callback, eventType: string, message: Message, level: Option<string>)

  /** The subscriber map after subscribing `fn` to `eventType`. */
  function Subscribed(subscribers: map<string, seq<Callback>>, eventType: string, fn: Callback): (m: map<string, seq<Callback>>)
    ensures eventType in m
    ensures m[eventType] == (if eventType in subscribers then subscribers[eventType] else []) + [fn]
    ensures forall t :: t != eventType ==> (t in m <==> t in subscribers)
    ensures forall t :: t != eventType && t in subscribers ==> m[t] == subscribers[t]
  {
    var existing := if eventType in subscribers then subscribers[eventType] else [];
    subscribers[eventType := existing + [fn]]
  }

  /** The calls a post makes: each callback of the type once, in order. */
  function CallsFor(fns: seq<Callback>, eventType: string, message: Message, level: Option<string>): (calls: seq<Call>)
    ensures |calls| == |fns|
    ensures forall i :: 0 <= i < |fns| ==> calls[i] == Call(fns[i], eventType, message, level)
  {
    if fns == [] then [] else CallsFor(fns[..|fns| - 1], eventType, message, level) + [Call(fns[|fns| - 1], eventType, message, level)]
  }

  /** Posting after a subscription calls the callbacks that were there
      before, then the new one; duplicates are called once per
      subscription. */
  lemma {:induction false} SubscribeThenPost(subscribers: map<string, seq<Callback>>, eventType: string, fn: Callback,
                                             message: Message, level: Option<string>)
    ensures var before := if eventType in subscribers then subscribers[eventType] else [];
            CallsFor(Subscribed(subscribers, eventType, fn)[eventType], eventType, message, level)
              == CallsFor(before, eventType, message, level) + [Call(fn, eventType, message, level)]
  {
    var before := if eventType in subscribers then subscribers[eventType] else [];
    var after := Subscribed(subscribers, eventType, fn)[eventType];
    assert after[..|after| - 1] == before;
  }

  class EventHandler {
    var subscribers: map<string, seq<Callback>>

    /** A new handler has no subscriptions. */
    constructor ()
      ensures subscribers == map[]
    {
      subscribers := map[];
    }

    /** `subscribe`: add `fn` at the end of the type's list, creating the
        list for a type not seen before. */
    method Subscribe(eventType: string, fn: Callback)
      modifies this
      ensures subscribers == Subscribed(old(subscribers), eventType, fn)
    {
      if eventType !in subscribers {
        subscribers := subscribers[eventType := []];
      }
      subscribers := subscribers[eventType := subscribers[eventType] + [fn]];
    }

    /** `post`: for a type nobody subscribed to, report it as not found and
        call nothing; otherwise call every callback of the type in order. */
    method Post(eventType: string, message: Message, level: Option<string> := None) returns (found: bool, calls: seq<Call>)
      ensures found <==> eventType in subscribers
      ensures !found ==> calls == []
      ensures found ==> calls == CallsFor(subscribers[eventType], eventType, message, level)
      ensures forall c :: c in calls ==> c.eventType == eventType && c.message == message && c.level == level
    {
      if eventType !in subscribers {
        return false, [];
      }
      found := true;
      var fns := subscribers[eventType];
      calls := [];
      var i := 0;
      while i < |fns|
        invariant 0 <= i <= |fns|
        invariant calls == CallsFor(fns[..i], eventType, message, level)
      {
        assert fns[..i + 1][..i] == fns[..i];
        calls := calls + [Call(fns[i], eventType, message, level)];
        i := i + 1;
      }
      assert fns[..i] == fns;
    }
  }
}
