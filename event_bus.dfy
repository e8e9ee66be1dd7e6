/**
 * The publish/subscribe bus that connects the game engine to the interface:
 * a map from event names to the ordered list of subscribed handlers. A handler
 * is identified by a number (its identity, as `indexOf` compares it);
 * what it does when called is outside the bus, except whether it throws.
 */
module Events {
  import opened Text

  type HandlerId = nat

  type Handlers = map<string, seq<HandlerId>>

  /** The handlers an emit of `event` calls, in order. */
  function Subscribed(h: Handlers, event: string): seq<HandlerId>
  {
    if event in h then h[event] else []
  }

  /** `on`: create the list if the event is new, then append the handler. */
  function Subscribe(h: Handlers, event: string, handler: HandlerId): (r: Handlers)
    ensures r.Keys == h.Keys + {event}
  {
    h[event := Subscribed(h, event) + [handler]]
  }

  /** `indexOf`: the first position of `x`, or -1. */
  function IndexOf(s: seq<HandlerId>, x: HandlerId): (i: int)
    ensures -1 <= i < |s|
    ensures i == -1 <==> x !in s
    ensures 0 <= i ==> s[i] == x && x !in s[..i]
  {
    if s == [] then -1
    else if s[0] == x then 0
    else
      var j := IndexOf(s[1..], x);
      assert s[1..] == s[1..][..0] + s[1..];
      if j == -1 then -1
      else
        assert s[..j + 1] == [s[0]] + s[1..][..j];
        j + 1
  }

  /** The list without the first occurrence of `x`; the list itself when `x` is absent. */
  function RemoveFirst(s: seq<HandlerId>, x: HandlerId): (r: seq<HandlerId>)
  {
    var i := IndexOf(s, x);
    if i >= 0 then s[..i] + s[i + 1..] else s
  }

  /** Removing the first occurrence takes out exactly one copy, and none of an absent handler. */
  lemma RemoveFirstMultiset(s: seq<HandlerId>, x: HandlerId)
    ensures multiset(RemoveFirst(s, x)) == multiset(s) - multiset{x}
  {
    var i := IndexOf(s, x);
    if i >= 0 {
      assert s == s[..i] + [x] + s[i + 1..];
      assert multiset(s) == multiset(s[..i]) + multiset{x} + multiset(s[i + 1..]);
    } else {
      assert multiset(s)[x] == 0;
    }
  }

  /** `off`: remove the first occurrence; an unknown event or handler leaves the map as it is. */
  function Unsubscribe(h: Handlers, event: string, handler: HandlerId): (r: Handlers)
    ensures r.Keys == h.Keys
  {
    if event !in h then h else h[event := RemoveFirst(h[event], handler)]
  }

  /** `on` appends to the event's list and leaves every other event as it was. */
  lemma SubscribeAppends(h: Handlers, event: string, handler: HandlerId)
    ensures Subscribed(Subscribe(h, event, handler), event) == Subscribed(h, event) + [handler]
    ensures forall e :: e != event ==> Subscribed(Subscribe(h, event, handler), e) == Subscribed(h, e)
  {
  }

  /** `off` takes out exactly one copy of a subscribed handler and none when it is absent. */
  lemma UnsubscribeRemovesOne(h: Handlers, event: string, handler: HandlerId)
    ensures multiset(Subscribed(Unsubscribe(h, event, handler), event)) == multiset(Subscribed(h, event)) - multiset{handler}
    ensures forall e :: e != event ==> Subscribed(Unsubscribe(h, event, handler), e) == Subscribed(h, e)
  {
    RemoveFirstMultiset(Subscribed(h, event), handler);
  }

  /** `off` keeps the other handlers in the order they were subscribed. */
  lemma UnsubscribeKeepsOrder(h: Handlers, event: string, handler: HandlerId)
    requires event in h && handler in h[event]
    ensures var s, r := h[event], Unsubscribe(h, event, handler)[event];
      exists i :: 0 <= i < |s| && s[i] == handler && handler !in s[..i] && r == s[..i] + s[i + 1..]
  {
    var i := IndexOf(h[event], handler);
    assert 0 <= i;
  }

  /** Subscribing a handler that was not on the list and unsubscribing it again changes nothing an emit can see. */
  lemma SubscribeUnsubscribe(h: Handlers, event: string, handler: HandlerId)
    requires handler !in Subscribed(h, event)
    ensures forall e :: Subscribed(Unsubscribe(Subscribe(h, event, handler), event, handler), e) == Subscribed(h, e)
    ensures event in h ==> Unsubscribe(Subscribe(h, event, handler), event, handler) == h
  {
    var s := Subscribed(h, event);
    var t := s + [handler];
    assert IndexOf(t, handler) == |s| by {
      assert t[|s|] == handler;
      assert t[..|s|] == s;
    }
    assert t[..|s|] + t[|s| + 1..] == s;
  }

  /** The handlers that throw, in call order. */
  function Failing(called: seq<HandlerId>, throws: HandlerId -> bool): (r: seq<HandlerId>)
    ensures |r| == Count(called, throws)
    ensures forall k :: 0 <= k < |r| ==> throws(r[k])
  {
    Filter(called, throws)
  }

  class EventBus {
    var handlers: Handlers

    constructor ()
      ensures handlers == map[]
    {
      handlers := map[];
    }

    /** `on`. */
    method On(event: string, handler: HandlerId)
      modifies this
      ensures handlers == Subscribe(old(handlers), event, handler)
    {
      if event !in handlers {
        handlers := handlers[event := []];
      }
      handlers := handlers[event := handlers[event] + [handler]];
    }

    /** `off`. */
    method Off(event: string, handler: HandlerId)
      modifies this
      ensures handlers == Unsubscribe(old(handlers), event, handler)
    {
      if event in handlers {
        var kept := SpliceOut(handlers[event], handler);
        handlers := handlers[event := kept];
      }
    }

    /** `emit`: every subscribed handler is called in order; one that throws is logged and the rest still run. */
    method Emit(event: string, throws: HandlerId -> bool) returns (called: seq<HandlerId>, logged: seq<HandlerId>)
      ensures called == Subscribed(handlers, event)
      ensures logged == Failing(called, throws)
    {
      called, logged := [], [];
      if event !in handlers {
        return;
      }
      var list := handlers[event];
      for i := 0 to |list|
        invariant called == list[..i]
        invariant logged == Filter(list[..i], throws)
      {
        assert list[..i + 1][..i] == list[..i];
        called := called + [list[i]];
        if throws(list[i]) {
          logged := logged + [list[i]];
        }
      }
      assert list[..|list|] == list;
    }

    /** `clear`. */
    method Clear()
      modifies this
      ensures handlers == map[]
      ensures forall e :: Subscribed(handlers, e) == []
    {
      handlers := map[];
    }
  }

  /** `Array.prototype.indexOf` over a handler list. */
  method FindHandler(list: seq<HandlerId>, handler: HandlerId) returns (idx: int)
    ensures idx == IndexOf(list, handler)
  {
    idx := 0;
    while idx < |list|
      invariant 0 <= idx <= |list|
      invariant handler !in list[..idx]
    {
      if list[idx] == handler {
        IndexOfFirst(list, handler, idx);
        return;
      }
      assert list[..idx + 1] == list[..idx] + [list[idx]];
      idx := idx + 1;
    }
    assert list[..idx] == list;
    idx := -1;
  }

  /** `indexOf` followed by `splice(idx, 1)` when the handler was found. */
  method SpliceOut(list: seq<HandlerId>, handler: HandlerId) returns (kept: seq<HandlerId>)
    ensures kept == RemoveFirst(list, handler)
  {
    var idx := FindHandler(list, handler);
    kept := list;
    if idx >= 0 {
      kept := list[..idx] + list[idx + 1..];
    }
  }

  /** The first position holding `x` is the one `IndexOf` reports. */
  lemma IndexOfFirst(s: seq<HandlerId>, x: HandlerId, i: nat)
    requires i < |s| && s[i] == x && x !in s[..i]
    ensures IndexOf(s, x) == i
  {
  }
}
