/** The host side of the message bus, inmocha/bus.js: messages for the browser wait
    in a FIFO queue and leave one per call from the page; messages from the page
    are handed to the receiver registered for their component. */
module HostBus {
  import opened Wrappers
  import opened Json
  import opened Events
  import opened Queues

  const ReceiverEvents: seq<string> := ["messageReceived"]

  datatype BusError =
    /** `sendObject` without a component. */
    | UnknownSender
    /** `objects.dequeue()` on an empty queue. */
    | QueueUnderflow
    /** Reading a property of `undefined` or `null`. */
    | NotAnObject

  /** The object key a component value names: its string conversion. */
  function Key(component: Json): string {
    ToText(component)
  }

  class Bus {
    /** `receivers`: one event handler per component. */
    var receivers: map<string, EventHandler>
    /** `objects`: the messages waiting for the browser. */
    const objects: Queue<Json>

    ghost function Handlers(): set<EventHandler>
      reads this
    {
      set c | c in receivers :: receivers[c]
    }

    /** Every receiver speaks only `messageReceived`, and no two components share one. */
    ghost predicate Valid()
      reads this, Handlers()
    {
      && (forall c :: c in receivers ==> receivers[c].Valid() && receivers[c].validEvents == ReceiverEvents)
      && (forall c, d :: c in receivers && d in receivers && c != d ==> receivers[c] != receivers[d])
    }

    /** The messages waiting for the browser, oldest first. */
    ghost function Outbox(): seq<Json>
      reads objects
    {
      objects.Items()
    }

    constructor ()
      ensures Valid() && receivers == map[] && Outbox() == []
      ensures fresh(objects)
    {
      receivers := map[];
      objects := new Queue<Json>();
    }

    /** `sendObject(component, obj)`: the pair joins the back of the queue; a missing
        component throws and nothing is queued. */
    method SendObject(component: Json, obj: Json) returns (r: Outcome<BusError>)
      modifies objects
      ensures r.Fail? <==> component == Undefined
      ensures r.Fail? ==> r.error == UnknownSender && Outbox() == old(Outbox())
      ensures r.Pass? ==> Outbox() == old(Outbox()) + [Arr([component, obj])]
    {
      if component == Undefined {
        return Fail(UnknownSender);
      }
      var ok := objects.Enqueue(Arr([component, obj]));
      r := Pass;
    }

    /** `objects.dequeue()`: the oldest waiting message, or an underflow error with
        nothing changed. */
    method Reply() returns (r: Result<Json, BusError>)
      modifies objects
      ensures old(Outbox()) == [] ==> r == Err(QueueUnderflow) && Outbox() == old(Outbox())
      ensures old(Outbox()) != [] ==> r == Ok(old(Outbox())[0]) && Outbox() == old(Outbox())[1..]
    {
      ghost var was := objects.data;
      var next := objects.Dequeue();
      if next.Err? {
        return Err(QueueUnderflow);
      }
      assert was != [];
      r := Ok(next.value);
    }

    /** `receiveObject(data)`, the page's `onCallback`: `polling` is answered with the
        oldest waiting message; a message for a registered component is dispatched to
        its receiver as `messageReceived` and then answered the same way; any other
        message is dropped with a warning and answered with `undefined`. */
    method ReceiveObject(data: Json) returns (r: Result<Json, BusError>, invoked: seq<Invocation>)
      requires Valid()
      modifies objects, Handlers()
      ensures Valid() && receivers == old(receivers)
      ensures data == Undefined || data == Null ==>
        && r == Err(NotAnObject) && invoked == [] && Outbox() == old(Outbox())
        && forall c :: c in receivers ==> receivers[c].events == old(receivers[c].events)
      ensures data != Undefined && data != Null && Index(data, 0).value != Str("polling") && Key(Index(data, 0).value) !in receivers ==>
        && r == Ok(Undefined) && invoked == [] && Outbox() == old(Outbox())
        && forall c :: c in receivers ==> receivers[c].events == old(receivers[c].events)
      ensures data != Undefined && data != Null && Index(data, 0).value == Str("polling") ==>
        && invoked == []
        && forall c :: c in receivers ==> receivers[c].events == old(receivers[c].events)
      ensures data != Undefined && data != Null && Index(data, 0).value != Str("polling") && Key(Index(data, 0).value) in receivers ==>
        var h := receivers[Key(Index(data, 0).value)];
        && invoked == Invocations(ListenersOf(old(h.events), "messageReceived"), [Index(data, 1).value])
        && h.events == (if "messageReceived" in old(h.events) then old(h.events)["messageReceived" := Survivors(old(h.events)["messageReceived"])] else old(h.events))
        && forall c :: c in receivers && receivers[c] != h ==> receivers[c].events == old(receivers[c].events)
      ensures data != Undefined && data != Null && (Index(data, 0).value == Str("polling") || Key(Index(data, 0).value) in receivers) ==>
        && (old(Outbox()) == [] ==> r == Err(QueueUnderflow) && Outbox() == old(Outbox()))
        && (old(Outbox()) != [] ==> r == Ok(old(Outbox())[0]) && Outbox() == old(Outbox())[1..])
    {
      invoked := [];
      if data == Undefined || data == Null {
        return Err(NotAnObject), invoked;
      }
      var component := Index(data, 0).value;
      var obj := Index(data, 1).value;
      if component == Str("polling") {
        r := Reply();
        return;
      }
      var key := Key(component);
      if key in receivers {
        var h := receivers[key];
        var dispatched;
        dispatched, invoked := h.DispatchEvent("messageReceived", [obj]);
        r := Reply();
      } else {
        r := Ok(Undefined);
      }
    }

    /** `registerReceiver(component, clbk)` as intended: a component without a
        receiver gets a fresh one speaking `messageReceived`, and the callback is
        added to it with no limit on its calls. */
    method RegisterReceiver(component: string, callback: CallbackId) returns (h: EventHandler)
      requires Valid()
      modifies this, Handlers()
      ensures Valid()
      ensures component in receivers && h == receivers[component]
      ensures receivers.Keys == old(receivers.Keys) + {component}
      ensures component in old(receivers) ==> h == old(receivers[component])
      ensures component !in old(receivers) ==> fresh(h) && h.component == component
      ensures component in old(receivers) ==>
        h.events == old(h.events)["messageReceived" := ListenersOf(old(h.events), "messageReceived") + [Listener(callback, Undefined, Infinite)]]
      ensures component !in old(receivers) ==> h.events == map["messageReceived" := [Listener(callback, Undefined, Infinite)]]
      ensures forall c :: c in old(receivers) && c != component ==> receivers[c] == old(receivers[c]) && receivers[c].events == old(receivers[c].events)
    {
      if component !in receivers {
        h := new EventHandler(component, Some(ReceiverEvents));
        receivers := receivers[component := h];
        assert ListenersOf(h.events, "messageReceived") + [Listener(callback, Undefined, Infinite)] == [Listener(callback, Undefined, Infinite)];
      } else {
        h := receivers[component];
      }
      assert "messageReceived" in h.validEvents;
      var added := h.AddEventListener("messageReceived", callback, Undefined, None);
    }

    /** `registerReceiver` as written: the guard compares with the string
        `'undefined'`, so no receiver is ever created and a component without one
        throws when the callback is added. */
    method RegisterReceiverAsWritten(component: string, callback: CallbackId) returns (r: Result<EventHandler, BusError>)
      requires Valid()
      modifies Handlers()
      ensures Valid() && receivers == old(receivers)
      ensures r.Err? <==> component !in receivers
      ensures r.Ok? ==> r.value == receivers[component]
      ensures r.Ok? ==> r.value.events == old(r.value.events)["messageReceived" := ListenersOf(old(r.value.events), "messageReceived") + [Listener(callback, Undefined, Infinite)]]
    {
      if component !in receivers {
        return Err(NotAnObject);
      }
      var h := receivers[component];
      assert "messageReceived" in h.validEvents;
      var added := h.AddEventListener("messageReceived", callback, Undefined, None);
      r := Ok(h);
    }
  }

  /** The guard of `registerReceiver` as written, `receivers[component] ===
      'undefined'`, and as intended, `typeof receivers[component] === 'undefined'`. */
  predicate CreatesAsWritten(current: Json) {
    current == Str("undefined")
  }

  predicate CreatesAsIntended(current: Json) {
    current == Undefined
  }

  /** A missing receiver reads as `undefined`, which the written guard does not
      recognise, and a present one is an object, which neither guard accepts. */
  lemma GuardNeverFires(handler: seq<(string, Json)>)
    ensures !CreatesAsWritten(Undefined) && CreatesAsIntended(Undefined)
    ensures !CreatesAsWritten(Obj(handler)) && !CreatesAsIntended(Obj(handler))
  {
  }
}
