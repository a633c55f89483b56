/** The browser side of the message bus, inbrowser/bus.js: messages go out through
    the page's `callPhantom` hook, whose answer is routed at once to the receiver
    of the component it names. */
module BrowserBus {
  import opened Wrappers
  import opened Json
  import opened Events

  const ReceiverEvents: seq<string> := ["messageReceived"]

  /** The page's `window.callPhantom`: missing, or a function that returns
      `reply`, already parsed. */
  datatype Phantom = Unavailable | Available(reply: Json)

  datatype BrowserError =
    /** `sendObject` without a component. */
    | UnknownSender
    /** "PhantomJS onCallback not available". */
    | NoPhantom

  /** The object key a component value names: its string conversion. */
  function Key(component: Json): string {
    ToText(component)
  }

  /** The listener lists of a receiver after one `messageReceived` dispatch. */
  function AfterDispatch(events: map<string, seq<Listener>>): map<string, seq<Listener>>
    requires forall e :: e in events ==> AllLive(events[e])
  {
    if "messageReceived" in events then events["messageReceived" := Survivors(events["messageReceived"])] else events
  }

  class Bus {
    /** `receivers`: the bus of each component. */
    var receivers: map<string, EventHandler>
    /** The messages handed to `callPhantom`, in order. */
    var sent: seq<Json>

    ghost function Handlers(): set<EventHandler>
      reads this
    {
      set c | c in receivers :: receivers[c]
    }

    ghost predicate Valid()
      reads this, Handlers()
    {
      && (forall c :: c in receivers ==> receivers[c].Valid() && receivers[c].validEvents == ReceiverEvents)
      && (forall c, d :: c in receivers && d in receivers && c != d ==> receivers[c] != receivers[d])
    }

    /** No receiver's listeners changed. */
    twostate predicate Quiet()
      reads this, Handlers()
    {
      receivers == old(receivers) && forall c :: c in receivers ==> receivers[c].events == old(receivers[c].events)
    }

    /** `receiveObject(component, obj)` took place: the component's bus, if any,
        dispatched `messageReceived` with `obj`, and no other bus changed. */
    twostate predicate Routed(component: Json, obj: Json, invoked: seq<Invocation>)
      requires old(Valid())
      reads this, Handlers()
    {
      && receivers == old(receivers)
      && (Key(component) !in receivers ==> invoked == [] && Quiet())
      && (Key(component) in receivers ==>
            && invoked == Invocations(ListenersOf(old(receivers[Key(component)].events), "messageReceived"), [obj])
            && receivers[Key(component)].events == AfterDispatch(old(receivers[Key(component)].events))
            && forall c :: c in receivers && c != Key(component) ==> receivers[c].events == old(receivers[c].events))
    }

    constructor ()
      ensures Valid() && receivers == map[] && sent == []
    {
      receivers := map[];
      sent := [];
    }

    /** `receiveObject(component, obj)`: an unknown component is only warned about. */
    method ReceiveObject(component: Json, obj: Json) returns (invoked: seq<Invocation>)
      requires Valid()
      modifies Handlers()
      ensures Valid()
      ensures Routed(component, obj, invoked)
    {
      invoked := [];
      var key := Key(component);
      if key in receivers {
        var dispatched;
        dispatched, invoked := receivers[key].DispatchEvent("messageReceived", [obj]);
      }
    }

    /** `sendObject(component, obj)`: the pair goes to `callPhantom`, and an answer
        other than `null` or `undefined` is routed as `receiveObject(answer[0],
        answer[1])`. A missing component or a missing hook throws before anything is
        sent. */
    method SendObject(component: Json, obj: Json, phantom: Phantom) returns (r: Outcome<BrowserError>, invoked: seq<Invocation>)
      requires Valid()
      modifies this, Handlers()
      ensures Valid() && receivers == old(receivers)
      ensures component == Undefined ==> r == Fail(UnknownSender)
      ensures component != Undefined && phantom.Unavailable? ==> r == Fail(NoPhantom)
      ensures r.Fail? ==> sent == old(sent) && invoked == [] && Quiet()
      ensures component != Undefined && phantom.Available? ==> r == Pass && sent == old(sent) + [Arr([component, obj])]
      ensures r.Pass? && phantom.reply in {Null, Undefined} ==> invoked == [] && Quiet()
      ensures r.Pass? && phantom.reply !in {Null, Undefined} ==>
        Routed(Index(phantom.reply, 0).value, Index(phantom.reply, 1).value, invoked)
    {
      invoked := [];
      if component == Undefined {
        return Fail(UnknownSender), invoked;
      }
      if phantom.Unavailable? {
        return Fail(NoPhantom), invoked;
      }
      sent := sent + [Arr([component, obj])];
      var value := phantom.reply;
      if value != Null && value != Undefined {
        invoked := ReceiveObject(Index(value, 0).value, Index(value, 1).value);
      }
      r := Pass;
    }

    /** `registerReceiver(component)`: a fresh bus named `component-bus` that speaks
        only `messageReceived` replaces any earlier bus of the component; its `send`
        is `Send(component, …)`. */
    method RegisterReceiver(component: string) returns (h: EventHandler)
      requires Valid()
      modifies this
      ensures Valid() && sent == old(sent)
      ensures fresh(h) && h.component == component + "-bus" && h.events == map[]
      ensures receivers == old(receivers)[component := h]
    {
      h := new EventHandler(component + "-bus", Some(ReceiverEvents));
      receivers := receivers[component := h];
    }

    /** `bus.send(msg)` of the bus registered for `component`. */
    method Send(component: string, msg: Json, phantom: Phantom) returns (r: Outcome<BrowserError>, invoked: seq<Invocation>)
      requires Valid()
      modifies this, Handlers()
      ensures Valid() && receivers == old(receivers)
      ensures phantom.Unavailable? ==> r == Fail(NoPhantom) && sent == old(sent) && invoked == [] && Quiet()
      ensures phantom.Available? ==> r == Pass && sent == old(sent) + [Arr([Str(component), msg])]
      ensures r.Pass? && phantom.reply in {Null, Undefined} ==> invoked == [] && Quiet()
      ensures r.Pass? && phantom.reply !in {Null, Undefined} ==>
        Routed(Index(phantom.reply, 0).value, Index(phantom.reply, 1).value, invoked)
    {
      r, invoked := SendObject(Str(component), msg, phantom);
    }

    /** The receivers `init` sets up: `interaction`, `testsuite` and `report`, each
        with a fresh bus. */
    method Init() returns (interaction: EventHandler, testsuite: EventHandler, report: EventHandler)
      requires Valid()
      modifies this
      ensures Valid() && sent == old(sent)
      ensures receivers == old(receivers)["interaction" := interaction]["testsuite" := testsuite]["report" := report]
      ensures fresh(interaction) && fresh(testsuite) && fresh(report)
      ensures interaction.component == "interaction-bus" && testsuite.component == "testsuite-bus" && report.component == "report-bus"
    {
      interaction := RegisterReceiver("interaction");
      testsuite := RegisterReceiver("testsuite");
      report := RegisterReceiver("report");
    }

    /** One tick of the polling timer: `sendObject('polling', undefined)`. */
    method Poll(phantom: Phantom) returns (r: Outcome<BrowserError>, invoked: seq<Invocation>)
      requires Valid()
      modifies this, Handlers()
      ensures Valid() && receivers == old(receivers)
      ensures phantom.Unavailable? ==> r == Fail(NoPhantom) && sent == old(sent) && invoked == [] && Quiet()
      ensures phantom.Available? ==> r == Pass && sent == old(sent) + [Arr([Str("polling"), Undefined])]
      ensures r.Pass? && phantom.reply in {Null, Undefined} ==> invoked == [] && Quiet()
      ensures r.Pass? && phantom.reply !in {Null, Undefined} ==>
        Routed(Index(phantom.reply, 0).value, Index(phantom.reply, 1).value, invoked)
    {
      r, invoked := SendObject(Str("polling"), Undefined, phantom);
    }
  }
}
