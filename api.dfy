/** The public step-definition API of inmocha/api.js: a `TestSuiteRunner` collects
    the page to open, the `when` and `then` statements produced by step handlers,
    and the feature files, and walks the features dispatching lifecycle events. */
module Api {
  import opened Wrappers
  import opened Json
  import opened Events
  import opened Templates
  import opened Expansion

  /** The runner's vocabulary: the ten lifecycle events listeners may register for. */
  const RunnerEvents: seq<string> :=
    ["beforeStep", "afterStep", "beforeScenario", "afterScenario",
     "beforeFeature", "afterFeature",
     "browserStarted", "browserFinished", "browserFailed",
     "testsuiteFinished"]

  datatype StepKind = OpenUrl | When | Then

  /** The closure `openUrl(spec)`, `when(obj)` or `then(obj)` returns, naming the
      object it captured by its place in the runner's `specs`. */
  datatype StepHandler = StepHandler(kind: StepKind, spec: nat)

  /** All handler arguments but the last: the step's captures. */
  function Captures(arguments: seq<Json>): seq<Json> {
    if |arguments| == 0 then [] else arguments[..|arguments| - 1]
  }

  /** `arguments[arguments.length - 1]`, which is `undefined` when there are none. */
  function NextArgument(arguments: seq<Json>): Json {
    if |arguments| == 0 then Undefined else arguments[|arguments| - 1]
  }

  /** The captures as the text `replace` inserts for them. */
  function Texts(captures: seq<Json>): (r: seq<string>)
    ensures |r| == |captures|
  {
    seq(|captures|, i requires 0 <= i < |captures| => ToText(captures[i]))
  }

  /** The head of every step handler: the last argument is `next`, the ones before
      it are the captures. */
  method SplitArguments(arguments: seq<Json>) returns (captures: seq<Json>, next: Json)
    ensures |arguments| > 0 ==> arguments == captures + [next]
    ensures |arguments| == 0 ==> captures == [] && next == Undefined
  {
    next := if |arguments| == 0 then Undefined else arguments[|arguments| - 1];
    captures := [];
    var i := 0;
    while i < |arguments| - 1
      invariant 0 <= i <= |arguments|
      invariant |arguments| > 0 ==> i <= |arguments| - 1
      invariant captures == arguments[..i]
    {
      captures := captures + [arguments[i]];
      i := i + 1;
    }
    if |arguments| > 0 {
      assert arguments == arguments[..|arguments| - 1] + [arguments[|arguments| - 1]];
    }
  }

  /** A scenario as the Gherkin parser yields it: the value handed to listeners and
      its step lines. */
  datatype Scenario = Scenario(value: Json, steps: seq<string>)

  datatype Feature = Feature(title: string, scenarios: seq<Scenario>)

  /** What `run` does, in order: a dispatch of a lifecycle event with its
      arguments, or a step handed to the interpreter. */
  datatype Occurrence = Dispatched(name: string, args: seq<Json>) | Interpreted(step: string)

  function StepOrder(step: string): seq<Occurrence> {
    [Dispatched("beforeStep", [Arr([Str(step)])]), Interpreted(step), Dispatched("afterStep", [Arr([Str(step)])])]
  }

  function StepsOrder(steps: seq<string>): seq<Occurrence> {
    if |steps| == 0 then [] else StepsOrder(steps[..|steps| - 1]) + StepOrder(steps[|steps| - 1])
  }

  function ScenarioOrder(sc: Scenario): seq<Occurrence> {
    [Dispatched("beforeScenario", [Arr([sc.value])])] + StepsOrder(sc.steps) + [Dispatched("afterScenario", [Arr([sc.value])])]
  }

  function ScenariosOrder(scs: seq<Scenario>): seq<Occurrence> {
    if |scs| == 0 then [] else ScenariosOrder(scs[..|scs| - 1]) + ScenarioOrder(scs[|scs| - 1])
  }

  function FeatureOrder(f: Feature): seq<Occurrence> {
    [Dispatched("beforeFeature", [Arr([Str(f.title)])])] + ScenariosOrder(f.scenarios)
    + [Dispatched("afterFeature", [Arr([Str(f.title)])])]
  }

  /** The order of events in `run`: per feature `beforeFeature`, per scenario
      `beforeScenario`, per step `beforeStep`, the interpreter, `afterStep`, then
      `afterScenario`, and finally `afterFeature`. */
  function RunOrder(features: seq<Feature>): seq<Occurrence> {
    if |features| == 0 then [] else RunOrder(features[..|features| - 1]) + FeatureOrder(features[|features| - 1])
  }

  /** The steps handed to the interpreter, in order. */
  function Interpretations(order: seq<Occurrence>): seq<string> {
    if |order| == 0 then []
    else
      Interpretations(order[..|order| - 1])
      + (if order[|order| - 1].Interpreted? then [order[|order| - 1].step] else [])
  }

  function ScenarioSteps(scs: seq<Scenario>): seq<string> {
    if |scs| == 0 then [] else ScenarioSteps(scs[..|scs| - 1]) + scs[|scs| - 1].steps
  }

  /** Every step of every scenario of every feature, in file order. */
  function AllSteps(features: seq<Feature>): seq<string> {
    if |features| == 0 then [] else AllSteps(features[..|features| - 1]) + ScenarioSteps(features[|features| - 1].scenarios)
  }

  lemma {:induction false} InterpretationsConcat(a: seq<Occurrence>, b: seq<Occurrence>)
    ensures Interpretations(a + b) == Interpretations(a) + Interpretations(b)
    decreases |b|
  {
    if |b| == 0 {
      assert a + b == a;
    } else {
      assert (a + b)[..|a + b| - 1] == a + b[..|b| - 1];
      InterpretationsConcat(a, b[..|b| - 1]);
    }
  }

  lemma InterpretationsOne(o: Occurrence)
    ensures Interpretations([o]) == (if o.Interpreted? then [o.step] else [])
  {
    assert [o][..0] == [];
  }

  /** The interpreter sees the steps of a scenario, and nothing else. */
  lemma {:induction false} StepsInterpreted(steps: seq<string>)
    ensures Interpretations(StepsOrder(steps)) == steps
    decreases |steps|
  {
    if |steps| > 0 {
      var init, last := steps[..|steps| - 1], steps[|steps| - 1];
      var a, b, c := Dispatched("beforeStep", [Arr([Str(last)])]), Interpreted(last), Dispatched("afterStep", [Arr([Str(last)])]);
      assert StepOrder(last) == [a] + [b] + [c];
      InterpretationsOne(a);
      InterpretationsOne(b);
      InterpretationsOne(c);
      InterpretationsConcat([a], [b]);
      InterpretationsConcat([a] + [b], [c]);
      InterpretationsConcat(StepsOrder(init), StepOrder(last));
      StepsInterpreted(init);
      assert steps == init + [last];
    }
  }

  lemma ScenarioInterpreted(sc: Scenario)
    ensures Interpretations(ScenarioOrder(sc)) == sc.steps
  {
    var open, close := Dispatched("beforeScenario", [Arr([sc.value])]), Dispatched("afterScenario", [Arr([sc.value])]);
    InterpretationsOne(open);
    InterpretationsOne(close);
    InterpretationsConcat([open], StepsOrder(sc.steps));
    InterpretationsConcat([open] + StepsOrder(sc.steps), [close]);
    StepsInterpreted(sc.steps);
  }

  lemma {:induction false} ScenariosInterpreted(scs: seq<Scenario>)
    ensures Interpretations(ScenariosOrder(scs)) == ScenarioSteps(scs)
    decreases |scs|
  {
    if |scs| > 0 {
      var init := scs[..|scs| - 1];
      ScenariosInterpreted(init);
      InterpretationsConcat(ScenariosOrder(init), ScenarioOrder(scs[|scs| - 1]));
      ScenarioInterpreted(scs[|scs| - 1]);
    }
  }

  lemma FeatureInterpreted(f: Feature)
    ensures Interpretations(FeatureOrder(f)) == ScenarioSteps(f.scenarios)
  {
    var open, close := Dispatched("beforeFeature", [Arr([Str(f.title)])]), Dispatched("afterFeature", [Arr([Str(f.title)])]);
    InterpretationsOne(open);
    InterpretationsOne(close);
    InterpretationsConcat([open], ScenariosOrder(f.scenarios));
    InterpretationsConcat([open] + ScenariosOrder(f.scenarios), [close]);
    ScenariosInterpreted(f.scenarios);
  }

  /** The interpreter sees every step of every scenario of every feature exactly
      once, in file order. */
  lemma {:induction false} RunInterpretsAllSteps(features: seq<Feature>)
    ensures Interpretations(RunOrder(features)) == AllSteps(features)
    decreases |features|
  {
    if |features| > 0 {
      var init := features[..|features| - 1];
      RunInterpretsAllSteps(init);
      InterpretationsConcat(RunOrder(init), FeatureOrder(features[|features| - 1]));
      FeatureInterpreted(features[|features| - 1]);
    }
  }

  /** The statements a list of references denotes in the current objects. */
  function Deref(specs: seq<Json>, refs: seq<nat>): (r: seq<Json>)
    requires forall i :: 0 <= i < |refs| ==> refs[i] < |specs|
    ensures |r| == |refs|
  {
    seq(|refs|, i requires 0 <= i < |refs| => specs[refs[i]])
  }

  /** Every reference names a captured object, and an array or object is pushed
      only once it has been expanded. */
  ghost predicate Consistent(specs: seq<Json>, refs: seq<nat>) {
    forall i :: 0 <= i < |refs| ==> refs[i] < |specs| && (IsObject(specs[refs[i]]) ==> Settled(specs[refs[i]]))
  }

  /** What a handler leaves in its captured object: the expansion when it is an
      array or an object, which `expand` rewrites in place, the old value otherwise. */
  function Stored(args: seq<string>, v: Json): Json
    requires PlainArgs(args)
  {
    if IsObject(v) then Expand(args, v) else v
  }

  /** Storing the expansion of a captured object changes no statement pushed
      before, and pushing it afterwards adds exactly the expanded object. A
      statement pushed earlier from the same slot was already expanded, and
      expanding it again leaves it as it is. */
  lemma StoreExpanded(specs: seq<Json>, refs: seq<nat>, k: nat, args: seq<string>)
    requires Consistent(specs, refs) && k < |specs| && PlainArgs(args)
    ensures Consistent(specs[k := Stored(args, specs[k])], refs)
    ensures Consistent(specs[k := Stored(args, specs[k])], refs + [k])
    ensures Deref(specs[k := Stored(args, specs[k])], refs) == Deref(specs, refs)
    ensures Deref(specs[k := Stored(args, specs[k])], refs + [k]) == Deref(specs, refs) + [Stored(args, specs[k])]
  {
    var v := Stored(args, specs[k]);
    ExpandSettles(args, specs[k]);
    if IsObject(specs[k]) && exists i :: 0 <= i < |refs| && refs[i] == k {
      SettledUnchanged(args, specs[k]);
    }
    assert forall i :: 0 <= i < |refs| && refs[i] == k ==> specs[k] == v;
  }

  /** Two handlers closing over one object: after the first has run with captures
      `first`, the second, run with any captures `later`, leaves the object and
      therefore pushes it as the first one's substitution. */
  lemma SharedObjectKeepsFirstExpansion(first: seq<string>, later: seq<string>, v: Json)
    requires PlainArgs(first) && PlainArgs(later)
    ensures Stored(later, Stored(first, v)) == Stored(first, v)
  {
    if IsObject(v) {
      ExpandIdempotent(first, later, v);
    }
  }

  /** Running one more step extends a trace by that step's occurrences. */
  lemma StepsOrderSnoc(t: seq<Occurrence>, steps: seq<string>, i: nat)
    requires i < |steps|
    ensures t + StepsOrder(steps[..i + 1]) == t + StepsOrder(steps[..i]) + StepOrder(steps[i])
  {
    assert steps[..i + 1][..i] == steps[..i];
  }

  /** Running one more scenario extends a trace by that scenario's occurrences. */
  lemma ScenariosOrderSnoc(t: seq<Occurrence>, scs: seq<Scenario>, i: nat)
    requires i < |scs|
    ensures t + ScenariosOrder(scs[..i + 1]) == t + ScenariosOrder(scs[..i]) + ScenarioOrder(scs[i])
  {
    assert scs[..i + 1][..i] == scs[..i];
  }

  ghost predicate LiveMap(m: map<string, seq<Listener>>) {
    forall e :: e in m ==> AllLive(m[e])
  }

  /** One occurrence of `run` applied to the listener lists and the calls so far:
      a dispatch runs and spends the event's listeners, the interpreter touches
      neither. */
  ghost function Apply(state: (map<string, seq<Listener>>, seq<Invocation>), o: Occurrence): (r: (map<string, seq<Listener>>, seq<Invocation>))
    requires LiveMap(state.0)
    ensures LiveMap(r.0)
  {
    match o
    case Interpreted(_) => state
    case Dispatched(name, args) =>
      if name in state.0 then (state.0[name := Survivors(state.0[name])], state.1 + Invocations(state.0[name], args))
      else state
  }

  /** The listener lists and the calls that result from the occurrences of `order`
      one after the other, starting from the lists `m`. */
  ghost function Replay(m: map<string, seq<Listener>>, order: seq<Occurrence>): (r: (map<string, seq<Listener>>, seq<Invocation>))
    requires LiveMap(m)
    ensures LiveMap(r.0)
    decreases |order|
  {
    if |order| == 0 then (m, []) else Apply(Replay(m, order[..|order| - 1]), order[|order| - 1])
  }

  lemma ReplaySnoc(m: map<string, seq<Listener>>, order: seq<Occurrence>, o: Occurrence)
    requires LiveMap(m)
    ensures Replay(m, order + [o]) == Apply(Replay(m, order), o)
  {
    assert (order + [o])[..|order|] == order;
  }

  function ParseAll(parse: string -> Feature, files: seq<string>): seq<Feature> {
    seq(|files|, i requires 0 <= i < |files| => parse(files[i]))
  }

  class TestSuiteRunner {
    /** `url`: what the browser opens. */
    var url: Json
    /** The objects captured by the step handlers created so far, which the handlers
        rewrite in place. */
    var specs: seq<Json>
    /** `testsuite.when` and `testsuite.then`: references into `specs`. */
    var whenList: seq<nat>
    var thenList: seq<nat>
    /** `sources`: the feature files, in the order they were added. */
    var sources: seq<string>
    const events: EventHandler

    /** The runner's event handler accepts exactly the lifecycle vocabulary. */
    ghost predicate Listening()
      reads events
    {
      events.Valid() && events.validEvents == RunnerEvents
    }

    ghost predicate Valid()
      reads this, events
    {
      Listening() && Consistent(specs, whenList) && Consistent(specs, thenList)
    }

    /** The `when` or `then` statements as they would be sent: the current state of
        every pushed object. */
    function Statements(refs: seq<nat>): seq<Json>
      requires forall i :: 0 <= i < |refs| ==> refs[i] < |specs|
      reads this
    {
      Deref(specs, refs)
    }

    constructor ()
      ensures Valid()
      ensures url == Str("") && specs == [] && whenList == [] && thenList == [] && sources == []
      ensures events.component == "public-api" && events.events == map[]
    {
      url := Str("");
      specs := [];
      whenList := [];
      thenList := [];
      sources := [];
      events := new EventHandler("public-api", Some(RunnerEvents));
    }

    /** `openUrl(spec)`, `when(obj)`, `then(obj)`: a handler closing over the object. */
    method NewHandler(kind: StepKind, obj: Json) returns (h: StepHandler)
      requires Valid()
      modifies this
      ensures Valid()
      ensures specs == old(specs) + [obj] && h == StepHandler(kind, |old(specs)|)
      ensures url == old(url) && whenList == old(whenList) && thenList == old(thenList)
      ensures sources == old(sources)
    {
      h := StepHandler(kind, |specs|);
      specs := specs + [obj];
    }

    /** `when(o)`, `then(o)` or `openUrl(o)` on an object that another handler
        already captured: the new handler closes over that same object, so
        whichever of the two runs first rewrites it for both. */
    method ShareHandler(kind: StepKind, other: StepHandler) returns (h: StepHandler)
      requires Valid() && other.spec < |specs|
      ensures h.kind == kind && h.spec == other.spec
    {
      h := StepHandler(kind, other.spec);
    }

    /** Calling a step handler with the interpreter's arguments: the captured object
        is expanded with the captures (in place when it is an array or an object);
        `openUrl` stores the result as `url`, `when` and `then` push the captured
        object on their own list only; then `next` is called, which throws a
        TypeError unless it is a function. */
    method Invoke(h: StepHandler, arguments: seq<Json>) returns (r: Result<CallbackId, TypeError>)
      requires Valid() && h.spec < |specs|
      requires PlainArgs(Texts(Captures(arguments)))
      modifies this
      ensures Valid()
      ensures specs == old(specs)[h.spec := Stored(Texts(Captures(arguments)), old(specs[h.spec]))]
      ensures url == (if h.kind == OpenUrl then Expand(Texts(Captures(arguments)), old(specs[h.spec])) else old(url))
      ensures whenList == old(whenList) + (if h.kind == When then [h.spec] else [])
      ensures thenList == old(thenList) + (if h.kind == Then then [h.spec] else [])
      ensures sources == old(sources)
      ensures Statements(whenList) == old(Statements(whenList)) + (if h.kind == When then [specs[h.spec]] else [])
      ensures Statements(thenList) == old(Statements(thenList)) + (if h.kind == Then then [specs[h.spec]] else [])
      ensures r == (if NextArgument(arguments).Fn? then Ok(NextArgument(arguments).id) else Err(TypeError))
    {
      var captures, next := SplitArguments(arguments);
      assert captures == Captures(arguments);
      var args := Texts(captures);
      var k := h.spec;
      var expanded := ExpandValue(args, specs[k]);
      StoreExpanded(specs, whenList, k, args);
      StoreExpanded(specs, thenList, k, args);
      specs := specs[k := if IsObject(specs[k]) then expanded else specs[k]];
      match h.kind {
        case OpenUrl => url := expanded;
        case When => whenList := whenList + [k];
        case Then => thenList := thenList + [k];
      }
      if next.Fn? {
        r := Ok(next.id);
      } else {
        r := Err(TypeError);
      }
    }

    /** `source(src)` adds a feature file. */
    method Source(src: string)
      modifies this
      ensures sources == old(sources) + [src]
      ensures url == old(url) && specs == old(specs) && whenList == old(whenList) && thenList == old(thenList)
    {
      sources := sources + [src];
    }

    /** `register` is the runner's `addEventListener`. */
    method Register(evt: string, callback: CallbackId, ctx: Json, maxCalls: Option<int>) returns (r: Outcome<EventError>)
      requires Valid()
      modifies events
      ensures Valid()
      ensures r.Fail? <==> evt !in RunnerEvents
      ensures r.Fail? ==> events.events == old(events.events)
      ensures r.Pass? ==> events.events == old(events.events)[evt := ListenersOf(old(events.events), evt) + [Listener(callback, ctx, Budget(maxCalls))]]
    {
      r := events.AddEventListener(evt, callback, ctx, maxCalls);
    }

    /** One `events.dispatchEvent(name, ...args)` of `run`. */
    method Emit(name: string, args: seq<Json>, ghost start: map<string, seq<Listener>>, trace: seq<Occurrence>, calls: seq<Invocation>)
      returns (trace2: seq<Occurrence>, calls2: seq<Invocation>)
      requires Listening() && name in RunnerEvents && LiveMap(start)
      requires (events.events, calls) == Replay(start, trace)
      modifies events
      ensures Listening()
      ensures trace2 == trace + [Dispatched(name, args)]
      ensures (events.events, calls2) == Replay(start, trace2)
    {
      ghost var before := events.events;
      assert name in events.validEvents;
      var r, invoked := events.DispatchEvent(name, args);
      trace2 := trace + [Dispatched(name, args)];
      calls2 := calls + invoked;
      ReplaySnoc(start, trace, Dispatched(name, args));
      assert Replay(start, trace2) == Apply((before, calls), Dispatched(name, args));
      if name in before {
        assert events.events == before[name := Survivors(before[name])];
        assert invoked == Invocations(before[name], args);
      } else {
        assert events.events == before && invoked == [];
        assert calls2 == calls;
      }
    }

    method RunStep(step: string, ghost start: map<string, seq<Listener>>, trace: seq<Occurrence>, calls: seq<Invocation>)
      returns (trace2: seq<Occurrence>, calls2: seq<Invocation>)
      requires Listening() && LiveMap(start)
      requires (events.events, calls) == Replay(start, trace)
      modifies events
      ensures Listening()
      ensures trace2 == trace + StepOrder(step)
      ensures (events.events, calls2) == Replay(start, trace2)
    {
      trace2, calls2 := Emit("beforeStep", [Arr([Str(step)])], start, trace, calls);
      ReplaySnoc(start, trace2, Interpreted(step));
      trace2 := trace2 + [Interpreted(step)];
      trace2, calls2 := Emit("afterStep", [Arr([Str(step)])], start, trace2, calls2);
    }

    /** The steps of a scenario, one after the other. */
    method RunSteps(steps: seq<string>, ghost start: map<string, seq<Listener>>, trace: seq<Occurrence>, calls: seq<Invocation>)
      returns (trace2: seq<Occurrence>, calls2: seq<Invocation>)
      requires Listening() && LiveMap(start)
      requires (events.events, calls) == Replay(start, trace)
      modifies events
      ensures Listening()
      ensures trace2 == trace + StepsOrder(steps)
      ensures (events.events, calls2) == Replay(start, trace2)
    {
      trace2, calls2 := trace, calls;
      var i := 0;
      while i < |steps|
        invariant 0 <= i <= |steps|
        invariant Listening()
        invariant trace2 == trace + StepsOrder(steps[..i])
        invariant (events.events, calls2) == Replay(start, trace2)
      {
        StepsOrderSnoc(trace, steps, i);
        trace2, calls2 := RunStep(steps[i], start, trace2, calls2);
        i := i + 1;
      }
      assert steps[..i] == steps;
    }

    method RunScenario(sc: Scenario, ghost start: map<string, seq<Listener>>, trace: seq<Occurrence>, calls: seq<Invocation>)
      returns (trace2: seq<Occurrence>, calls2: seq<Invocation>)
      requires Listening() && LiveMap(start)
      requires (events.events, calls) == Replay(start, trace)
      modifies events
      ensures Listening()
      ensures trace2 == trace + ScenarioOrder(sc)
      ensures (events.events, calls2) == Replay(start, trace2)
    {
      ghost var open, close := Dispatched("beforeScenario", [Arr([sc.value])]), Dispatched("afterScenario", [Arr([sc.value])]);
      assert trace + ([open] + StepsOrder(sc.steps) + [close]) == trace + [open] + StepsOrder(sc.steps) + [close];
      trace2, calls2 := Emit("beforeScenario", [Arr([sc.value])], start, trace, calls);
      trace2, calls2 := RunSteps(sc.steps, start, trace2, calls2);
      trace2, calls2 := Emit("afterScenario", [Arr([sc.value])], start, trace2, calls2);
    }

    /** The scenarios of a feature, one after the other. */
    method RunScenarios(scs: seq<Scenario>, ghost start: map<string, seq<Listener>>, trace: seq<Occurrence>, calls: seq<Invocation>)
      returns (trace2: seq<Occurrence>, calls2: seq<Invocation>)
      requires Listening() && LiveMap(start)
      requires (events.events, calls) == Replay(start, trace)
      modifies events
      ensures Listening()
      ensures trace2 == trace + ScenariosOrder(scs)
      ensures (events.events, calls2) == Replay(start, trace2)
    {
      trace2, calls2 := trace, calls;
      var i := 0;
      while i < |scs|
        invariant 0 <= i <= |scs|
        invariant Listening()
        invariant trace2 == trace + ScenariosOrder(scs[..i])
        invariant (events.events, calls2) == Replay(start, trace2)
      {
        ScenariosOrderSnoc(trace, scs, i);
        trace2, calls2 := RunScenario(scs[i], start, trace2, calls2);
        i := i + 1;
      }
      assert scs[..i] == scs;
    }

    method RunFeature(f: Feature, ghost start: map<string, seq<Listener>>, trace: seq<Occurrence>, calls: seq<Invocation>)
      returns (trace2: seq<Occurrence>, calls2: seq<Invocation>)
      requires Listening() && LiveMap(start)
      requires (events.events, calls) == Replay(start, trace)
      modifies events
      ensures Listening()
      ensures trace2 == trace + FeatureOrder(f)
      ensures (events.events, calls2) == Replay(start, trace2)
    {
      ghost var open, close := Dispatched("beforeFeature", [Arr([Str(f.title)])]), Dispatched("afterFeature", [Arr([Str(f.title)])]);
      assert trace + ([open] + ScenariosOrder(f.scenarios) + [close]) == trace + [open] + ScenariosOrder(f.scenarios) + [close];
      trace2, calls2 := Emit("beforeFeature", [Arr([Str(f.title)])], start, trace, calls);
      trace2, calls2 := RunScenarios(f.scenarios, start, trace2, calls2);
      trace2, calls2 := Emit("afterFeature", [Arr([Str(f.title)])], start, trace2, calls2);
    }

    /** `run(lib)`: every feature file, parsed by `parse`, walked in order. The trace
        is the fixed lifecycle order, and the listeners run and survive as the
        dispatches of that order dictate. */
    method Run(parse: string -> Feature) returns (trace: seq<Occurrence>, calls: seq<Invocation>)
      requires Valid()
      modifies events
      ensures Valid()
      ensures trace == RunOrder(ParseAll(parse, sources))
      ensures (events.events, calls) == Replay(old(events.events), trace)
    {
      ghost var start := events.events;
      var features := ParseAll(parse, sources);
      trace := [];
      calls := [];
      var i := 0;
      while i < |sources|
        invariant 0 <= i <= |sources|
        invariant Valid()
        invariant trace == RunOrder(features[..i])
        invariant (events.events, calls) == Replay(start, trace)
      {
        var feature := parse(sources[i]);
        assert feature == features[i];
        trace, calls := RunFeature(feature, start, trace, calls);
        assert features[..i + 1][..i] == features[..i];
        i := i + 1;
      }
      assert features[..i] == features;
    }
  }
}
