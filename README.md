# phest core, modelled in Dafny

phest runs Gherkin feature files against a web page opened in PhantomJS. Step
definitions written against a small public API (`openUrl`, `when`, `then`,
`source`, `register`, `run`) collect a test suite on the host. A child process
starts the browser and passes it that suite. Host and page then talk over a
two-sided message bus: the page polls, and the host answers from a FIFO queue.

This project models the parts of phest that are logic rather than plumbing:

- the three small libraries everything is built on: a sorted unique container
  (`lib/set.js`), a FIFO queue (`lib/queue.js`), and an event handler with a
  closed vocabulary and call-limited listeners (`lib/events.js`);
- the older event registry and message classifier of `inmocha/_module.js`;
- the host and browser halves of the message bus (`inmocha/bus.js`,
  `inbrowser/bus.js`);
- the step-handler glue of `inmocha/api.js`: `$argN` substitution, argument
  splitting, the `when`/`then` lists, and the lifecycle-event order of `run`;
- the child process of `inmocha/phantomjs.js`: the command-line settings
  parser, the page's `onCallback` protocol, and the `open`/`run` messages.

Code that changes state in place is modelled as classes:

- `SortedSet`, `Queue`, `EventHandler`, `Registry`, the two `Bus` classes,
  `TestSuiteRunner` and `PhantomChild`;
- their `seq`/`map` fields are reassigned by methods with loops where the source
  loops;
- each method is specified against a pure function (`Survivors`, `Invocations`,
  `Kept`, `ExpandStr`, `Expand`, `ParsePairs`/`Options`, `RunOrder`/`Replay`),
  and the properties of the source are proved as lemmas about those functions.

Pure case analysis (`conv`, the two `onCallback` switches) is written as
functions with contracts.

Foreign calls become parameters or abstract values:

- a callback is a `CallbackId`, and invoking it is recorded as an `Invocation`;
- `callPhantom` is a `Phantom` value carrying its already-parsed answer;
- the Gherkin parser is a function `string -> Feature`;
- JSON values are the `Json` datatype (`Undefined`, `Null`, `Bool`, `Num`,
  `Str`, `Arr`, `Obj`, `Fn`, `Sym`) with integer numbers;
- a thrown exception is an error value in a `Result` or `Outcome`.

Modules: `Wrappers`, `Lex` (JavaScript string `<`), `Numerals` (decimal text),
`Json`, `SortedSets`, `Queues`, `Events`, `Templates` and `Expansion` (`expand`),
`Api`, `PhantomJs`, `HostBus`, `BrowserBus`, `Legacy`.

Where the written code and its evident intent differ, the model keeps both. It
defines the behaviour as written, proves a counterexample to the intent, and uses
the corrected definition everywhere else (see "## Findings"). Two places where the
project's own description and the code disagree follow the code:

- A poll with an empty outbox raises the queue's underflow error. It does not
  answer "no message".
- There is no startup timeout in the child-process supervision.

## Model

| member | source | states |
|---|---|---|
| Numerals.ShowNatRoundTrip | inmocha/phantomjs.js:218-219 | the decimal text of a natural number is all digits, and reading it back with the digit reading of `parseInt` gives the number |
| Json.Lookup | inmocha/phantomjs.js:62 | a property read on an object yields the value of the first field with that key, and `undefined` when no own property has the key |
| Json.Field | inmocha/_module.js:150 | reading a property throws exactly on `undefined` and `null`; on an object it is the own-property lookup |
| Json.Index | inmocha/bus.js:34-35 | `data[i]` throws exactly on `undefined` and `null`, and is the i-th element of an array within range |
| SortedSets.InsertKeepsAscending | lib/set.js:120-126 | splicing a value in at its insertion point, when it is not already there, keeps the array strictly ascending |
| SortedSets.RemoveKeepsAscending | lib/set.js:143-146 | removing one slot from a strictly ascending array keeps it strictly ascending |
| SortedSets.SortedSet.constructor | lib/set.js:200-205 | the set built from an initial list is sorted and holds exactly the list's elements, so `has(x)` holds iff `x` was in the list |
| SortedSets.SortedSet.Search | lib/set.js:38-63 | returns an insertion point that keeps the array ascending; the value is stored iff it sits at that index; 0 on an empty array or when the first element is not below the value; the length when the last element is below it; `null`/`undefined` is the "Invalid type" error once the early exits do not apply |
| SortedSets.SortedSet.Has | lib/set.js:175-178 | true iff the value is stored |
| SortedSets.SortedSet.Add | lib/set.js:120-127 | returns true iff the value was absent; then it is spliced in at one position (length grows by one), otherwise the array is unchanged; the elements become the old ones plus the value, and sortedness is kept |
| SortedSets.SortedSet.Clear | lib/set.js:133-136 | returns true, and the set is empty and still sorted |
| SortedSets.SortedSet.Delete | lib/set.js:143-150 | returns true iff the value was stored; afterwards it is absent, the other elements stay, sortedness is kept, and a missing value leaves the array unchanged |
| SortedSets.DeleteAsWritten | lib/set.js:146 | `delete _data[index]` keeps the length and leaves a hole at the index, every other slot unchanged |
| SortedSets.ProbeAsWritten | lib/set.js:51-60 | one pass of the search loop leaves `start` and `end` unchanged only when the probed slot is a hole |
| SortedSets.DeletedHoleStallsSearch | lib/set.js:44-60 | after deleting "b" from ["a","b","c"] as written, a search for "b" passes the early exits and its loop state (0, 2) is a fixed point, so the search never ends |
| Queues.ReversedConcat | lib/queue.js:73-87 | reversal turns a concatenation around, which makes unshift an append in arrival order and pop a removal of the oldest item |
| Queues.RemoveFirst | lib/queue.js:101-112 | removing the earliest occurrence shortens a sequence by one when the value occurs, and leaves it unchanged otherwise |
| Queues.RemoveFirstAfter | lib/queue.js:101-112 | in `a + [v] + b` with `v` not in `a`, the earliest occurrence removed is the one between `a` and `b` |
| Queues.Queue.constructor | lib/queue.js:15-16 | a new queue is empty |
| Queues.Queue.Enqueue | lib/queue.js:73-76 | returns true; the value is unshifted at the front of the array and joins the back of the queue in arrival order |
| Queues.Queue.Dequeue | lib/queue.js:83-88 | an empty queue gives the underflow error and stays unchanged; otherwise the oldest item is returned and removed, and the rest keep their order |
| Queues.Queue.Clear | lib/queue.js:94-97 | returns true and the queue is empty |
| Queues.Queue.OldestIndexOf | lib/queue.js:106-110 | the backwards scan finds the last array slot holding the value, which is the earliest-added occurrence, or -1 iff there is none |
| Queues.Queue.Delete | lib/queue.js:105-112 | returns true iff the value was queued; the earliest-added occurrence is spliced out, so the queue in arrival order loses its first occurrence; otherwise nothing changes |
| Events.InArray | lib/events.js:39-51 | the first index at or after the start offset holding the value, or -1 iff there is none there; a negative offset counts from the end, clamped at 0 |
| Events.MaxCallsBudget | lib/events.js:55-68 | a listener subscribed with a `max_calls` that parses to k >= 1 runs min(k, n) times over n dispatches; a missing, NaN, zero or negative `max_calls` makes it run on every dispatch |
| Events.Keep | lib/events.js:92-95 | what one dispatch leaves of a listener: at most one listener, never one with no calls left |
| Events.Survivors | lib/events.js:91-96 | what one dispatch leaves of a list: no listener with no calls left, and never more listeners than before |
| Events.Invocations | lib/events.js:91-93 | one dispatch calls every listener once, in subscription order, with its own context and the dispatch's arguments |
| Events.SurvivorsConcat | lib/events.js:91-96 | listeners evolve independently: dispatching a concatenation is dispatching its parts |
| Events.OneListenerBudget | lib/events.js:91-96 | over n dispatches a listener with budget k runs min(k, n) times; an Infinity listener runs every time and is never removed |
| Events.TimesInvokedConcat | lib/events.js:91-96 | the number of calls over n dispatches is the sum over the parts of the list, so the per-listener bound holds in any list |
| Events.DispatchAsWritten | lib/events.js:91-96 | the dispatch loop as written: after a spent listener is spliced out `i` still advances, so the next one is neither called nor counted down; slots already passed are left as they are, at most one call is made per remaining slot, and every call gets the dispatch's arguments |
| Events.SpliceSkipsNextListener | lib/events.js:94-95 | with two one-shot listeners the loop as written runs only the first and leaves the second registered, while the intended dispatch runs both and removes both |
| Events.EventHandler.constructor | lib/events.js:128-133 | the vocabulary is the given list when one is given and empty otherwise; no listeners |
| Events.EventHandler.AddEventListener | lib/events.js:63-72 | fails with "Unknown event" iff the name is outside the vocabulary, registering nothing; otherwise appends `[callback, ctx, budget]` at the end of that event's list, creating it when missing |
| Events.EventHandler.DispatchEvent | lib/events.js:80-98 | an unknown name throws and changes nothing; no list gives false with no calls; otherwise true, every listener is called once in order, and the list becomes its survivors |
| Events.EventHandler.SetValidEvents | lib/events.js:104-106 | the vocabulary becomes the given list; listeners are untouched |
| Events.EventHandler.GetValidEvents | lib/events.js:112-114 | returns the current vocabulary |
| Events.EventHandler.AddValidEvent | lib/events.js:120-122 | appends one name to the vocabulary; listeners are untouched |
| Templates.FirstIsLeftmost | inmocha/api.js:69 | `exec` finds no match exactly when the string has no placeholder, and otherwise the leftmost one |
| Templates.MatchFoundFirst | inmocha/api.js:69-71 | the text of the first match does not occur earlier, so `replace(match[0], …)` rewrites exactly the match `exec` found |
| Templates.ReplaceIsStep | inmocha/api.js:71 | `s.replace(match[0], args[N-1])` is the rewriting of the leftmost placeholder by the N-th capture |
| Templates.PlaceholderIsPlain | inmocha/api.js:71 | with `$`-free captures, the replacement text has no `$` |
| Templates.StepShrinks | inmocha/api.js:68-72 | with `$`-free captures each turn of the loop removes a `$`, so the loop terminates |
| Templates.ExpandStr | inmocha/api.js:66-73 | the loop ends with no placeholder left, and a string without one is returned unchanged |
| Templates.ExpandLeavesNoPlaceholder | inmocha/api.js:66-73 | no `$arg<digits>` survives the substitution |
| Templates.NoPlaceholderUnchanged | inmocha/api.js:66-73 | a string with no `$arg<digits>` comes back unchanged |
| Templates.ExpandOneTurn | inmocha/api.js:68-72 | a turn of the loop does not change what the loop ends with |
| Templates.ReplaceMatch | inmocha/api.js:69-71 | one `exec` plus one `replace` is one turn of the loop |
| Templates.ExpandString | inmocha/api.js:66-73 | the do-while loop computes the iterated first-match substitution |
| Templates.FirstAfterPlainPrefix | inmocha/api.js:69 | text without `$` in front of a template only shifts the position of the first match |
| Templates.ExpandAfterPlainPrefix | inmocha/api.js:66-73 | text without `$` in front of a template passes through the substitution unchanged |
| Templates.ExpandIsSubst | inmocha/api.js:66-73 | when every `$` of a template begins a placeholder, the loop equals one left-to-right pass replacing each `$argN` by `args[N-1]` (`"undefined"` out of range) |
| Expansion.ExpandKeepsShape | inmocha/api.js:57-65 | `expand` keeps every key, position and array length, and returns `undefined`, `null`, booleans, numbers, symbols and functions unchanged |
| Expansion.ExpandSettles | inmocha/api.js:63-73 | every nested string leaf is substituted: none keeps a placeholder |
| Expansion.SettledUnchanged | inmocha/api.js:56-75 | a value without placeholders is returned unchanged, whatever the captures |
| Expansion.ExpandIdempotent | inmocha/api.js:100-111 | expanding an already expanded object again, with any captures, changes nothing; this is why a `when` handler called twice pushes its first substitution twice |
| Expansion.ExpandValue | inmocha/api.js:56-75 | the in-place property loop and the string loop compute `Expand` |
| Api.SplitArguments | inmocha/api.js:102-105 | the arguments are the captures followed by `next`; with no arguments the captures are empty and `next` is `undefined` |
| Api.InterpretationsConcat | inmocha/api.js:188-198 | the steps interpreted by two runs of occurrences one after another are those of each, in order |
| Api.StepsInterpreted | inmocha/api.js:188-198 | the interpreter sees exactly the steps of a scenario, in order |
| Api.ScenarioInterpreted | inmocha/api.js:183-203 | the lifecycle dispatches around a scenario interpret nothing beyond its steps |
| Api.ScenariosInterpreted | inmocha/api.js:183-203 | the interpreter sees the steps of every scenario of a feature, in order |
| Api.FeatureInterpreted | inmocha/api.js:179-207 | a feature's run interprets exactly its scenarios' steps |
| Api.RunInterpretsAllSteps | inmocha/api.js:172-209 | `run` hands every step of every scenario of every feature to the interpreter exactly once, in file order |
| Api.StoreExpanded | inmocha/api.js:100-111 | writing the expansion into a captured object changes no statement pushed earlier, and pushing it adds exactly the expanded object |
| Api.SharedObjectKeepsFirstExpansion | inmocha/api.js:100-129 | once one handler has expanded a shared object, another handler closing over it, run with any captures, leaves it as it is, so both push the first substitution |
| Api.ReplaySnoc | inmocha/api.js:179-205 | replaying one more occurrence applies it to the state the earlier ones left |
| Api.TestSuiteRunner.constructor | inmocha/api.js:19-29 | empty url, lists and sources; a "public-api" handler with no listeners whose vocabulary is exactly the ten lifecycle events |
| Api.TestSuiteRunner.NewHandler | inmocha/api.js:83-84 | `openUrl`/`when`/`then` capture their object and change nothing else |
| Api.TestSuiteRunner.ShareHandler | inmocha/api.js:100-101 | `when(o)`/`then(o)`/`openUrl(o)` on an object another handler captured closes over that same object, not a copy |
| Api.TestSuiteRunner.Invoke | inmocha/api.js:83-129 | the captured object is expanded with the captures (an array or object in place); `openUrl` sets `url`; `when` pushes only on `when`, and `then` only on `then`; earlier statements stay as they were; sources unchanged; calling `next` is a TypeError unless it is a function |
| Api.TestSuiteRunner.Source | inmocha/api.js:135-137 | appends the file to `sources` and changes nothing else |
| Api.TestSuiteRunner.Register | inmocha/api.js:218 | `register` is the handler's `addEventListener`: it fails iff the name is not one of the ten lifecycle events, and otherwise appends the listener |
| Api.TestSuiteRunner.Emit | inmocha/api.js:179 | one dispatch extends the trace by that dispatch and the listener state by its replay |
| Api.TestSuiteRunner.RunStep | inmocha/api.js:188-198 | a step is `beforeStep`, the interpreter, `afterStep`; each dispatch passes every listener the single argument `[step]`, and the listeners are updated accordingly |
| Api.TestSuiteRunner.RunSteps | inmocha/api.js:188-198 | the steps of a scenario run one after another, each as `beforeStep`, the interpreter, `afterStep`, whose listeners each receive the one argument `[step]` |
| Api.TestSuiteRunner.RunScenario | inmocha/api.js:183-203 | a scenario is `beforeScenario`, its steps in order, `afterScenario`; both dispatches pass every listener the single argument `[scenario]` |
| Api.TestSuiteRunner.RunScenarios | inmocha/api.js:183-203 | the scenarios of a feature run one after another, in order, each bracketed by dispatches with the argument `[scenario]` |
| Api.TestSuiteRunner.RunFeature | inmocha/api.js:176-208 | a feature is `beforeFeature`, its scenarios in order, `afterFeature`; both dispatches pass every listener the single argument `[feature.title]` |
| Api.TestSuiteRunner.Run | inmocha/api.js:169-210 | the trace of `run` is the fixed lifecycle order over the parsed sources, each dispatch carrying one array argument (`[feature.title]`, `[scenario]`, `[step]`), and the listeners' calls and what is left of them are exactly the replay of that trace |
| PhantomJs.Conv | inmocha/phantomjs.js:213-222 | `'true'` gives true, `'false'` gives false, an all-digit string its integer, and exactly every other string stays itself |
| PhantomJs.ConvReadsNumbers | inmocha/phantomjs.js:218-219 | a number written in decimal converts back to that number |
| PhantomJs.OptionThenPending | inmocha/phantomjs.js:228-232 | reading an option leaves its name pending over the rest of the line |
| PhantomJs.FlattenSnoc | inmocha/phantomjs.js:224-241 | `params` grows by a name and its value for each setting |
| PhantomJs.LastValueWins | inmocha/phantomjs.js:243-246 | every given name is set, and a repeated name keeps its last value |
| PhantomJs.OptionsNames | inmocha/phantomjs.js:243-246 | only the names given on the line are set |
| PhantomJs.ParsesIffAssigned | inmocha/phantomjs.js:227-239 | parsing fails ("Unassigned command line parameter") exactly when some value token is not directly preceded by an option |
| PhantomJs.CollectParams | inmocha/phantomjs.js:224-241 | the loop with its pending flag fails on the first unassigned token, and otherwise yields names and values alternating: `--name value` gives `conv(value)`, and a flag followed by an option or by the end gives true |
| PhantomJs.SetOptions | inmocha/phantomjs.js:243-248 | the pair loop fills the settings map with each name's last value |
| PhantomJs.ParseArguments | inmocha/phantomjs.js:212-249 | `parsePhantomJSArguments` fails with the reference grammar's error, or returns the settings map of the reference pairs |
| PhantomJs.OnCallback | inmocha/phantomjs.js:53-84 | `polling` is answered `["polling",404]`; testsuite `started`/`nextTestcase` is answered `["testsuite","ok"]`, and no other message is answered; the run resolves or rejects iff the testsuite reports `finished`, resolving iff `success` is truthy; every other message that does not throw gets no answer; it throws exactly on `undefined`/`null` data or a missing or symbol testsuite message (a symbol `tc` in `nextTestcase`, which also throws in the source, is not modelled) |
| PhantomJs.BrowserStart | inmocha/phantomjs.js:178-190 | throws iff the URL is `undefined`; otherwise starts with that URL and settings, the files or `[]`, and the test suite or `{}` |
| PhantomJs.PhantomChild.constructor | inmocha/phantomjs.js:268-269 | empty URL and no inject list yet |
| PhantomJs.PhantomChild.Open | inmocha/phantomjs.js:275-291 | the inject list is the seven fixed library and browser files, in order, followed by the message's files in order; the URL is stored; a `null` file list throws before the URL is stored |
| PhantomJs.PhantomChild.Run | inmocha/phantomjs.js:293-296 | a bad command line fails with its argument error; otherwise the browser starts with the stored URL, the inject list and the parsed settings |
| PhantomJs.PhantomChild.RunAsWritten | inmocha/phantomjs.js:293-296 | as written, the browser starts with no inject list at all |
| PhantomJs.InjectListLost | inmocha/phantomjs.js:277-295 | the run as written injects no file, while the intended run injects the seven fixed files first |
| HostBus.Bus.constructor | inmocha/bus.js:18-26 | no receivers and an empty outbox |
| HostBus.Bus.SendObject | inmocha/bus.js:57-61 | fails iff the component is undefined, queuing nothing; otherwise exactly `[component, obj]` joins the back of the outbox |
| HostBus.Bus.Reply | inmocha/bus.js:39 | the oldest waiting message is returned and removed, or an empty outbox gives the underflow error, unchanged |
| HostBus.Bus.ReceiveObject | inmocha/bus.js:33-50 | `polling` dequeues one message and dispatches nothing; a registered component's handler dispatches `messageReceived` with `obj` (and no other handler changes) before one dequeue; an unregistered one gives `undefined`, with the outbox and all listeners untouched; an empty outbox underflows |
| HostBus.Bus.RegisterReceiver | inmocha/bus.js:70-76 | the component's handler, created with vocabulary `messageReceived` when missing, gets the callback appended with an unbounded budget and is returned; other receivers are untouched |
| HostBus.Bus.RegisterReceiverAsWritten | inmocha/bus.js:70-76 | as written, no receiver is created: a component without one fails, and one with a receiver gets the callback appended |
| HostBus.GuardNeverFires | inmocha/bus.js:71 | a missing receiver reads as `undefined`, which the guard `=== 'undefined'` rejects and `typeof … === 'undefined'` accepts |
| BrowserBus.Bus.constructor | inbrowser/bus.js:14 | no receivers and nothing sent |
| BrowserBus.Bus.ReceiveObject | inbrowser/bus.js:40-46 | only the named component's bus dispatches `messageReceived` with `obj`; an unregistered component changes nothing |
| BrowserBus.Bus.SendObject | inbrowser/bus.js:22-33 | an undefined component and a missing `callPhantom` both throw before anything is sent; otherwise the pair is sent, a `null`/`undefined` answer dispatches nothing, and any other answer is routed as `receiveObject(answer[0], answer[1])` |
| BrowserBus.Bus.RegisterReceiver | inbrowser/bus.js:54-59 | a fresh bus named `component-bus`, with no listeners and vocabulary `messageReceived`, replaces any earlier one |
| BrowserBus.Bus.Send | inbrowser/bus.js:56 | a bus's `send(msg)` is `sendObject(component, msg)` |
| BrowserBus.Bus.Init | inbrowser/bus.js:64-73 | registers exactly the `interaction`, `testsuite` and `report` receivers, each with a fresh bus |
| BrowserBus.Bus.Poll | inbrowser/bus.js:65 | a poll sends `['polling', undefined]` and routes the answer as any send does |
| Legacy.MaxCallsRounds | inmocha/_module.js:51-61 | a handler registered with a `max_calls` of n >= 1 runs min(n, k) times over k invocations; a missing or zero `max_calls` (Infinity) or a negative one makes it run on every invocation |
| Legacy.Tick | inmocha/_module.js:81-83 | a handler with nothing left after its call is removed |
| Legacy.Kept | inmocha/_module.js:77-84 | what one invocation leaves never holds a handler with a zero count, and is never longer |
| Legacy.Calls | inmocha/_module.js:77-79 | each handler is called once, in registration order, with the context and parameters |
| Legacy.KeptConcat | inmocha/_module.js:77-84 | handlers are counted down independently of each other |
| Legacy.HandlerBudget | inmocha/_module.js:77-84 | over k invocations a handler with a positive budget n runs min(n, k) times; an unlimited handler, or one with a negative count that never reaches zero, runs every time |
| Legacy.InvokeAsWritten | inmocha/_module.js:77-84 | the invocation loop as written: after a spent handler is spliced out `i` still advances, so the next one is neither called nor counted down; slots already passed are left as they are, at most one call is made per remaining slot, and every call gets the context and parameters |
| Legacy.SpliceSkipsNextHandler | inmocha/_module.js:82-83 | with two one-shot handlers the loop as written calls only the first and leaves the second registered, while the intended loop calls and removes both |
| Legacy.Registry.constructor | inmocha/_module.js:15-21 | the vocabulary set holds exactly the ten known events, and no handlers |
| Legacy.Registry.Register | inmocha/_module.js:51-62 | fails with "Unknown event registered" iff the name is not a known event, changing nothing; otherwise appends `[clbk, max_calls \|\| Infinity]` |
| Legacy.Registry.InvokeEventHandlers | inmocha/_module.js:71-85 | an unknown name throws; an event with no list does nothing; otherwise every handler is called in order and counted down, and those reaching zero are removed |
| Legacy.Classify | inmocha/_module.js:149-204 | `null`/`undefined` is not an object; a missing `type` is an invalid message; `finish` resolves iff the type is `finish`; `test` is logged, at info level iff the state is `'ok'`; an action is user input iff its verb is one of the seven input keys; and it throws "Unknown message type" iff the type is anything else |

## Left out

- Logging, console output and the log file (`inmocha/_module.js:136-147`) are not modelled. The config file read is not modelled either.
- phridge and PhantomJS calls are not modelled: spawning, page creation, `page.open`/`evaluate`/`injectJs`/`render`/`sendEvent`, and the logging-only `page.on*` hooks. They are foreign library calls.
  - The Screenshot and UserInput classifications record what would be rendered or forwarded, not the calls.
- The asynchronous `browserStarted`/`browserFinished`/`browserFailed` dispatches of `browserStart` (`inmocha/phantomjs.js:182-195`) are not modelled. `BrowserStart` stops at the launch parameters, because the dispatch runs inside phridge promises.
- Child-process supervision is not modelled: `child_process.fork`, the two `setTimeout` sends, the `message`/`exit` handlers and `runTestsuite` (`inmocha/api.js:142-162`), and `master.js`. These are OS processes and timers.
- `lib.afterScenario = runTestsuite`, and the mocha `before`/`after` hooks of `run`, are not modelled. `run` is modelled only as the order of its dispatches and interpreter calls.
  - The Yadda parser is a function from a file name to a `Feature`.
  - The interpreter is modelled as an `Interpreted` occurrence.
  - The `featureFile`/`scenarios`/`steps` callbacks are taken as synchronous iteration.
- `inject` in `inmocha/api.js` and `inmocha/_module.js` is not modelled, because its effect depends on `fs.exists`. The fixed inject paths are modelled as relative paths rather than the `path.resolve` result.
- `send`, `openUrl`, `startBrowser` and `run` in `inmocha/_module.js` are not modelled, apart from the message switch of `startBrowser`'s `onCallback` (`Legacy.Classify`): they drive the page object. `run` is also broken, because it reads an undefined `scenario` (`inmocha/_module.js:244`).
- `JSON.stringify` and `JSON.parse` are not modelled. Replies and messages are already-parsed `Json` values, and `OnCallback`'s answers are given before stringification.
- The iterators, `forEach`, `values`, `keys` and `entries` of `lib/set.js` and `lib/queue.js` are not modelled. They call an undefined `hasOwnProp`.
- The queue's `"push": add` entry (`lib/queue.js:163`) is not modelled: it names an undefined identifier, so building a queue throws a ReferenceError.
- The queue's `has` (`lib/queue.js:137-142`) is not modelled: it reads an undefined `index`, so it throws on any non-empty queue.
- The missing `require('path')` in `inmocha/bus.js:12` is not modelled: loading the module fails. The bus is modelled as if it loaded.
- `inmocha/_module.js:12-13` promises insertion order for `_injectFiles` but uses the sorted set. This is not modelled, because the set is only used by `inject`, which is left out.
- Set elements are strings. Comparisons with numbers or mixed types, which JavaScript coerces, are not modelled.
- `None` stands for `null`/`undefined` only in `SortedSet.Search`. `Has`, `Add` and `Delete` take strings.
- `Templates.ExpandStr` and `Expansion.Expand`: both require captures whose text contains no `$`. A capture containing `$argN` would make the source loop forever. `$` in a replacement string is also a JavaScript replacement pattern.
- `Json.ToText` approximates `"" + v` for objects, functions and symbols. Concatenating a symbol really throws; this is modelled only where `OnCallback` logs the message.
- `Legacy.Classify`: the symbol case is not modelled for the test-result log (`inmocha/_module.js:183-185`).
- Object keys that are inherited properties are not modelled: a component named `toString`, or a setting named `__proto__`, behaves like any other key in the model.
- Numbers are unbounded integers, so `parseInt` precision loss on huge digit strings is not modelled.
- `Events.MaxCallsBudget` takes `max_calls` already parsed (`None` for NaN). `parseInt` of non-numeric strings is not modelled.
- `PhantomJs.Length` reads the length of arrays and strings only. Other objects that carry a `length` property are not modelled as file lists.
- `Events.InArray`: a missing array (`array` falsy) is not modelled. Every caller passes the vocabulary array.
- Api.TestSuiteRunner.Invoke requires captures whose text has no `$`, for the reason given above for `ExpandStr`.
- Calling a `when`/`then` handler twice pushes the same object twice. The model reproduces this aliasing, and `Expansion.ExpandIdempotent` shows that the second push carries the first call's substitution. Two handlers over one object share its slot (`Api.TestSuiteRunner.ShareHandler`), and `Api.SharedObjectKeepsFirstExpansion` shows that the second pushes the first one's substitution.
- Api.TestSuiteRunner.Invoke: an object nested inside two different captured objects is two copies in the model. The source rewrites the one nested object for both, so after the first handler runs the second pushes the first substitution there, while the model pushes a fresh substitution of its own copy.
- BrowserBus.Bus.SendObject, BrowserBus.Bus.Send, BrowserBus.Bus.Poll and BrowserBus.Bus.ReceiveObject: callbacks are taken to leave the buses alone. The contracts hold only for listeners that do not send, subscribe, dispatch or throw. In the source a listener may send inside the dispatch of an answer, as the listener at `inbrowser/init.js:22-25` would on an `"ok"` answer; then a second pair is sent, which `sent == old(sent) + [pair]` does not allow for.
- Events.EventHandler.DispatchEvent, HostBus.Bus.ReceiveObject, Api.TestSuiteRunner.Emit, Api.TestSuiteRunner.RunStep, Api.TestSuiteRunner.RunSteps, Api.TestSuiteRunner.RunScenario, Api.TestSuiteRunner.RunScenarios, Api.TestSuiteRunner.RunFeature and Api.TestSuiteRunner.Run: callbacks are taken not to touch the handler. A listener that subscribes to the same event during the dispatch also runs in that dispatch (the loop re-reads the length), and a listener that dispatches again or throws interleaves or stops the loop. The contract's `Invocations`/`Survivors` of the old list hold only without such callbacks.
- Events.EventHandler.SetValidEvents, Events.EventHandler.GetValidEvents and Events.EventHandler.AddValidEvent: the vocabulary is a value. In the source `setValidEvents` keeps the caller's array itself, `addValidEvent` pushes into it, and `getValidEvents` hands out the live array, so a caller and the handler share one vocabulary. No caller in the repository relies on this.
- Legacy.Registry.InvokeEventHandlers: callbacks are taken not to touch the registry, for the same reasons as `DispatchEvent`.
- SortedSets.SortedSet.Search: `null` against the empty string or a numeric-looking string is not modelled. JavaScript coerces both to numbers there (`"5" >= null` is true), while the model gives the "Invalid type" error for every non-empty array of strings.
- `Json.Obj` keys are taken to be distinct. `Json.Lookup` returns the first field with a key, while `JSON.parse` keeps the last of duplicated keys.

## Findings

| source | as written | input that shows it | evidently intended | confidence | as-written member | corrected member |
|---|---|---|---|---|---|---|
| lib/set.js:146 | `delete _data[index]` leaves a hole, so a later search can probe `undefined` without narrowing its range | delete "b" from ["a","b","c"], then search "b" | splice the slot out (`_data.splice(index, 1)`) | not executed | SortedSets.DeleteAsWritten, SortedSets.DeletedHoleStallsSearch | SortedSets.SortedSet.Delete |
| lib/events.js:94-95 | after splicing a spent listener, `i` still advances, skipping the next listener | two listeners with `max_calls` 1, one dispatch | every listener present at the start of the dispatch runs once | not executed | Events.DispatchAsWritten, Events.SpliceSkipsNextListener | Events.EventHandler.DispatchEvent |
| inmocha/_module.js:82-83 | the same splice skips the next handler in `invokeEventHandlers` | two handlers with `max_calls` 1, one invocation | every handler runs once per invocation | not executed | Legacy.InvokeAsWritten, Legacy.SpliceSkipsNextHandler | Legacy.Registry.InvokeEventHandlers |
| inmocha/bus.js:71 | `receivers[component] === 'undefined'` compares with a string, so no receiver is ever created and adding the listener throws | `registerReceiver('report', f)` on an empty registry | `typeof receivers[component] === 'undefined'` creates the receiver | not executed | HostBus.Bus.RegisterReceiverAsWritten, HostBus.GuardNeverFires | HostBus.Bus.RegisterReceiver |
| inmocha/phantomjs.js:277 | `injectFiles` is a `var` local to each message, so `run` passes `undefined` and nothing is injected | an `open` message followed by a `run` message | the inject list built by `open` is used by `run` | not executed | PhantomJs.PhantomChild.RunAsWritten, PhantomJs.InjectListLost | PhantomJs.PhantomChild.Run |
