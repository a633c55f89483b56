/** The phantomjs child process of inmocha/phantomjs.js: the command-line parser
    for browser settings, the page's answer to messages from the browser side, and
    the `open`/`run` protocol with the parent process. */
module PhantomJs {
  import opened Wrappers
  import opened Json
  import opened Numerals

  /** `conv`: the text of a setting read as a boolean, a number or a string. */
  function Conv(val: string): (r: Json)
    ensures val == "true" ==> r == Bool(true)
    ensures val == "false" ==> r == Bool(false)
    ensures AllDigits(val) ==> r == Num(DigitsValue(val))
    ensures r.Str? <==> val != "true" && val != "false" && !AllDigits(val)
    ensures r.Str? ==> r.s == val
  {
    if val == "true" then Bool(true)
    else if val == "false" then Bool(false)
    else if AllDigits(val) then Num(DigitsValue(val))
    else Str(val)
  }

  /** A number printed in decimal comes back as that number. */
  lemma ConvReadsNumbers(n: nat)
    ensures Conv(ShowNat(n)) == Num(n)
  {
    ShowNatRoundTrip(n);
  }

  /** A token introducing a setting: its first two characters are `--`. */
  predicate IsOption(t: string) {
    |t| >= 2 && t[..2] == "--"
  }

  datatype ArgError = Unassigned(token: string)

  type Pairs = seq<(string, Json)>

  function Cons(p: (string, Json), r: Result<Pairs, ArgError>): Result<Pairs, ArgError> {
    if r.Err? then r else Ok([p] + r.value)
  }

  function Prepend(done: Pairs, r: Result<Pairs, ArgError>): Result<Pairs, ArgError> {
    if r.Err? then r else Ok(done + r.value)
  }

  /** The settings named on a command line, in order: `--name value` names
      `conv(value)`, a `--name` followed by another option or by nothing names
      `true`, and any other token is an unassigned value. */
  function ParsePairs(args: seq<string>): Result<Pairs, ArgError>
    decreases |args|
  {
    if |args| == 0 then Ok([])
    else if !IsOption(args[0]) then Err(Unassigned(args[0]))
    else if |args| > 1 && !IsOption(args[1]) then Cons((args[0][2..], Conv(args[1])), ParsePairs(args[2..]))
    else Cons((args[0][2..], Bool(true)), ParsePairs(args[1..]))
  }

  /** The rest of a command line once the option `name` has been read. */
  function Pending(name: string, rest: seq<string>): Result<Pairs, ArgError> {
    if |rest| > 0 && !IsOption(rest[0]) then Cons((name, Conv(rest[0])), ParsePairs(rest[1..]))
    else Cons((name, Bool(true)), ParsePairs(rest))
  }

  lemma OptionThenPending(args: seq<string>)
    requires |args| > 0 && IsOption(args[0])
    ensures ParsePairs(args) == Pending(args[0][2..], args[1..])
  {
    if |args| > 1 {
      assert args[1..][1..] == args[2..];
    }
  }

  lemma PrependCons(done: Pairs, p: (string, Json), r: Result<Pairs, ArgError>)
    ensures Prepend(done, Cons(p, r)) == Prepend(done + [p], r)
  {
    if r.Ok? {
      assert done + ([p] + r.value) == done + [p] + r.value;
    }
  }

  /** `params`: names and values alternating. */
  function Flatten(ps: Pairs): (r: seq<Json>)
    ensures |r| == 2 * |ps|
  {
    if |ps| == 0 then [] else Flatten(ps[..|ps| - 1]) + [Str(ps[|ps| - 1].0), ps[|ps| - 1].1]
  }

  lemma {:induction false} FlattenAt(ps: Pairs, j: nat)
    requires j < |ps|
    ensures Flatten(ps)[2 * j] == Str(ps[j].0) && Flatten(ps)[2 * j + 1] == ps[j].1
    decreases |ps|
  {
    if j < |ps| - 1 {
      FlattenAt(ps[..|ps| - 1], j);
    }
  }

  lemma FlattenSnoc(ps: Pairs, p: (string, Json))
    ensures Flatten(ps + [p]) == Flatten(ps) + [Str(p.0), p.1]
  {
    assert (ps + [p])[..|ps|] == ps;
  }

  /** `phOptions`: each name set to its value, a later setting of a name replacing
      an earlier one. */
  function Options(ps: Pairs): map<string, Json> {
    if |ps| == 0 then map[] else Options(ps[..|ps| - 1])[ps[|ps| - 1].0 := ps[|ps| - 1].1]
  }

  /** Every name that is given is set, and a repeated name keeps its last value. */
  lemma {:induction false} LastValueWins(ps: Pairs, i: nat)
    requires i < |ps|
    requires forall j :: i < j < |ps| ==> ps[j].0 != ps[i].0
    ensures ps[i].0 in Options(ps) && Options(ps)[ps[i].0] == ps[i].1
    decreases |ps|
  {
    if i < |ps| - 1 {
      LastValueWins(ps[..|ps| - 1], i);
    }
  }

  /** Only the names that were given are set. */
  lemma {:induction false} OptionsNames(ps: Pairs)
    ensures forall name :: name in Options(ps) <==> exists j :: 0 <= j < |ps| && ps[j].0 == name
    decreases |ps|
  {
    if |ps| > 0 {
      var init := ps[..|ps| - 1];
      OptionsNames(init);
      forall name
        ensures name in Options(ps) <==> exists j :: 0 <= j < |ps| && ps[j].0 == name
      {
        if exists j :: 0 <= j < |init| && init[j].0 == name {
          var j :| 0 <= j < |init| && init[j].0 == name;
          assert ps[j].0 == name;
        }
        if exists j :: 0 <= j < |ps| && ps[j].0 == name {
          var j :| 0 <= j < |ps| && ps[j].0 == name;
          if j < |init| {
            assert init[j].0 == name;
          }
        }
      }
    }
  }

  /** Every value token directly follows an option token. */
  predicate Assigned(args: seq<string>) {
    forall i :: 0 <= i < |args| && !IsOption(args[i]) ==> i > 0 && IsOption(args[i - 1])
  }

  lemma AssignedAfterValue(args: seq<string>)
    requires |args| > 1 && IsOption(args[0]) && !IsOption(args[1])
    ensures Assigned(args) <==> Assigned(args[2..])
  {
    var rest := args[2..];
    if Assigned(args) {
      forall i | 0 <= i < |rest| && !IsOption(rest[i])
        ensures i > 0 && IsOption(rest[i - 1])
      {
        assert args[i + 2] == rest[i];
        assert IsOption(args[i + 1]);
      }
    }
    if Assigned(rest) {
      forall i | 0 <= i < |args| && !IsOption(args[i])
        ensures i > 0 && IsOption(args[i - 1])
      {
        if i >= 2 {
          assert rest[i - 2] == args[i];
          if i == 2 {
            assert false;
          } else {
            assert rest[i - 3] == args[i - 1];
          }
        }
      }
    }
  }

  lemma AssignedAfterFlag(args: seq<string>)
    requires |args| > 0 && IsOption(args[0]) && (|args| == 1 || IsOption(args[1]))
    ensures Assigned(args) <==> Assigned(args[1..])
  {
    var rest := args[1..];
    if Assigned(args) {
      forall i | 0 <= i < |rest| && !IsOption(rest[i])
        ensures i > 0 && IsOption(rest[i - 1])
      {
        assert args[i + 1] == rest[i];
        assert IsOption(args[i]);
      }
    }
    if Assigned(rest) {
      forall i | 0 <= i < |args| && !IsOption(args[i])
        ensures i > 0 && IsOption(args[i - 1])
      {
        assert rest[i - 1] == args[i];
        if i >= 2 {
          assert rest[i - 2] == args[i - 1];
        }
      }
    }
  }

  /** A command line parses exactly when no value token is left without an option
      before it. */
  lemma {:induction false} ParsesIffAssigned(args: seq<string>)
    ensures ParsePairs(args).Ok? <==> Assigned(args)
    decreases |args|
  {
    if |args| == 0 {
    } else if !IsOption(args[0]) {
      assert !Assigned(args);
    } else if |args| > 1 && !IsOption(args[1]) {
      ParsesIffAssigned(args[2..]);
      AssignedAfterValue(args);
    } else {
      ParsesIffAssigned(args[1..]);
      AssignedAfterFlag(args);
    }
  }

  /** The first pass of `parsePhantomJSArguments`: names and converted values in
      `params`, with `true` pushed for an option that has no value; an unassigned
      value throws. */
  method CollectParams(args: seq<string>) returns (r: Result<seq<Json>, ArgError>)
    ensures ParsePairs(args).Err? ==> r == Err(ParsePairs(args).error)
    ensures ParsePairs(args).Ok? ==> r == Ok(Flatten(ParsePairs(args).value))
  {
    var params: seq<Json> := [];
    var awaiting := false;
    ghost var done: Pairs := [];
    ghost var name := "";
    var i := 0;
    assert args[0..] == args;
    if ParsePairs(args).Ok? {
      assert [] + ParsePairs(args).value == ParsePairs(args).value;
    }
    while i < |args|
      invariant 0 <= i <= |args|
      invariant !awaiting ==> params == Flatten(done) && ParsePairs(args) == Prepend(done, ParsePairs(args[i..]))
      invariant awaiting ==> params == Flatten(done) + [Str(name)] && ParsePairs(args) == Prepend(done, Pending(name, args[i..]))
    {
      var t := args[i];
      assert args[i..][1..] == args[i + 1..];
      if |t| >= 2 && t[..2] == "--" {
        OptionThenPending(args[i..]);
        if awaiting {
          params := params + [Bool(true)];
          PrependCons(done, (name, Bool(true)), ParsePairs(args[i..]));
          FlattenSnoc(done, (name, Bool(true)));
          done := done + [(name, Bool(true))];
        }
        params := params + [Str(t[2..])];
        name := t[2..];
        awaiting := true;
      } else if awaiting {
        params := params + [Conv(t)];
        PrependCons(done, (name, Conv(t)), ParsePairs(args[i + 1..]));
        FlattenSnoc(done, (name, Conv(t)));
        done := done + [(name, Conv(t))];
        awaiting := false;
      } else {
        assert ParsePairs(args[i..]) == Err(Unassigned(t));
        assert ParsePairs(args).Err?;
        return Err(Unassigned(t));
      }
      i := i + 1;
    }
    assert args[i..] == [];
    if awaiting {
      params := params + [Bool(true)];
      PrependCons(done, (name, Bool(true)), Ok([]));
      FlattenSnoc(done, (name, Bool(true)));
      done := done + [(name, Bool(true))];
    }
    assert done + [] == done;
    assert ParsePairs(args) == Ok(done);
    assert params == Flatten(done);
    r := Ok(params);
  }

  /** The second pass: `phOptions[params[arg]] = params[arg + 1]` for every pair. */
  method SetOptions(params: seq<Json>, ghost ps: Pairs) returns (options: map<string, Json>)
    requires params == Flatten(ps)
    ensures options == Options(ps)
  {
    options := map[];
    var arg := 0;
    ghost var j := 0;
    while arg < |params|
      invariant 0 <= j <= |ps| && arg == 2 * j
      invariant options == Options(ps[..j])
    {
      FlattenAt(ps, j);
      assert ps[..j + 1][..j] == ps[..j];
      options := options[ToText(params[arg]) := params[arg + 1]];
      arg := arg + 2;
      j := j + 1;
    }
    assert ps[..j] == ps;
  }

  /** `parsePhantomJSArguments(args)`. */
  method ParseArguments(args: seq<string>) returns (r: Result<map<string, Json>, ArgError>)
    ensures ParsePairs(args).Err? ==> r == Err(ParsePairs(args).error)
    ensures ParsePairs(args).Ok? ==> r == Ok(Options(ParsePairs(args).value))
  {
    var params := CollectParams(args);
    if params.Err? {
      return Err(params.error);
    }
    var options := SetOptions(params.value, ParsePairs(args).value);
    r := Ok(options);
  }

  /** What `page.onCallback` does with a message from the browser: returns an
      answer, resolves or rejects the run, or returns nothing. */
  datatype Reply = Answer(reply: Json) | Resolved(message: string) | Rejected(message: string) | Silent

  /** The browser side reports the end of its test suite. */
  predicate Finishes(data: Json) {
    && Index(data, 0) == Ok(Str("testsuite"))
    && Index(data, 1).Ok?
    && Field(Index(data, 1).value, "state") == Ok(Str("finished"))
  }

  /** The messages the browser is answered for: a poll, or a testsuite message in
      state `started` or `nextTestcase`. */
  predicate Answered(data: Json) {
    || Index(data, 0) == Ok(Str("polling"))
    || (&& Index(data, 0) == Ok(Str("testsuite"))
        && Index(data, 1).Ok?
        && Field(Index(data, 1).value, "state") in {Ok(Str("started")), Ok(Str("nextTestcase"))})
  }

  /** `page.onCallback(data)`, switching on `data[0]`. Reading `data[0]` of
      `undefined` or `null`, or the state of a missing testsuite message, throws; an
      unknown state is logged by concatenating the message, which throws for a
      symbol. */
  function OnCallback(data: Json): (r: Result<Reply, TypeError>)
    ensures Index(data, 0) == Ok(Str("polling")) ==> r == Ok(Answer(Arr([Str("polling"), Num(404)])))
    ensures Index(data, 0) == Ok(Str("testsuite")) && Index(data, 1).Ok?
            && Field(Index(data, 1).value, "state") in {Ok(Str("started")), Ok(Str("nextTestcase"))}
            ==> r == Ok(Answer(Arr([Str("testsuite"), Str("ok")])))
    ensures r.Ok? && r.value.Answer? <==> Answered(data)
    ensures r.Ok? && (r.value.Resolved? || r.value.Rejected?) <==> Finishes(data)
    ensures r == Ok(Silent) <==> r.Ok? && !Answered(data) && !Finishes(data)
    ensures Finishes(data) ==> (r.Ok? && r.value.Resolved? <==> Truthy(Field(Index(data, 1).value, "success").value))
    ensures r.Err? <==> data == Undefined || data == Null
                        || (Index(data, 0) == Ok(Str("testsuite")) && (Index(data, 1) in {Ok(Undefined), Ok(Null)} || Index(data, 1).value.Sym?))
  {
    if data == Undefined || data == Null then Err(TypeError)
    else
      var kind := Index(data, 0).value;
      if kind == Str("polling") then Ok(Answer(Arr([Str("polling"), Num(404)])))
      else if kind == Str("testsuite") then
        var msg := Index(data, 1).value;
        if msg == Undefined || msg == Null then Err(TypeError)
        else
          var state := Field(msg, "state").value;
          if state == Str("started") || state == Str("nextTestcase") then Ok(Answer(Arr([Str("testsuite"), Str("ok")])))
          else if state == Str("finished") then
            if Truthy(Field(msg, "success").value) then Ok(Resolved("testsuite finished"))
            else Ok(Rejected("testsuite finished with error"))
          else if msg.Sym? then Err(TypeError)
          else Ok(Silent)
      else Ok(Silent)
  }

  /** The scripts injected before the user's, in this order: the library, then the
      browser-side files (as paths relative to the repository). */
  const FixedInjects: seq<Json> :=
    [Str("lib/events.js"), Str("lib/queue.js"), Str("lib/set.js"),
     Str("inbrowser/contentloaded.js"), Str("inbrowser/browser.js"),
     Str("inbrowser/bus.js"), Str("inbrowser/init.js")]

  /** `v.length` where the loop over `m.injectFiles` can read it: arrays and
      strings; elsewhere it is `undefined` and the loop does not run. */
  function Length(v: Json): nat {
    match v
    case Arr(items) => |items|
    case Str(s) => |s|
    case _ => 0
  }

  /** The elements `m.injectFiles[0]`, `m.injectFiles[1]`, … the loop pushes. */
  function Elements(v: Json): (r: seq<Json>)
    requires v != Undefined && v != Null
    ensures |r| == Length(v)
  {
    seq(Length(v), i requires 0 <= i < Length(v) => Index(v, i).value)
  }

  /** What `browserStart` passes on to phridge. */
  datatype Launch = Launch(url: Json, files: seq<Json>, testsuite: Json, options: map<string, Json>)

  datatype RunError = BadArgument(error: ArgError) | MissingUrl

  /** `browserStart(url, injectFiles, testsuite, options)`: an undefined URL throws;
      missing files become `[]` and a falsy test suite `{}`. */
  function BrowserStart(url: Json, files: Option<seq<Json>>, testsuite: Json, options: map<string, Json>): (r: Result<Launch, RunError>)
    ensures r.Err? <==> url == Undefined
    ensures r.Ok? ==> r.value.url == url && r.value.options == options
    ensures r.Ok? ==> r.value.files == (if files.Some? then files.value else [])
    ensures r.Ok? ==> r.value.testsuite == (if Truthy(testsuite) then testsuite else Obj([]))
  {
    if url == Undefined then Err(MissingUrl)
    else Ok(Launch(url, if files.Some? then files.value else [], if Truthy(testsuite) then testsuite else Obj([]), options))
  }

  /** The `process.on('message')` handler of the child, with the URL from the last
      `open` and, as intended, the inject list it built. */
  class PhantomChild {
    var url: Json
    var injectFiles: Option<seq<Json>>

    constructor ()
      ensures url == Str("") && injectFiles == None
    {
      url := Str("");
      injectFiles := None;
    }

    /** `{action: 'open', url, injectFiles}`: the inject list is the seven fixed
        files followed by the message's files, then the URL is stored. A `null`
        file list throws when its length is read, before the URL is stored. */
    method Open(msgUrl: Json, userFiles: Json) returns (r: Outcome<TypeError>)
      modifies this
      ensures r.Fail? <==> userFiles == Null
      ensures r.Fail? ==> url == old(url) && injectFiles == Some(FixedInjects)
      ensures r.Pass? ==> url == msgUrl
      ensures r.Pass? ==> injectFiles == Some(FixedInjects + (if userFiles == Undefined then [] else Elements(userFiles)))
    {
      var files := FixedInjects;
      injectFiles := Some(files);
      if userFiles == Null {
        return Fail(TypeError);
      }
      var i := 0;
      while userFiles != Undefined && i < Length(userFiles)
        invariant 0 <= i <= Length(userFiles)
        invariant userFiles == Undefined ==> i == 0
        invariant files == FixedInjects + (if userFiles == Undefined then [] else Elements(userFiles)[..i])
      {
        files := files + [Index(userFiles, i).value];
        assert Elements(userFiles)[..i + 1] == Elements(userFiles)[..i] + [Index(userFiles, i).value];
        i := i + 1;
      }
      if userFiles != Undefined {
        assert Elements(userFiles)[..i] == Elements(userFiles);
      }
      injectFiles := Some(files);
      url := msgUrl;
      r := Pass;
    }

    /** `{action: 'run', testsuite}` with the intended inject list: the settings are
        parsed from the command line after the script name, then the browser is
        started. */
    method Run(testsuite: Json, argv: seq<string>) returns (r: Result<Launch, RunError>)
      ensures ParsePairs(argv).Err? ==> r == Err(BadArgument(ParsePairs(argv).error))
      ensures ParsePairs(argv).Ok? ==> r == BrowserStart(url, injectFiles, testsuite, Options(ParsePairs(argv).value))
    {
      var options := ParseArguments(argv);
      if options.Err? {
        return Err(BadArgument(options.error));
      }
      r := BrowserStart(url, injectFiles, testsuite, options.value);
    }

    /** The handler as written: `injectFiles` is a local of each call, so the `run`
        call reads it before any assignment and starts the browser with no files. */
    method RunAsWritten(testsuite: Json, argv: seq<string>) returns (r: Result<Launch, RunError>)
      ensures ParsePairs(argv).Err? ==> r == Err(BadArgument(ParsePairs(argv).error))
      ensures ParsePairs(argv).Ok? ==> r == BrowserStart(url, None, testsuite, Options(ParsePairs(argv).value))
    {
      var options := ParseArguments(argv);
      if options.Err? {
        return Err(BadArgument(options.error));
      }
      var localFiles: Option<seq<Json>> := None;
      r := BrowserStart(url, localFiles, testsuite, options.value);
    }
  }

  /** After an `open` with a URL, the run as written injects nothing, not even the
      seven library files the browser side needs, where the intended run injects
      them first. */
  lemma InjectListLost(url: Json, userFiles: seq<Json>, testsuite: Json, options: map<string, Json>)
    requires url != Undefined
    ensures BrowserStart(url, None, testsuite, options).value.files == []
    ensures BrowserStart(url, Some(FixedInjects + userFiles), testsuite, options).value.files[..7] == FixedInjects
  {
  }
}
