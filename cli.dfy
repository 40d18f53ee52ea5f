/**
 * The command line: `parseArgs` reads the prompt and the flags from the
 * argument list, and `main` turns the outcome into an exit status. Printing,
 * the help text and the process itself are not modelled; the exit status is
 * returned.
 */
module Cli {
  import opened Outcomes
  import opened JsValues
  import opened Backend
  import opened Templates
  import opened Sampling
  import Engine

  /**
   * The `options` object `parseArgs` fills. A key no flag assigned is `None`;
   * `--mode` or `--model` as the last token assigns `undefined`, which is a
   * present key. `--verbose` and `--json` only ever assign `true`.
   */
  datatype CliOptions = CliOptions(
    k: Option<Num>,
    steps: Option<Num>,
    mode: Option<Value>,
    model: Option<Value>,
    verbose: bool,
    jsonOutput: bool)

  const NoCliOptions: CliOptions := CliOptions(None, None, None, None, false, false)

  /** What `parseArgs` ends in: the help text (and exit 0), or the prompt and the options. */
  datatype Parsed = Help | Invocation(prompt: string, options: CliOptions)

  /** `args[j]`, which is `undefined` past the end. */
  function Arg(args: seq<string>, j: nat): (v: Value)
    ensures j < |args| <==> v.Str?
    ensures j < |args| ==> v.s == args[j]
  {
    if j < |args| then Str(args[j]) else Undefined
  }

  /** The cases of the `switch`; every other token is `Unknown`. */
  datatype Flag = K | Steps | Mode | Model | Verbose | Json | Unknown

  /** Which case of the `switch` a token selects. */
  function FlagOf(token: string): Flag {
    match token
    case "--k" => K
    case "--steps" => Steps
    case "--mode" => Mode
    case "--model" => Model
    case "--verbose" => Verbose
    case "--json" => Json
    case _ => Unknown
  }

  /** The flags that take no value. */
  predicate IsBooleanFlag(token: string) {
    FlagOf(token) == Verbose || FlagOf(token) == Json
  }

  /** Where the loop reads its next flag after the one at `i`: `i += 2`, after an `i--` for a flag without a value. */
  function Next(args: seq<string>, i: nat): (j: nat)
    requires i < |args|
    ensures j == i + 1 || j == i + 2
    ensures j == i + 1 <==> IsBooleanFlag(args[i])
  {
    if IsBooleanFlag(args[i]) then i + 1 else i + 2
  }

  /** One case of the `switch`: the flag at `i` and the token after it as its value; an unknown flag changes nothing. */
  function Apply(o: CliOptions, args: seq<string>, i: nat): CliOptions
    requires i < |args|
  {
    var value := Arg(args, i + 1);
    match FlagOf(args[i])
    case K => o.(k := Some(ParseInt(value)))
    case Steps => o.(steps := Some(ParseInt(value)))
    case Mode => o.(mode := Some(value))
    case Model => o.(model := Some(value))
    case Verbose => o.(verbose := true)
    case Json => o.(jsonOutput := true)
    case Unknown => o
  }

  /** The flag loop from position `i` with the options `o` built so far. */
  function Scan(args: seq<string>, i: nat, o: CliOptions): (r: CliOptions)
    ensures i >= |args| ==> r == o
    ensures o.verbose ==> r.verbose
    ensures o.jsonOutput ==> r.jsonOutput
    ensures o.k.Some? ==> r.k.Some?
    ensures o.steps.Some? ==> r.steps.Some?
    ensures o.mode.Some? ==> r.mode.Some?
    ensures o.model.Some? ==> r.model.Some?
    decreases |args| - i
  {
    if i < |args| then Scan(args, Next(args, i), Apply(o, args, i)) else o
  }

  /** `parseArgs()` on `process.argv.slice(2)`. */
  function Parse(args: seq<string>): (p: Parsed)
    ensures p.Help? <==> |args| == 0 || "--help" in args || "-h" in args
    ensures p.Invocation? ==> p.prompt == args[0]
  {
    if |args| == 0 || "--help" in args || "-h" in args then Help
    else Invocation(args[0], Scan(args, 1, NoCliOptions))
  }

  /** `parseArgs()`: the help check, then the `for` loop over the flags with its `i--` for flags without a value. */
  method ParseArgs(args: seq<string>) returns (p: Parsed)
    ensures p == Parse(args)
  {
    if |args| == 0 || "--help" in args || "-h" in args {
      return Help;
    }
    var prompt := args[0];
    var options := NoCliOptions;
    var i := 1;
    while i < |args|
      invariant 1 <= i
      invariant Scan(args, i, options) == Scan(args, 1, NoCliOptions)
      decreases |args| - i
    {
      ghost var next, applied := Next(args, i), Apply(options, args, i);
      var value := if i + 1 < |args| then Str(args[i + 1]) else Undefined;
      match FlagOf(args[i]) {
        case K =>
          options := options.(k := Some(ParseInt(value)));
        case Steps =>
          options := options.(steps := Some(ParseInt(value)));
        case Mode =>
          options := options.(mode := Some(value));
        case Model =>
          options := options.(model := Some(value));
        case Verbose =>
          options := options.(verbose := true);
          i := i - 1;
        case Json =>
          options := options.(jsonOutput := true);
          i := i - 1;
        case Unknown =>
      }
      i := i + 2;
      assert i == next && options == applied;
    }
    p := Invocation(prompt, options);
  }

  /**
   * The positions the loop reads as flags, from `i` on: each is a token of
   * the list, and each is one past the previous after a flag without a
   * value and two past it otherwise.
   */
  function Visits(args: seq<string>, i: nat): (ps: seq<nat>)
    ensures forall j :: 0 <= j < |ps| ==> i <= ps[j] < |args|
    ensures i < |args| <==> ps != []
    ensures ps != [] ==> ps[0] == i && Next(args, ps[|ps| - 1]) >= |args|
    ensures forall j :: 0 <= j < |ps| - 1 ==> ps[j + 1] == Next(args, ps[j])
    decreases |args| - i
  {
    if i < |args| then [i] + Visits(args, Next(args, i)) else []
  }

  /** The value after the last of the positions `ps` that holds `flag`. */
  function LastValue(args: seq<string>, ps: seq<nat>, flag: Flag): Option<Value>
    requires forall j :: 0 <= j < |ps| ==> ps[j] < |args|
  {
    if ps == [] then None
    else if FlagOf(args[ps[|ps| - 1]]) == flag then Some(Arg(args, ps[|ps| - 1] + 1))
    else LastValue(args, ps[..|ps| - 1], flag)
  }

  /** One of the positions `ps` holds `flag`. */
  predicate Seen(args: seq<string>, ps: seq<nat>, flag: Flag)
    requires forall j :: 0 <= j < |ps| ==> ps[j] < |args|
  {
    exists j :: 0 <= j < |ps| && FlagOf(args[ps[j]]) == flag
  }

  function Later<T>(given: Option<T>, before: Option<T>): Option<T> {
    if given.Some? then given else before
  }

  function ParsedNumber(v: Option<Value>): Option<Num> {
    if v.Some? then Some(ParseInt(v.value)) else None
  }

  /** The options as the last occurrence of each flag among the visited positions sets them, over `o`. */
  function Overlay(o: CliOptions, args: seq<string>, ps: seq<nat>): CliOptions
    requires forall j :: 0 <= j < |ps| ==> ps[j] < |args|
  {
    CliOptions(
      Later(ParsedNumber(LastValue(args, ps, K)), o.k),
      Later(ParsedNumber(LastValue(args, ps, Steps)), o.steps),
      Later(LastValue(args, ps, Mode), o.mode),
      Later(LastValue(args, ps, Model), o.model),
      o.verbose || Seen(args, ps, Verbose),
      o.jsonOutput || Seen(args, ps, Json))
  }

  /** A position in front of the others is overridden by any later occurrence of its flag. */
  lemma {:induction false} LastValueFront(args: seq<string>, p: nat, ps: seq<nat>, flag: Flag)
    requires p < |args| && forall j :: 0 <= j < |ps| ==> ps[j] < |args|
    ensures LastValue(args, [p] + ps, flag)
         == Later(LastValue(args, ps, flag), if FlagOf(args[p]) == flag then Some(Arg(args, p + 1)) else None)
    decreases |ps|
  {
    if ps != [] {
      assert ([p] + ps)[..|ps|] == [p] + ps[..|ps| - 1];
      LastValueFront(args, p, ps[..|ps| - 1], flag);
    }
  }

  lemma SeenFront(args: seq<string>, p: nat, ps: seq<nat>, flag: Flag)
    requires p < |args| && forall j :: 0 <= j < |ps| ==> ps[j] < |args|
    ensures Seen(args, [p] + ps, flag) <==> FlagOf(args[p]) == flag || Seen(args, ps, flag)
  {
    if Seen(args, ps, flag) {
      var j :| 0 <= j < |ps| && FlagOf(args[ps[j]]) == flag;
      assert ([p] + ps)[j + 1] == ps[j];
    }
    if FlagOf(args[p]) == flag {
      assert ([p] + ps)[0] == p;
    }
    if Seen(args, [p] + ps, flag) && FlagOf(args[p]) != flag {
      var j :| 0 <= j < |ps| + 1 && FlagOf(args[([p] + ps)[j]]) == flag;
      assert j > 0 && ps[j - 1] == ([p] + ps)[j];
      assert FlagOf(args[ps[j - 1]]) == flag;
    }
  }

  /** Applying the flag at `p` and then the later ones is overlaying all of them. */
  lemma OverlayFront(o: CliOptions, args: seq<string>, p: nat, ps: seq<nat>)
    requires p < |args| && forall j :: 0 <= j < |ps| ==> ps[j] < |args|
    ensures Overlay(Apply(o, args, p), args, ps) == Overlay(o, args, [p] + ps)
  {
    LastValueFront(args, p, ps, K);
    LastValueFront(args, p, ps, Steps);
    LastValueFront(args, p, ps, Mode);
    LastValueFront(args, p, ps, Model);
    SeenFront(args, p, ps, Verbose);
    SeenFront(args, p, ps, Json);
  }

  /**
   * The loop's options are the declarative ones: every flag takes the value
   * after its last visited occurrence (the last one wins), a flag without a
   * value is on once it occurs, and a flag that never occurs keeps its
   * earlier setting.
   */
  lemma {:induction false} ScanIsLastOccurrence(args: seq<string>, i: nat, o: CliOptions)
    ensures Scan(args, i, o) == Overlay(o, args, Visits(args, i))
    decreases |args| - i
  {
    if i < |args| {
      var rest := Visits(args, Next(args, i));
      ScanIsLastOccurrence(args, Next(args, i), Apply(o, args, i));
      OverlayFront(o, args, i, rest);
    }
  }

  /** `parseArgs` as the last occurrence of each flag, with flags read from position 1 on (the prompt is never a flag). */
  lemma ParseIsLastOccurrence(args: seq<string>)
    requires Parse(args).Invocation?
    ensures Parse(args).prompt == args[0]
    ensures Parse(args).options == Overlay(NoCliOptions, args, Visits(args, 1))
    ensures forall j :: 0 <= j < |Visits(args, 1)| ==> 1 <= Visits(args, 1)[j]
  {
    ScanIsLastOccurrence(args, 1, NoCliOptions);
  }

  /** An unknown token in flag position is skipped together with the token after it, which is never read as a flag. */
  lemma UnknownFlagSkipsNext(args: seq<string>, i: nat, o: CliOptions)
    requires i < |args| && FlagOf(args[i]) == Unknown
    ensures Scan(args, i, o) == Scan(args, i + 2, o)
  {
  }

  /** `--k` followed by a rendered integer gives that integer back, as `parseInt` reads it. */
  lemma KRoundTrip(prompt: string, n: int)
    requires prompt != "--help" && prompt != "-h"
    ensures Parse([prompt, "--k", NumToString(Int(n))]) == Invocation(prompt, NoCliOptions.(k := Some(Int(n))))
  {
    var args := [prompt, "--k", NumToString(Int(n))];
    var digits := NumToString(Int(n));
    assert |digits| >= 2 && digits[0] == '-' ==> IsDigit(digits[1]);
    assert digits != "--help" && digits != "-h" by {
      if n < 0 {
        assert digits == "-" + NatToString(-n);
        assert digits[1] == NatToString(-n)[0];
      } else {
        assert IsDigit(digits[0]);
      }
    }
    assert "--help" !in args && "-h" !in args;
    assert Scan(args, 3, NoCliOptions.(k := Some(ParseInt(Str(digits))))) == NoCliOptions.(k := Some(ParseInt(Str(digits))));
    ParseIntOfNumToString(n);
  }

  /** `{ ...config, ...options }`: the options' keys, where present, replace the configuration file's. */
  function Merge(file: Overrides, o: CliOptions): (r: Overrides)
    ensures r.blockTokens == file.blockTokens && r.temperature == file.temperature
    ensures r.defaultLanguage == file.defaultLanguage
  {
    file.(k := Later(o.k, file.k), steps := Later(o.steps, file.steps), model := Later(o.model, file.model))
  }

  /** What the engine is configured with: a flag given on the command line wins over the file, and the file otherwise. */
  lemma MergeOverrides(file: Overrides, o: CliOptions)
    ensures o.k.Some? ==> Configure(Merge(file, o)).k == o.k.value
    ensures o.steps.Some? ==> Configure(Merge(file, o)).steps == o.steps.value
    ensures o.model.Some? ==> Configure(Merge(file, o)).model == o.model.value
    ensures o.k.None? ==> Configure(Merge(file, o)).k == Configure(file).k
    ensures o.steps.None? ==> Configure(Merge(file, o)).steps == Configure(file).steps
    ensures o.model.None? ==> Configure(Merge(file, o)).model == Configure(file).model
    ensures Configure(Merge(file, o)).temperature == Configure(file).temperature
  {
  }

  /** The options object as `run` reads it: `mode`, `k` and `steps`, each absent when no flag set it. */
  function RunOptions(o: CliOptions): (r: Options)
    ensures r.language == Undefined && r.systemPrompt == Undefined && r.temperature == None
    ensures r.blockTokens == Undef
  {
    NoOptions.(mode := if o.mode.Some? then o.mode.value else Undefined,
               k := if o.k.Some? then o.k.value else Undef,
               steps := if o.steps.Some? then o.steps.value else Undef)
  }

  /**
   * `main()`'s exit status: 0 after the help text; 1 for an empty prompt;
   * otherwise the engine is built from the merged configuration and run, and
   * the status is 0 for `success: true` and 1 for `success: false` or a
   * rejected run.
   */
  function ExitStatus(args: seq<string>, file: Overrides, promptFile: Option<PromptStore>, backend: Oracle): (status: nat)
    ensures status <= 1
  {
    match Parse(args)
    case Help => 0
    case Invocation(prompt, o) =>
      if prompt == "" then 1
      else
        var outcome := Sampling.Run(Configure(Merge(file, o)), Loaded(promptFile), EngineState("", None, backend), prompt, RunOptions(o)).0;
        if outcome.Returned? && outcome.value.Succeeded? then 0 else 1
  }

  /** `main()`: parse, stop on help or an empty prompt, then build the engine and run it. */
  method Execute(args: seq<string>, file: Overrides, promptFile: Option<PromptStore>, backend: Oracle) returns (status: nat)
    ensures status == ExitStatus(args, file, promptFile, backend)
  {
    var parsed := ParseArgs(args);
    if parsed.Help? {
      return 0;
    }
    if parsed.prompt == "" {
      return 1;
    }
    var ps := new Engine.PowerSampling(Merge(file, parsed.options), promptFile, backend);
    var outcome := ps.Run(parsed.prompt, RunOptions(parsed.options));
    if outcome.Returned? && outcome.value.Succeeded? {
      status := 0;
    } else {
      status := 1;
    }
  }

  /** Asking for help exits with 0 before anything is parsed or sent, whatever else the list holds. */
  lemma HelpExitsZero(args: seq<string>, file: Overrides, promptFile: Option<PromptStore>, backend: Oracle)
    requires |args| == 0 || "--help" in args || "-h" in args
    ensures Parse(args) == Help
    ensures ExitStatus(args, file, promptFile, backend) == 0
  {
  }

  /** An empty prompt exits with 1, whatever the flags and the backend. */
  lemma EmptyPromptExitsOne(args: seq<string>, file: Overrides, promptFile: Option<PromptStore>, backend: Oracle)
    requires |args| > 0 && args[0] == "" && "--help" !in args && "-h" !in args
    ensures ExitStatus(args, file, promptFile, backend) == 1
  {
  }

  /** A run that resolves to `success: false`, or that rejects, exits with 1; only `success: true` exits with 0. */
  lemma ExitZeroOnlyOnSuccess(args: seq<string>, file: Overrides, promptFile: Option<PromptStore>, backend: Oracle)
    requires Parse(args).Invocation?
    ensures ExitStatus(args, file, promptFile, backend) == 0 <==>
      Parse(args).prompt != "" &&
      var o := Parse(args).options;
      var outcome := Sampling.Run(Configure(Merge(file, o)), Loaded(promptFile), EngineState("", None, backend), Parse(args).prompt, RunOptions(o)).0;
      outcome.Returned? && outcome.value.Succeeded?
  {
  }
}
