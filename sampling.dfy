/**
 * The engine's behaviour as functions of its settings, the prompt store it
 * installs on first use, and its state (the cached language, the loaded
 * store and the backend script). Every step returns its result together with the state after it,
 * so the calls it made and the replies it consumed can be stated.
 */
module Sampling {
  import opened Outcomes
  import opened JsText
  import opened JsValues
  import opened Backend
  import opened Templates
  import opened Judge
  import opened Sections

  datatype Temperatures = Temperatures(sample: real, rewrite: real, judge: real)

  const DefaultTemperatures: Temperatures := Temperatures(0.9, 0.6, 0.0)

  /** The keys of the object given to the constructor; `None` is a key that is not there. */
  datatype Overrides = Overrides(
    model: Option<Value>,
    k: Option<Num>,
    steps: Option<Num>,
    blockTokens: Option<Num>,
    temperature: Option<Temperatures>,
    defaultLanguage: Option<Value>)

  /** The engine's `config` after the constructor has merged the defaults. */
  datatype Settings = Settings(
    model: Value,
    k: Num,
    steps: Num,
    blockTokens: Num,
    temperature: Temperatures,
    defaultLanguage: Value)

  function Given<T>(key: Option<T>, default: T): T {
    if key.Some? then key.value else default
  }

  /**
   * The constructor's merge: the defaults, then every key of the given
   * object spread over them, so a key that is there wins even when it is
   * falsy; the defaults themselves are truthy.
   */
  function Configure(o: Overrides): (s: Settings)
    ensures o.k.Some? ==> s.k == o.k.value
    ensures o.steps.Some? ==> s.steps == o.steps.value
    ensures o.blockTokens.Some? ==> s.blockTokens == o.blockTokens.value
    ensures o.model.Some? ==> s.model == o.model.value
    ensures o.temperature.Some? ==> s.temperature == o.temperature.value
    ensures o.k.None? ==> Truthy(s.k)
    ensures o.steps.None? ==> Truthy(s.steps)
    ensures o.blockTokens.None? ==> Truthy(s.blockTokens)
    ensures o.model.None? ==> TruthyValue(s.model)
    ensures o.defaultLanguage.None? ==> !TruthyValue(s.defaultLanguage)
  {
    Settings(
      Given(o.model, Str("gpt-4o-mini")),
      Given(o.k, Int(3)),
      Given(o.steps, Int(2)),
      Given(o.blockTokens, Int(200)),
      Given(o.temperature, DefaultTemperatures),
      Given(o.defaultLanguage, Undefined))
  }

  /** The options object a caller passes to `run` and the steps; absent keys are `Undefined`, `Undef` or `None`. */
  datatype Options = Options(
    mode: Value,
    k: Num,
    steps: Num,
    blockTokens: Num,
    temperature: Option<real>,
    language: Value,
    systemPrompt: Value)

  const NoOptions: Options := Options(Undefined, Undef, Undef, Undef, None, Undefined, Undefined)

  /** `options.temperature || fallback`: a zero temperature counts as absent. */
  function TemperatureOr(t: Option<real>, fallback: real): real {
    if t.Some? && t.value != 0.0 then t.value else fallback
  }

  /** `options.language || this.detectedLanguage || 'en'` (a cache of `""` is the `null` of a fresh engine). */
  function LanguageOf(option: Value, detected: string): (l: string)
    ensures l != ""
    ensures TruthyValue(option) ==> l == option.s
    ensures !TruthyValue(option) && detected != "" ==> l == detected
  {
    if TruthyValue(option) then option.s else if detected != "" then detected else "en"
  }

  /** The instance fields a run reads and writes: the language cache, the loaded store and the backend. */
  datatype EngineState = EngineState(language: string, prompts: Option<PromptStore>, backend: Oracle)

  /** A step's result and the state after it (also after a failure: the calls made so far stay made). */
  datatype Traced<T> = Traced(result: Result<T>, state: EngineState)

  /** The store `loadPrompts` installs: the prompts file when it can be read, the built-in set otherwise. */
  function Loaded(file: Option<PromptStore>): PromptStore {
    if file.Some? then file.value else FallbackPrompts
  }

  /**
   * `loadPrompts`, given the store it would install (`Loaded` of the prompts
   * file): the store is installed once, and a loaded store is kept.
   */
  function LoadPrompts(source: PromptStore, st: EngineState): (r: EngineState)
    ensures r.prompts.Some?
    ensures st.prompts.Some? ==> r == st
    ensures st.prompts.None? ==> r.prompts == Some(source)
    ensures r.language == st.language && r.backend == st.backend
  {
    if st.prompts.Some? then st else st.(prompts := Some(source))
  }

  /** `loadPromptTemplate(key, language, variables)` against the engine's current store. */
  function PromptText(prompts: Option<PromptStore>, key: string, language: string, variables: seq<Binding>): (r: Result<string>)
    ensures prompts.None? ==> r == Err(PromptsNull(key))
    ensures prompts.Some? ==> r == Render(prompts.value, key, language, variables)
  {
    if prompts.None? then Err(PromptsNull(key)) else Render(prompts.value, key, language, variables)
  }

  const DetectInstruction: string :=
    "Detect the language of the user message. Reply with ONLY the ISO 639-1 code (2 letters): it, en, es, de, zh, fr, ru. Nothing else."

  /** The request that asks the backend for the language of a prompt. */
  function DetectRequest(prompt: string): seq<Message> {
    [Message(System, DetectInstruction), Message(User, Prefix(prompt, 200))]
  }

  /** The code read from the detector's reply: trimmed, lower-cased, cut to two characters, and `en` when not a known code. */
  function DetectedCode(reply: string): (code: string)
    ensures code in Codes
    ensures Prefix(Lower(Trim(reply)), 2) in Codes ==> code == Prefix(Lower(Trim(reply)), 2)
    ensures Prefix(Lower(Trim(reply)), 2) !in Codes ==> code == "en"
  {
    var c := Prefix(Lower(Trim(reply)), 2);
    if c in Codes then c else "en"
  }

  /** The language used when detection fails: `config.defaultLanguage || 'en'`. */
  function FallbackLanguage(cfg: Settings): (l: string)
    ensures l != ""
  {
    if TruthyValue(cfg.defaultLanguage) then cfg.defaultLanguage.s else "en"
  }

  /**
   * `detectLanguage(prompt)`: a cached language is returned without a call;
   * otherwise one request with the first 200 characters is sent at
   * temperature 0, and the result (a known code, `en` for anything else, or
   * the default language when the call fails) is cached.
   */
  function Detect(cfg: Settings, st: EngineState, prompt: string): (r: (string, EngineState))
    ensures r.0 != "" && r.1.language == r.0
    ensures r.1.prompts == st.prompts
    ensures st.language != "" ==> r == (st.language, st)
    ensures st.language == "" ==>
      r.1.backend == Call(st.backend, DetectRequest(prompt), Int(1), Some(0.0)).1
    ensures st.language == "" && st.backend.replies != [] && st.backend.replies[0].Texts? ==>
      r.0 == DetectedCode(st.backend.replies[0].choices[0])
    ensures st.language == "" && !(st.backend.replies != [] && st.backend.replies[0].Texts?) ==>
      r.0 == FallbackLanguage(cfg)
  {
    if st.language != "" then (st.language, st)
    else
      var (res, backend) := Call(st.backend, DetectRequest(prompt), Int(1), Some(0.0));
      var language := if res.Ok? then DetectedCode(res.value[0]) else FallbackLanguage(cfg);
      (language, st.(language := language, backend := backend))
  }

  /** `multiSampleConsensus`'s result: the chosen candidate, every candidate in order, and the judge's reply. */
  datatype ConsensusResult = ConsensusResult(best: string, all: seq<string>, judge: string)

  /** The two messages of a prompted step: its system prompt and its user prompt. */
  function Prompted(system: string, user: string): seq<Message> {
    [Message(System, system), Message(User, user)]
  }

  /**
   * `multiSampleConsensus(baseMessages, options)`: one call for `k`
   * candidates; then the judge, shown the candidates as `C1`..`Ck`, is asked
   * once at the judge temperature, and its verdict picks the candidate.
   */
  function Consensus(cfg: Settings, source: PromptStore, st: EngineState, base: seq<Message>, opts: Options): (r: Traced<ConsensusResult>)
    ensures st.prompts.Some? ==> r.state.prompts == st.prompts
    ensures r.state.language == st.language
    ensures r.result.Ok? ==>
      st.backend.replies != [] && st.backend.replies[0].Texts? &&
      r.result.value.all == st.backend.replies[0].choices &&
      r.result.value.best in r.result.value.all &&
      r.result.value.best == r.result.value.all[JudgeIndex(r.result.value.judge, |r.result.value.all|)]
    ensures r.result.Ok? ==>
      |st.backend.replies| >= 2 && st.backend.replies[1].Texts? &&
      r.result.value.judge == st.backend.replies[1].choices[0] &&
      r.state.backend.replies == st.backend.replies[2..]
    ensures r.result.Ok? ==>
      |r.state.backend.sent| == |st.backend.sent| + 2 &&
      r.state.backend.sent[|st.backend.sent|] == Request(base, Or(Or(opts.k, cfg.k), Int(1)), TemperatureOr(opts.temperature, cfg.temperature.sample))
    ensures r.result.Ok? ==>
      var language := LanguageOf(opts.language, st.language);
      var judgePrompt := PromptText(LoadPrompts(source, st).prompts, "judge", language,
                                    [("k", NumToString(Or(opts.k, cfg.k))), ("candidates", CandidatesText(r.result.value.all))]);
      var judgeSystem := PromptText(LoadPrompts(source, st).prompts, "judge_system", language, []);
      judgePrompt.Ok? && judgeSystem.Ok? &&
      r.state.backend.sent[|st.backend.sent| + 1] == Request(Prompted(judgeSystem.value, judgePrompt.value), Int(1), cfg.temperature.judge)
  {
    var k := Or(opts.k, cfg.k);
    var language := LanguageOf(opts.language, st.language);
    var (generated, backend) := Call(st.backend, base, k, Some(TemperatureOr(opts.temperature, cfg.temperature.sample)));
    var st1 := st.(backend := backend);
    if generated.Err? then Traced(Err(generated.error), st1)
    else
      var candidates := generated.value;
      var st2 := LoadPrompts(source, st1);
      var judgePrompt := PromptText(st2.prompts, "judge", language, [("k", NumToString(k)), ("candidates", CandidatesText(candidates))]);
      var judgeSystem := PromptText(st2.prompts, "judge_system", language, []);
      if judgePrompt.Err? then Traced(Err(judgePrompt.error), st2)
      else if judgeSystem.Err? then Traced(Err(judgeSystem.error), st2)
      else
        var (verdict, backend') := Call(st2.backend, Prompted(judgeSystem.value, judgePrompt.value), Int(1), Some(cfg.temperature.judge));
        var st3 := st2.(backend := backend');
        if verdict.Err? then Traced(Err(verdict.error), st3)
        else
          var judge := verdict.value[0];
          Traced(Ok(ConsensusResult(candidates[JudgeIndex(judge, |candidates|)], candidates, judge)), st3)
  }

  const WeakTag: string := "<weak>"


  const EnglishNote: string := "No weak spans identified."

  /** The note returned when nothing is marked weak, in the language, or in English for any other one. */
  function NoWeakNote(language: string): (note: string)
    ensures note != ""
    ensures language !in Codes ==> note == EnglishNote
    ensures language in Codes && language != "en" ==> note != EnglishNote
  {
    match language
    case "it" => "Nessuno span debole identificato."
    case "es" => "No se identificaron tramos débiles."
    case "de" => "Keine schwachen Abschnitte identifiziert."
    case "zh" => "未发现薄弱部分。"
    case "fr" => "Aucun passage faible identifié."
    case "ru" => "Слабых участков не обнаружено."
    case _ => EnglishNote
  }

  /** `annotateAndRewrite`'s result; `notes` is there only when nothing was rewritten. */
  datatype Refined = Refined(final: string, annotated: string, notes: Option<string>)

  /**
   * `annotateAndRewrite(draft, options)`: the annotator marks weak spans; an
   * annotation without `<weak>` leaves the draft as it is and makes no
   * further call, otherwise the rewriter is asked at 0.9 times the
   * temperature and its reply is the new text.
   */
  function Refine(cfg: Settings, source: PromptStore, st: EngineState, draft: string, opts: Options): (r: Traced<Refined>)
    ensures r.state.language == st.language && r.state.prompts == LoadPrompts(source, st).prompts
    ensures r.result.Ok? ==>
      st.backend.replies != [] && st.backend.replies[0].Texts? &&
      r.result.value.annotated == st.backend.replies[0].choices[0]
    ensures r.result.Ok? && !Contains(r.result.value.annotated, WeakTag) ==>
      r.result.value.final == draft &&
      r.result.value.notes == Some(NoWeakNote(LanguageOf(opts.language, st.language))) &&
      r.state.backend.replies == st.backend.replies[1..] &&
      |r.state.backend.sent| == |st.backend.sent| + 1
    ensures r.result.Ok? && Contains(r.result.value.annotated, WeakTag) ==>
      |st.backend.replies| >= 2 && st.backend.replies[1].Texts? &&
      r.result.value.final == st.backend.replies[1].choices[0] &&
      r.result.value.notes == None &&
      r.state.backend.replies == st.backend.replies[2..] &&
      |r.state.backend.sent| == |st.backend.sent| + 2 &&
      r.state.backend.sent[|st.backend.sent| + 1].temperature == TemperatureOr(opts.temperature, cfg.temperature.rewrite) * 0.9
  {
    var temperature := TemperatureOr(opts.temperature, cfg.temperature.rewrite);
    var language := LanguageOf(opts.language, st.language);
    var st1 := LoadPrompts(source, st);
    var markPrompt := PromptText(st1.prompts, "mark", language, [("draft", draft)]);
    var markSystem := PromptText(st1.prompts, "annotator_system", language, []);
    if markPrompt.Err? then Traced(Err(markPrompt.error), st1)
    else if markSystem.Err? then Traced(Err(markSystem.error), st1)
    else
      var (marked, backend) := Call(st1.backend, Prompted(markSystem.value, markPrompt.value), Int(1), Some(temperature));
      var st2 := st1.(backend := backend);
      if marked.Err? then Traced(Err(marked.error), st2)
      else
        var annotated := marked.value[0];
        if !Contains(annotated, WeakTag) then
          Traced(Ok(Refined(draft, annotated, Some(NoWeakNote(language)))), st2)
        else Rewrite(st2, language, annotated, temperature)
  }

  /** The rewrite phase of `annotateAndRewrite`: one call at 0.9 times the temperature, whose reply is the final text. */
  function Rewrite(st: EngineState, language: string, annotated: string, temperature: real): (r: Traced<Refined>)
    ensures r.state.language == st.language && r.state.prompts == st.prompts
    ensures r.result.Ok? ==>
      st.backend.replies != [] && st.backend.replies[0].Texts? &&
      r.result.value == Refined(st.backend.replies[0].choices[0], annotated, None) &&
      r.state.backend.replies == st.backend.replies[1..] &&
      |r.state.backend.sent| == |st.backend.sent| + 1 &&
      r.state.backend.sent[|st.backend.sent|].temperature == temperature * 0.9
    ensures PromptText(st.prompts, "rewrite", language, [("annotated", annotated)]).Err? ==> r.result.Err? && r.state == st
  {
    var rewritePrompt := PromptText(st.prompts, "rewrite", language, [("annotated", annotated)]);
    var rewriteSystem := PromptText(st.prompts, "rewriter_system", language, []);
    if rewritePrompt.Err? then Traced(Err(rewritePrompt.error), st)
    else if rewriteSystem.Err? then Traced(Err(rewriteSystem.error), st)
    else
      var (rewritten, backend) := Call(st.backend, Prompted(rewriteSystem.value, rewritePrompt.value), Int(1), Some(temperature * 0.9));
      var st1 := st.(backend := backend);
      if rewritten.Err? then Traced(Err(rewritten.error), st1)
      else Traced(Ok(Refined(rewritten.value[0], annotated, None)), st1)
  }

  /** How many times `for (let t = 0; t < steps; t++)` runs: a positive integer's value, otherwise none. */
  function RoundCount(steps: Num): (n: nat)
    ensures Truthy(steps) && steps.i > 0 ==> n == steps.i
    ensures !(steps.Int? && steps.i > 0) ==> n == 0
  {
    if steps.Int? && steps.i > 0 then steps.i else 0
  }

  /** The conversation that asks for a continuation of `current`. */
  function ContinueRequest(base: seq<Message>, current: string, continuePrompt: string): seq<Message> {
    base + [Message(Assistant, current), Message(User, continuePrompt)]
  }

  /**
   * The first half of a round: the backend continues the text at 0.9 times
   * the sampling temperature, and the continuation is appended after a line
   * break.
   */
  function Continued(cfg: Settings, st: EngineState, base: seq<Message>, language: string, blockTokens: Num, current: string): (r: Traced<string>)
    requires st.prompts.Some?
    ensures r.state.language == st.language && r.state.prompts == st.prompts
    ensures r.result.Ok? ==>
      st.backend.replies != [] && st.backend.replies[0].Texts? &&
      r.result.value == current + "\n" + st.backend.replies[0].choices[0] &&
      r.state.backend.replies == st.backend.replies[1..] &&
      |r.state.backend.sent| == |st.backend.sent| + 1
    ensures PromptText(st.prompts, "continue", language, [("blockTokens", NumToString(blockTokens))]).Err? ==>
      r.result.Err? && r.state == st
  {
    var continuePrompt := PromptText(st.prompts, "continue", language, [("blockTokens", NumToString(blockTokens))]);
    if continuePrompt.Err? then Traced(Err(continuePrompt.error), st)
    else
      var (continued, backend) := Call(st.backend, ContinueRequest(base, current, continuePrompt.value), Int(1), Some(cfg.temperature.sample * 0.9));
      var st1 := st.(backend := backend);
      if continued.Err? then Traced(Err(continued.error), st1)
      else Traced(Ok(current + "\n" + continued.value[0]), st1)
  }

  /** One round of the blockwise loop: the continued text, and the refiner's text in its place. */
  function Round(cfg: Settings, source: PromptStore, st: EngineState, base: seq<Message>, language: string, blockTokens: Num, current: string): (r: Traced<string>)
    requires st.prompts.Some?
    ensures r.state.language == st.language && r.state.prompts == st.prompts
    ensures r.result.Ok? ==>
      2 <= |st.backend.replies| - |r.state.backend.replies| <= 3 &&
      r.state.backend.replies == st.backend.replies[|st.backend.replies| - |r.state.backend.replies|..] &&
      |r.state.backend.sent| - |st.backend.sent| == |st.backend.replies| - |r.state.backend.replies|
  {
    var draft := Continued(cfg, st, base, language, blockTokens, current);
    if draft.result.Err? then Traced(Err(draft.result.error), draft.state)
    else
      var refined := Refine(cfg, source, draft.state, draft.result.value, NoOptions.(language := Str(language)));
      match refined.result
      case Err(e) => Traced(Err(e), refined.state)
      case Ok(x) => Traced(Ok(x.final), refined.state)
  }

  /** `n` rounds from `current`, stopping at the first failure. */
  function Rounds(cfg: Settings, source: PromptStore, st: EngineState, base: seq<Message>, language: string, blockTokens: Num, current: string, n: nat): (r: Traced<string>)
    requires st.prompts.Some?
    ensures r.state.language == st.language && r.state.prompts == st.prompts
    ensures r.result.Ok? ==>
      2 * n <= |st.backend.replies| - |r.state.backend.replies| <= 3 * n &&
      r.state.backend.replies == st.backend.replies[|st.backend.replies| - |r.state.backend.replies|..] &&
      |r.state.backend.sent| - |st.backend.sent| == |st.backend.replies| - |r.state.backend.replies|
    decreases n
  {
    if n == 0 then Traced(Ok(current), st)
    else
      var first := Round(cfg, source, st, base, language, blockTokens, current);
      if first.result.Err? then first
      else Rounds(cfg, source, first.state, base, language, blockTokens, first.result.value, n - 1)
  }

  /**
   * `blockwisePowerSampling(baseMessages, options)`: one consensus with the
   * resolved `k` and language at the sampling temperature, then `steps`
   * rounds starting from the chosen candidate.
   */
  function Blockwise(cfg: Settings, source: PromptStore, st: EngineState, base: seq<Message>, opts: Options): (r: Traced<string>)
    ensures st.prompts.Some? ==> r.state.prompts == st.prompts
    ensures r.state.language == st.language
    ensures r.result.Ok? ==> |st.backend.replies| - |r.state.backend.replies| >= 2 + 2 * RoundCount(Or(opts.steps, cfg.steps))
  {
    var language := LanguageOf(opts.language, st.language);
    var st1 := LoadPrompts(source, st);
    var consensus := Consensus(cfg, source, st1, base, NoOptions.(k := Or(opts.k, cfg.k), language := Str(language)));
    match consensus.result
    case Err(e) => Traced(Err(e), consensus.state)
    case Ok(c) =>
      Rounds(cfg, source, consensus.state, base, language, Or(opts.blockTokens, cfg.blockTokens), c.best, RoundCount(Or(opts.steps, cfg.steps)))
  }

  /**
   * `solverAgent(question, reasoning, language)`: one deterministic call
   * (temperature 0) whose first reply, trimmed, is the solution.
   */
  function Solver(source: PromptStore, st: EngineState, question: string, reasoning: string, language: string): (r: Traced<string>)
    ensures st.prompts.Some? ==> r.state.prompts == st.prompts
    ensures r.state.language == st.language
    ensures r.result.Ok? ==>
      st.backend.replies != [] && st.backend.replies[0].Texts? &&
      r.result.value == Trim(st.backend.replies[0].choices[0]) &&
      r.state.backend.replies == st.backend.replies[1..] &&
      |r.state.backend.sent| == |st.backend.sent| + 1 &&
      r.state.backend.sent[|st.backend.sent|].temperature == 0.0
    ensures r.result.Ok? ==>
      var solverPrompt := PromptText(LoadPrompts(source, st).prompts, "solver", language, [("question", question), ("reasoning", reasoning)]);
      var solverSystem := PromptText(LoadPrompts(source, st).prompts, "solver_system", language, []);
      solverPrompt.Ok? && solverSystem.Ok? &&
      r.state.backend.sent[|st.backend.sent|].messages == Prompted(solverSystem.value, solverPrompt.value)
  {
    var st1 := LoadPrompts(source, st);
    var solverPrompt := PromptText(st1.prompts, "solver", language, [("question", question), ("reasoning", reasoning)]);
    var solverSystem := PromptText(st1.prompts, "solver_system", language, []);
    if solverPrompt.Err? then Traced(Err(solverPrompt.error), st1)
    else if solverSystem.Err? then Traced(Err(solverSystem.error), st1)
    else
      var (solved, backend) := Call(st1.backend, Prompted(solverSystem.value, solverPrompt.value), Int(1), Some(0.0));
      var st2 := st1.(backend := backend);
      if solved.Err? then Traced(Err(solved.error), st2)
      else Traced(Ok(Trim(solved.value[0])), st2)
  }

  /** What a successful run returns under `result`, one shape per mode. */
  datatype Payload =
    | MultiSample(text: string, candidates: seq<string>, judge: string)
    | Annotation(text: string, annotated: string, notes: Option<string>)
    | Full(text: string, reasoning: string, solution: string)

  /** The `metadata` of a successful run (its elapsed time is not modelled). */
  datatype Metadata = Metadata(mode: string, language: string, k: Num, steps: Num, model: Value)

  /** The object `run` resolves to: `success: true` with a result, or `success: false` with the error (whose message is `Message`). */
  datatype RunResult = Succeeded(payload: Payload, metadata: Metadata) | Failed(error: Failure)

  /** `run` either resolves to a result or rejects (when the system prompt cannot be built). */
  datatype RunOutcome = Returned(value: RunResult) | Thrown(error: Failure)

  const ModeMultiSample: string := "multi-sample"
  const ModeAnnotate: string := "annotate"
  const ModeFull: string := "full"

  /** The `multi-sample` case of `run`: the consensus, reported as its chosen text, its candidates and its verdict. */
  function MultiSampleMode(cfg: Settings, source: PromptStore, st: EngineState, base: seq<Message>, opts: Options): (r: Traced<Payload>)
    ensures st.prompts.Some? ==> r.state.prompts == st.prompts
    ensures r.state.language == st.language
    ensures r.result.Ok? ==> r.result.value.MultiSample? && r.result.value.text in r.result.value.candidates
  {
    var c := Consensus(cfg, source, st, base, opts);
    match c.result
    case Err(e) => Traced(Err(e), c.state)
    case Ok(x) => Traced(Ok(MultiSample(x.best, x.all, x.judge)), c.state)
  }

  /** The `annotate` case of `run`: one draft at the backend's default temperature, then the refiner on it. */
  function AnnotateMode(cfg: Settings, source: PromptStore, st: EngineState, base: seq<Message>, opts: Options): (r: Traced<Payload>)
    ensures st.prompts.Some? ==> r.state.prompts == st.prompts
    ensures r.state.language == st.language
    ensures r.result.Ok? ==> r.result.value.Annotation?
  {
    var (initial, backend) := Call(st.backend, base, Int(1), None);
    var st1 := st.(backend := backend);
    if initial.Err? then Traced(Err(initial.error), st1)
    else
      var refined := Refine(cfg, source, st1, initial.value[0], opts);
      match refined.result
      case Err(e) => Traced(Err(e), refined.state)
      case Ok(x) => Traced(Ok(Annotation(x.final, x.annotated, x.notes)), refined.state)
  }

  /**
   * The `full` case of `run`: the blockwise loop, then the solver on the
   * reasoning section of its text (or on the whole text when that section
   * is empty).
   */
  function FullMode(cfg: Settings, source: PromptStore, st: EngineState, prompt: string, language: string, base: seq<Message>, opts: Options): (r: Traced<Payload>)
    ensures st.prompts.Some? ==> r.state.prompts == st.prompts
    ensures r.state.language == st.language
    ensures r.result.Ok? ==> r.result.value.Full?
  {
    var blockwise := Blockwise(cfg, source, st, base, opts);
    match blockwise.result
    case Err(e) => Traced(Err(e), blockwise.state)
    case Ok(final) =>
      var parsed := ParseReasoningSolution(final);
      var solved := Solver(source, blockwise.state, prompt, if parsed.reasoning != "" then parsed.reasoning else final, language);
      match solved.result
      case Err(e) => Traced(Err(e), solved.state)
      case Ok(solution) => Traced(Ok(Full(final, parsed.reasoning, solution)), solved.state)
  }

  /** The `switch (mode)` of `run`: `multi-sample`, `annotate`, and every other mode running the full pipeline. */
  function Dispatch(cfg: Settings, source: PromptStore, st: EngineState, prompt: string, language: string, mode: string, base: seq<Message>, opts: Options): (r: Traced<Payload>)
    ensures st.prompts.Some? ==> r.state.prompts == st.prompts
    ensures r.state.language == st.language
    ensures r.result.Ok? ==> (r.result.value.MultiSample? <==> mode == ModeMultiSample)
    ensures r.result.Ok? ==> (r.result.value.Annotation? <==> mode == ModeAnnotate)
  {
    if mode == ModeMultiSample then MultiSampleMode(cfg, source, st, base, opts)
    else if mode == ModeAnnotate then AnnotateMode(cfg, source, st, base, opts)
    else FullMode(cfg, source, st, prompt, language, base, opts)
  }

  /** `options.mode || 'full'`. */
  function ModeOf(opts: Options): (mode: string)
    ensures mode != ""
  {
    if TruthyValue(opts.mode) then opts.mode.s else ModeFull
  }

  /**
   * `run(prompt, options)`: detect the language, load the store, build the
   * system prompt (a failure there rejects), then dispatch on the mode with
   * the detected language; a failure of the dispatch is returned as
   * `success: false`, never thrown.
   */
  function Run(cfg: Settings, source: PromptStore, st: EngineState, prompt: string, opts: Options): (r: (RunOutcome, EngineState))
    ensures r.1.prompts == LoadPrompts(source, st).prompts
    ensures r.0.Thrown? ==> !TruthyValue(opts.systemPrompt)
    ensures r.0.Returned? && r.0.value.Succeeded? ==>
      r.0.value.metadata.mode == ModeOf(opts) &&
      r.0.value.metadata.language == r.1.language &&
      r.0.value.metadata.k == Or(opts.k, cfg.k) &&
      r.0.value.metadata.steps == Or(opts.steps, cfg.steps) &&
      r.0.value.metadata.model == cfg.model
    ensures r.0.Returned? && r.0.value.Succeeded? ==>
      (r.0.value.payload.MultiSample? <==> ModeOf(opts) == ModeMultiSample) &&
      (r.0.value.payload.Annotation? <==> ModeOf(opts) == ModeAnnotate)
  {
    var mode := ModeOf(opts);
    var (language, st1) := Detect(cfg, st, prompt);
    var st2 := LoadPrompts(source, st1);
    var systemPrompt := if TruthyValue(opts.systemPrompt) then Ok(opts.systemPrompt.s)
                        else PromptText(st2.prompts, "system_default", language, []);
    if systemPrompt.Err? then (Thrown(systemPrompt.error), st2)
    else
      var base := Prompted(systemPrompt.value, prompt);
      var dispatched := Dispatch(cfg, source, st2, prompt, language, mode, base, opts.(language := Str(language)));
      match dispatched.result
      case Err(e) => (Returned(Failed(e)), dispatched.state)
      case Ok(payload) =>
        (Returned(Succeeded(payload, Metadata(mode, language, Or(opts.k, cfg.k), Or(opts.steps, cfg.steps), cfg.model))), dispatched.state)
  }
}
