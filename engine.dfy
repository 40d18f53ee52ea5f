/**
 * The `PowerSampling` class: its merged configuration, its language cache,
 * the prompt store it loads on first use and the backend it talks to. Each
 * method is proved to leave the engine in the state, and to return the
 * result, that the function of the same step in module `Sampling` gives.
 */
module Engine {
  import opened Outcomes
  import opened JsText
  import opened JsValues
  import opened Backend
  import opened Templates
  import opened Judge
  import opened Sections
  import opened Sampling

  class PowerSampling {
    /** `this.config`, merged once by the constructor. */
    const config: Settings
    /** The store `loadPrompts` installs: the prompts file as read, or the built-in set. */
    const source: PromptStore
    /** `this.detectedLanguage`; `""` is the `null` of a fresh engine. */
    var detectedLanguage: string
    /** `this.prompts`; `None` until the first `loadPrompts`. */
    var prompts: Option<PromptStore>
    /** The backend behind `callLLM`: the replies still to come and the requests sent. */
    var backend: Oracle

    /** The fields a step reads and writes, as the value the functions of `Sampling` take. */
    function State(): (s: EngineState)
      reads this
    {
      EngineState(detectedLanguage, prompts, backend)
    }

    /** A new engine: the configuration merged, no language cached, no store loaded. */
    constructor(overrides: Overrides, promptFile: Option<PromptStore>, backend: Oracle)
      ensures config == Configure(overrides) && source == Loaded(promptFile)
      ensures State() == EngineState("", None, backend)
    {
      config := Configure(overrides);
      source := Loaded(promptFile);
      detectedLanguage := "";
      prompts := None;
      this.backend := backend;
    }

    /** `callLLM(messages, { n, temperature })`: one request, one reply consumed. */
    method CallLLM(messages: seq<Message>, n: Num, temperature: Option<real>) returns (r: Result<Choices>)
      modifies this
      ensures (r, backend) == Call(old(backend), messages, n, temperature)
      ensures detectedLanguage == old(detectedLanguage) && prompts == old(prompts)
    {
      var (response, next) := Call(backend, messages, n, temperature);
      backend := next;
      r := response;
    }

    /** `detectLanguage(prompt)`: the cached language, or one detection call whose outcome is cached. */
    method DetectLanguage(prompt: string) returns (language: string)
      modifies this
      ensures (language, State()) == Detect(config, old(State()), prompt)
    {
      if detectedLanguage != "" {
        return detectedLanguage;
      }
      var response := CallLLM(DetectRequest(prompt), Int(1), Some(0.0));
      detectedLanguage := if response.Ok? then DetectedCode(response.value[0]) else FallbackLanguage(config);
      language := detectedLanguage;
    }

    /** `loadPrompts()`: installs the store the first time, keeps it afterwards. */
    method LoadPrompts()
      modifies this
      ensures State() == Sampling.LoadPrompts(source, old(State()))
    {
      if prompts.None? {
        prompts := Some(source);
      }
    }

    /**
     * `loadPromptTemplate(key, language, variables)`: the entry's text for the
     * language, `{{language}}` replaced by its display name, then each
     * variable's placeholders replaced in turn.
     */
    method LoadPromptTemplate(key: string, language: string, variables: seq<Binding>) returns (r: Result<string>)
      ensures r == PromptText(prompts, key, language, variables)
    {
      if prompts.None? {
        return Err(PromptsNull(key));
      }
      var store := prompts.value;
      if !Present(store, key) {
        return Err(PromptNotFound(key));
      }
      var template := Resolve(store[key], language);
      if template.Err? {
        return Err(template.error);
      }
      var result := ReplaceAll(template.value, Placeholder("language"), LanguageName(language));
      ghost var named := result;
      var i := 0;
      while i < |variables|
        invariant 0 <= i <= |variables|
        invariant Fill(result, variables[i..]) == Fill(named, variables)
      {
        assert variables[i..][1..] == variables[i + 1..];
        result := ReplaceAll(result, Placeholder(variables[i].0), variables[i].1);
        i := i + 1;
      }
      assert variables[i..] == [];
      r := Ok(result);
    }

    /** `multiSampleConsensus(baseMessages, options)`: `k` candidates, then the judge's choice among them. */
    method MultiSampleConsensus(base: seq<Message>, opts: Options) returns (r: Result<ConsensusResult>)
      modifies this
      ensures Traced(r, State()) == Consensus(config, source, old(State()), base, opts)
    {
      var k := Or(opts.k, config.k);
      var temperature := TemperatureOr(opts.temperature, config.temperature.sample);
      var language := LanguageOf(opts.language, detectedLanguage);
      var response := CallLLM(base, k, Some(temperature));
      if response.Err? {
        return Err(response.error);
      }
      var candidates := response.value;
      LoadPrompts();
      var judgePrompt := LoadPromptTemplate("judge", language, [("k", NumToString(k)), ("candidates", CandidatesText(candidates))]);
      if judgePrompt.Err? {
        return Err(judgePrompt.error);
      }
      var judgeSystem := LoadPromptTemplate("judge_system", language, []);
      if judgeSystem.Err? {
        return Err(judgeSystem.error);
      }
      var judgeResponse := CallLLM(Prompted(judgeSystem.value, judgePrompt.value), Int(1), Some(config.temperature.judge));
      if judgeResponse.Err? {
        return Err(judgeResponse.error);
      }
      var judge := judgeResponse.value[0];
      r := Ok(ConsensusResult(candidates[JudgeIndex(judge, |candidates|)], candidates, judge));
    }

    /** `annotateAndRewrite(draft, options)`: mark weak spans, and rewrite them when there are any. */
    method AnnotateAndRewrite(draft: string, opts: Options) returns (r: Result<Refined>)
      modifies this
      ensures Traced(r, State()) == Refine(config, source, old(State()), draft, opts)
    {
      ghost var spec := Refine(config, source, State(), draft, opts);
      var temperature := TemperatureOr(opts.temperature, config.temperature.rewrite);
      var language := LanguageOf(opts.language, detectedLanguage);
      LoadPrompts();
      ghost var st1 := State();
      var markPrompt := LoadPromptTemplate("mark", language, [("draft", draft)]);
      if markPrompt.Err? {
        assert spec == Traced(Err(markPrompt.error), st1);
        return Err(markPrompt.error);
      }
      var markSystem := LoadPromptTemplate("annotator_system", language, []);
      if markSystem.Err? {
        assert spec == Traced(Err(markSystem.error), st1);
        return Err(markSystem.error);
      }
      var markResponse := CallLLM(Prompted(markSystem.value, markPrompt.value), Int(1), Some(temperature));
      ghost var st2 := State();
      assert st2 == st1.(backend := Call(st1.backend, Prompted(markSystem.value, markPrompt.value), Int(1), Some(temperature)).1);
      if markResponse.Err? {
        assert spec == Traced(Err(markResponse.error), st2);
        return Err(markResponse.error);
      }
      var annotated := markResponse.value[0];
      if !Contains(annotated, WeakTag) {
        assert spec == Traced(Ok(Refined(draft, annotated, Some(NoWeakNote(language)))), st2);
        return Ok(Refined(draft, annotated, Some(NoWeakNote(language))));
      }
      assert spec == Rewrite(st2, language, annotated, temperature);
      var rewritePrompt := LoadPromptTemplate("rewrite", language, [("annotated", annotated)]);
      if rewritePrompt.Err? {
        return Err(rewritePrompt.error);
      }
      var rewriteSystem := LoadPromptTemplate("rewriter_system", language, []);
      if rewriteSystem.Err? {
        return Err(rewriteSystem.error);
      }
      var rewriteResponse := CallLLM(Prompted(rewriteSystem.value, rewritePrompt.value), Int(1), Some(temperature * 0.9));
      if rewriteResponse.Err? {
        return Err(rewriteResponse.error);
      }
      r := Ok(Refined(rewriteResponse.value[0], annotated, None));
    }

    /**
     * `blockwisePowerSampling(baseMessages, options)`: a consensus, then
     * `steps` rounds of continuing the text and refining it. The loop keeps
     * the spec's remaining rounds from the current state equal to the whole.
     */
    method BlockwisePowerSampling(base: seq<Message>, opts: Options) returns (r: Result<string>)
      modifies this
      ensures Traced(r, State()) == Blockwise(config, source, old(State()), base, opts)
    {
      ghost var spec := Blockwise(config, source, State(), base, opts);
      var steps := Or(opts.steps, config.steps);
      var blockTokens := Or(opts.blockTokens, config.blockTokens);
      var k := Or(opts.k, config.k);
      var language := LanguageOf(opts.language, detectedLanguage);
      LoadPrompts();
      var consensus := MultiSampleConsensus(base, NoOptions.(k := k, language := Str(language)));
      if consensus.Err? {
        return Err(consensus.error);
      }
      var current := consensus.value.best;
      var n := RoundCount(steps);
      assert spec == Rounds(config, source, State(), base, language, blockTokens, current, n);
      var t := 0;
      while t < n
        invariant 0 <= t <= n && prompts.Some?
        invariant spec == Rounds(config, source, State(), base, language, blockTokens, current, n - t)
      {
        var next := ContinueBlock(base, language, blockTokens, current);
        if next.Err? {
          return Err(next.error);
        }
        current := next.value;
        t := t + 1;
      }
      r := Ok(current);
    }

    /**
     * One pass of the loop body of `blockwisePowerSampling`: continue the
     * text at 0.9 times the sampling temperature, append the continuation
     * after a line break, and refine the result.
     */
    method ContinueBlock(base: seq<Message>, language: string, blockTokens: Num, current: string) returns (r: Result<string>)
      requires prompts.Some?
      modifies this
      ensures Traced(r, State()) == Round(config, source, old(State()), base, language, blockTokens, current)
    {
      var draft := ContinueText(base, language, blockTokens, current);
      if draft.Err? {
        return Err(draft.error);
      }
      var refined := AnnotateAndRewrite(draft.value, NoOptions.(language := Str(language)));
      if refined.Err? {
        return Err(refined.error);
      }
      r := Ok(refined.value.final);
    }

    /** The continuation request of a round, and the text with the continuation appended. */
    method ContinueText(base: seq<Message>, language: string, blockTokens: Num, current: string) returns (r: Result<string>)
      requires prompts.Some?
      modifies this
      ensures Traced(r, State()) == Continued(config, old(State()), base, language, blockTokens, current)
    {
      ghost var spec := Continued(config, State(), base, language, blockTokens, current);
      var continuePrompt := LoadPromptTemplate("continue", language, [("blockTokens", NumToString(blockTokens))]);
      if continuePrompt.Err? {
        return Err(continuePrompt.error);
      }
      ghost var request := ContinueRequest(base, current, continuePrompt.value);
      ghost var call := Call(backend, request, Int(1), Some(config.temperature.sample * 0.9));
      var continued := CallLLM(ContinueRequest(base, current, continuePrompt.value), Int(1), Some(config.temperature.sample * 0.9));
      assert (continued, backend) == call;
      if continued.Err? {
        assert spec == Traced(Err(continued.error), State());
        return Err(continued.error);
      }
      assert spec == Traced(Ok(current + "\n" + continued.value[0]), State());
      r := Ok(current + "\n" + continued.value[0]);
    }

    /** `solverAgent(question, reasoning, language)`: one call at temperature 0, its reply trimmed. */
    method SolverAgent(question: string, reasoning: string, language: string) returns (r: Result<string>)
      modifies this
      ensures Traced(r, State()) == Solver(source, old(State()), question, reasoning, language)
    {
      LoadPrompts();
      var solverPrompt := LoadPromptTemplate("solver", language, [("question", question), ("reasoning", reasoning)]);
      if solverPrompt.Err? {
        return Err(solverPrompt.error);
      }
      var solverSystem := LoadPromptTemplate("solver_system", language, []);
      if solverSystem.Err? {
        return Err(solverSystem.error);
      }
      var response := CallLLM(Prompted(solverSystem.value, solverPrompt.value), Int(1), Some(0.0));
      if response.Err? {
        return Err(response.error);
      }
      r := Ok(Trim(response.value[0]));
    }

    /**
     * `run(prompt, options)`: detect the language, build the system prompt
     * (a failure there is thrown), then run the mode; a failure inside the
     * mode is returned as `success: false`.
     */
    method Run(prompt: string, opts: Options) returns (r: RunOutcome)
      modifies this
      ensures (r, State()) == Sampling.Run(config, source, old(State()), prompt, opts)
    {
      var mode := ModeOf(opts);
      var language := DetectLanguage(prompt);
      LoadPrompts();
      var systemPrompt: string;
      if TruthyValue(opts.systemPrompt) {
        systemPrompt := opts.systemPrompt.s;
      } else {
        var loaded := LoadPromptTemplate("system_default", language, []);
        if loaded.Err? {
          return Thrown(loaded.error);
        }
        systemPrompt := loaded.value;
      }
      var base := Prompted(systemPrompt, prompt);
      var withLanguage := opts.(language := Str(language));
      ghost var dispatched := Dispatch(config, source, State(), prompt, language, mode, base, withLanguage);
      var result: Result<Payload>;
      if mode == ModeMultiSample {
        var consensus := MultiSampleConsensus(base, withLanguage);
        result := if consensus.Ok? then Ok(MultiSample(consensus.value.best, consensus.value.all, consensus.value.judge))
                  else Err(consensus.error);
      } else if mode == ModeAnnotate {
        var initial := CallLLM(base, Int(1), None);
        if initial.Err? {
          result := Err(initial.error);
        } else {
          var rewrite := AnnotateAndRewrite(initial.value[0], withLanguage);
          result := if rewrite.Ok? then Ok(Annotation(rewrite.value.final, rewrite.value.annotated, rewrite.value.notes))
                    else Err(rewrite.error);
        }
      } else {
        var final := BlockwisePowerSampling(base, withLanguage);
        if final.Err? {
          result := Err(final.error);
        } else {
          var parsed := ParseReasoningSolution(final.value);
          var solution := SolverAgent(prompt, if parsed.reasoning != "" then parsed.reasoning else final.value, language);
          result := if solution.Ok? then Ok(Full(final.value, parsed.reasoning, solution.value))
                    else Err(solution.error);
        }
      }
      assert dispatched == Traced(result, State());
      r := match result
        case Err(e) => Returned(Failed(e))
        case Ok(payload) => Returned(Succeeded(payload, Metadata(mode, language, Or(opts.k, config.k), Or(opts.steps, config.steps), config.model)));
    }
  }
}
