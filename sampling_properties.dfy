/**
 * Properties of the engine that relate several steps or several calls:
 * the language cache, the consensus choice, the refiner's fixed point, the
 * blockwise loop without weak spans, the mode dispatch and the built-in
 * prompt set.
 */
module SamplingProperties {
  import opened Outcomes
  import opened JsText
  import opened JsValues
  import opened Backend
  import opened Templates
  import opened Judge
  import opened Sections
  import opened Sampling

  /** A detected language is cached: detecting again, for any prompt, neither calls the backend nor changes it. */
  lemma DetectOnce(cfg: Settings, st: EngineState, first: string, second: string)
    ensures Detect(cfg, Detect(cfg, st, first).1, second) == Detect(cfg, st, first)
  {
  }

  /** A known code in the reply, with white space around it, is the detected language. */
  lemma DetectedCodeOfPadded(w: string, code: string, w': string)
    requires AllSpace(w) && AllSpace(w') && code in Codes
    ensures DetectedCode(w + code + w') == code
  {
    assert |code| == 2 && 'a' <= code[0] <= 'z' && 'a' <= code[1] <= 'z';
    assert IsTrimmed(code);
    TrimPadded(w, code, w');
    assert Lower(code) == code;
  }

  /** A reply that is not one of the seven codes gives `en`, even when a default language is configured. */
  lemma UnknownCodeIsEnglish(cfg: Settings, st: EngineState, prompt: string, reply: string, rest: seq<Reply>)
    requires st.language == "" && st.backend.replies == [Texts([reply])] + rest
    requires Prefix(Lower(Trim(reply)), 2) !in Codes
    ensures Detect(cfg, st, prompt).0 == "en"
  {
  }

  /** A judge reply without any verdict keyword selects the first candidate. */
  lemma ConsensusWithoutVerdict(cfg: Settings, source: PromptStore, st: EngineState, base: seq<Message>, opts: Options, c: ConsensusResult)
    requires Consensus(cfg, source, st, base, opts).result == Ok(c)
    requires forall q, i :: 0 <= i < |BestKeywords| ==> !MatchAt(c.judge, q, BestKeywords[i], true)
    ensures c.best == c.all[0] == st.backend.replies[0].choices[0]
  {
    NoKeywordPicksFirst(c.judge, |c.all|);
  }

  /** A judge reply `BEST: C<n>` selects candidate `n` when it exists, the last one when `n` is too large, and the first for `C0`. */
  lemma ConsensusFollowsVerdict(cfg: Settings, source: PromptStore, st: EngineState, base: seq<Message>, opts: Options, c: ConsensusResult, n: nat, rest: string)
    requires rest == [] || !IsDigit(rest[0])
    requires Consensus(cfg, source, st, base, opts).result == Ok(c) && c.judge == Verdict(n, rest)
    ensures c.best == c.all[Clamp(n - 1, |c.all|)]
  {
    VerdictRoundTrip(n, rest, |c.all|);
  }

  /** The entry for `key` exists and resolves in `language`, so rendering it cannot fail. */
  predicate Renders(store: PromptStore, key: string, language: string) {
    Present(store, key) && Resolve(store[key], language).Ok?
  }

  /** The three templates a round needs when nothing is marked weak. */
  predicate RoundTemplates(store: PromptStore, language: string) {
    Renders(store, "continue", language) && Renders(store, "mark", language) && Renders(store, "annotator_system", language)
  }

  /** The refiner's fixed point: an annotation without `<weak>` gives back the draft and consumes one reply. */
  lemma RefineNoWeak(cfg: Settings, source: PromptStore, st: EngineState, draft: string, opts: Options, annotated: string, rest: seq<Reply>)
    requires st.prompts.Some? && Renders(st.prompts.value, "mark", LanguageOf(opts.language, st.language))
    requires Renders(st.prompts.value, "annotator_system", LanguageOf(opts.language, st.language))
    requires st.backend.replies == [Texts([annotated])] + rest && !Contains(annotated, WeakTag)
    ensures Refine(cfg, source, st, draft, opts).result
         == Ok(Refined(draft, annotated, Some(NoWeakNote(LanguageOf(opts.language, st.language)))))
    ensures Refine(cfg, source, st, draft, opts).state.backend.replies == rest
  {
  }

  /** The refiner fails before any call when the annotator's templates cannot be rendered. */
  lemma RefineNeedsTemplates(cfg: Settings, source: PromptStore, st: EngineState, draft: string, opts: Options)
    requires
      var prompts := LoadPrompts(source, st).prompts;
      var language := LanguageOf(opts.language, st.language);
      PromptText(prompts, "mark", language, [("draft", draft)]).Err? ||
      PromptText(prompts, "annotator_system", language, []).Err?
    ensures Refine(cfg, source, st, draft, opts).result.Err?
    ensures Refine(cfg, source, st, draft, opts).state.backend == st.backend
  {
  }

  /** A round whose `continue` template cannot be rendered fails before sending anything. */
  lemma RoundNeedsContinue(cfg: Settings, source: PromptStore, st: EngineState, base: seq<Message>, language: string, blockTokens: Num, current: string)
    requires st.prompts.Some?
    requires PromptText(st.prompts, "continue", language, [("blockTokens", NumToString(blockTokens))]).Err?
    ensures Round(cfg, source, st, base, language, blockTokens, current).result.Err?
    ensures Round(cfg, source, st, base, language, blockTokens, current).state == st
  {
  }

  /**
   * The continuation request: the base conversation, the text so far as the
   * assistant's turn and the rendered `continue` prompt as the user's, one
   * choice at 0.9 times the sampling temperature.
   */
  lemma ContinuedRequest(cfg: Settings, st: EngineState, base: seq<Message>, language: string, blockTokens: Num, current: string)
    requires st.prompts.Some?
    requires Continued(cfg, st, base, language, blockTokens, current).result.Ok?
    ensures var continuePrompt := PromptText(st.prompts, "continue", language, [("blockTokens", NumToString(blockTokens))]);
      continuePrompt.Ok? &&
      Continued(cfg, st, base, language, blockTokens, current).state.backend.sent[|st.backend.sent|]
        == Request(ContinueRequest(base, current, continuePrompt.value), Int(1), cfg.temperature.sample * 0.9)
  {
  }

  /**
   * A round's text: the continuation appended to the text after a line break
   * when the annotation has no `<weak>`, otherwise the rewriter's reply.
   */
  lemma RoundText(cfg: Settings, source: PromptStore, st: EngineState, base: seq<Message>, language: string, blockTokens: Num, current: string)
    requires st.prompts.Some?
    requires Round(cfg, source, st, base, language, blockTokens, current).result.Ok?
    ensures var replies := st.backend.replies;
      var r := Round(cfg, source, st, base, language, blockTokens, current);
      |replies| >= 2 && replies[0].Texts? && replies[1].Texts? &&
      (!Contains(replies[1].choices[0], WeakTag) ==> r.result.value == current + "\n" + replies[0].choices[0]) &&
      (Contains(replies[1].choices[0], WeakTag) ==>
        |replies| >= 3 && replies[2].Texts? && r.result.value == replies[2].choices[0])
  {
  }

  /**
   * A script for `n` rounds without weak spans: each round's continuation
   * and annotation are texts, and no annotation contains `<weak>`.
   */
  predicate NoWeakScript(replies: seq<Reply>, n: nat)
    decreases n
  {
    |replies| >= 2 * n &&
    (n == 0 || (replies[0].Texts? && replies[1].Texts? && !Contains(replies[1].choices[0], WeakTag)
     && NoWeakScript(replies[2..], n - 1)))
  }

  /** The text `n` rounds reach when nothing is rewritten: each continuation appended after a line break. */
  function Appended(current: string, replies: seq<Reply>, n: nat): string
    requires NoWeakScript(replies, n)
    decreases n
  {
    if n == 0 then current
    else Appended(current + "\n" + replies[0].choices[0], replies[2..], n - 1)
  }

  /** A round whose annotation has no `<weak>` only appends `"\n"` and the continuation. */
  lemma RoundNoWeak(cfg: Settings, source: PromptStore, st: EngineState, base: seq<Message>, language: string, blockTokens: Num, current: string)
    requires language != "" && st.prompts.Some? && RoundTemplates(st.prompts.value, language)
    requires NoWeakScript(st.backend.replies, 1)
    ensures Round(cfg, source, st, base, language, blockTokens, current).result
         == Ok(current + "\n" + st.backend.replies[0].choices[0])
    ensures Round(cfg, source, st, base, language, blockTokens, current).state.backend.replies == st.backend.replies[2..]
  {
    var replies := st.backend.replies;
    var (continued, backend) := Call(st.backend, ContinueRequest(base, current, PromptText(st.prompts, "continue", language, [("blockTokens", NumToString(blockTokens))]).value), Int(1), Some(cfg.temperature.sample * 0.9));
    var st1 := st.(backend := backend);
    assert replies[1].Texts? && !Contains(replies[1].choices[0], WeakTag);
    assert st1.backend.replies == replies[1..];
    RefineNoWeakAt(cfg, source, st1, current + "\n" + replies[0].choices[0], NoOptions.(language := Str(language)));
  }

  /** The refiner's fixed point, stated on the first reply of any script. */
  lemma RefineNoWeakAt(cfg: Settings, source: PromptStore, st: EngineState, draft: string, opts: Options)
    requires st.prompts.Some? && Renders(st.prompts.value, "mark", LanguageOf(opts.language, st.language))
    requires Renders(st.prompts.value, "annotator_system", LanguageOf(opts.language, st.language))
    requires st.backend.replies != [] && st.backend.replies[0].Texts? && !Contains(st.backend.replies[0].choices[0], WeakTag)
    ensures Refine(cfg, source, st, draft, opts).result.Ok?
    ensures Refine(cfg, source, st, draft, opts).result.value.final == draft
    ensures Refine(cfg, source, st, draft, opts).state.backend.replies == st.backend.replies[1..]
  {
  }

  /** After a successful first round, `n` rounds are the remaining `n - 1` from where it left off. */
  lemma RoundsAfterFirst(cfg: Settings, source: PromptStore, st: EngineState, base: seq<Message>, language: string, blockTokens: Num, current: string, n: nat)
    requires st.prompts.Some? && n > 0
    requires Round(cfg, source, st, base, language, blockTokens, current).result.Ok?
    ensures Rounds(cfg, source, st, base, language, blockTokens, current, n)
         == Rounds(cfg, source, Round(cfg, source, st, base, language, blockTokens, current).state, base, language, blockTokens,
                   Round(cfg, source, st, base, language, blockTokens, current).result.value, n - 1)
  {
  }

  /** Without weak spans the first round's text is the current one and the first continuation. */
  lemma AppendedStep(current: string, replies: seq<Reply>, n: nat)
    requires n > 0 && NoWeakScript(replies, n)
    ensures NoWeakScript(replies[2..], n - 1)
    ensures Appended(current, replies, n) == Appended(current + "\n" + replies[0].choices[0], replies[2..], n - 1)
  {
  }

  /** Dropping one round's two replies and then the other rounds' is dropping all of them. */
  lemma DropRounds(replies: seq<Reply>, n: nat)
    requires n > 0 && |replies| >= 2 * n
    ensures replies[2..][2 * (n - 1)..] == replies[2 * n..]
  {
  }

  /**
   * The blockwise loop without weak spans: `n` rounds consume exactly `2n`
   * replies and produce the starting text followed by every continuation,
   * each after a line break.
   */
  lemma {:induction false} RoundsNoWeak(cfg: Settings, source: PromptStore, st: EngineState, base: seq<Message>, language: string, blockTokens: Num, current: string, n: nat)
    requires language != "" && st.prompts.Some? && RoundTemplates(st.prompts.value, language)
    requires NoWeakScript(st.backend.replies, n)
    ensures Rounds(cfg, source, st, base, language, blockTokens, current, n).result
         == Ok(Appended(current, st.backend.replies, n))
    ensures Rounds(cfg, source, st, base, language, blockTokens, current, n).state.backend.replies
         == st.backend.replies[2 * n..]
    decreases n
  {
    var replies := st.backend.replies;
    if n > 0 {
      var m: nat := n - 1;
      AppendedStep(current, replies, n);
      RoundNoWeak(cfg, source, st, base, language, blockTokens, current);
      var first := Round(cfg, source, st, base, language, blockTokens, current);
      RoundsNoWeak(cfg, source, first.state, base, language, blockTokens, first.result.value, m);
      RoundsAfterFirst(cfg, source, st, base, language, blockTokens, current, n);
      DropRounds(replies, n);
    } else {
      assert replies[0..] == replies;
    }
  }

  /** The consensus the blockwise loop starts from: the resolved `k` and language, on the loaded store. */
  function BlockwiseConsensus(cfg: Settings, source: PromptStore, st: EngineState, base: seq<Message>, opts: Options): Traced<ConsensusResult> {
    Consensus(cfg, source, LoadPrompts(source, st), base,
              NoOptions.(k := Or(opts.k, cfg.k), language := Str(LanguageOf(opts.language, st.language))))
  }

  /** With no positive `steps`, the blockwise loop returns the consensus's chosen candidate. */
  lemma BlockwiseNoRounds(cfg: Settings, source: PromptStore, st: EngineState, base: seq<Message>, opts: Options)
    requires RoundCount(Or(opts.steps, cfg.steps)) == 0
    requires BlockwiseConsensus(cfg, source, st, base, opts).result.Ok?
    ensures Blockwise(cfg, source, st, base, opts)
         == Traced(Ok(BlockwiseConsensus(cfg, source, st, base, opts).result.value.best),
                   BlockwiseConsensus(cfg, source, st, base, opts).state)
  {
  }

  /**
   * The rounds start from the consensus's chosen candidate: when no round
   * marks anything weak, the result is that candidate with every
   * continuation appended.
   */
  lemma BlockwiseNoWeak(cfg: Settings, source: PromptStore, st: EngineState, base: seq<Message>, opts: Options)
    requires BlockwiseConsensus(cfg, source, st, base, opts).result.Ok?
    requires var c := BlockwiseConsensus(cfg, source, st, base, opts);
      RoundTemplates(c.state.prompts.value, LanguageOf(opts.language, st.language)) &&
      NoWeakScript(c.state.backend.replies, RoundCount(Or(opts.steps, cfg.steps)))
    ensures var c := BlockwiseConsensus(cfg, source, st, base, opts);
      Blockwise(cfg, source, st, base, opts).result
        == Ok(Appended(c.result.value.best, c.state.backend.replies, RoundCount(Or(opts.steps, cfg.steps))))
  {
    var c := BlockwiseConsensus(cfg, source, st, base, opts);
    RoundsNoWeak(cfg, source, c.state, base, LanguageOf(opts.language, st.language), Or(opts.blockTokens, cfg.blockTokens),
                 c.result.value.best, RoundCount(Or(opts.steps, cfg.steps)));
  }

  /**
   * `annotate` when the annotation has no `<weak>`: the draft comes back
   * unchanged with the language's note, and the draft was asked for with
   * the base conversation at the backend's default temperature.
   */
  lemma AnnotateNoWeak(cfg: Settings, source: PromptStore, st: EngineState, base: seq<Message>, opts: Options,
                       draft: string, annotated: string, rest: seq<Reply>)
    requires st.prompts.Some? && Renders(st.prompts.value, "mark", LanguageOf(opts.language, st.language))
    requires Renders(st.prompts.value, "annotator_system", LanguageOf(opts.language, st.language))
    requires st.backend.replies == [Texts([draft]), Texts([annotated])] + rest && !Contains(annotated, WeakTag)
    ensures AnnotateMode(cfg, source, st, base, opts).result
         == Ok(Annotation(draft, annotated, Some(NoWeakNote(LanguageOf(opts.language, st.language)))))
    ensures AnnotateMode(cfg, source, st, base, opts).state.backend.sent[|st.backend.sent|]
         == Request(base, Int(1), DefaultTemperature)
  {
    var (initial, backend) := Call(st.backend, base, Int(1), None);
    var st1 := st.(backend := backend);
    assert backend.replies == [Texts([annotated])] + rest;
    RefineNoWeak(cfg, source, st1, draft, opts, annotated, rest);
  }

  /** `multi-sample` reports the consensus as it is: its chosen text, all candidates and the verdict. */
  lemma MultiSampleChosen(cfg: Settings, source: PromptStore, st: EngineState, base: seq<Message>, opts: Options)
    requires MultiSampleMode(cfg, source, st, base, opts).result.Ok?
    ensures var c := Consensus(cfg, source, st, base, opts);
      c.result.Ok? &&
      MultiSampleMode(cfg, source, st, base, opts).result.value == MultiSample(c.result.value.best, c.result.value.all, c.result.value.judge)
  {
  }

  /**
   * The full pipeline's answer: its text is the blockwise loop's, its
   * reasoning is that text's reasoning section, and its solution is what the
   * solver returns for the question and that reasoning (the whole text when
   * the reasoning is empty), a trimmed reply.
   */
  lemma FullModeAnswer(cfg: Settings, source: PromptStore, st: EngineState, prompt: string, language: string, base: seq<Message>, opts: Options)
    requires FullMode(cfg, source, st, prompt, language, base, opts).result.Ok?
    ensures var p := FullMode(cfg, source, st, prompt, language, base, opts).result.value;
      Blockwise(cfg, source, st, base, opts).result == Ok(p.text) &&
      p.reasoning == ParseReasoningSolution(p.text).reasoning &&
      IsTrimmed(p.solution) &&
      Solver(source, Blockwise(cfg, source, st, base, opts).state, prompt,
             if p.reasoning != "" then p.reasoning else p.text, language).result == Ok(p.solution)
  {
  }

  /** The `default` branch of the dispatch is the `full` branch. */
  lemma UnknownModeDispatchesFull(cfg: Settings, source: PromptStore, st: EngineState, prompt: string, language: string, mode: string, base: seq<Message>, opts: Options)
    requires mode != ModeMultiSample && mode != ModeAnnotate
    ensures Dispatch(cfg, source, st, prompt, language, mode, base, opts) == Dispatch(cfg, source, st, prompt, language, ModeFull, base, opts)
  {
  }

  /**
   * Without the prompts file the built-in set has no `system_default`, so a
   * run without a system prompt option rejects before the `try`.
   */
  lemma BuiltInSetRejectsRun(cfg: Settings, st: EngineState, prompt: string, opts: Options)
    requires st.prompts.None? && !TruthyValue(opts.systemPrompt)
    ensures Run(cfg, Loaded(None), st, prompt, opts).0 == Thrown(PromptNotFound("system_default"))
  {
    assert "system_default" !in FallbackPrompts;
  }

  /** And with a system prompt option it cannot judge: the consensus fails on the missing `judge_system` after the candidates. */
  lemma BuiltInSetCannotJudge(cfg: Settings, st: EngineState, base: seq<Message>, opts: Options)
    requires st.prompts.None? && st.backend.replies != [] && st.backend.replies[0].Texts?
    ensures Consensus(cfg, Loaded(None), st, base, opts).result == Err(PromptNotFound("judge_system"))
    ensures Consensus(cfg, Loaded(None), st, base, opts).state.backend.replies == st.backend.replies[1..]
  {
    assert "judge_system" !in FallbackPrompts;
    assert Present(FallbackPrompts, "judge");
  }

  /**
   * `run` rejects exactly when no system prompt option is given and the
   * `system_default` template cannot be built from the loaded store; every
   * later failure is returned as `success: false`.
   */
  lemma RunRejectsOnlyOnSystemPrompt(cfg: Settings, source: PromptStore, st: EngineState, prompt: string, opts: Options)
    ensures var detected := Detect(cfg, st, prompt);
      Run(cfg, source, st, prompt, opts).0.Thrown? <==>
        !TruthyValue(opts.systemPrompt) &&
        PromptText(LoadPrompts(source, detected.1).prompts, "system_default", detected.0, []).Err?
  {
  }
}
