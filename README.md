# Power Sampling engine and command line, modelled in Dafny

This project models the `PowerSampling` engine of `power-sampling.js` and
the command line of `cli.js`.

The engine answers a prompt with the help of a language model:

- It detects the prompt's language once and caches it.
- It asks for `k` candidate answers and lets a judge pick one by replying
  `BEST: C<n>` (or the same keyword in Italian, Spanish, German, Chinese,
  French or Russian).
- It has an annotator mark weak spans with `<weak>`, and then has a
  rewriter repair them.
- It repeats "continue the text, then refine it" for `steps` rounds.
- It splits the final text on the `RAGIONAMENTO:` / `SOLUZIONE:` markers and
  asks a solver agent for the solution.

The command line reads the prompt and its flags, builds the engine from the
configuration file with the flags laid over it, and exits with 0 or 1.

## Structure

The backend is a scripted oracle (`Backend.Oracle`). It holds the replies
still to come and the requests sent so far. Each call records its request
and consumes one reply, which is either a non-empty list of texts or a
failure. So call counts, temperatures, request contents and fallbacks can
all be stated.

- `Outcomes`: `Option`, and `Result` whose error is one of the errors the
  engine throws.
- `JsText`: the JavaScript string operations the engine uses.
  - `trim`, `toLowerCase`, `substring` and `includes`.
  - Leftmost literal search, exact or case-insensitive.
  - Global literal replacement and `join`.
- `JsValues`: values that may be `undefined` or `NaN`, the truthiness `||`
  tests, `String(n)` and `parseInt`.
- `Backend`: messages, requests, replies and the oracle's `Call`.
- `Templates`: the prompt store, entry resolution by language, placeholder
  filling, the language display names and the built-in fallback set.
  The built-in judge prompt (`JudgeFallback`, `JudgeRules`) is written as a
  concatenation of short literals holding the same characters as the
  source's template, which keeps facts about its characters small.
- `Judge`: the `C1..Ck` listing, the verdict pattern and the clamped index.
- `Sections`: the reasoning/solution splitter.
- `Sampling`: every engine step as a function of the settings, the store
  and the engine state. Each returns its result with the state after it.
- `Engine`: the class `PowerSampling`.
  - Its fields are the merged `config`, the language cache, the loaded
    store and the backend.
  - Each method is proved to return the result, and leave the state, that
    the `Sampling` function of the same step gives.
  - `loadPromptTemplate` and `blockwisePowerSampling` keep their loops,
    with loop invariants.
- `SamplingProperties`: the properties that relate several steps.
- `Cli`: `parseArgs` as a loop proved equal to a recursive scan, which is
  in turn proved equal to a "last occurrence wins" reading, plus `main`'s
  exit status.

## Model

| member | source | states |
|---|---|---|
| Outcomes.Message | power-sampling.js:506-510 | every error a run reports under `error` has a non-empty message |
| Backend.Call | power-sampling.js:243-268 | one request is recorded with `n` completions (1 when it is absent or zero) and `temperature ?? 0.7`; one reply is consumed; the call succeeds exactly when that reply is a list of texts and then returns it; a failed or missing reply becomes the `LLM call failed` error |
| JsText.SkipSpace | power-sampling.js:309 | the scan stops at the first non-white-space character at or after `i` (the regex `\s*`) |
| JsText.SkipSpaceOverSpace | power-sampling.js:309 | everything the scan passed over is white space |
| JsText.SkipSpaceBack | power-sampling.js:88 | the backward scan stops after the last non-white-space character before `j` |
| JsText.SkipSpaceBackOverSpace | power-sampling.js:88 | everything the backward scan passed over is white space |
| JsText.TrimStart | power-sampling.js:88 | the result is no longer than the input and does not start with white space |
| JsText.TrimEnd | power-sampling.js:88 | the result is no longer than the input and does not end with white space |
| JsText.Trim | power-sampling.js:196 | `trim()` yields text that neither starts nor ends with white space and is no longer than the input |
| JsText.TrimStartRemovesSpace | power-sampling.js:88 | `trimStart` removes only a prefix of white space: the input is that prefix followed by the result |
| JsText.TrimEndRemovesSpace | power-sampling.js:88 | `trimEnd` removes only a suffix of white space: the input is the result followed by that suffix |
| JsText.TrimStartSkipsSpaces | power-sampling.js:88 | leading white space does not change the trimmed start |
| JsText.TrimEndSkipsSpaces | power-sampling.js:88 | trailing white space does not change the trimmed end |
| JsText.TrimStartKeeps | power-sampling.js:88 | text that starts with a non-white-space character is kept whole |
| JsText.TrimEndKeeps | power-sampling.js:88 | text that ends with a non-white-space character is kept whole |
| JsText.TrimPadded | power-sampling.js:167-168 | a trimmed text padded with white space on both sides trims back to itself |
| JsText.TrimIdempotent | power-sampling.js:196 | trimming twice is trimming once |
| JsText.LowerChar | power-sampling.js:88 | ASCII upper-case letters map to lower case; every other character is kept |
| JsText.Lower | power-sampling.js:88 | `toLowerCase` keeps the length and lowers each character in place |
| JsText.IndexOf | power-sampling.js:163-164 | a found position lies at or after the start and leaves room for the whole pattern |
| JsText.IndexOfLeftmost | power-sampling.js:163-164 | a found position is an occurrence, and no occurrence lies between the start and it (leftmost match) |
| JsText.IndexOfNone | power-sampling.js:163-164 | nothing is found exactly when there is no occurrence at or after the start |
| JsText.Prefix | power-sampling.js:81 | `substring(0, n)` is the first `min(n, length)` characters of the text |
| JsText.ReplaceAllSkip | power-sampling.js:133-137 | text before the first occurrence of the pattern is copied unchanged and the replacement continues after it |
| JsText.ReplaceAllStep | power-sampling.js:133-137 | at the first occurrence, `a + pat + b` becomes `a + rep` followed by the replacement of `b`, so every later occurrence is replaced too and replaced text is not scanned again |
| JsText.ReplaceAllOnce | power-sampling.js:133-137 | a text with exactly one occurrence of the pattern, `a + pat + b`, becomes `a + rep + b` |
| JsText.ReplaceAllWithoutMatch | power-sampling.js:133-137 | text with no occurrence of the pattern is left unchanged |
| JsText.Fold | power-sampling.js:309 | the `/i` comparison: ASCII lower-case letters map to their upper case (32 below); other characters below U+0400 are kept; basic Cyrillic letters land in the upper-case block U+0400..U+042F, whose letters are kept, as is everything above U+045F |
| JsText.JoinAppend | power-sampling.js:285-287 | `join` adds one more part after one more separator |
| JsValues.DigitChar | cli.js:51 | a digit below 10 is rendered as the decimal digit character of that value |
| JsValues.NatToString | cli.js:51 | `String(n)` of a natural number is a non-empty run of digits with no leading zero |
| JsValues.DigitsValueOfNatToString | cli.js:51 | reading a rendered natural number back gives the number |
| JsValues.LeadingDigits | power-sampling.js:309-310 | the longest digit prefix is digits only and is followed by a non-digit or by the end |
| JsValues.LeadingHexDigits | cli.js:51 | the longest hexadecimal prefix, used when `parseInt` sees `0x`, is followed by a non-hex character or by the end |
| JsValues.LeadingDigitsOfDigits | power-sampling.js:309-310 | digits followed by a non-digit are exactly what the digit run captures |
| JsValues.ParseMagnitudeOfDigits | cli.js:51 | a digit string parses to its decimal value |
| JsValues.ParseUnsigned | cli.js:51 | text starting with a digit is parsed without a sign |
| JsValues.DigitIsPlain | cli.js:51 | a digit is neither white space nor a sign, so `parseInt` reads it as part of the number |
| JsValues.ParseMinus | cli.js:51 | a leading minus negates the magnitude |
| JsValues.ParseIntOfNegative | cli.js:51 | `parseInt(String(i)) === i` for negative `i` |
| JsValues.ParseIntOfNatural | cli.js:51 | `parseInt(String(i)) === i` for non-negative `i` |
| JsValues.ParseIntString | cli.js:51 | `parseInt` of a string is a number or `NaN`, never `undefined`; a blank string gives `NaN`; the digits it reads are stated by `ParseUnsigned`, `ParseMinus` and `ParseIntOfNumToString` |
| JsValues.ParseInt | cli.js:50-55 | `parseInt(undefined)` (a `--k` or `--steps` as the last token) is `NaN`; a string is parsed as `ParseIntString` says |
| JsValues.ParseIntOfNumToString | cli.js:50-55 | `parseInt(String(i)) === i` for every integer, so `--k`/`--steps` read back the number written |
| Templates.LanguageName | power-sampling.js:146-157 | the display name is never empty; an unknown code is shown as `English`; a known code other than `en` is not |
| Templates.Resolve | power-sampling.js:117-130 | a string entry is itself; for a `languages` object a non-empty variant for the language wins, then a non-empty `en` variant, then `template`; resolution fails exactly when none of the three is there (the later `replace` throws) |
| Templates.ResolveFallbackIgnoresLanguage | power-sampling.js:121 | the order is variant, then English, then `template`: two languages that both lack a variant get the same text |
| Templates.Placeholder | power-sampling.js:136 | every placeholder starts with `{{` |
| Templates.Render | power-sampling.js:110-140 | a missing key (or an empty-string entry) fails with `Prompt template "<key>" not found`; otherwise rendering succeeds exactly when resolution does; the substitutions are stated by `RenderLanguage`, `RenderLanguageFirst`, `BuiltInJudge`, `FillOne` and `RenderVerbatim` |
| Templates.NoPlaceholderMatch | power-sampling.js:136-137 | text without `{{` contains no placeholder of any name |
| Templates.Fill | power-sampling.js:135-138 | no variables leave the text as it is; `FillOne`, `FillRepeated`, `FillTwo` and `FillVerbatim` state what the substitution does |
| Templates.FillSingle | power-sampling.js:135-138 | filling one variable is one global replacement of its placeholder |
| Templates.ReplaceHere | power-sampling.js:133-137 | the first `{{name}}` after brace-free text is replaced and the replacement continues after it |
| Templates.ReplaceOther | power-sampling.js:133-137 | another variable's placeholder is left in place, and the replacement continues after it |
| Templates.FillRepeated | power-sampling.js:135-138 | every occurrence of a placeholder receives the value: `a + {{name}} + b + {{name}} + c` becomes `a + value + b + value + c` |
| Templates.FillTwo | power-sampling.js:135-138 | two variables are filled in order, each into its own placeholder, with the other placeholder left for its turn |
| Templates.LanguageBeforeOther | power-sampling.js:133 | replacing `{{language}}` leaves another variable's placeholder for the variables |
| Templates.RenderLanguageFirst | power-sampling.js:133-138 | a template `a + {{language}} + b + {{name}} + c` is filled with the variables after `{{language}}` becomes the display name |
| Templates.JudgeShapeNoLanguage | power-sampling.js:133 | a template shaped like the judge prompt has no `{{language}}`, so that replacement leaves it unchanged |
| Templates.JudgeShapeFillK | power-sampling.js:135-138 | both `{{k}}` of the judge prompt's shape receive the count, and `{{candidates}}` is left |
| Templates.JudgeShapeRender | power-sampling.js:133-138 | the judge prompt's shape renders to the count twice, then the candidate list |
| Templates.JudgeRulesNoBrace | power-sampling.js:230-233 | the lines after the candidate list in the built-in judge prompt hold no brace |
| Templates.BuiltInJudge | power-sampling.js:228-233 | the built-in judge prompt renders, in every language, with the count in both places and the candidate list after them |
| Templates.LanguageNameNoBrace | power-sampling.js:146-157 | no display name contains `{`, so inserting one creates no placeholder |
| Templates.NoBraceNoPlaceholder | power-sampling.js:133-137 | text without `{` contains no placeholder of any name |
| Templates.ReplacePlaceholder | power-sampling.js:133-137 | one placeholder between two texts without `{` is replaced by the value and nothing else changes |
| Templates.FillOne | power-sampling.js:135-138 | filling one variable into `a + {{name}} + b` (no `{` in `a` or `b`) gives `a + value + b` |
| Templates.RenderLanguage | power-sampling.js:110-138 | a resolved template `a + {{language}} + b` renders to `a + <display name> + b`, then filled with the variables |
| Templates.FillVerbatim | power-sampling.js:135-138 | substituting variables in text without `{{` leaves it unchanged |
| Templates.RenderVerbatim | power-sampling.js:133-138 | a template without `{{` is returned verbatim, whatever the language and the variables |
| Judge.LabelledAll | power-sampling.js:285-286 | candidate `i` (from 0) is shown under the label `C<i+1>`, in order, one per candidate |
| Judge.CandidatesText | power-sampling.js:285-287 | the listing is empty exactly when there are no candidates; its layout is stated by `LabelledAll`, `CandidatesTextSingle` and `CandidatesTextAppend` |
| Judge.CandidatesTextSingle | power-sampling.js:285-287 | one candidate is listed as `C1:` followed by a line break and its text |
| Judge.CandidatesTextAppend | power-sampling.js:285-287 | each further candidate adds a blank line and its own label `C<k+1>` |
| Judge.DigitsAfterKeyword | power-sampling.js:309 | after a keyword, `:`, optional white space and `C` (either case), a non-empty digit run is captured |
| Judge.LabelAt | power-sampling.js:309 | a label read at a position is a non-empty digit run |
| Judge.LabelAtNeedsKeyword | power-sampling.js:309 | no keyword at a position means no verdict starts there |
| Judge.FindLabel | power-sampling.js:309 | the leftmost verdict's capture is a non-empty digit run |
| Judge.JudgeIndex | power-sampling.js:309-311 | the index is never negative and lies within a non-empty list; without a verdict it is 0; with one it is `n - 1` clamped to `[0, count - 1]` |
| Judge.NoKeywordNoLabel | power-sampling.js:309 | a reply with none of the seven keywords, in any case, holds no verdict |
| Judge.NoKeywordPicksFirst | power-sampling.js:309-311 | such a reply selects index 0 |
| Judge.LabelAtBest | power-sampling.js:309 | `BEST` is the first alternative tried at a position |
| Judge.DigitsAfterColon | power-sampling.js:309 | `: C` followed by digits and then a non-digit captures exactly those digits |
| Judge.VerdictParts | power-sampling.js:309 | `BEST: C<n>` is the keyword, then `: C`, then the number |
| Judge.VerdictLabel | power-sampling.js:309 | the verdict `BEST: C<n>` is found and its capture is the rendered `n` |
| Judge.VerdictRoundTrip | power-sampling.js:309-311 | writing `BEST: C<n>` and reading it back selects `n - 1` clamped, so `C0` gives 0 and a too-large `n` gives the last candidate |
| Sections.ReasoningSection | power-sampling.js:163-167 | without a reasoning marker the reasoning is the whole text, untrimmed; with one it is trimmed |
| Sections.SolutionSection | power-sampling.js:164-168 | without a solution marker the solution is empty; it is always trimmed |
| Sections.ParseReasoningSolution | power-sampling.js:162-171 | `fullText` is the input; no reasoning marker gives the whole text; no solution marker gives `''` |
| Sections.IndexOfAt | power-sampling.js:163-164 | an occurrence with no earlier one at or after the start is the one found |
| Sections.FormatLayout | power-sampling.js:163-164 | the `RAGIONAMENTO: … SOLUZIONE: …` layout puts the markers at known positions |
| Sections.FirstSolutionMarker | power-sampling.js:163 | with no solution marker in the reasoning, the first one in the layout follows the reasoning |
| Sections.ReasoningBetween | power-sampling.js:163-167 | with the first reasoning marker at any position, the reasoning is the trimmed text from after it up to the next solution marker |
| Sections.ReasoningToEnd | power-sampling.js:163-167 | with a reasoning marker and no solution marker after it, the reasoning is the trimmed rest of the text |
| Sections.FormattedMarkers | power-sampling.js:163 | in the layout, the reasoning marker opens the text and the solution marker follows the reasoning |
| Sections.ReasoningPadded | power-sampling.js:163-167 | a trimmed reasoning padded by a space and a line break is read back exactly |
| Sections.ReasoningOfFormatted | power-sampling.js:163-167 | the layout's reasoning is read back exactly |
| Sections.SolutionOfFormatted | power-sampling.js:164-168 | the layout's solution is read back exactly |
| Sections.ParseFormatted | power-sampling.js:162-171 | formatting a trimmed reasoning and solution and splitting gives both back (round trip) |
| Sampling.Configure | power-sampling.js:37-51 | every key the caller passes wins even when it is falsy (the trailing spread); an absent key takes a truthy default, and `defaultLanguage` stays falsy |
| Sampling.LanguageOf | power-sampling.js:325 | the language option when it is a non-empty string, else the cached language when set, else `en`; never empty |
| Sampling.LoadPrompts | power-sampling.js:202-238 | the store is installed once and kept afterwards; the language and the backend are untouched |
| Sampling.PromptText | power-sampling.js:110-115 | with no store loaded the lookup throws; otherwise it is the rendering against the store |
| Sampling.DetectedCode | power-sampling.js:88-92 | the result is one of the seven codes: the trimmed, lower-cased first two characters when they are one, `en` otherwise |
| Sampling.FallbackLanguage | power-sampling.js:101 | the configured default language when it is a non-empty string, else `en`; never empty |
| Sampling.Detect | power-sampling.js:67-104 | a cached language is returned with nothing sent; otherwise one request with the first 200 characters is sent at temperature 0; the result is the reply's code (unknown codes give `en`) or, when the call fails, the fallback; it is cached and the store is untouched |
| Sampling.Consensus | power-sampling.js:274-318 | the first request asks for `k` completions at the sampling temperature; `all` is exactly that reply's texts in order; the second request is the `judge_system` prompt with the `judge` template filled with `k` and the `C1..Ck` listing of `all`, for one completion at the judge temperature; `best` is the candidate `JudgeIndex` picks from the judge's reply, so a member of `all`; `judge` is the second reply; exactly two replies are consumed |
| Sampling.NoWeakNote | power-sampling.js:341-356 | the note is never empty; an unknown language gets the English note; a known language other than English gets its own |
| Sampling.Refine | power-sampling.js:323-377 | `annotated` is the annotator's reply; without `<weak>` the draft is returned unchanged with the localised note after one call; with it the rewriter's reply is `final`, there is no note, and the second call uses 0.9 times the temperature |
| Sampling.Rewrite | power-sampling.js:359-376 | the rewrite phase sends one request at 0.9 times the temperature and returns its reply as `final` with the annotation and no note; a `rewrite` template that cannot be rendered fails with nothing sent |
| Sampling.RoundCount | power-sampling.js:395 | the loop runs `steps` times for a positive integer, and not at all otherwise |
| Sampling.Continued | power-sampling.js:397-413 | the continuation is appended after a line break; one reply is consumed; a `continue` template that cannot be rendered fails with nothing sent; the request is stated by `ContinuedRequest` |
| Sampling.Round | power-sampling.js:396-417 | a round consumes two or three replies, as many as requests it sends, and keeps the cache and the store; its text is stated by `RoundText` |
| Sampling.Rounds | power-sampling.js:395-418 | `n` rounds consume between `2n` and `3n` replies, a suffix of the script is left, and one request is sent per reply consumed |
| Sampling.Blockwise | power-sampling.js:382-421 | a successful run consumes at least two replies for the consensus and two per round; its text is stated by `BlockwiseNoRounds` and `BlockwiseNoWeak` |
| Sampling.Solver | power-sampling.js:176-197 | one request at temperature 0, whose messages are the `solver_system` prompt and the `solver` template filled with the question and the reasoning; the solution is the reply trimmed |
| Sampling.MultiSampleMode | power-sampling.js:451-458 | the reported text is one of the reported candidates; `MultiSampleChosen` states it is the consensus as it is |
| Sampling.AnnotateMode | power-sampling.js:460-468 | the annotate case returns the annotation shape; `AnnotateNoWeak` states its text and its first request |
| Sampling.FullMode | power-sampling.js:470-487 | the full case returns the full shape |
| Sampling.Dispatch | power-sampling.js:450-488 | the result has the multi-sample shape exactly for `multi-sample`, the annotate shape exactly for `annotate`, and the full shape for every other mode |
| Sampling.ModeOf | power-sampling.js:427 | the mode option when it is a non-empty string, else `full`; never empty |
| Sampling.Run | power-sampling.js:426-515 | the store is loaded; a rejection happens only without a `systemPrompt` option; a success records the given mode, the detected language, `k` and `steps` (the option when truthy, else the configuration) and the model, and its result shape follows the mode |
| SamplingProperties.DetectOnce | power-sampling.js:69-71 | detecting a second time, for any prompt, returns the cached language and changes nothing |
| SamplingProperties.DetectedCodeOfPadded | power-sampling.js:88-92 | a known code with white space around it is detected as itself |
| SamplingProperties.UnknownCodeIsEnglish | power-sampling.js:92 | a reply that is not a known code gives `en`, not the configured default language |
| SamplingProperties.ConsensusWithoutVerdict | power-sampling.js:309-314 | a judge reply without a keyword selects the first candidate |
| SamplingProperties.ConsensusFollowsVerdict | power-sampling.js:309-314 | `BEST: C<n>` selects candidate `n - 1` clamped into the list |
| SamplingProperties.RefineNoWeak | power-sampling.js:341-357 | an annotation without `<weak>` returns the draft unchanged, with the localised note, after exactly one call |
| SamplingProperties.RoundNoWeak | power-sampling.js:397-417 | a round without `<weak>` only appends `"\n"` and the continuation, and consumes two replies |
| SamplingProperties.RefineNoWeakAt | power-sampling.js:341-357 | the same fixed point, stated on the first reply of any script |
| SamplingProperties.RefineNeedsTemplates | power-sampling.js:326-338 | when the `mark` or `annotator_system` template cannot be rendered the step fails with nothing sent |
| SamplingProperties.RoundNeedsContinue | power-sampling.js:397-404 | when the `continue` template cannot be rendered the round fails and the state is unchanged |
| SamplingProperties.ContinuedRequest | power-sampling.js:397-410 | the continuation request is the base conversation, the current text as the assistant's turn and the rendered `continue` prompt as the user's, one choice at 0.9 times the sampling temperature |
| SamplingProperties.RoundText | power-sampling.js:396-417 | a round's text is the current text, a line break and the continuation when the annotation has no `<weak>`, otherwise the rewriter's reply |
| SamplingProperties.RoundsAfterFirst | power-sampling.js:395-418 | `n` rounds are the first round followed by `n - 1` rounds from where it left off |
| SamplingProperties.AppendedStep | power-sampling.js:413 | without weak spans, the first round's text is the current one with the first continuation appended |
| SamplingProperties.RoundsNoWeak | power-sampling.js:395-418 | `n` rounds without weak spans consume exactly `2n` replies and give the start text followed by every continuation, each after a line break |
| SamplingProperties.BlockwiseNoRounds | power-sampling.js:391-420 | with no positive `steps` the blockwise result is the consensus's chosen candidate, in the consensus's state |
| SamplingProperties.BlockwiseNoWeak | power-sampling.js:391-420 | the rounds start from the consensus's chosen candidate: without weak spans the result is that candidate followed by every continuation |
| SamplingProperties.AnnotateNoWeak | power-sampling.js:460-468 | an annotation without `<weak>` returns the draft unchanged with the language's note, and the draft was requested with the base conversation, one choice, at the default temperature |
| SamplingProperties.MultiSampleChosen | power-sampling.js:451-458 | `multi-sample` reports the consensus's chosen text, all candidates and the verdict |
| SamplingProperties.FullModeAnswer | power-sampling.js:470-487 | the full answer's text is the blockwise result, its reasoning is that text's reasoning section, and its solution is the solver's answer to the prompt with that reasoning (the whole text when the reasoning is empty) |
| SamplingProperties.UnknownModeDispatchesFull | power-sampling.js:470-472 | any mode other than `multi-sample` and `annotate` behaves exactly as `full` |
| SamplingProperties.BuiltInSetRejectsRun | power-sampling.js:221-234 | with the built-in set and no system prompt option, a run throws `Prompt template "system_default" not found` before its `try` |
| SamplingProperties.BuiltInSetCannotJudge | power-sampling.js:221-234 | with the built-in set the consensus fails on the missing `judge_system`, after consuming the candidates' reply |
| SamplingProperties.RunRejectsOnlyOnSystemPrompt | power-sampling.js:436-514 | a run throws exactly when no system prompt option is given and `system_default` cannot be rendered; every later failure is returned as `success: false` |
| Engine.PowerSampling.constructor | power-sampling.js:37-61 | the configuration is the merged one, and no language is cached and no store is loaded |
| Engine.PowerSampling.CallLLM | power-sampling.js:243-268 | one oracle call; the cache and the store are untouched |
| Engine.PowerSampling.DetectLanguage | power-sampling.js:67-104 | the returned language and the new state are those `Sampling.Detect` gives |
| Engine.PowerSampling.LoadPrompts | power-sampling.js:202-238 | the new state is the one `Sampling.LoadPrompts` gives |
| Engine.PowerSampling.LoadPromptTemplate | power-sampling.js:110-141 | the loop over the variables gives `Sampling.PromptText` of the current store |
| Engine.PowerSampling.MultiSampleConsensus | power-sampling.js:274-318 | result and new state are those of `Sampling.Consensus` |
| Engine.PowerSampling.AnnotateAndRewrite | power-sampling.js:323-377 | result and new state are those of `Sampling.Refine` |
| Engine.PowerSampling.BlockwisePowerSampling | power-sampling.js:382-421 | the `for` loop gives the result and new state of `Sampling.Blockwise` |
| Engine.PowerSampling.ContinueBlock | power-sampling.js:396-417 | one loop pass gives the result and new state of `Sampling.Round` |
| Engine.PowerSampling.ContinueText | power-sampling.js:397-413 | the continuation step gives the result and new state of `Sampling.Continued` |
| Engine.PowerSampling.SolverAgent | power-sampling.js:176-197 | result and new state are those of `Sampling.Solver` |
| Engine.PowerSampling.Run | power-sampling.js:426-515 | outcome and new state are those of `Sampling.Run` |
| Cli.Arg | cli.js:47 | `args[i + 1]` is a string exactly inside the list, and `undefined` past its end |
| Cli.Next | cli.js:45-69 | the loop moves on by 1 after `--verbose`/`--json` and by 2 after any other token |
| Cli.Scan | cli.js:45-71 | past the end the options are unchanged, and a key once set stays set; `ScanIsLastOccurrence` states which value each key ends with |
| Cli.Parse | cli.js:15-73 | help exactly for an empty list or one holding `--help` or `-h`; otherwise the prompt is `args[0]` |
| Cli.ParseArgs | cli.js:15-74 | the `for` loop with its `i--` gives exactly `Parse`: help for an empty list or any `--help`/`-h`, otherwise the prompt `args[0]` and the flags scanned from position 1 |
| Cli.Visits | cli.js:45-71 | the positions the loop reads flags at start at `i`, stay inside the list, and step by 1 after a flag without a value and by 2 otherwise |
| Cli.LastValueFront | cli.js:50-61 | a later occurrence of a flag overrides an earlier one |
| Cli.SeenFront | cli.js:62-69 | a flag without a value is on once it occurs at any visited position |
| Cli.OverlayFront | cli.js:49-70 | applying the flag at one position and then the later ones is overlaying all of them |
| Cli.ScanIsLastOccurrence | cli.js:45-71 | the loop's options are the declarative ones: each value flag takes the value after its last visited occurrence, and a boolean flag is on once it occurs |
| Cli.ParseIsLastOccurrence | cli.js:42-73 | the prompt is `args[0]`; the options are the last occurrences among positions 1 onwards |
| Cli.UnknownFlagSkipsNext | cli.js:45-71 | an unknown token in flag position is skipped together with the token after it |
| Cli.KRoundTrip | cli.js:50-52 | `--k` followed by a rendered integer sets `k` to that integer and nothing else |
| Cli.Merge | cli.js:87 | the options' keys replace the configuration file's; the keys the flags cannot set are the file's |
| Cli.MergeOverrides | cli.js:87 | a flag given on the command line wins over the file for `k`, `steps` and `model`, and the file's value is used otherwise |
| Cli.RunOptions | cli.js:102 | the options passed to `run` carry no language, system prompt, temperature or block size |
| Cli.ExitStatus | cli.js:77-136 | the exit status is 0 or 1 |
| Cli.Execute | cli.js:77-136 | `main` parses, stops on help or an empty prompt, builds the engine from the merged configuration, runs it, and exits as `ExitStatus` says |
| Cli.HelpExitsZero | cli.js:18-40 | asking for help (or giving no arguments) exits with 0, whatever else the list holds |
| Cli.EmptyPromptExitsOne | cli.js:80-84 | an empty prompt exits with 1, whatever the flags and the backend |
| Cli.ExitZeroOnlyOnSuccess | cli.js:101-135 | the exit status is 0 exactly when the prompt is non-empty and the run resolves with `success: true`; `success: false` and a rejection both exit with 1 |

## Left out

- Network transport: `callLLM`'s `fetch` to the proxy, the proxy itself
  (`worker.js` is not part of this model), the `proxyURL`, `provider` and
  `apiKey` settings and the model name sent. The backend is the scripted
  oracle of `Backend`. A response with an empty `choices` list is excluded
  by the type `Choices`.
- Loading `prompts.json` from disk or by `fetch`. The store the prompts
  file would give is a parameter of the constructor (`None` when it cannot
  be read, which selects the built-in set). It is installed at the first
  `loadPrompts`, as in the source. That the file is read at that moment
  rather than at construction is not modelled.
- `config.js` and the environment variables: the configuration file is a
  parameter (`Cli.Merge`'s `file`).
- Timing (`Date.now` and `metadata.time`), every `console` output, the
  verbose printing and the JSON or human-readable output of `main`. The
  help text is `Cli.Parsed.Help`. `process.exit` is the returned status.
- The utility exports `multiSample`, `annotateWeakSpans` and
  `powerSampling` (power-sampling.js:519-532): each only builds an engine
  and calls `run` or `annotateAndRewrite` with a fixed mode.
- Strings are sequences of code points, not UTF-16 units. So `substring(0,
  200)` and the two-character code cut count code points.
- JsText.Lower: lowers ASCII letters only. A reply whose first two
  characters are non-ASCII letters cannot be one of the seven lower-case
  codes either way, so the detected code is the same.
- JsText.Fold: case-insensitive matching folds ASCII and basic Cyrillic
  letters only. Those are the only cased letters in the verdict keywords and
  the section markers, and JavaScript's non-Unicode case folding never maps
  a non-ASCII character onto an ASCII one. So the matches are the same.
- JsText.ReplaceAll (and the lemmas about it): models `replace` with a global pattern on a literal
  placeholder, and inserts the replacement verbatim. JavaScript expands
  `$` patterns (`$$`, `$&`, `$'`, `` $` ``) in the replacement string. The
  values filled in are drafts, candidates, questions and reasoning, which
  come from the user or the language model and may contain such patterns;
  for those values the model's text differs from what the source builds.
  Regular-expression characters in a variable name are not modelled; the
  engine's variable names contain none.
- JsValues.ParseIntString: numbers are exact integers. Precision beyond
  2^53 and fractional, `Infinity` or exponent forms are not modelled.
- Temperatures are `real`. Only which multiplier goes with which call is
  recorded. A `temperature` object given only in part is not modelled: a
  configuration either replaces the whole object or keeps the default.
- Prompt store entries are strings or objects with `languages` and
  `template`. Other JSON values (numbers, booleans, `null`, arrays) and
  inherited object keys are not modelled. The non-string `String(...)` case
  is the text `[object Object]`.
- Error messages: thrown errors are the `Failure` datatype. `Message` gives
  their text; the `TypeError` texts are those of the V8 engine.
- The command line's `mode`, `verbose` and `jsonOutput` keys are also
  spread into the engine's configuration. The engine reads `verbose` only
  to decide whether to log the detected language (power-sampling.js:94),
  and logging is left out; it never reads `mode` or `jsonOutput`
  from there. So `Merge` passes on only `model`, `k` and `steps`.
- SamplingProperties.RefineNoWeak, RoundNoWeak and RoundsNoWeak require the
  needed templates render. A missing template makes the step fail, which
  `Sampling.Continued` (its last ensures),
  `SamplingProperties.RefineNeedsTemplates` and
  `SamplingProperties.RoundNeedsContinue` state.
- Sampling.Blockwise: states a lower bound on the replies consumed, not the
  exact count, because a round consumes two or three replies depending on
  the annotation. `SamplingProperties.RoundsNoWeak` and
  `SamplingProperties.BlockwiseNoWeak` give the exact count and text when
  nothing is weak; `SamplingProperties.RoundText` gives one round's text
  in both cases.
- There is no score-guided chain sampler, acceptance test or annealing
  schedule in the code, so none is modelled. The blockwise loop always
  keeps the refined text.
- The code is followed where its own comments promise more. The `catch`
  at power-sampling.js:220 is commented "Fallback to default prompts", but
  the built-in set holds only `mark`, `rewrite` and `judge`
  (power-sampling.js:221-234). So without the prompts file every pipeline
  fails on a missing template (`SamplingProperties.BuiltInSetRejectsRun`,
  `SamplingProperties.BuiltInSetCannotJudge`).
