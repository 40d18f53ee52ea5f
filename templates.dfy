/**
 * Prompt templates: the store `prompts.json` provides (or the built-in
 * fallback set), how an entry resolves for a language, and how `{{name}}`
 * placeholders are filled.
 */
module Templates {
  import opened Outcomes
  import opened JsText

  /**
   * An entry of the store: a plain string, or an object that may carry
   * per-language variants under `languages` and a legacy `template`.
   */
  datatype PromptEntry =
    | Plain(text: string)
    | Localized(languages: Option<map<string, string>>, template: Option<string>)

  type PromptStore = map<string, PromptEntry>

  /** A variable passed to the template, its value already converted to a string. */
  type Binding = (string, string)

  /** The language codes the engine recognises. */
  const Codes: set<string> := {"it", "en", "es", "de", "zh", "fr", "ru"}


  /** `getLanguageName`: the display name of a code; an unknown code is shown as English. */
  function LanguageName(code: string): (name: string)
    ensures name != ""
    ensures code !in Codes ==> name == "English"
    ensures code in Codes && code != "en" ==> name != "English"
  {
    match code
    case "it" => "italiano"
    case "es" => "español"
    case "de" => "Deutsch"
    case "zh" => "中文"
    case "fr" => "français"
    case "ru" => "русский"
    case _ => "English"
  }

  /** The built-in set used when the store cannot be loaded: only `mark`, `rewrite` and `judge`. */
  const FallbackPrompts: PromptStore := map[
    "mark" := Plain("Analizza la BOZZA. Segna gli span incerti con <weak>...</weak> e spiega in 1 riga perché.\nRestituisci:\nTESTO ANNOTATO (con <weak>)\nNOTE (punti elenco brevi)"),
    "rewrite" := Plain("Riscrivi SOLO i segmenti <weak>...</weak> mantenendo coerenza.\nRestituisci il TESTO COMPLETO FINALE senza <weak> e senza commenti."),
    "judge" := Plain(JudgeFallback)
  ]

  /** The built-in judge prompt: the candidate count twice, then the candidate list and the rules. */
  const JudgeFallback: string :=
    "Hai " + "{{k}}" + " CANDIDATI (C1..C" + "{{k}}" + "). Scegli il migliore.\n" + "{{candidates}}" + JudgeRules

  /** The lines of the built-in judge prompt after the candidate list. */
  const JudgeRules: string :=
    "\nRegole: coerenza logica, " + "correttezza, assenza " + "di contraddizioni.\nOutput:" + "\nBEST: CX\nMOTIVO: (max 3 righe)"

  /** The store lookup succeeds: the key is there and its entry is not the (falsy) empty string. */
  predicate Present(store: PromptStore, key: string) {
    key in store && store[key] != Plain("")
  }

  /** A variant the `||` chain accepts: present and not the empty string. */
  predicate Usable(variants: map<string, string>, language: string) {
    language in variants && variants[language] != ""
  }

  /**
   * The text an entry gives for a language: a plain string as it is; for an
   * object with `languages`, the language's variant, else the English one,
   * else the legacy `template` (missing: the later `replace` throws); any
   * other object is converted with `String(...)`.
   */
  function Resolve(entry: PromptEntry, language: string): (r: Result<string>)
    ensures r.Err? ==> r.error == TemplateMissing
    ensures r.Err? <==>
      entry.Localized? && entry.languages.Some? &&
      !Usable(entry.languages.value, language) && !Usable(entry.languages.value, "en") && entry.template.None?
    ensures entry.Plain? ==> r == Ok(entry.text)
    ensures entry.Localized? && entry.languages.Some? && Usable(entry.languages.value, language) ==>
      r == Ok(entry.languages.value[language])
    ensures entry.Localized? && entry.languages.Some? && !Usable(entry.languages.value, language) && Usable(entry.languages.value, "en") ==>
      r == Ok(entry.languages.value["en"])
    ensures entry.Localized? && entry.languages.Some? && !Usable(entry.languages.value, language) && !Usable(entry.languages.value, "en") && entry.template.Some? ==>
      r == Ok(entry.template.value)
  {
    match entry
    case Plain(text) => Ok(text)
    case Localized(None, _) => Ok("[object Object]")
    case Localized(Some(variants), template) =>
      if Usable(variants, language) then Ok(variants[language])
      else if Usable(variants, "en") then Ok(variants["en"])
      else if template.Some? then Ok(template.value)
      else Err(TemplateMissing)
  }

  /** The fallback order: two languages that both lack a usable variant get the same text. */
  lemma ResolveFallbackIgnoresLanguage(entry: PromptEntry, l1: string, l2: string)
    requires entry.Localized? && entry.languages.Some?
    requires !Usable(entry.languages.value, l1) && !Usable(entry.languages.value, l2)
    ensures Resolve(entry, l1) == Resolve(entry, l2)
  {
  }

  function Placeholder(name: string): (p: string)
    ensures |p| >= 2 && p[..2] == "{{"
  {
    "{{" + name + "}}"
  }

  /** Each variable in turn replaces every `{{name}}` of the text built so far. */
  function Fill(text: string, variables: seq<Binding>): (r: string)
    ensures variables == [] ==> r == text
    decreases |variables|
  {
    if variables == [] then text
    else Fill(ReplaceAll(text, Placeholder(variables[0].0), variables[0].1), variables[1..])
  }

  /**
   * `loadPromptTemplate(key, language, variables)` on a loaded store: a missing
   * key throws; `{{language}}` becomes the language's display name, then the
   * variables are substituted in order.
   */
  function Render(store: PromptStore, key: string, language: string, variables: seq<Binding>): (r: Result<string>)
    ensures !Present(store, key) ==> r == Err(PromptNotFound(key))
    ensures Present(store, key) ==> (r.Ok? <==> Resolve(store[key], language).Ok?)
  {
    if !Present(store, key) then Err(PromptNotFound(key))
    else match Resolve(store[key], language)
      case Err(e) => Err(e)
      case Ok(template) => Ok(Fill(ReplaceAll(template, Placeholder("language"), LanguageName(language)), variables))
  }

  ghost predicate NoPlaceholderStart(s: string) {
    forall q :: !MatchAt(s, q, "{{", false)
  }

  lemma NoPlaceholderMatch(s: string, name: string)
    requires NoPlaceholderStart(s)
    ensures forall q :: !MatchAt(s, q, Placeholder(name), false)
  {
    forall q | MatchAt(s, q, Placeholder(name), false)
      ensures false
    {
      assert MatchAt(s, q, "{{", false);
    }
  }

  lemma {:induction false} FillVerbatim(text: string, variables: seq<Binding>)
    requires NoPlaceholderStart(text)
    ensures Fill(text, variables) == text
  {
    if variables != [] {
      NoPlaceholderMatch(text, variables[0].0);
      ReplaceAllWithoutMatch(text, Placeholder(variables[0].0), variables[0].1);
      FillVerbatim(text, variables[1..]);
    }
  }

  /** A template without `{{` is used verbatim, whatever the language and the variables. */
  lemma RenderVerbatim(store: PromptStore, key: string, language: string, variables: seq<Binding>)
    requires Present(store, key) && Resolve(store[key], language).Ok?
    requires NoPlaceholderStart(Resolve(store[key], language).value)
    ensures Render(store, key, language, variables) == Resolve(store[key], language)
  {
    var template := Resolve(store[key], language).value;
    NoPlaceholderMatch(template, "language");
    ReplaceAllWithoutMatch(template, Placeholder("language"), LanguageName(language));
    FillVerbatim(template, variables);
  }
  /** Text without an opening brace. */
  predicate NoBrace(s: string) {
    forall i :: 0 <= i < |s| ==> s[i] != '{'
  }

  /** No display name contains a brace. */
  lemma LanguageNameNoBrace(code: string)
    ensures NoBrace(LanguageName(code))
  {
  }

  lemma NoBraceNoPlaceholder(s: string, name: string)
    requires NoBrace(s)
    ensures forall q :: !MatchAt(s, q, Placeholder(name), false)
  {
    var p := Placeholder(name);
    assert p[0] == '{';
    forall q: nat
      ensures !MatchAt(s, q, p, false)
    {
      if q < |s| {
        assert s[q + 0] != p[0];
      }
    }
  }

  /** Between brace-free text, one placeholder is replaced by its value. */
  lemma ReplacePlaceholder(a: string, name: string, value: string, b: string)
    requires NoBrace(a) && NoBrace(b)
    ensures ReplaceAll(a + Placeholder(name) + b, Placeholder(name), value) == a + value + b
  {
    var p := Placeholder(name);
    assert p[0] == '{';
    forall q: nat | q < |a|
      ensures !MatchAt(a + p + b, q, p, false)
    {
      assert (a + p + b)[q + 0] == a[q] != p[0];
    }
    NoBraceNoPlaceholder(b, name);
    ReplaceAllOnce(a, p, value, b);
  }

  /** A variable's placeholder becomes the variable's value. */
  lemma FillOne(a: string, name: string, value: string, b: string)
    requires NoBrace(a) && NoBrace(b)
    ensures Fill(a + Placeholder(name) + b, [(name, value)]) == a + value + b
  {
    ReplacePlaceholder(a, name, value, b);
  }

  /** `{{language}}` becomes the display name first; the variables are filled in afterwards. */
  lemma RenderLanguage(store: PromptStore, key: string, language: string, variables: seq<Binding>, a: string, b: string)
    requires Present(store, key) && Resolve(store[key], language) == Ok(a + Placeholder("language") + b)
    requires NoBrace(a) && NoBrace(b)
    ensures Render(store, key, language, variables) == Ok(Fill(a + LanguageName(language) + b, variables))
  {
    ReplacePlaceholder(a, "language", LanguageName(language), b);
  }

  /** A variable name as the engine writes them: no braces. */
  predicate PlainName(name: string) {
    forall i :: 0 <= i < |name| ==> name[i] != '{' && name[i] != '}'
  }

  /** Two brace-free texts joined are brace-free. */
  lemma NoBraceJoin(x: string, y: string)
    requires NoBrace(x) && NoBrace(y)
    ensures NoBrace(x + y)
  {
    forall i | 0 <= i < |x + y|
      ensures (x + y)[i] != '{'
    {
      if i < |x| {
        assert (x + y)[i] == x[i];
      } else {
        assert (x + y)[i] == y[i - |x|];
      }
    }
  }

  /** No placeholder starts inside brace-free text, whatever follows it. */
  lemma NoMatchInBraceFree(a: string, rest: string, name: string)
    requires NoBrace(a)
    ensures forall q: nat :: q < |a| ==> !MatchAt(a + rest, q, Placeholder(name), false)
  {
    var p := Placeholder(name);
    assert p[0] == '{';
    forall q: nat | q < |a|
      ensures !MatchAt(a + rest, q, p, false)
    {
      assert (a + rest)[q + 0] == a[q] != p[0];
    }
  }

  /** One variable's placeholder does not start inside another variable's placeholder, whatever follows it. */
  lemma NoMatchInOther(n1: string, n2: string, rest: string)
    requires PlainName(n1) && PlainName(n2) && n1 != n2
    ensures forall k: nat :: k < |Placeholder(n2)| ==> !MatchAt(Placeholder(n2) + rest, k, Placeholder(n1), false)
  {
    var p1, p2 := Placeholder(n1), Placeholder(n2);
    var s := p2 + rest;
    assert p1[0] == '{' && p1[1] == '{';
    forall k: nat | k < |p2|
      ensures !MatchAt(s, k, p1, false)
    {
      if k == 0 {
        if |n1| < |n2| {
          var j := 2 + |n1|;
          assert s[k + j] == n2[|n1|] != p1[j];
        } else if |n1| > |n2| {
          var j := 2 + |n2|;
          assert s[k + j] == '}' != n1[|n2|] == p1[j];
        } else {
          var i :| 0 <= i < |n1| && n1[i] != n2[i];
          var j := 2 + i;
          assert s[k + j] == n2[i] != n1[i] == p1[j];
        }
      } else if k == 1 {
        assert s[k + 1] == p2[2] != p1[1];
      } else {
        assert s[k + 0] == p2[k] != p1[0];
      }
    }
  }

  /**
   * One variable's placeholder does not start inside brace-free text or
   * inside another variable's placeholder, whatever follows them.
   */
  lemma NoMatchBeforeOther(a: string, n1: string, n2: string, rest: string)
    requires NoBrace(a) && PlainName(n1) && PlainName(n2) && n1 != n2
    ensures forall q: nat :: q < |a| + |Placeholder(n2)| ==> !MatchAt(a + Placeholder(n2) + rest, q, Placeholder(n1), false)
  {
    var p1, p2 := Placeholder(n1), Placeholder(n2);
    assert a + p2 + rest == a + (p2 + rest);
    NoMatchInBraceFree(a, p2 + rest, n1);
    NoMatchInOther(n1, n2, rest);
    forall q: nat | |a| <= q < |a| + |p2|
      ensures !MatchAt(a + (p2 + rest), q, p1, false)
    {
      MatchAtShift(a, p2 + rest, q - |a|, p1, false);
    }
  }

  /** After brace-free text, `{{name}}` is replaced by the value and the scan resumes after it. */
  lemma ReplaceHere(a: string, name: string, value: string, rest: string)
    requires NoBrace(a)
    ensures ReplaceAll(a + Placeholder(name) + rest, Placeholder(name), value)
         == a + value + ReplaceAll(rest, Placeholder(name), value)
  {
    NoMatchInBraceFree(a, Placeholder(name) + rest, name);
    assert a + Placeholder(name) + rest == a + (Placeholder(name) + rest);
    ReplaceAllStep(a, Placeholder(name), value, rest);
  }

  /** Brace-free text and another variable's placeholder are copied unchanged, and the scan resumes after them. */
  lemma ReplaceOther(a: string, n1: string, n2: string, value: string, rest: string)
    requires NoBrace(a) && PlainName(n1) && PlainName(n2) && n1 != n2
    ensures ReplaceAll(a + Placeholder(n2) + rest, Placeholder(n1), value)
         == a + Placeholder(n2) + ReplaceAll(rest, Placeholder(n1), value)
  {
    NoMatchBeforeOther(a, n1, n2, rest);
    ReplaceAllSkip(a + Placeholder(n2), rest, Placeholder(n1), value);
  }

  /** Regrouping a concatenation of five pieces, kept apart from the brace facts. */
  lemma Regroup(a: string, p: string, b: string, q: string, c: string)
    ensures a + p + b + q + c == a + p + (b + q + c)
  {
  }

  /** Filling a single variable is one global replacement of its placeholder. */
  lemma FillSingle(text: string, name: string, value: string)
    ensures Fill(text, [(name, value)]) == ReplaceAll(text, Placeholder(name), value)
  {
    assert [(name, value)][1..] == [];
  }

  /** Every occurrence of a variable's placeholder is replaced (the `g` flag), here two of them. */
  lemma FillRepeated(a: string, name: string, value: string, b: string, c: string)
    requires NoBrace(a) && NoBrace(b) && NoBrace(c)
    ensures Fill(a + Placeholder(name) + b + Placeholder(name) + c, [(name, value)]) == a + value + b + value + c
  {
    var p := Placeholder(name);
    var rest := b + p + c;
    var text := a + p + rest;
    Regroup(a, p, b, p, c);
    assert ReplaceAll(rest, p, value) == b + value + c by {
      ReplacePlaceholder(b, name, value, c);
    }
    assert ReplaceAll(text, p, value) == a + value + (b + value + c) by {
      ReplaceHere(a, name, value, rest);
    }
    Regroup(a, value, b, value, c);
    FillSingle(text, name, value);
  }

  /** Two variables are filled in order, each into its own placeholder. */
  lemma FillTwo(a: string, n1: string, v1: string, b: string, n2: string, v2: string, c: string)
    requires NoBrace(a) && NoBrace(b) && NoBrace(c) && NoBrace(v1)
    requires PlainName(n1) && PlainName(n2) && n1 != n2
    ensures Fill(a + Placeholder(n1) + b + Placeholder(n2) + c, [(n1, v1), (n2, v2)]) == a + v1 + b + v2 + c
  {
    var p1, p2 := Placeholder(n1), Placeholder(n2);
    var rest := b + p2 + c;
    var text := a + p1 + rest;
    Regroup(a, p1, b, p2, c);
    assert ReplaceAll(rest, p1, v1) == rest by {
      ReplaceOther(b, n1, n2, v1, c);
      NoBraceNoPlaceholder(c, n1);
      ReplaceAllWithoutMatch(c, p1, v1);
    }
    assert ReplaceAll(text, p1, v1) == a + v1 + rest by {
      ReplaceHere(a, n1, v1, rest);
    }
    var head := a + v1 + b;
    Regroup(a, v1, b, p2, c);
    assert ReplaceAll(head + p2 + c, p2, v2) == head + v2 + c by {
      NoBraceJoin(a, v1);
      NoBraceJoin(a + v1, b);
      ReplacePlaceholder(head, n2, v2, c);
    }
    assert [(n1, v1), (n2, v2)][1..] == [(n2, v2)];
    FillSingle(head + p2 + c, n2, v2);
  }

  /** Replacing `{{language}}` leaves another variable's placeholder in place. */
  lemma LanguageBeforeOther(a: string, display: string, b: string, name: string, c: string)
    requires NoBrace(a) && NoBrace(b) && NoBrace(c) && PlainName(name) && name != "language"
    ensures ReplaceAll(a + Placeholder("language") + b + Placeholder(name) + c, Placeholder("language"), display)
         == a + display + b + Placeholder(name) + c
  {
    var pl, p := Placeholder("language"), Placeholder(name);
    var rest := b + p + c;
    Regroup(a, pl, b, p, c);
    assert ReplaceAll(rest, pl, display) == rest by {
      ReplaceOther(b, "language", name, display, c);
      NoBraceNoPlaceholder(c, "language");
      ReplaceAllWithoutMatch(c, pl, display);
    }
    assert ReplaceAll(a + pl + rest, pl, display) == a + display + rest by {
      ReplaceHere(a, "language", display, rest);
    }
    Regroup(a, display, b, p, c);
  }

  /** `{{language}}` is replaced before the variables, leaving their placeholders for them. */
  lemma RenderLanguageFirst(store: PromptStore, key: string, language: string, variables: seq<Binding>,
                            a: string, b: string, name: string, c: string)
    requires Present(store, key)
    requires Resolve(store[key], language) == Ok(a + Placeholder("language") + b + Placeholder(name) + c)
    requires NoBrace(a) && NoBrace(b) && NoBrace(c) && PlainName(name) && name != "language"
    ensures Render(store, key, language, variables)
         == Ok(Fill(a + LanguageName(language) + b + Placeholder(name) + c, variables))
  {
    LanguageBeforeOther(a, LanguageName(language), b, name, c);
  }

  /** The judge template's shape has no `{{language}}`: that replacement leaves it as it is. */
  lemma JudgeShapeNoLanguage(a: string, b: string, c: string, d: string, display: string)
    requires NoBrace(a) && NoBrace(b) && NoBrace(c) && NoBrace(d)
    ensures ReplaceAll(a + Placeholder("k") + (b + Placeholder("k") + (c + Placeholder("candidates") + d)),
                       Placeholder("language"), display)
         == a + Placeholder("k") + (b + Placeholder("k") + (c + Placeholder("candidates") + d))
  {
    var pl, pk, pc := Placeholder("language"), Placeholder("k"), Placeholder("candidates");
    var r2 := c + pc + d;
    var r1 := b + pk + r2;
    assert ReplaceAll(r2, pl, display) == r2 by {
      ReplaceOther(c, "language", "candidates", display, d);
      NoBraceNoPlaceholder(d, "language");
      ReplaceAllWithoutMatch(d, pl, display);
    }
    assert ReplaceAll(r1, pl, display) == r1 by {
      ReplaceOther(b, "language", "k", display, r2);
    }
    ReplaceOther(a, "language", "k", display, r1);
  }

  /** Both `{{k}}` of the judge template's shape receive the same value; `{{candidates}}` stays. */
  lemma JudgeShapeFillK(a: string, b: string, c: string, d: string, kv: string)
    requires NoBrace(a) && NoBrace(b) && NoBrace(c) && NoBrace(d)
    ensures ReplaceAll(a + Placeholder("k") + (b + Placeholder("k") + (c + Placeholder("candidates") + d)),
                       Placeholder("k"), kv)
         == a + kv + (b + kv + (c + Placeholder("candidates") + d))
  {
    var pk, pc := Placeholder("k"), Placeholder("candidates");
    var r2 := c + pc + d;
    var r1 := b + pk + r2;
    assert ReplaceAll(r2, pk, kv) == r2 by {
      ReplaceOther(c, "k", "candidates", kv, d);
      NoBraceNoPlaceholder(d, "k");
      ReplaceAllWithoutMatch(d, pk, kv);
    }
    assert ReplaceAll(r1, pk, kv) == b + kv + r2 by {
      ReplaceHere(b, "k", kv, r2);
    }
    ReplaceHere(a, "k", kv, r1);
  }

  lemma Regroup7(a: string, x: string, b: string, y: string, c: string, p: string, d: string)
    ensures a + x + (b + y + (c + p + d)) == (a + x + b + y + c) + p + d
  {
  }

  /** Rendering the judge template's shape: `{{k}}` twice, then `{{candidates}}`. */
  lemma JudgeShapeRender(a: string, b: string, c: string, d: string, display: string, kv: string, cv: string)
    requires NoBrace(a) && NoBrace(b) && NoBrace(c) && NoBrace(d) && NoBrace(kv)
    ensures Fill(ReplaceAll(a + Placeholder("k") + (b + Placeholder("k") + (c + Placeholder("candidates") + d)),
                            Placeholder("language"), display),
                 [("k", kv), ("candidates", cv)])
         == a + kv + b + kv + c + cv + d
  {
    var t := a + Placeholder("k") + (b + Placeholder("k") + (c + Placeholder("candidates") + d));
    var head := a + kv + b + kv + c;
    JudgeShapeNoLanguage(a, b, c, d, display);
    assert ReplaceAll(t, Placeholder("k"), kv) == head + Placeholder("candidates") + d by {
      JudgeShapeFillK(a, b, c, d, kv);
      Regroup7(a, kv, b, kv, c, Placeholder("candidates"), d);
    }
    assert ReplaceAll(head + Placeholder("candidates") + d, Placeholder("candidates"), cv) == head + cv + d by {
      NoBraceJoin(a, kv);
      NoBraceJoin(a + kv, b);
      NoBraceJoin(a + kv + b, kv);
      NoBraceJoin(a + kv + b + kv, c);
      ReplacePlaceholder(head, "candidates", cv, d);
    }
    assert [("k", kv), ("candidates", cv)][1..] == [("candidates", cv)];
    FillSingle(head + Placeholder("candidates") + d, "candidates", cv);
  }

  lemma RegroupJudge(a: string, p: string, b: string, q: string, c: string, r: string, d: string)
    ensures a + p + b + q + c + r + d == a + p + (b + q + (c + r + d))
  {
  }

  lemma JudgeRulesNoBrace()
    ensures NoBrace(JudgeRules)
  {
    var r1, r2, r3, r4 := "\nRegole: coerenza logica, ", "correttezza, assenza ", "di contraddizioni.\nOutput:", "\nBEST: CX\nMOTIVO: (max 3 righe)";
    assert NoBrace(r1) && NoBrace(r2) && NoBrace(r3) && NoBrace(r4);
    NoBraceJoin(r1, r2);
    NoBraceJoin(r1 + r2, r3);
    NoBraceJoin(r1 + r2 + r3, r4);
  }

  /**
   * The built-in judge prompt: the number of candidates appears twice and the
   * candidate list once, whatever the language.
   */
  lemma BuiltInJudge(language: string, kv: string, cv: string)
    requires NoBrace(kv)
    ensures Render(FallbackPrompts, "judge", language, [("k", kv), ("candidates", cv)])
         == Ok("Hai " + kv + " CANDIDATI (C1..C" + kv + "). Scegli il migliore.\n" + cv + JudgeRules)
  {
    var a, b, c := "Hai ", " CANDIDATI (C1..C", "). Scegli il migliore.\n";
    assert Placeholder("k") == "{{k}}" && Placeholder("candidates") == "{{candidates}}";
    assert NoBrace(a) && NoBrace(b) && NoBrace(c);
    JudgeRulesNoBrace();
    RegroupJudge(a, "{{k}}", b, "{{k}}", c, "{{candidates}}", JudgeRules);
    assert FallbackPrompts["judge"] == Plain(JudgeFallback);
    JudgeShapeRender(a, b, c, JudgeRules, LanguageName(language), kv, cv);
  }
}
