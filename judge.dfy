/**
 * The consensus judge: how the k candidates are shown to it (labelled
 * C1..Ck), how its `BEST: C<n>` verdict is read in any of the supported
 * languages, and how the verdict becomes a safe candidate index.
 */
module Judge {
  import opened Outcomes
  import opened JsText
  import opened JsValues

  /** The keyword alternatives of the verdict pattern, in the order the pattern tries them. */
  const BestKeywords: seq<string> := ["BEST", "MIGLIORE", "MEJOR", "BESTER", "最佳", "MEILLEUR", "ЛУЧШИЙ"]

  /** The candidate numbered `i` (from 1) as the judge sees it. */
  function Labelled(i: nat, candidate: string): string {
    "C" + NatToString(i) + ":\n" + candidate
  }

  function LabelledAll(candidates: seq<string>): (r: seq<string>)
    ensures |r| == |candidates|
    ensures forall i :: 0 <= i < |r| ==> r[i] == Labelled(i + 1, candidates[i])
  {
    seq(|candidates|, i requires 0 <= i < |candidates| => Labelled(i + 1, candidates[i]))
  }

  /** The `{{candidates}}` text: every candidate under its label, separated by blank lines. */
  function CandidatesText(candidates: seq<string>): (r: string)
    ensures r == [] <==> candidates == []
  {
    Join(LabelledAll(candidates), "\n\n")
  }

  /** A single candidate is shown as `C1:` followed by its text. */
  lemma CandidatesTextSingle(c: string)
    ensures CandidatesText([c]) == "C1:\n" + c
  {
  }

  /** The listing is built in order: one more candidate adds a blank line and its label `C<k+1>`. */
  lemma CandidatesTextAppend(candidates: seq<string>, c: string)
    requires candidates != []
    ensures CandidatesText(candidates + [c])
         == CandidatesText(candidates) + "\n\n" + Labelled(|candidates| + 1, c)
  {
    assert LabelledAll(candidates + [c]) == LabelledAll(candidates) + [Labelled(|candidates| + 1, c)];
    JoinAppend(LabelledAll(candidates), Labelled(|candidates| + 1, c), "\n\n");
  }

  /** After a keyword ending at `q`: `:`, optional white space, `C` in either case, and the digit run that follows. */
  function DigitsAfterKeyword(s: string, q: nat): (r: Option<string>)
    ensures r.Some? ==> r.value != [] && AllDigits(r.value)
  {
    if q < |s| && s[q] == ':' then
      var c := SkipSpace(s, q + 1);
      if c < |s| && Fold(s[c]) == 'C' then
        var d := LeadingDigits(s[c + 1..]);
        if d == [] then None else Some(d)
      else None
    else None
  }

  /** The verdict pattern at position `p`, trying the keywords in order. */
  function LabelAt(s: string, p: nat, keywords: seq<string>): (r: Option<string>)
    ensures r.Some? ==> r.value != [] && AllDigits(r.value)
  {
    if keywords == [] then None
    else if MatchAt(s, p, keywords[0], true) && DigitsAfterKeyword(s, p + |keywords[0]|).Some? then
      DigitsAfterKeyword(s, p + |keywords[0]|)
    else LabelAt(s, p, keywords[1..])
  }

  /** Only a keyword can start a verdict. */
  lemma {:induction false} LabelAtNeedsKeyword(s: string, p: nat, keywords: seq<string>)
    requires forall i :: 0 <= i < |keywords| ==> !MatchAt(s, p, keywords[i], true)
    ensures LabelAt(s, p, keywords) == None
  {
    if keywords != [] {
      LabelAtNeedsKeyword(s, p, keywords[1..]);
    }
  }

  /** The leftmost verdict at or after `p`: the digits of `C<n>`, as the regular expression captures them. */
  function FindLabel(s: string, p: nat): (r: Option<string>)
    ensures r.Some? ==> r.value != [] && AllDigits(r.value)
    decreases |s| - p
  {
    if p >= |s| then None
    else match LabelAt(s, p, BestKeywords)
      case Some(d) => Some(d)
      case None => FindLabel(s, p + 1)
  }

  function Clamp(i: int, count: int): int {
    if count <= 0 || i <= 0 then 0 else if i < count then i else count - 1
  }

  /**
   * The chosen candidate: `C<n>` read from the verdict gives `n - 1`, no
   * verdict gives 0, and the result is clamped into the candidate list.
   */
  function JudgeIndex(verdict: string, count: int): (r: int)
    ensures 0 <= r && (count > 0 ==> r < count)
    ensures FindLabel(verdict, 0).None? ==> r == 0
    ensures FindLabel(verdict, 0).Some? ==> r == Clamp(DigitsValue(FindLabel(verdict, 0).value) - 1, count)
  {
    var best := match FindLabel(verdict, 0)
      case Some(digits) => DigitsValue(digits) - 1
      case None => 0;
    var bounded := if best < count - 1 then best else count - 1;
    if 0 < bounded then bounded else 0
  }

  /** A verdict with no keyword anywhere, in any case, is never read as a label. */
  lemma {:induction false} NoKeywordNoLabel(s: string, p: nat)
    requires forall q, i :: 0 <= i < |BestKeywords| ==> !MatchAt(s, q, BestKeywords[i], true)
    ensures FindLabel(s, p) == None
    decreases |s| - p
  {
    if p < |s| {
      LabelAtNeedsKeyword(s, p, BestKeywords);
      NoKeywordNoLabel(s, p + 1);
    }
  }

  /** So such a verdict selects the first candidate. */
  lemma NoKeywordPicksFirst(verdict: string, count: int)
    requires forall q, i :: 0 <= i < |BestKeywords| ==> !MatchAt(verdict, q, BestKeywords[i], true)
    ensures JudgeIndex(verdict, count) == 0
  {
    NoKeywordNoLabel(verdict, 0);
  }

  /** The verdict line the judge is asked to write, `BEST: C<n>`, followed by anything but a digit. */
  function Verdict(n: nat, rest: string): string {
    "BEST: C" + NatToString(n) + rest
  }

  /** The first keyword, `BEST`, is tried first. */
  lemma LabelAtBest(s: string, digits: string)
    requires |s| >= 4 && s[..4] == "BEST" && DigitsAfterKeyword(s, 4) == Some(digits)
    ensures LabelAt(s, 0, BestKeywords) == Some(digits)
  {
    assert BestKeywords[0] == "BEST";
    forall j | 0 <= j < 4
      ensures SameChar(s[j], "BEST"[j], true)
    {
      assert s[j] == s[..4][j];
    }
    assert MatchAt(s, 0, "BEST", true);
  }

  /** `: C` followed by digits and then a non-digit gives exactly those digits. */
  lemma DigitsAfterColon(s: string, q: nat, digits: string, rest: string)
    requires digits != [] && AllDigits(digits) && (rest == [] || !IsDigit(rest[0]))
    requires q + 3 <= |s| && s[q..q + 3] == ": C" && s[q + 3..] == digits + rest
    ensures DigitsAfterKeyword(s, q) == Some(digits)
  {
    assert s[q] == ':' && s[q + 2] == 'C';
    assert SkipSpace(s, q + 1) == q + 2;
    LeadingDigitsOfDigits(digits, rest);
  }

  /** The verdict starts with the keyword, then `: C`, then the number. */
  lemma VerdictParts(n: nat, rest: string)
    ensures |Verdict(n, rest)| >= 7 && Verdict(n, rest)[..4] == "BEST" && Verdict(n, rest)[4..7] == ": C"
    ensures Verdict(n, rest)[7..] == NatToString(n) + rest
  {
    var s := Verdict(n, rest);
    assert s == "BEST" + ": C" + (NatToString(n) + rest);
  }

  /** The verdict is found at its start, and its label is the rendered number. */
  lemma VerdictLabel(n: nat, rest: string)
    requires rest == [] || !IsDigit(rest[0])
    ensures FindLabel(Verdict(n, rest), 0) == Some(NatToString(n))
  {
    VerdictParts(n, rest);
    DigitsAfterColon(Verdict(n, rest), 4, NatToString(n), rest);
    LabelAtBest(Verdict(n, rest), NatToString(n));
  }

  /** Writing the verdict for candidate `n` and reading it back selects candidate `n - 1`, clamped. */
  lemma VerdictRoundTrip(n: nat, rest: string, count: int)
    requires rest == [] || !IsDigit(rest[0])
    ensures JudgeIndex(Verdict(n, rest), count) == Clamp(n - 1, count)
  {
    VerdictLabel(n, rest);
    DigitsValueOfNatToString(n);
  }
}
