/**
 * Splitting a final text into its reasoning and its solution on the
 * `RAGIONAMENTO:` and `SOLUZIONE:` markers (matched in either case).
 */
module Sections {
  import opened Outcomes
  import opened JsText

  const ReasoningMarker: string := "RAGIONAMENTO:"
  const SolutionMarker: string := "SOLUZIONE:"

  datatype Parsed = Parsed(reasoning: string, solution: string, fullText: string)

  /** The trimmed text between the first reasoning marker and the next solution marker (or the end); the whole text without a marker. */
  function ReasoningSection(text: string): (r: string)
    ensures IndexOf(text, ReasoningMarker, 0, true).None? ==> r == text
    ensures IndexOf(text, ReasoningMarker, 0, true).Some? ==> IsTrimmed(r)
  {
    match IndexOf(text, ReasoningMarker, 0, true)
    case None => text
    case Some(p) =>
      var start := p + |ReasoningMarker|;
      var end := match IndexOf(text, SolutionMarker, start, true)
        case None => |text|
        case Some(q) => q;
      Trim(text[start..end])
  }

  /** The trimmed text after the first solution marker; empty without one. */
  function SolutionSection(text: string): (r: string)
    ensures IndexOf(text, SolutionMarker, 0, true).None? ==> r == ""
    ensures IsTrimmed(r)
  {
    match IndexOf(text, SolutionMarker, 0, true)
    case None => ""
    case Some(q) => Trim(text[q + |SolutionMarker|..])
  }

  /** `parseReasoningSolution`: both sections, and the text itself. */
  function ParseReasoningSolution(text: string): (r: Parsed)
    ensures r.fullText == text
    ensures IndexOf(text, ReasoningMarker, 0, true).None? ==> r.reasoning == text
    ensures IndexOf(text, SolutionMarker, 0, true).None? ==> r.solution == ""
  {
    Parsed(ReasoningSection(text), SolutionSection(text), text)
  }

  /** The layout the prompts ask the model for: `RAGIONAMENTO: <reasoning>`, a line break, `SOLUZIONE: <solution>`. */
  function Format(reasoning: string, solution: string): string {
    ReasoningMarker + (" " + reasoning + "\n") + (SolutionMarker + (" " + solution))
  }

  lemma Middle(a: string, b: string, c: string)
    ensures (a + b + c)[|a|..|a| + |b|] == b
  {
  }

  lemma Last(a: string, b: string, c: string, d: string)
    ensures (a + b + (c + d))[|a| + |b| + |c|..] == d
  {
  }

  /** If a match of `pat` lies at `p`, the leftmost match from any `from <= p` with none in between is at `p`. */
  lemma {:induction false} IndexOfAt(s: string, pat: string, from: nat, p: nat, ignoreCase: bool)
    requires from <= p && MatchAt(s, p, pat, ignoreCase)
    requires forall q :: from <= q < p ==> !MatchAt(s, q, pat, ignoreCase)
    ensures IndexOf(s, pat, from, ignoreCase) == Some(p)
    decreases p - from
  {
    if from < p {
      assert !MatchAt(s, from, pat, ignoreCase);
      IndexOfAt(s, pat, from + 1, p, ignoreCase);
    }
  }

  /** Where each part of a formatted text lies. */
  lemma FormatLayout(reasoning: string, solution: string)
    ensures |Format(reasoning, solution)| == 26 + |reasoning| + |solution|
    ensures forall j :: 0 <= j < 13 ==> Format(reasoning, solution)[j] == ReasoningMarker[j]
    ensures Format(reasoning, solution)[13] == ' '
    ensures forall j :: 0 <= j < |reasoning| ==> Format(reasoning, solution)[14 + j] == reasoning[j]
    ensures Format(reasoning, solution)[14 + |reasoning|] == '\n'
    ensures Format(reasoning, solution)[15 + |reasoning|..25 + |reasoning|] == SolutionMarker
  {
    var middle := " " + reasoning + "\n";
    var tail := SolutionMarker + (" " + solution);
    Middle(ReasoningMarker + middle, SolutionMarker, " " + solution);
    assert ReasoningMarker + middle + tail == (ReasoningMarker + middle) + SolutionMarker + (" " + solution);
  }

  /** In a formatted text the first solution marker is the one `Format` wrote. */
  lemma FirstSolutionMarker(reasoning: string, solution: string)
    requires forall q :: !MatchAt(reasoning, q, SolutionMarker, true)
    ensures forall q: nat :: q < 15 + |reasoning| ==> !MatchAt(Format(reasoning, solution), q, SolutionMarker, true)
    ensures MatchAt(Format(reasoning, solution), 15 + |reasoning|, SolutionMarker, true)
  {
    var text := Format(reasoning, solution);
    var nl := 14 + |reasoning|;
    FormatLayout(reasoning, solution);
    forall q: nat | q < 15 + |reasoning|
      ensures !MatchAt(text, q, SolutionMarker, true)
    {
      if q < 4 {
        assert Fold(text[q]) != Fold(SolutionMarker[0]);
      } else if q < 14 {
        assert Fold(text[13]) != Fold(SolutionMarker[13 - q]);
      } else if q + 10 <= nl {
        assert !MatchAt(reasoning, q - 14, SolutionMarker, true);
      } else if q + 10 <= |text| {
        assert Fold(text[nl]) != Fold(SolutionMarker[nl - q]);
      }
    }
    assert text[15 + |reasoning|..25 + |reasoning|] == SolutionMarker;
  }

  /** With the first reasoning marker at `p`, the reasoning is what lies between it and the next solution marker. */
  lemma ReasoningBetween(text: string, p: nat, q: nat)
    requires IndexOf(text, ReasoningMarker, 0, true) == Some(p)
    requires IndexOf(text, SolutionMarker, p + |ReasoningMarker|, true) == Some(q)
    ensures p + |ReasoningMarker| <= q <= |text|
    ensures ReasoningSection(text) == Trim(text[p + |ReasoningMarker|..q])
  {
  }

  /** With the first reasoning marker at `p` and no solution marker after it, the reasoning runs to the end of the text. */
  lemma ReasoningToEnd(text: string, p: nat)
    requires IndexOf(text, ReasoningMarker, 0, true) == Some(p)
    requires IndexOf(text, SolutionMarker, p + |ReasoningMarker|, true).None?
    ensures p + |ReasoningMarker| <= |text|
    ensures ReasoningSection(text) == Trim(text[p + |ReasoningMarker|..])
  {
    var start := p + |ReasoningMarker|;
    assert text[start..|text|] == text[start..];
  }

  /** In a formatted text the reasoning marker opens the text and the solution marker follows the reasoning. */
  lemma FormattedMarkers(reasoning: string, solution: string)
    requires forall q :: !MatchAt(reasoning, q, SolutionMarker, true)
    ensures IndexOf(Format(reasoning, solution), ReasoningMarker, 0, true) == Some(0)
    ensures IndexOf(Format(reasoning, solution), SolutionMarker, 13, true) == Some(15 + |reasoning|)
  {
    var text := Format(reasoning, solution);
    FormatLayout(reasoning, solution);
    assert MatchAt(text, 0, ReasoningMarker, true);
    IndexOfAt(text, ReasoningMarker, 0, 0, true);
    FirstSolutionMarker(reasoning, solution);
    IndexOfAt(text, SolutionMarker, 13, 15 + |reasoning|, true);
  }

  /** A trimmed reasoning padded by a space and a line break between the markers is the reasoning section. */
  lemma ReasoningPadded(text: string, q: nat, reasoning: string)
    requires IndexOf(text, ReasoningMarker, 0, true) == Some(0)
    requires IndexOf(text, SolutionMarker, 13, true) == Some(q)
    requires 13 <= q <= |text| && text[13..q] == " " + reasoning + "\n"
    requires IsTrimmed(reasoning)
    ensures ReasoningSection(text) == reasoning
  {
    ReasoningBetween(text, 0, q);
    TrimPadded(" ", reasoning, "\n");
  }

  lemma ReasoningOfFormatted(reasoning: string, solution: string)
    requires IsTrimmed(reasoning)
    requires forall q :: !MatchAt(reasoning, q, SolutionMarker, true)
    ensures ReasoningSection(Format(reasoning, solution)) == reasoning
  {
    var text := Format(reasoning, solution);
    var at := 15 + |reasoning|;
    FormattedMarkers(reasoning, solution);
    Middle(ReasoningMarker, " " + reasoning + "\n", SolutionMarker + (" " + solution));
    ReasoningPadded(text, at, reasoning);
  }

  lemma SolutionOfFormatted(reasoning: string, solution: string)
    requires IsTrimmed(solution)
    requires forall q :: !MatchAt(reasoning, q, SolutionMarker, true)
    ensures SolutionSection(Format(reasoning, solution)) == solution
  {
    var text := Format(reasoning, solution);
    var at := 15 + |reasoning|;
    FirstSolutionMarker(reasoning, solution);
    IndexOfAt(text, SolutionMarker, 0, at, true);
    Last(ReasoningMarker, " " + reasoning + "\n", SolutionMarker, " " + solution);
    assert text[at + |SolutionMarker|..] == " " + solution + "";
    TrimPadded(" ", solution, "");
  }

  /**
   * Formatting and then splitting gives back the reasoning and the solution,
   * when both are already trimmed and the reasoning has no solution marker.
   */
  lemma ParseFormatted(reasoning: string, solution: string)
    requires IsTrimmed(reasoning) && IsTrimmed(solution)
    requires forall q :: !MatchAt(reasoning, q, SolutionMarker, true)
    ensures ParseReasoningSolution(Format(reasoning, solution))
         == Parsed(reasoning, solution, Format(reasoning, solution))
  {
    ReasoningOfFormatted(reasoning, solution);
    SolutionOfFormatted(reasoning, solution);
  }
}
