/**
 * The text-level helpers of the PDF report: which executive summary is
 * printed, how Markdown markers are stripped from AI text, what each layer's
 * section shows, and where the page-break rule puts each line.
 */
module Report {
  import opened Wrappers
  import opened Text
  import opened Analysis

  /** The summary printed when the run produced none. */
  const MethodologySummary: string :=
    "This report applies the MAESTRO (Multi-Agent Environment, Security, Threat, Risk, and Outcome) framework "
    + "for agentic AI threat modeling. MAESTRO provides a structured, seven-layer approach to systematically "
    + "analyze and mitigate security risks in multi-agent systems. It addresses both traditional security "
    + "vulnerabilities and novel threats arising from agentic factors like autonomy, non-determinism, and "
    + "complex agent-to-agent interactions. The following sections detail the analysis for each layer based "
    + "on the provided system architecture.\n\nFor more details on the framework, visit: "
    + "https://cloudsecurityalliance.org/blog/2025/02/06/agentic-ai-threat-modeling-framework-maestro"

  /** `executiveSummary || MAESTRO_METHODOLOGY_SUMMARY`: a missing or empty
      summary falls back to the methodology text. */
  function SummaryToUse(summary: Option<string>): (r: string)
    ensures summary.Some? && summary.value != [] ==> r == summary.value
    ensures summary.None? || summary.value == [] ==> r == MethodologySummary
    ensures r != []
  {
    if summary.Some? && summary.value != [] then summary.value else MethodologySummary
  }

  // ---------------------------------------------------------------------
  // Markdown stripping: `text.replace(/###\s|##\s|#\s|\*\*/g, '')`

  /** The characters a marker is made of. */
  predicate MarkerChar(c: char) {
    c == '#' || c == '*' || IsWhitespace(c)
  }

  /** The length of the marker the regular expression matches at the start
      of `s` (alternatives tried in order), or 0 when none matches. */
  function MarkerAt(s: string): (k: nat)
    ensures k <= |s|
    ensures k == 0 || k == 2 || k == 3 || k == 4
    ensures forall i | 0 <= i < k :: MarkerChar(s[i])
    ensures k > 0 ==> s[0] == '#' || s[0] == '*'
  {
    if |s| >= 4 && s[0] == '#' && s[1] == '#' && s[2] == '#' && IsWhitespace(s[3]) then 4
    else if |s| >= 3 && s[0] == '#' && s[1] == '#' && IsWhitespace(s[2]) then 3
    else if |s| >= 2 && s[0] == '#' && IsWhitespace(s[1]) then 2
    else if |s| >= 2 && s[0] == '*' && s[1] == '*' then 2
    else 0
  }

  /** The global replacement: scanning left to right, every marker found is
      removed and every other character kept. */
  function StripMarkdown(s: string): (r: string)
    ensures |r| <= |s|
    decreases |s|
  {
    if s == [] then []
    else
      var k := MarkerAt(s);
      if k > 0 then StripMarkdown(s[k..]) else [s[0]] + StripMarkdown(s[1..])
  }

  /** Stripping only removes marker characters: every other character (a
      backtick, a letter, a digit) occurs as often afterwards as before. */
  lemma {:induction false} StripKeepsContent(s: string, c: char)
    requires !MarkerChar(c)
    ensures multiset(StripMarkdown(s))[c] == multiset(s)[c]
    decreases |s|
  {
    if s != [] {
      var k := MarkerAt(s);
      if k > 0 {
        assert s == s[..k] + s[k..];
        assert c !in multiset(s[..k]) by {
          forall i | 0 <= i < k ensures s[..k][i] != c {
            assert MarkerChar(s[i]);
          }
        }
        StripKeepsContent(s[k..], c);
      } else {
        assert s == [s[0]] + s[1..];
        StripKeepsContent(s[1..], c);
      }
    }
  }

  /** Text without `#` or `*` is printed as it is. */
  lemma {:induction false} StripWithoutMarkers(s: string)
    requires forall i | 0 <= i < |s| :: s[i] != '#' && s[i] != '*'
    ensures StripMarkdown(s) == s
    decreases |s|
  {
    if s != [] {
      assert MarkerAt(s) == 0;
      StripWithoutMarkers(s[1..]);
    }
  }

  /** Text with no whitespace and no two asterisks in a row holds no marker,
      so a `#` not followed by whitespace and a lone `*` are printed. */
  lemma {:induction false} StripKeepsUnmarked(s: string)
    requires forall i | 0 <= i < |s| :: !IsWhitespace(s[i])
    requires forall i | 0 <= i < |s| - 1 :: !(s[i] == '*' && s[i + 1] == '*')
    ensures StripMarkdown(s) == s
    decreases |s|
  {
    if s != [] {
      assert MarkerAt(s) == 0;
      assert forall i | 0 <= i < |s| - 1 :: s[1..][i] == s[i + 1];
      StripKeepsUnmarked(s[1..]);
    }
  }

  /** A first character that cannot open a marker is printed. */
  lemma StripPlainHead(s: string)
    requires s != [] && s[0] != '#' && s[0] != '*'
    ensures StripMarkdown(s) == [s[0]] + StripMarkdown(s[1..])
  {
    assert MarkerAt(s) == 0;
  }

  /** Text before the first `#` or `*` is printed as it is, and the rest is
      stripped on its own. */
  lemma {:induction false} StripPlainPrefix(a: string, b: string)
    requires forall i | 0 <= i < |a| :: a[i] != '#' && a[i] != '*'
    ensures StripMarkdown(a + b) == a + StripMarkdown(b)
    decreases |a|
  {
    if a != [] {
      var s := a + b;
      assert s[0] == a[0] && s[1..] == a[1..] + b;
      calc {
        StripMarkdown(s);
        { StripPlainHead(s); }
        [a[0]] + StripMarkdown(a[1..] + b);
        { StripPlainPrefix(a[1..], b); }
        [a[0]] + (a[1..] + StripMarkdown(b));
        { assert a == [a[0]] + a[1..]; }
        a + StripMarkdown(b);
      }
    } else {
      assert a + b == b;
    }
  }

  /** Each alternative of the expression is removed where it occurs: `#`,
      `##` or `###` followed by one whitespace character, and `**`. */
  lemma StripDropsMarker(m: string, w: char, b: string)
    requires IsWhitespace(w)
    requires m == "#" + [w] || m == "##" + [w] || m == "###" + [w] || m == "**"
    ensures StripMarkdown(m + b) == StripMarkdown(b)
  {
    var s := m + b;
    assert s[..|m|] == m;
    assert s[|m|..] == b;
    assert MarkerAt(s) == |m|;
  }

  /** One pass is not a fixpoint: removing a marker can join two asterisks. */
  lemma StripNotIdempotent()
    ensures StripMarkdown("*# *") == "**"
    ensures StripMarkdown(StripMarkdown("*# *")) == ""
  {
    assert MarkerAt("*# *") == 0;
    assert "*# *"[1..] == "# *";
    assert MarkerAt("# *") == 2;
    assert "# *"[2..] == "*";
    assert MarkerAt("*") == 0;
    assert "*"[1..] == "";
    assert MarkerAt("**") == 2;
    assert "**"[2..] == "";
  }

  // ---------------------------------------------------------------------
  // Layer sections

  /** What the report prints under a layer's name: "Pending AI
      investigation...", "An error occurred during analysis.", the findings,
      or nothing. */
  datatype Section =
    | PendingNote
    | ErrorNote
    | Findings(threat: string, recommendation: string, reasoning: string, caveats: string)
    | NoDetails

  /** The section of one layer: a note for pending, analysing and failed
      layers; the threat (stripped) and the mitigation fields (verbatim) for
      a complete layer whose threat text is non-empty; nothing otherwise. */
  function LayerSection(l: LayerData): (s: Section)
    ensures s.PendingNote? <==> l.status == Pending || l.status == Analyzing
    ensures s.ErrorNote? <==> l.status == Error
    ensures s.Findings? <==> l.status == Complete && l.threat.Some? && l.threat.value != [] && l.mitigation.Some?
    ensures s.Findings? ==>
              && s.threat == StripMarkdown(l.threat.value)
              && s.recommendation == l.mitigation.value.recommendation
              && s.reasoning == l.mitigation.value.reasoning
              && s.caveats == l.mitigation.value.caveats
  {
    if l.status == Pending || l.status == Analyzing then PendingNote
    else if l.status == Error then ErrorNote
    else if l.threat.Some? && l.threat.value != [] && l.mitigation.Some? then
      assert l.status == Complete;
      Findings(StripMarkdown(l.threat.value), l.mitigation.value.recommendation,
               l.mitigation.value.reasoning, l.mitigation.value.caveats)
    else NoDetails
  }

  /** After a run, a completed layer's section shows its findings unless the
      threat text came back empty; a section is blank for no other reason. */
  lemma RunSections(catalog: seq<Layer>, p: Page, architecture: string, env: Environment, j: nat)
    requires DistinctIds(catalog) && j < |catalog|
    ensures var l := Analyze(catalog, p, architecture, env).layers[j];
            && (LayerSection(l).NoDetails? <==> l.status == Complete && l.threat == Some([]))
            && (LayerSection(l).Findings? <==> l.status == Complete && l.threat != Some([]))
  {
    CompleteHasResults(catalog, p, architecture, env, j);
  }

  // ---------------------------------------------------------------------
  // Page breaks

  /** Where a block of wrapped lines lands: the y position each line is
      drawn at (jsPDF's baseline), the final y position, and the pages added. */
  datatype Placement = Placement(lineYs: seq<real>, y: real, pagesAdded: nat)

  /** The line loop of `addText`: a line that would cross the bottom margin
      starts a new page at the top margin; each line advances the position
      by 1.15 times its height. */
  function PlaceLines(heights: seq<real>, y: real, pageHeight: real, margin: real): (r: Placement)
    ensures |r.lineYs| == |heights| && r.pagesAdded <= |heights|
    ensures forall j | 0 <= j < |heights| && heights[j] <= pageHeight - 2.0 * margin ::
              r.lineYs[j] + heights[j] <= pageHeight - margin
    ensures y >= margin && (forall j | 0 <= j < |heights| :: heights[j] >= 0.0) ==>
              forall j | 0 <= j < |heights| :: r.lineYs[j] >= margin
    decreases |heights|
  {
    if heights == [] then Placement([], y, 0)
    else
      var h := heights[0];
      var breaks := y + h > pageHeight - margin;
      var lineY := if breaks then margin else y;
      var rest := PlaceLines(heights[1..], lineY + h * 1.15, pageHeight, margin);
      Placement([lineY] + rest.lineYs, rest.y, rest.pagesAdded + if breaks then 1 else 0)
  }
}
