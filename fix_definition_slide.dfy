/** The definition slide fix: the footer paragraph is cleared, paragraph
    spacing is tightened and every explicit font size drops by 2pt, never
    below 10pt. */
module FixDefinitionSlide {
  import opened Wrappers
  import opened Sequences
  import opened Slides
  import Text

  /** The footer is recognised by this phrase in its stripped, lower-cased text. */
  const FooterPhrase := "transforms a difficult"

  predicate IsFooter(p: Paragraph) {
    Text.Contains(Text.Lower(Text.Strip(ParagraphText(p))), FooterPhrase)
  }

  /** First loop: a footer paragraph has its text set to empty. */
  function ClearFooter(p: Paragraph): Paragraph {
    if IsFooter(p) then WithText(p, "") else p
  }

  /** Second loop: spacing 0pt before and 2pt after. */
  function Tighten(p: Paragraph): Paragraph {
    p.(spaceBefore := Some(Pt(0)), spaceAfter := Some(Pt(2)))
  }

  /** Third loop: a run with an explicit, nonzero size loses 2pt, but never
      goes below 10pt. */
  function ShrinkRun(r: Run): Run {
    if Truthy(r.size) then
      r.(size := Some(if r.size.value - Pt(2) >= Pt(10) then r.size.value - Pt(2) else Pt(10)))
    else r
  }

  /** The three loops over one text frame, in order. */
  function DefinitionFrame(f: TextFrame): TextFrame {
    MapFrameRuns(f.(paragraphs := Map(Map(f.paragraphs, ClearFooter), Tighten)), ShrinkRun)
  }

  /** The three loops of the script over one text frame. */
  method RewriteDefinitionFrame(f: TextFrame) returns (g: TextFrame)
    ensures g == DefinitionFrame(f)
  {
    var ps := RewriteParagraphs(f.paragraphs, ClearFooter);
    ps := RewriteParagraphs(ps, Tighten);
    g := RewriteFrameRuns(f.(paragraphs := ps), ShrinkRun);
  }

  /** The whole script on a loaded presentation. */
  method FixDefinition(prs: Presentation)
    modifies prs
    ensures prs.slides == MapFrames(old(prs.slides), DefinitionFrame)
  {
    RewriteDeckFrames(prs, DefinitionFrame);
  }

  /** The run rule: an explicit non-zero size loses 2pt but ends at least at
      10pt; an absent or zero size is left alone; the text never changes. */
  lemma ShrinkRunRule(r: Run)
    ensures ShrinkRun(r).text == r.text
    ensures !Truthy(r.size) ==> ShrinkRun(r) == r
    ensures Truthy(r.size) ==> ShrinkRun(r).size.Some? && ShrinkRun(r).size.value >= Pt(10)
    ensures Truthy(r.size) && r.size.value >= Pt(12) ==> ShrinkRun(r).size == Some(r.size.value - Pt(2))
    ensures Truthy(r.size) && r.size.value < Pt(12) ==> ShrinkRun(r).size == Some(Pt(10))
  {
  }

  /** Paragraph by paragraph: the frame keeps its paragraph count; every
      paragraph gets spacing 0pt/2pt; a footer paragraph ends with no runs
      and no text; any other paragraph keeps its text and its number of runs,
      each run shrunk by the run rule. */
  lemma DefinitionFrameParagraphs(f: TextFrame, i: int)
    requires 0 <= i < |f.paragraphs|
    ensures var g := DefinitionFrame(f);
      var p := f.paragraphs[i];
      && |g.paragraphs| == |f.paragraphs|
      && g.wordWrap == f.wordWrap
      && g.paragraphs[i].spaceBefore == Some(0) && g.paragraphs[i].spaceAfter == Some(200)
      && g.paragraphs[i].defaultSize == p.defaultSize
      && (IsFooter(p) ==> g.paragraphs[i].runs == [] && ParagraphText(g.paragraphs[i]) == "")
      && (!IsFooter(p) ==> g.paragraphs[i].runs == Map(p.runs, ShrinkRun)
                           && ParagraphText(g.paragraphs[i]) == ParagraphText(p))
  {
    var p := f.paragraphs[i];
    var c := ClearFooter(p);
    var q := DefinitionFrame(f).paragraphs[i];
    assert q == MapParagraphRuns(Tighten(c), ShrinkRun);
    if IsFooter(p) {
      assert c == WithText(p, "");
      assert q.runs == [];
    } else {
      assert c == p;
      forall r: Run ensures ShrinkRun(r).text == r.text {
        ShrinkRunRule(r);
      }
      MapKeepsText(p.runs, ShrinkRun);
    }
  }
}
