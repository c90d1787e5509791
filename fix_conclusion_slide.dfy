/** The conclusion slide spacing fix: every text frame wraps words, every
    paragraph gets 6pt of spacing before and after, and the title and
    section-header sizes step down. */
module FixConclusionSlide {
  import opened Wrappers
  import opened Sequences
  import opened Slides

  /** For a run with an explicit, nonzero size above 14pt, 32pt becomes 28pt
      and 18pt becomes 16pt. A third case would turn 14pt into 12pt, but the
      guard above 14pt excludes it, so it never applies. */
  function ConclusionRun(r: Run): Run {
    if Truthy(r.size) && r.size.value > Pt(14) then
      if r.size.value == Pt(32) then r.(size := Some(Pt(28)))
      else if r.size.value == Pt(18) then r.(size := Some(Pt(16)))
      else if r.size.value == Pt(14) then r.(size := Some(Pt(12)))
      else r
    else r
  }

  /** Spacing of 6pt before and after. */
  function Space(p: Paragraph): Paragraph {
    p.(spaceBefore := Some(Pt(6)), spaceAfter := Some(Pt(6)))
  }

  /** One text frame: word wrap on, then per paragraph the spacing and the
      run sizes. */
  function ConclusionFrame(f: TextFrame): TextFrame {
    TextFrame(Map(f.paragraphs, (p: Paragraph) => MapParagraphRuns(Space(p), ConclusionRun)), Some(true))
  }

  /** The loops of the script over one text frame. */
  method RewriteConclusionFrame(f: TextFrame) returns (g: TextFrame)
    ensures g == ConclusionFrame(f)
  {
    var ps := f.paragraphs;
    var i := 0;
    while i < |ps|
      invariant 0 <= i <= |ps| == |f.paragraphs|
      invariant forall m :: 0 <= m < i ==> ps[m] == MapParagraphRuns(Space(f.paragraphs[m]), ConclusionRun)
      invariant forall m :: i <= m < |ps| ==> ps[m] == f.paragraphs[m]
    {
      var runs := RewriteRuns(ps[i].runs, ConclusionRun);
      ps := ps[i := Space(ps[i]).(runs := runs)];
      i := i + 1;
    }
    g := TextFrame(ps, Some(true));
  }

  /** The whole script on a loaded presentation. */
  method FixConclusion(prs: Presentation)
    modifies prs
    ensures prs.slides == MapFrames(old(prs.slides), ConclusionFrame)
  {
    RewriteDeckFrames(prs, ConclusionFrame);
  }

  /** Exactly two sizes change: 32pt becomes 28pt and 18pt becomes 16pt.
      Every other run, 14pt body text included, is unchanged, and no run's
      text changes. */
  lemma ConclusionRunRule(r: Run)
    ensures ConclusionRun(r).text == r.text
    ensures r.size == Some(Pt(32)) ==> ConclusionRun(r).size == Some(Pt(28))
    ensures r.size == Some(Pt(18)) ==> ConclusionRun(r).size == Some(Pt(16))
    ensures r.size != Some(Pt(32)) && r.size != Some(Pt(18)) ==> ConclusionRun(r) == r
  {
  }

  /** The rule never produces a size it would change again, so a second run
      of the script leaves sizes as the first left them. */
  lemma ConclusionRunIdempotent(r: Run)
    ensures ConclusionRun(ConclusionRun(r)) == ConclusionRun(r)
  {
  }

  lemma ConclusionFrameIdempotent(f: TextFrame)
    ensures ConclusionFrame(ConclusionFrame(f)) == ConclusionFrame(f)
  {
    var g := ConclusionFrame(f);
    forall i | 0 <= i < |g.paragraphs|
      ensures MapParagraphRuns(Space(g.paragraphs[i]), ConclusionRun) == g.paragraphs[i]
    {
      var rs := g.paragraphs[i].runs;
      forall k | 0 <= k < |rs| ensures ConclusionRun(rs[k]) == rs[k] {
        ConclusionRunIdempotent(f.paragraphs[i].runs[k]);
      }
    }
  }

  /** Paragraph by paragraph: word wrap is on, no paragraph is added or
      removed, each gets 6pt spacing, keeps its text and its number of runs. */
  lemma ConclusionFrameParagraphs(f: TextFrame, i: int)
    requires 0 <= i < |f.paragraphs|
    ensures var g := ConclusionFrame(f);
      && g.wordWrap == Some(true)
      && |g.paragraphs| == |f.paragraphs|
      && g.paragraphs[i].spaceBefore == Some(600) && g.paragraphs[i].spaceAfter == Some(600)
      && |g.paragraphs[i].runs| == |f.paragraphs[i].runs|
      && ParagraphText(g.paragraphs[i]) == ParagraphText(f.paragraphs[i])
  {
    forall r: Run ensures ConclusionRun(r).text == r.text {
      ConclusionRunRule(r);
    }
    MapKeepsText(f.paragraphs[i].runs, ConclusionRun);
  }
}
