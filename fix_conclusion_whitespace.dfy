/** The conclusion whitespace fix: the cut-off footer paragraph is emptied
    and every paragraph gets 0pt spacing before and 4pt after. */
module FixConclusionWhitespace {
  import opened Wrappers
  import opened Sequences
  import opened Slides
  import Text

  /** The footer is recognised by the start of its stripped text. */
  const FooterStart := "The under-dispersion issue"

  predicate IsCutOff(p: Paragraph) {
    Text.StartsWith(Text.Strip(ParagraphText(p)), FooterStart)
  }

  function ClearRunText(r: Run): Run {
    r.(text := "")
  }

  /** The footer has every run's text emptied and then its own text set to
      empty; any other paragraph is left as it is. */
  function ClearCutOff(p: Paragraph): Paragraph {
    if IsCutOff(p) then WithText(p.(runs := Map(p.runs, ClearRunText)), "") else p
  }

  /** Spacing of 0pt before and 4pt after. */
  function Space(p: Paragraph): Paragraph {
    p.(spaceBefore := Some(Pt(0)), spaceAfter := Some(Pt(4)))
  }

  function WhitespaceFrame(f: TextFrame): TextFrame {
    f.(paragraphs := Map(Map(f.paragraphs, ClearCutOff), Space))
  }

  /** The body of the first loop for one paragraph. */
  method ClearStep(p: Paragraph) returns (q: Paragraph)
    ensures q == ClearCutOff(p)
  {
    q := p;
    var text := Text.Strip(ParagraphText(p));
    if Text.StartsWith(text, FooterStart) {
      var runs := RewriteRuns(p.runs, ClearRunText);
      q := WithText(p.(runs := runs), "");
    }
  }

  /** The first loop, over the frame's paragraphs. */
  method ClearCutOffs(ps: seq<Paragraph>) returns (out: seq<Paragraph>)
    ensures out == Map(ps, ClearCutOff)
  {
    out := ps;
    var i := 0;
    while i < |out|
      invariant 0 <= i <= |out| == |ps|
      invariant out[..i] == Map(ps[..i], ClearCutOff)
      invariant out[i..] == ps[i..]
    {
      var q := ClearStep(out[i]);
      assert out[i] == ps[i];
      out := out[i := q];
      i := i + 1;
    }
    assert ps[..i] == ps;
  }

  /** The two loops of the script over one text frame. */
  method RewriteWhitespaceFrame(f: TextFrame) returns (g: TextFrame)
    ensures g == WhitespaceFrame(f)
  {
    var ps := ClearCutOffs(f.paragraphs);
    ps := RewriteParagraphs(ps, Space);
    g := f.(paragraphs := ps);
  }

  /** The whole script on a loaded presentation. */
  method FixWhitespace(prs: Presentation)
    modifies prs
    ensures prs.slides == MapFrames(old(prs.slides), WhitespaceFrame)
  {
    RewriteDeckFrames(prs, WhitespaceFrame);
  }

  /** Emptying the runs first makes no difference: setting the text discards
      every run, so the footer becomes an empty paragraph with its own
      spacing and default size. */
  lemma ClearCutOffEmpties(p: Paragraph)
    requires IsCutOff(p)
    ensures ClearCutOff(p) == WithText(p, "")
    ensures ClearCutOff(p).runs == [] && ParagraphText(ClearCutOff(p)) == ""
  {
  }

  /** Paragraph by paragraph: none is added or removed, all get 0pt/4pt
      spacing, the footer loses its text and every other paragraph keeps its
      runs unchanged. */
  lemma WhitespaceFrameParagraphs(f: TextFrame, i: int)
    requires 0 <= i < |f.paragraphs|
    ensures var g := WhitespaceFrame(f);
      var p := f.paragraphs[i];
      && |g.paragraphs| == |f.paragraphs|
      && g.wordWrap == f.wordWrap
      && g.paragraphs[i].spaceBefore == Some(0) && g.paragraphs[i].spaceAfter == Some(400)
      && g.paragraphs[i].defaultSize == p.defaultSize
      && (IsCutOff(p) ==> g.paragraphs[i].runs == [])
      && (!IsCutOff(p) ==> g.paragraphs[i].runs == p.runs)
  {
    var p := f.paragraphs[i];
    assert WhitespaceFrame(f).paragraphs[i] == Space(ClearCutOff(p));
    if IsCutOff(p) {
      ClearCutOffEmpties(p);
    } else {
      assert ClearCutOff(p) == p;
    }
  }
}
