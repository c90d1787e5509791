/** Three passes that shrink body text that runs off the page. Each visits
    every run of every text shape and moves an explicit size strictly
    between 20pt and 32pt to a fixed smaller size; the challenges slide is
    also renumbered first. */
module FixOffPageSlides {
  import opened Wrappers
  import opened Sequences
  import opened Slides
  import Text

  /** A run whose explicit, nonzero size is above 20pt and below 32pt takes
      the target size; every other run is left as it is. */
  function Shrink(r: Run, target: int): Run {
    if Truthy(r.size) && r.size.value > Pt(20) then
      if r.size.value >= Pt(32) then r else r.(size := Some(target))
    else r
  }

  /** The band the passes move: an explicit size above 20pt and below 32pt. */
  predicate InBand(size: Option<int>) {
    size.Some? && Pt(20) < size.value < Pt(32)
  }

  /** A run changes exactly when its size is in the band, and then only its
      size, which becomes `target`. */
  lemma ShrinkRule(r: Run, target: int)
    ensures Shrink(r, target).text == r.text
    ensures InBand(r.size) ==> Shrink(r, target).size == Some(target)
    ensures !InBand(r.size) ==> Shrink(r, target) == r
  {
  }

  /** For a target outside the band (16pt and 18pt are), shrinking twice is
      shrinking once. */
  lemma ShrinkIdempotent(r: Run, target: int)
    requires !InBand(Some(target))
    ensures Shrink(Shrink(r, target), target) == Shrink(r, target)
  {
  }

  function ShrinkTo18(r: Run): Run { Shrink(r, Pt(18)) }
  function ShrinkTo16(r: Run): Run { Shrink(r, Pt(16)) }

  /** `fix_vi_definition_slide`: the band becomes 18pt. */
  method FixViDefinitionSlide(prs: Presentation)
    modifies prs
    ensures prs.slides == MapFrames(old(prs.slides), (f: TextFrame) => MapFrameRuns(f, ShrinkTo18))
  {
    RewriteDeckRuns(prs, ShrinkTo18);
  }

  /** `fix_conclusion_slide`: the band becomes 16pt. */
  method FixConclusionSlide(prs: Presentation)
    modifies prs
    ensures prs.slides == MapFrames(old(prs.slides), (f: TextFrame) => MapFrameRuns(f, ShrinkTo16))
  {
    RewriteDeckRuns(prs, ShrinkTo16);
  }

  /** After a shrinking pass no run has a size in the band, so running the
      pass again changes nothing. */
  lemma DefinitionPassSettles(slides: seq<Slide>)
    ensures MapFrames(MapFrames(slides, (f: TextFrame) => MapFrameRuns(f, ShrinkTo18)), (f: TextFrame) => MapFrameRuns(f, ShrinkTo18)) == MapFrames(slides, (f: TextFrame) => MapFrameRuns(f, ShrinkTo18))
  {
    forall fr: TextFrame ensures MapFrameRuns(MapFrameRuns(fr, ShrinkTo18), ShrinkTo18) == MapFrameRuns(fr, ShrinkTo18) {
      FrameRunsIdempotent(fr, ShrinkTo18);
    }
    DeckIdempotent(slides, (f: TextFrame) => MapFrameRuns(f, ShrinkTo18));
  }

  lemma ConclusionPassSettles(slides: seq<Slide>)
    ensures MapFrames(MapFrames(slides, (f: TextFrame) => MapFrameRuns(f, ShrinkTo16)), (f: TextFrame) => MapFrameRuns(f, ShrinkTo16)) == MapFrames(slides, (f: TextFrame) => MapFrameRuns(f, ShrinkTo16))
  {
    forall fr: TextFrame ensures MapFrameRuns(MapFrameRuns(fr, ShrinkTo16), ShrinkTo16) == MapFrameRuns(fr, ShrinkTo16) {
      FrameRunsIdempotent(fr, ShrinkTo16);
    }
    DeckIdempotent(slides, (f: TextFrame) => MapFrameRuns(f, ShrinkTo16));
  }

  /** Run by run: in the frame produced by a 16pt or 18pt pass no size lies in
      the band, every run keeps its text, and a run outside the band keeps
      its size. */
  lemma ShrunkFrameRuns(f: TextFrame, target: int, i: int, k: int)
    requires target == Pt(16) || target == Pt(18)
    requires 0 <= i < |f.paragraphs| && 0 <= k < |f.paragraphs[i].runs|
    ensures var g := MapFrameRuns(f, (r: Run) => Shrink(r, target));
      var before := f.paragraphs[i].runs[k];
      && |g.paragraphs| == |f.paragraphs|
      && |g.paragraphs[i].runs| == |f.paragraphs[i].runs|
      && !InBand(g.paragraphs[i].runs[k].size)
      && g.paragraphs[i].runs[k].text == before.text
      && (!InBand(before.size) ==> g.paragraphs[i].runs[k] == before)
      && (InBand(before.size) ==> g.paragraphs[i].runs[k].size == Some(target))
  {
  }

  // ---------------------------------------------------------------------
  // The challenges slide

  /** The renumbering loop of `fix_vi_challenges_slide`. Paragraphs starting
      "5. Coordinate" or "6. Hyperparameter" are only left out of
      `paragraphs_to_keep`, a list nothing reads, so they stay; a paragraph
      starting "7. Additional" gets its stripped text with that phrase
      replaced by "5. Additional". */
  function RenumberSeven(p: Paragraph): Paragraph {
    var text := Text.Strip(ParagraphText(p));
    if Text.StartsWith(text, "5. Coordinate") || Text.StartsWith(text, "6. Hyperparameter") then p
    else if Text.StartsWith(text, "7. Additional") then WithText(p, Text.Replace(text, "7. Additional", "5. Additional"))
    else p
  }

  /** `fix_vi_challenges_slide`, per text frame: renumber, then shrink to 16pt. */
  function ChallengesFrame(f: TextFrame): TextFrame {
    MapFrameRuns(f.(paragraphs := Map(f.paragraphs, RenumberSeven)), ShrinkTo16)
  }

  /** One step of the renumbering loop: the paragraph as it leaves the step,
      and whether the step reaches the `paragraphs_to_keep.append`. */
  method RenumberStep(p: Paragraph) returns (q: Paragraph, kept: bool)
    ensures q == RenumberSeven(p)
    ensures kept <==> !(Text.StartsWith(Text.Strip(ParagraphText(p)), "5. Coordinate")
                        || Text.StartsWith(Text.Strip(ParagraphText(p)), "6. Hyperparameter"))
  {
    var text := Text.Strip(ParagraphText(p));
    q := p;
    if Text.StartsWith(text, "5. Coordinate") || Text.StartsWith(text, "6. Hyperparameter") {
      return q, false;
    }
    if Text.StartsWith(text, "7. Additional") {
      q := WithText(p, Text.Replace(text, "7. Additional", "5. Additional"));
    }
    kept := true;
  }

  /** The two loops of `fix_vi_challenges_slide` over one text frame. The
      list of kept paragraphs is built but never used, as in the script. */
  method RewriteChallengesFrame(f: TextFrame) returns (g: TextFrame)
    ensures g == ChallengesFrame(f)
  {
    var ps := f.paragraphs;
    var paragraphsToKeep: seq<Paragraph> := [];
    var i := 0;
    while i < |ps|
      invariant 0 <= i <= |ps| == |f.paragraphs|
      invariant forall m :: 0 <= m < i ==> ps[m] == RenumberSeven(f.paragraphs[m])
      invariant forall m :: i <= m < |ps| ==> ps[m] == f.paragraphs[m]
    {
      var q, kept := RenumberStep(ps[i]);
      ps := ps[i := q];
      if kept {
        paragraphsToKeep := paragraphsToKeep + [q];
      }
      i := i + 1;
    }
    assert ps == Map(f.paragraphs, RenumberSeven);
    g := RewriteFrameRuns(f.(paragraphs := ps), ShrinkTo16);
  }

  /** `fix_vi_challenges_slide`. */
  method FixViChallengesSlide(prs: Presentation)
    modifies prs
    ensures prs.slides == MapFrames(old(prs.slides), ChallengesFrame)
  {
    RewriteDeckFrames(prs, ChallengesFrame);
  }

  /** No paragraph is removed: the challenges pass keeps the paragraph count,
      items 5 and 6 included, and keeps their text. */
  lemma ChallengesKeepsParagraphs(f: TextFrame, i: int)
    requires 0 <= i < |f.paragraphs|
    ensures |ChallengesFrame(f).paragraphs| == |f.paragraphs|
    ensures var text := Text.Strip(ParagraphText(f.paragraphs[i]));
      (Text.StartsWith(text, "5. Coordinate") || Text.StartsWith(text, "6. Hyperparameter")) ==>
        ChallengesFrame(f).paragraphs[i] == MapParagraphRuns(f.paragraphs[i], ShrinkTo16)
  {
    var text := Text.Strip(ParagraphText(f.paragraphs[i]));
    if Text.StartsWith(text, "5. Coordinate") || Text.StartsWith(text, "6. Hyperparameter") {
      assert RenumberSeven(f.paragraphs[i]) == f.paragraphs[i];
    }
  }

  /** Item 7 is renumbered: its new text is the stripped old text with
      "7. Additional" replaced, so it starts with "5. Additional" and has the
      stripped text's length. Setting the text discards the runs, so the new
      single run has no explicit size and the 16pt pass leaves it. */
  lemma ChallengesRenumbersSeven(f: TextFrame, i: int)
    requires 0 <= i < |f.paragraphs|
    requires Text.StartsWith(Text.Strip(ParagraphText(f.paragraphs[i])), "7. Additional")
    ensures var text := Text.Strip(ParagraphText(f.paragraphs[i]));
      var q := ChallengesFrame(f).paragraphs[i];
      && ParagraphText(q) == Text.Replace(text, "7. Additional", "5. Additional")
      && Text.StartsWith(ParagraphText(q), "5. Additional")
      && |ParagraphText(q)| == |text|
      && (forall k :: 0 <= k < |q.runs| ==> q.runs[k].size.None?)
  {
    var p := f.paragraphs[i];
    var text := Text.Strip(ParagraphText(p));
    var r := RenumberSeven(p);
    assert !Text.StartsWith(text, "5. Coordinate") by {
      assert text[0] == '7';
    }
    assert !Text.StartsWith(text, "6. Hyperparameter") by {
      assert text[0] == '7';
    }
    assert r == WithText(p, Text.Replace(text, "7. Additional", "5. Additional"));
    var q := ChallengesFrame(f).paragraphs[i];
    assert q == MapParagraphRuns(r, ShrinkTo16);
    forall k | 0 <= k < |r.runs| ensures ShrinkTo16(r.runs[k]) == r.runs[k] {
      assert r.runs[k].size.None?;
    }
    assert q.runs == r.runs;
    Text.ReplaceLeading(text, "7. Additional", "5. Additional");
    Text.ReplaceKeepsLength(text, "7. Additional", "5. Additional");
  }

  /** A paragraph that is not item 7 keeps its text and runs, apart from
      the 16pt shrink. */
  lemma ChallengesKeepsOtherText(f: TextFrame, i: int)
    requires 0 <= i < |f.paragraphs|
    requires !Text.StartsWith(Text.Strip(ParagraphText(f.paragraphs[i])), "7. Additional")
    ensures ChallengesFrame(f).paragraphs[i] == MapParagraphRuns(f.paragraphs[i], ShrinkTo16)
  {
    assert RenumberSeven(f.paragraphs[i]) == f.paragraphs[i];
  }

  /** The renumbered item 7 starts "5. Additional" once stripped, so it is
      neither item 5, 6 nor 7: any paragraph with the text a renumbering
      step produced is left alone by a further step. */
  lemma RenumberSevenSettles(p: Paragraph, x: Paragraph)
    requires ParagraphText(x) == ParagraphText(RenumberSeven(p))
    ensures RenumberSeven(x) == x
  {
    var text := Text.Strip(ParagraphText(p));
    if Text.StartsWith(text, "5. Coordinate") || Text.StartsWith(text, "6. Hyperparameter") {
      assert RenumberSeven(p) == p;
    } else if Text.StartsWith(text, "7. Additional") {
      var t := Text.Replace(text, "7. Additional", "5. Additional");
      assert RenumberSeven(p) == WithText(p, t);
      Text.ReplaceLeading(text, "7. Additional", "5. Additional");
      Text.StripKeepsPrefix(t, "5. Additional");
      var u := Text.Strip(ParagraphText(x));
      assert u[0] == '5' && u[3] == 'A';
    } else {
      assert RenumberSeven(p) == p;
    }
  }

  /** The challenges pass on one frame settles after one application:
      renumbering meets no item 7 the second time, and the 16pt shrink leaves
      nothing in the band. */
  lemma ChallengesFrameSettles(f: TextFrame)
    ensures ChallengesFrame(ChallengesFrame(f)) == ChallengesFrame(f)
  {
    var renumbered := f.(paragraphs := Map(f.paragraphs, RenumberSeven));
    var g := ChallengesFrame(f);
    forall x: Run ensures ShrinkTo16(x).text == x.text {
      ShrinkRule(x, Pt(16));
    }
    forall i | 0 <= i < |g.paragraphs| ensures RenumberSeven(g.paragraphs[i]) == g.paragraphs[i] {
      var r := RenumberSeven(f.paragraphs[i]);
      assert g.paragraphs[i] == MapParagraphRuns(r, ShrinkTo16);
      MapKeepsText(r.runs, ShrinkTo16);
      RenumberSevenSettles(f.paragraphs[i], g.paragraphs[i]);
    }
    assert g.(paragraphs := Map(g.paragraphs, RenumberSeven)) == g;
    forall x: Run ensures ShrinkTo16(ShrinkTo16(x)) == ShrinkTo16(x) {
      ShrinkIdempotent(x, Pt(16));
    }
    FrameRunsIdempotent(renumbered, ShrinkTo16);
  }

  /** A second run of the challenges pass over the whole deck changes nothing. */
  lemma ChallengesPassSettles(slides: seq<Slide>)
    ensures MapFrames(MapFrames(slides, ChallengesFrame), ChallengesFrame) == MapFrames(slides, ChallengesFrame)
  {
    forall fr: TextFrame ensures ChallengesFrame(ChallengesFrame(fr)) == ChallengesFrame(fr) {
      ChallengesFrameSettles(fr);
    }
    DeckIdempotent(slides, ChallengesFrame);
  }
}
