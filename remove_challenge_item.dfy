/** Renumbering of the challenges list after items 5 and 6 were dropped:
    item 6 becomes 5 and item 7 becomes 6. */
module RemoveChallengeItem {
  import opened Sequences
  import opened Slides
  import Text

  const SixStart := "6. Hyperparameter sensitivity"
  const SevenStart := "7. Additional approximation"

  /** One paragraph: on a match, `para.text` becomes the stripped text with
      the item number replaced; the `elif` makes the two cases exclusive. */
  function RenumberParagraph(p: Paragraph): Paragraph {
    var text := Text.Strip(ParagraphText(p));
    if Text.StartsWith(text, SixStart) then WithText(p, Text.Replace(text, "6. Hyperparameter", "5. Hyperparameter"))
    else if Text.StartsWith(text, SevenStart) then WithText(p, Text.Replace(text, "7. Additional", "6. Additional"))
    else p
  }

  function RenumberFrame(f: TextFrame): TextFrame {
    f.(paragraphs := Map(f.paragraphs, RenumberParagraph))
  }

  /** The body of the paragraph loop. */
  method RenumberStep(p: Paragraph) returns (q: Paragraph)
    ensures q == RenumberParagraph(p)
  {
    q := p;
    var text := Text.Strip(ParagraphText(p));
    if Text.StartsWith(text, SixStart) {
      q := WithText(p, Text.Replace(text, "6. Hyperparameter", "5. Hyperparameter"));
    } else if Text.StartsWith(text, SevenStart) {
      q := WithText(p, Text.Replace(text, "7. Additional", "6. Additional"));
    }
  }

  /** The paragraph loop over one text frame. */
  method RewriteRenumberFrame(f: TextFrame) returns (g: TextFrame)
    ensures g == RenumberFrame(f)
  {
    var ps := f.paragraphs;
    var i := 0;
    while i < |ps|
      invariant 0 <= i <= |ps| == |f.paragraphs|
      invariant forall m :: 0 <= m < i ==> ps[m] == RenumberParagraph(f.paragraphs[m])
      invariant forall m :: i <= m < |ps| ==> ps[m] == f.paragraphs[m]
    {
      var q := RenumberStep(ps[i]);
      ps := ps[i := q];
      i := i + 1;
    }
    g := f.(paragraphs := ps);
  }

  /** The whole script on a loaded presentation. */
  method RenumberChallenges(prs: Presentation)
    modifies prs
    ensures prs.slides == MapFrames(old(prs.slides), RenumberFrame)
  {
    RewriteDeckFrames(prs, RenumberFrame);
  }

  /** Item 6 comes out as item 5: its text is the stripped text with the
      number replaced, starts "5. Hyperparameter", has the same length and
      sits in one run without an explicit size. */
  lemma RenumbersSix(p: Paragraph)
    requires Text.StartsWith(Text.Strip(ParagraphText(p)), SixStart)
    ensures var text := Text.Strip(ParagraphText(p));
      var q := RenumberParagraph(p);
      && ParagraphText(q) == Text.Replace(text, "6. Hyperparameter", "5. Hyperparameter")
      && Text.StartsWith(ParagraphText(q), "5. Hyperparameter")
      && |ParagraphText(q)| == |text|
      && |q.runs| == 1 && q.runs[0].size.None?
      && q.spaceBefore == p.spaceBefore && q.spaceAfter == p.spaceAfter
  {
    var text := Text.Strip(ParagraphText(p));
    Text.StartsWithPrefix(text, SixStart, "6. Hyperparameter");
    Text.ReplaceLeading(text, "6. Hyperparameter", "5. Hyperparameter");
    Text.ReplaceKeepsLength(text, "6. Hyperparameter", "5. Hyperparameter");
  }

  /** Item 7 comes out as item 6, in the same way. */
  lemma RenumbersSeven(p: Paragraph)
    requires Text.StartsWith(Text.Strip(ParagraphText(p)), SevenStart)
    ensures var text := Text.Strip(ParagraphText(p));
      var q := RenumberParagraph(p);
      && ParagraphText(q) == Text.Replace(text, "7. Additional", "6. Additional")
      && Text.StartsWith(ParagraphText(q), "6. Additional")
      && |ParagraphText(q)| == |text|
      && |q.runs| == 1 && q.runs[0].size.None?
      && q.spaceBefore == p.spaceBefore && q.spaceAfter == p.spaceAfter
  {
    var text := Text.Strip(ParagraphText(p));
    assert !Text.StartsWith(text, SixStart) by {
      assert text[0] == '7';
    }
    Text.StartsWithPrefix(text, SevenStart, "7. Additional");
    Text.ReplaceLeading(text, "7. Additional", "6. Additional");
    Text.ReplaceKeepsLength(text, "7. Additional", "6. Additional");
  }

  /** Every other paragraph is left exactly as it was, and no paragraph is
      added or removed. */
  lemma KeepsOtherParagraphs(f: TextFrame, i: int)
    requires 0 <= i < |f.paragraphs|
    requires !Text.StartsWith(Text.Strip(ParagraphText(f.paragraphs[i])), SixStart)
    requires !Text.StartsWith(Text.Strip(ParagraphText(f.paragraphs[i])), SevenStart)
    ensures |RenumberFrame(f).paragraphs| == |f.paragraphs|
    ensures RenumberFrame(f).paragraphs[i] == f.paragraphs[i]
  {
    assert RenumberParagraph(f.paragraphs[i]) == f.paragraphs[i];
  }

  /** Text starting "6. Additional" matches neither item phrase once
      stripped, whatever follows. */
  lemma RenumberedMatchesNoItem(t: string)
    requires Text.StartsWith(t, "6. Additional")
    ensures !Text.StartsWith(Text.Strip(t), SixStart)
    ensures !Text.StartsWith(Text.Strip(t), SevenStart)
  {
    assert t[0] == '6' && t[3] == 'A';
    assert Text.TrimStart(t) == t;
    Text.TrimEndSpec(t);
    var s := Text.Strip(t);
    assert s == t[..|s|];
    assert |s| >= 4 ==> s[0] == '6' && s[3] == 'A';
  }

  /** A second pass leaves the renumbered item 7 alone. */
  lemma SecondPassKeepsSeven(p: Paragraph)
    requires Text.StartsWith(Text.Strip(ParagraphText(p)), SevenStart)
    ensures RenumberParagraph(RenumberParagraph(p)) == RenumberParagraph(p)
  {
    var q := RenumberParagraph(p);
    RenumbersSeven(p);
    RenumberedMatchesNoItem(ParagraphText(q));
  }
}
