/** The part of a PowerPoint document the rewrite scripts touch: slides hold
    shapes, a shape may hold a text frame, a text frame holds paragraphs and a
    paragraph holds runs. Font sizes and paragraph spacing are in
    centipoints (hundredths of a point, the unit the file stores), `Pt(n)`
    being `100 * n`; shape positions are in EMU. An absent size or spacing
    is `None`, as python-pptx reports it. */
module Slides {
  import opened Wrappers
  import opened Sequences
  import Text

  /** `Pt(n)` in centipoints. */
  function Pt(n: int): int {
    n * 100
  }

  /** A run of characters with its optional explicit font size. */
  datatype Run = Run(text: string, size: Option<int>)

  /** A paragraph: its runs, its optional spacing before and after, and the
      paragraph-level default font size (`paragraph.font.size`). */
  datatype Paragraph = Paragraph(
    runs: seq<Run>, spaceBefore: Option<int>, spaceAfter: Option<int>, defaultSize: Option<int>)

  datatype TextFrame = TextFrame(paragraphs: seq<Paragraph>, wordWrap: Option<bool>)

  datatype PlaceholderKind = TitleKind | CenterTitleKind | SubtitleKind | BodyKind | OtherKind

  /** Whether a shape is a placeholder and of which type; `Unreadable` is a
      placeholder whose format lookup raises. */
  datatype PlaceholderInfo = NotPlaceholder | Placeholder(kind: PlaceholderKind) | Unreadable

  /** A shape: its name, its top offset in EMU (`None` when python-pptx
      reports no top), its placeholder information and its optional text frame. */
  datatype Shape = Shape(name: string, top: Option<int>, placeholder: PlaceholderInfo, frame: Option<TextFrame>)

  datatype Slide = Slide(shapes: seq<Shape>)

  /** A loaded presentation whose slides the scripts rewrite in place. */
  class Presentation {
    var slides: seq<Slide>

    constructor (slides: seq<Slide>)
      ensures this.slides == slides
    {
      this.slides := slides;
    }
  }

  /** The concatenated text of some runs. */
  function RunsText(rs: seq<Run>): string
    decreases |rs|
  {
    if rs == [] then "" else RunsText(rs[..|rs| - 1]) + rs[|rs| - 1].text
  }

  /** `paragraph.text`. */
  function ParagraphText(p: Paragraph): string {
    RunsText(p.runs)
  }

  /** `paragraph.text = t`: the runs are removed and, unless `t` is empty, one
      run holding `t` with no explicit size is added; the paragraph's own
      properties stay. */
  function WithText(p: Paragraph, t: string): (q: Paragraph)
    ensures ParagraphText(q) == t
    ensures |q.runs| <= 1
    ensures forall k :: 0 <= k < |q.runs| ==> q.runs[k].size.None?
    ensures q.spaceBefore == p.spaceBefore && q.spaceAfter == p.spaceAfter && q.defaultSize == p.defaultSize
  {
    var q := p.(runs := if t == [] then [] else [Run(t, None)]);
    assert t != [] ==> q.runs[..|q.runs| - 1] == [] && RunsText(q.runs) == RunsText([]) + t;
    q
  }

  /** The loop over a paragraph's runs as a method: the runs in order, each
      replaced by its image under `rule`. */
  method RewriteRuns(rs: seq<Run>, rule: Run -> Run) returns (out: seq<Run>)
    ensures out == Map(rs, rule)
  {
    out := rs;
    var k := 0;
    while k < |out|
      invariant 0 <= k <= |out| == |rs|
      invariant forall m :: 0 <= m < k ==> out[m] == rule(rs[m])
      invariant forall m :: k <= m < |out| ==> out[m] == rs[m]
    {
      out := out[k := rule(out[k])];
      k := k + 1;
    }
  }

  /** The loop over a frame's paragraphs as a method: the paragraphs in
      order, each replaced by its image under `rule`. */
  method RewriteParagraphs(ps: seq<Paragraph>, rule: Paragraph -> Paragraph) returns (out: seq<Paragraph>)
    ensures out == Map(ps, rule)
  {
    out := ps;
    var i := 0;
    while i < |out|
      invariant 0 <= i <= |out| == |ps|
      invariant forall m :: 0 <= m < i ==> out[m] == rule(ps[m])
      invariant forall m :: i <= m < |out| ==> out[m] == ps[m]
    {
      out := out[i := rule(out[i])];
      i := i + 1;
    }
  }

  /** A rule that keeps every run's text keeps the text of any paragraph. */
  lemma {:induction false} MapKeepsText(rs: seq<Run>, rule: Run -> Run)
    requires forall r :: rule(r).text == r.text
    ensures RunsText(Map(rs, rule)) == RunsText(rs)
    decreases |rs|
  {
    if rs != [] {
      var front := rs[..|rs| - 1];
      assert Map(rs, rule)[..|rs| - 1] == Map(front, rule);
      MapKeepsText(front, rule);
    }
  }

  /** A paragraph with each of its runs rewritten by `rule`. */
  function MapParagraphRuns(p: Paragraph, rule: Run -> Run): Paragraph {
    p.(runs := Map(p.runs, rule))
  }

  /** A text frame with each paragraph's runs rewritten by `rule`. */
  function MapFrameRuns(f: TextFrame, rule: Run -> Run): TextFrame {
    f.(paragraphs := Map(f.paragraphs, (p: Paragraph) => MapParagraphRuns(p, rule)))
  }

  /** The nested loops over a frame's paragraphs and their runs, applying
      `rule` to each run. */
  method RewriteFrameRuns(f: TextFrame, rule: Run -> Run) returns (g: TextFrame)
    ensures g == MapFrameRuns(f, rule)
  {
    var ps := f.paragraphs;
    var i := 0;
    while i < |ps|
      invariant 0 <= i <= |ps| == |f.paragraphs|
      invariant forall m :: 0 <= m < i ==> ps[m] == MapParagraphRuns(f.paragraphs[m], rule)
      invariant forall m :: i <= m < |ps| ==> ps[m] == f.paragraphs[m]
    {
      var runs := RewriteRuns(ps[i].runs, rule);
      ps := ps[i := ps[i].(runs := runs)];
      i := i + 1;
    }
    g := f.(paragraphs := ps);
  }

  /** A shape after a pass that rewrites its text frame by `f`; a shape
      without a text frame is skipped. */
  function MapShape(sh: Shape, f: TextFrame -> TextFrame): Shape {
    if sh.frame.Some? then sh.(frame := Some(f(sh.frame.value))) else sh
  }

  function MapSlide(s: Slide, f: TextFrame -> TextFrame): Slide {
    Slide(Map(s.shapes, (sh: Shape) => MapShape(sh, f)))
  }

  /** A whole presentation after a frame-by-frame pass. */
  function MapFrames(slides: seq<Slide>, f: TextFrame -> TextFrame): seq<Slide> {
    Map(slides, (s: Slide) => MapSlide(s, f))
  }

  /** What a frame-by-frame pass leaves alone: the number of slides and of
      shapes, every shape's name, position and placeholder, and every shape
      without a text frame; a shape with one has it replaced by its image. */
  lemma MapFramesKeepsLayout(slides: seq<Slide>, f: TextFrame -> TextFrame, i: int, j: int)
    requires 0 <= i < |slides| && 0 <= j < |slides[i].shapes|
    ensures var out := MapFrames(slides, f);
      var sh := slides[i].shapes[j];
      && |out| == |slides|
      && |out[i].shapes| == |slides[i].shapes|
      && out[i].shapes[j].name == sh.name
      && out[i].shapes[j].top == sh.top
      && out[i].shapes[j].placeholder == sh.placeholder
      && (sh.frame.None? ==> out[i].shapes[j] == sh)
      && (sh.frame.Some? ==> out[i].shapes[j].frame == Some(f(sh.frame.value)))
  {
  }

  /** One slide of such a pass: every shape with a text frame has the runs
      of all its paragraphs rewritten by `rule`. */
  method RewriteSlideRuns(s: Slide, rule: Run -> Run) returns (t: Slide)
    ensures t == MapSlide(s, (f: TextFrame) => MapFrameRuns(f, rule))
  {
    ghost var pass := (f: TextFrame) => MapFrameRuns(f, rule);
    var shapes := s.shapes;
    var j := 0;
    while j < |shapes|
      invariant 0 <= j <= |shapes| == |s.shapes|
      invariant forall k :: 0 <= k < j ==> shapes[k] == MapShape(s.shapes[k], pass)
      invariant forall k :: j <= k < |shapes| ==> shapes[k] == s.shapes[k]
    {
      if shapes[j].frame.Some? {
        var frame := RewriteFrameRuns(shapes[j].frame.value, rule);
        shapes := shapes[j := shapes[j].(frame := Some(frame))];
      }
      j := j + 1;
    }
    t := Slide(shapes);
  }

  /** Every run of every text shape on every slide rewritten by `rule`,
      in place; shapes without a text frame are skipped. */
  method RewriteDeckRuns(prs: Presentation, rule: Run -> Run)
    modifies prs
    ensures prs.slides == MapFrames(old(prs.slides), (f: TextFrame) => MapFrameRuns(f, rule))
  {
    var i := 0;
    while i < |prs.slides|
      invariant 0 <= i <= |prs.slides| == |old(prs.slides)|
      invariant forall k :: 0 <= k < i ==>
        prs.slides[k] == MapSlide(old(prs.slides)[k], (f: TextFrame) => MapFrameRuns(f, rule))
      invariant forall k :: i <= k < |prs.slides| ==> prs.slides[k] == old(prs.slides)[k]
    {
      var slide := RewriteSlideRuns(prs.slides[i], rule);
      prs.slides := prs.slides[i := slide];
      i := i + 1;
    }
  }

  /** One slide of a pass that rewrites each text frame by `pass`. */
  method RewriteSlideFrames(s: Slide, pass: TextFrame -> TextFrame) returns (t: Slide)
    ensures t == MapSlide(s, pass)
  {
    var shapes := s.shapes;
    var j := 0;
    while j < |shapes|
      invariant 0 <= j <= |shapes| == |s.shapes|
      invariant forall k :: 0 <= k < j ==> shapes[k] == MapShape(s.shapes[k], pass)
      invariant forall k :: j <= k < |shapes| ==> shapes[k] == s.shapes[k]
    {
      if shapes[j].frame.Some? {
        shapes := shapes[j := shapes[j].(frame := Some(pass(shapes[j].frame.value)))];
      }
      j := j + 1;
    }
    t := Slide(shapes);
  }

  /** Every text frame of every slide rewritten by `pass`, in place;
      shapes without a text frame are skipped. */
  method RewriteDeckFrames(prs: Presentation, pass: TextFrame -> TextFrame)
    modifies prs
    ensures prs.slides == MapFrames(old(prs.slides), pass)
  {
    var i := 0;
    while i < |prs.slides|
      invariant 0 <= i <= |prs.slides| == |old(prs.slides)|
      invariant forall k :: 0 <= k < i ==> prs.slides[k] == MapSlide(old(prs.slides)[k], pass)
      invariant forall k :: i <= k < |prs.slides| ==> prs.slides[k] == old(prs.slides)[k]
    {
      var slide := RewriteSlideFrames(prs.slides[i], pass);
      prs.slides := prs.slides[i := slide];
      i := i + 1;
    }
  }

  /** A run rule applied twice acts once if it does so on every run; so does
      the frame pass built from it. */
  lemma FrameRunsIdempotent(f: TextFrame, rule: Run -> Run)
    requires forall r :: rule(rule(r)) == rule(r)
    ensures MapFrameRuns(MapFrameRuns(f, rule), rule) == MapFrameRuns(f, rule)
  {
    var once := MapFrameRuns(f, rule);
    var twice := MapFrameRuns(once, rule);
    forall i | 0 <= i < |f.paragraphs|
      ensures twice.paragraphs[i] == once.paragraphs[i]
    {
      assert Map(once.paragraphs[i].runs, rule) == once.paragraphs[i].runs;
    }
  }

  /** A frame pass applied twice acts once if it does so on every frame. */
  lemma {:induction false} DeckIdempotent(slides: seq<Slide>, f: TextFrame -> TextFrame)
    requires forall fr :: f(f(fr)) == f(fr)
    ensures MapFrames(MapFrames(slides, f), f) == MapFrames(slides, f)
  {
    var once := MapFrames(slides, f);
    forall i | 0 <= i < |slides|
      ensures MapSlide(once[i], f) == once[i]
    {
      forall j | 0 <= j < |once[i].shapes|
        ensures MapShape(once[i].shapes[j], f) == once[i].shapes[j]
      {
      }
      assert Map(once[i].shapes, (sh: Shape) => MapShape(sh, f)) == once[i].shapes;
    }
  }
}
