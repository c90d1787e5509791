/** Setting every slide title to 24pt. A slide's title shapes are found by
    placeholder type, by name or by position; when a slide has none, the
    runs with the largest explicit size outside title shapes are taken to
    be the title instead. */
module UpdateTitleFontSizes {
  import opened Wrappers
  import opened Sequences
  import opened Slides
  import Text

  /** `TARGET_SIZE`. */
  const TargetSize := Pt(24)

  /** Shapes whose top is at most one inch (914400 EMU) are taken for titles. */
  const TitleBand := 914400

  /** `is_title_placeholder`: a title or centre-title placeholder. A shape
      that is no placeholder, or whose placeholder format cannot be read, is
      not one. */
  predicate IsTitlePlaceholder(sh: Shape)
    ensures sh.placeholder == NotPlaceholder ==> !IsTitlePlaceholder(sh)
    ensures sh.placeholder == Unreadable ==> !IsTitlePlaceholder(sh)
    ensures (sh.placeholder.Placeholder? && (sh.placeholder.kind == SubtitleKind
             || sh.placeholder.kind == BodyKind || sh.placeholder.kind == OtherKind))
      ==> !IsTitlePlaceholder(sh)
  {
    sh.placeholder == Placeholder(TitleKind) || sh.placeholder == Placeholder(CenterTitleKind)
  }

  /** The three tests of `set_title_font_size`, in order: placeholder type,
      a non-empty name containing "title" in any case, a top at most one
      inch down (a shape without a top of its own raises there and is not a
      title). */
  predicate IsTitleShape(sh: Shape)
    ensures IsTitlePlaceholder(sh) ==> IsTitleShape(sh)
    ensures sh.top.Some? && sh.top.value <= TitleBand ==> IsTitleShape(sh)
    ensures Text.Contains(Text.Lower(sh.name), "title") ==> IsTitleShape(sh)
    ensures (!IsTitlePlaceholder(sh) && !Text.Contains(Text.Lower(sh.name), "title")
             && (sh.top.None? || sh.top.value > TitleBand))
      ==> !IsTitleShape(sh)
  {
    || IsTitlePlaceholder(sh)
    || (|sh.name| > 0 && Text.Contains(Text.Lower(sh.name), "title"))
    || (sh.top.Some? && sh.top.value <= TitleBand)
  }

  /** The name test ignores case: a name containing any casing of "title"
      ("Title", "TITLE", "TiTle", ...) marks a title shape whatever its
      placeholder and position. */
  lemma TitleNameAnyCase(sh: Shape, p: string)
    requires Text.Lower(p) == "title" && Text.Contains(sh.name, p)
    ensures IsTitleShape(sh)
  {
    Text.ContainsLower(sh.name, p);
    assert |Text.Lower(sh.name)| > 0;
  }

  function SetTarget(r: Run): Run {
    r.(size := Some(TargetSize))
  }

  /** A title frame: every run set to 24pt, and the first paragraph's own
      font size too, so that a frame without runs still gets the size. */
  function RetitleFrame(f: TextFrame): TextFrame {
    var g := MapFrameRuns(f, SetTarget);
    if |g.paragraphs| > 0 then g.(paragraphs := g.paragraphs[0 := g.paragraphs[0].(defaultSize := Some(TargetSize))])
    else g
  }

  function RetitleShape(sh: Shape): Shape {
    if sh.frame.Some? && IsTitleShape(sh) then sh.(frame := Some(RetitleFrame(sh.frame.value))) else sh
  }

  predicate HasTitle(s: Slide) {
    exists j :: 0 <= j < |s.shapes| && s.shapes[j].frame.Some? && IsTitleShape(s.shapes[j])
  }

  // ---------------------------------------------------------------------
  // Runs by position

  /** A run of a slide named by its shape, paragraph and run indices; the
      script holds on to run objects, this model to their positions. */
  datatype RunRef = RunRef(shape: nat, para: nat, run: nat)

  predicate ValidRef(s: Slide, c: RunRef) {
    && c.shape < |s.shapes| && s.shapes[c.shape].frame.Some?
    && c.para < |s.shapes[c.shape].frame.value.paragraphs|
    && c.run < |s.shapes[c.shape].frame.value.paragraphs[c.para].runs|
  }

  function RunAt(s: Slide, c: RunRef): Run
    requires ValidRef(s, c)
  {
    s.shapes[c.shape].frame.value.paragraphs[c.para].runs[c.run]
  }

  /** A run the fallback looks at: in a text shape that is not a title, with
      an explicit size (only an absent size is skipped; a zero size
      does count here). */
  predicate Candidate(s: Slide, c: RunRef) {
    ValidRef(s, c) && !IsTitleShape(s.shapes[c.shape]) && RunAt(s, c).size.Some?
  }

  /** A candidate whose size no other candidate exceeds. */
  ghost predicate IsMaxRun(s: Slide, c: RunRef) {
    Candidate(s, c) && forall d :: Candidate(s, d) ==> RunAt(s, d).size.value <= RunAt(s, c).size.value
  }

  /** The fallback applies exactly when the slide has a candidate run. */
  ghost predicate HasCandidate(s: Slide) {
    exists c :: Candidate(s, c)
  }

  /** What `set_title_font_size` returns. */
  ghost predicate SlideUpdated(s: Slide) {
    HasTitle(s) || HasCandidate(s)
  }

  /** The slide with every run whose position is in `sel` set to 24pt. */
  ghost function RaiseRuns(s: Slide, sel: iset<RunRef>): Slide {
    Slide(seq(|s.shapes|, j requires 0 <= j < |s.shapes| => RaiseShape(s.shapes[j], j, sel)))
  }

  ghost function RaiseShape(sh: Shape, j: nat, sel: iset<RunRef>): Shape {
    if sh.frame.None? then sh
    else
      var f := sh.frame.value;
      sh.(frame := Some(f.(paragraphs := seq(|f.paragraphs|, p requires 0 <= p < |f.paragraphs| =>
        RaiseParagraph(f.paragraphs[p], j, p, sel)))))
  }

  ghost function RaiseParagraph(par: Paragraph, j: nat, p: nat, sel: iset<RunRef>): Paragraph {
    par.(runs := seq(|par.runs|, k requires 0 <= k < |par.runs| =>
      if RunRef(j, p, k) in sel then SetTarget(par.runs[k]) else par.runs[k]))
  }

  /** The positions of the runs of the largest size outside title shapes. */
  ghost function MaxRuns(s: Slide): iset<RunRef> {
    iset c | IsMaxRun(s, c)
  }

  /** `set_title_font_size` on one slide: with a title shape, every title
      shape is retitled and nothing else changes; without one, every run of
      the largest explicit size outside title shapes is set to 24pt. */
  ghost function TitleSlide(s: Slide): Slide {
    if HasTitle(s) then Slide(Map(s.shapes, RetitleShape))
    else RaiseRuns(s, MaxRuns(s))
  }

  /** The slide with the run at `c` set to 24pt. */
  function SetRun(s: Slide, c: RunRef): Slide
    requires ValidRef(s, c)
  {
    var sh := s.shapes[c.shape];
    var f := sh.frame.value;
    var par := f.paragraphs[c.para];
    var par' := par.(runs := par.runs[c.run := SetTarget(par.runs[c.run])]);
    s.(shapes := s.shapes[c.shape := sh.(frame := Some(f.(paragraphs := f.paragraphs[c.para := par'])))])
  }

  /** Selecting nothing changes nothing. */
  lemma RaiseNothing(s: Slide)
    ensures RaiseRuns(s, iset{}) == s
  {
    var r := RaiseRuns(s, iset{});
    forall j | 0 <= j < |s.shapes| ensures r.shapes[j] == s.shapes[j] {
      var sh := s.shapes[j];
      if sh.frame.Some? {
        var f := sh.frame.value;
        forall p | 0 <= p < |f.paragraphs| ensures RaiseParagraph(f.paragraphs[p], j, p, iset{}) == f.paragraphs[p] {
          assert RaiseParagraph(f.paragraphs[p], j, p, iset{}).runs == f.paragraphs[p].runs;
        }
        assert r.shapes[j].frame.value.paragraphs == f.paragraphs;
      }
    }
  }

  /** A selected position in another paragraph does not affect this one. */
  lemma RaiseParagraphIgnores(par: Paragraph, j: nat, p: nat, sel: iset<RunRef>, c: RunRef)
    requires c.shape != j || c.para != p
    ensures RaiseParagraph(par, j, p, sel + iset{c}) == RaiseParagraph(par, j, p, sel)
  {
    assert RaiseParagraph(par, j, p, sel + iset{c}).runs == RaiseParagraph(par, j, p, sel).runs;
  }

  /** A selected position in another shape does not affect this one. */
  lemma RaiseShapeIgnores(sh: Shape, j: nat, sel: iset<RunRef>, c: RunRef)
    requires c.shape != j
    ensures RaiseShape(sh, j, sel + iset{c}) == RaiseShape(sh, j, sel)
  {
    if sh.frame.Some? {
      var f := sh.frame.value;
      forall p | 0 <= p < |f.paragraphs|
        ensures RaiseParagraph(f.paragraphs[p], j, p, sel + iset{c}) == RaiseParagraph(f.paragraphs[p], j, p, sel)
      {
        RaiseParagraphIgnores(f.paragraphs[p], j, p, sel, c);
      }
      assert RaiseShape(sh, j, sel + iset{c}).frame.value.paragraphs == RaiseShape(sh, j, sel).frame.value.paragraphs;
    }
  }

  /** Setting one more run to 24pt is selecting one more position. */
  lemma RaiseStep(s: Slide, sel: iset<RunRef>, c: RunRef)
    requires ValidRef(s, c)
    ensures ValidRef(RaiseRuns(s, sel), c)
    ensures SetRun(RaiseRuns(s, sel), c) == RaiseRuns(s, sel + iset{c})
  {
    var a := SetRun(RaiseRuns(s, sel), c);
    var b := RaiseRuns(s, sel + iset{c});
    forall j | 0 <= j < |s.shapes| ensures a.shapes[j] == b.shapes[j] {
      if j != c.shape {
        RaiseShapeIgnores(s.shapes[j], j, sel, c);
      } else {
        var f := s.shapes[j].frame.value;
        forall p | 0 <= p < |f.paragraphs|
          ensures a.shapes[j].frame.value.paragraphs[p] == RaiseParagraph(f.paragraphs[p], j, p, sel + iset{c})
        {
          if p != c.para {
            RaiseParagraphIgnores(f.paragraphs[p], j, p, sel, c);
          } else {
            assert a.shapes[j].frame.value.paragraphs[p].runs == RaiseParagraph(f.paragraphs[p], j, p, sel + iset{c}).runs;
          }
        }
        assert a.shapes[j].frame.value.paragraphs == b.shapes[j].frame.value.paragraphs;
      }
    }
  }

  /** The positions listed in `refs`. */
  ghost function Positions(refs: seq<RunRef>): iset<RunRef> {
    iset c | c in refs
  }

  /** The fallback's final loop: each collected run is set to 24pt. */
  method RaiseMaxRuns(s: Slide, refs: seq<RunRef>) returns (t: Slide)
    requires forall i :: 0 <= i < |refs| ==> ValidRef(s, refs[i])
    ensures t == RaiseRuns(s, Positions(refs))
  {
    t := s;
    RaiseNothing(s);
    assert Positions(refs[..0]) == iset{};
    var i := 0;
    while i < |refs|
      invariant 0 <= i <= |refs|
      invariant t == RaiseRuns(s, Positions(refs[..i]))
    {
      RaiseStep(s, Positions(refs[..i]), refs[i]);
      assert Positions(refs[..i]) + iset{refs[i]} == Positions(refs[..i + 1]);
      t := SetRun(t, refs[i]);
      i := i + 1;
    }
    assert refs[..i] == refs;
  }

  // ---------------------------------------------------------------------
  // The scan for the largest size

  /** Position `c` comes before position (j, p, k) in the scan order:
      shapes, then paragraphs, then runs. */
  predicate Before(c: RunRef, j: nat, p: nat, k: nat) {
    c.shape < j || (c.shape == j && (c.para < p || (c.para == p && c.run < k)))
  }

  /** What the scan knows once every run before (j, p, k) has been seen:
      `maxRuns` lists exactly the candidates seen so far whose size is
      `maxSize`, no candidate seen is larger, and `maxSize` is reached by one
      of them when it is set. */
  ghost predicate Tracked(s: Slide, j: nat, p: nat, k: nat, maxSize: Option<int>, maxRuns: seq<RunRef>) {
    && (forall c :: c in maxRuns ==> Candidate(s, c) && Before(c, j, p, k) && RunAt(s, c).size == maxSize)
    && (forall c :: Candidate(s, c) && Before(c, j, p, k) && RunAt(s, c).size == maxSize ==> c in maxRuns)
    && (forall c :: Candidate(s, c) && Before(c, j, p, k) ==> maxSize.Some? && RunAt(s, c).size.value <= maxSize.value)
    && (maxSize.Some? ==> maxRuns != [])
  }

  /** Two scan positions with the same candidates behind them carry the same
      knowledge. */
  lemma TrackedMoves(s: Slide, j: nat, p: nat, k: nat, j': nat, p': nat, k': nat,
                     maxSize: Option<int>, maxRuns: seq<RunRef>)
    requires Tracked(s, j, p, k, maxSize, maxRuns)
    requires forall c :: Candidate(s, c) ==> (Before(c, j, p, k) <==> Before(c, j', p', k'))
    ensures Tracked(s, j', p', k', maxSize, maxRuns)
  {
  }

  /** One run of the fallback's inner loop: a larger size starts a new
      list, an equal size joins it, and a run without a size is skipped. */
  method ScanRun(s: Slide, j: nat, p: nat, k: nat, maxSize: Option<int>, maxRuns: seq<RunRef>)
    returns (maxSize': Option<int>, maxRuns': seq<RunRef>)
    requires j < |s.shapes| && s.shapes[j].frame.Some? && !IsTitleShape(s.shapes[j])
    requires p < |s.shapes[j].frame.value.paragraphs|
    requires k < |s.shapes[j].frame.value.paragraphs[p].runs|
    requires Tracked(s, j, p, k, maxSize, maxRuns)
    ensures Tracked(s, j, p, k + 1, maxSize', maxRuns')
  {
    var c := RunRef(j, p, k);
    assert ValidRef(s, c);
    var size := s.shapes[j].frame.value.paragraphs[p].runs[k].size;
    maxSize', maxRuns' := maxSize, maxRuns;
    if size.None? {
      return;
    }
    if maxSize.None? || size.value > maxSize.value {
      maxSize' := size;
      maxRuns' := [c];
    } else if size == maxSize {
      maxRuns' := maxRuns + [c];
    }
  }

  /** The inner loop of the fallback over the runs of paragraph `p` of the
      non-title shape `j`. */
  method ScanParagraph(s: Slide, j: nat, p: nat, maxSize: Option<int>, maxRuns: seq<RunRef>)
    returns (maxSize': Option<int>, maxRuns': seq<RunRef>)
    requires j < |s.shapes| && s.shapes[j].frame.Some? && !IsTitleShape(s.shapes[j])
    requires p < |s.shapes[j].frame.value.paragraphs|
    requires Tracked(s, j, p, 0, maxSize, maxRuns)
    ensures Tracked(s, j, p + 1, 0, maxSize', maxRuns')
  {
    var runs := s.shapes[j].frame.value.paragraphs[p].runs;
    maxSize', maxRuns' := maxSize, maxRuns;
    var k: nat := 0;
    while k < |runs|
      invariant k <= |runs|
      invariant Tracked(s, j, p, k, maxSize', maxRuns')
    {
      maxSize', maxRuns' := ScanRun(s, j, p, k, maxSize', maxRuns');
      k := k + 1;
    }
    TrackedMoves(s, j, p, k, j, p + 1, 0, maxSize', maxRuns');
  }

  /** The fallback's loops over one non-title shape with a text frame. */
  method ScanShape(s: Slide, j: nat, maxSize: Option<int>, maxRuns: seq<RunRef>)
    returns (maxSize': Option<int>, maxRuns': seq<RunRef>)
    requires j < |s.shapes| && s.shapes[j].frame.Some? && !IsTitleShape(s.shapes[j])
    requires Tracked(s, j, 0, 0, maxSize, maxRuns)
    ensures Tracked(s, j + 1, 0, 0, maxSize', maxRuns')
  {
    var ps := s.shapes[j].frame.value.paragraphs;
    maxSize', maxRuns' := maxSize, maxRuns;
    var p: nat := 0;
    while p < |ps|
      invariant p <= |ps|
      invariant Tracked(s, j, p, 0, maxSize', maxRuns')
    {
      maxSize', maxRuns' := ScanParagraph(s, j, p, maxSize', maxRuns');
      p := p + 1;
    }
    TrackedMoves(s, j, p, 0, j + 1, 0, 0, maxSize', maxRuns');
  }

  /** At the end of the scan `maxRuns` lists exactly the runs of the largest
      size, and is empty exactly when there is no candidate. */
  lemma ScanComplete(s: Slide, maxSize: Option<int>, maxRuns: seq<RunRef>)
    requires Tracked(s, |s.shapes|, 0, 0, maxSize, maxRuns)
    ensures Positions(maxRuns) == MaxRuns(s)
    ensures maxRuns != [] <==> HasCandidate(s)
    ensures forall i :: 0 <= i < |maxRuns| ==> ValidRef(s, maxRuns[i])
  {
    forall c ensures c in maxRuns <==> IsMaxRun(s, c) {
      if IsMaxRun(s, c) {
        var d := maxRuns[0];
        assert d in maxRuns;
      }
    }
    if maxRuns != [] {
      assert maxRuns[0] in maxRuns;
      assert Candidate(s, maxRuns[0]);
    }
    if HasCandidate(s) {
      var c :| Candidate(s, c);
      assert Before(c, |s.shapes|, 0, 0);
    }
    forall i | 0 <= i < |maxRuns| ensures ValidRef(s, maxRuns[i]) {
      assert maxRuns[i] in maxRuns;
    }
    assert Positions(maxRuns) == MaxRuns(s);
  }

  // ---------------------------------------------------------------------
  // What a slide pass does

  /** Raising runs keeps the layout, every paragraph's properties and every
      run's text; a run's size becomes 24pt exactly when it is selected. */
  lemma RaiseRunsAt(s: Slide, sel: iset<RunRef>, c: RunRef)
    requires ValidRef(s, c)
    ensures var r := RaiseRuns(s, sel);
      var par := s.shapes[c.shape].frame.value.paragraphs[c.para];
      var par' := r.shapes[c.shape].frame.value.paragraphs[c.para];
      && |r.shapes| == |s.shapes|
      && r.shapes[c.shape].name == s.shapes[c.shape].name
      && r.shapes[c.shape].top == s.shapes[c.shape].top
      && r.shapes[c.shape].placeholder == s.shapes[c.shape].placeholder
      && ValidRef(r, c)
      && |r.shapes[c.shape].frame.value.paragraphs| == |s.shapes[c.shape].frame.value.paragraphs|
      && |par'.runs| == |par.runs|
      && par'.spaceBefore == par.spaceBefore && par'.spaceAfter == par.spaceAfter
      && par'.defaultSize == par.defaultSize
      && RunAt(r, c).text == RunAt(s, c).text
      && (c in sel ==> RunAt(r, c).size == Some(TargetSize))
      && (c !in sel ==> RunAt(r, c) == RunAt(s, c))
  {
  }

  /** The largest size is one size: every run the fallback raises had the
      same size, and a candidate smaller than another one is never raised. */
  lemma MaxRunsShareSize(s: Slide, c: RunRef, d: RunRef)
    requires IsMaxRun(s, c) && Candidate(s, d)
    ensures IsMaxRun(s, d) <==> RunAt(s, d).size == RunAt(s, c).size
  {
  }

  /** Without a title shape, exactly the runs of the largest size outside
      title shapes are set to 24pt; every other run, its text and the layout
      stay as they were. */
  lemma FallbackRuns(s: Slide, c: RunRef)
    requires !HasTitle(s) && ValidRef(s, c)
    ensures var t := TitleSlide(s);
      && |t.shapes| == |s.shapes|
      && ValidRef(t, c)
      && RunAt(t, c).text == RunAt(s, c).text
      && (IsMaxRun(s, c) ==> RunAt(t, c).size == Some(TargetSize))
      && (!IsMaxRun(s, c) ==> RunAt(t, c) == RunAt(s, c))
  {
    RaiseRunsAt(s, MaxRuns(s), c);
  }

  /** Without a title shape the fallback touches nothing but run sizes: a
      shape without a text frame is returned as it was, and a shape with one
      keeps its name, position, placeholder, word wrap, its paragraphs'
      spacing and own sizes, and every paragraph without runs. */
  lemma FallbackKeepsLayout(s: Slide, j: int)
    requires !HasTitle(s) && 0 <= j < |s.shapes|
    ensures var t := TitleSlide(s);
      var sh := s.shapes[j];
      && |t.shapes| == |s.shapes|
      && t.shapes[j].name == sh.name && t.shapes[j].top == sh.top
      && t.shapes[j].placeholder == sh.placeholder
      && (sh.frame.None? ==> t.shapes[j] == sh)
      && (sh.frame.Some? ==>
            && t.shapes[j].frame.Some?
            && t.shapes[j].frame.value.wordWrap == sh.frame.value.wordWrap
            && |t.shapes[j].frame.value.paragraphs| == |sh.frame.value.paragraphs|
            && (forall p :: 0 <= p < |sh.frame.value.paragraphs| ==>
                  var par := sh.frame.value.paragraphs[p];
                  var par' := t.shapes[j].frame.value.paragraphs[p];
                  && par'.spaceBefore == par.spaceBefore && par'.spaceAfter == par.spaceAfter
                  && par'.defaultSize == par.defaultSize
                  && |par'.runs| == |par.runs|
                  && (par.runs == [] ==> par' == par)))
  {
  }

  /** A retitled frame keeps its paragraphs, their runs and text; all its
      runs are 24pt; the first paragraph's own size is 24pt and the other
      paragraphs keep theirs. */
  lemma RetitleFrameRuns(f: TextFrame, i: int)
    requires 0 <= i < |f.paragraphs|
    ensures var g := RetitleFrame(f);
      && |g.paragraphs| == |f.paragraphs|
      && |g.paragraphs[i].runs| == |f.paragraphs[i].runs|
      && ParagraphText(g.paragraphs[i]) == ParagraphText(f.paragraphs[i])
      && (forall k :: 0 <= k < |g.paragraphs[i].runs| ==> g.paragraphs[i].runs[k].size == Some(TargetSize))
      && (i == 0 ==> g.paragraphs[i].defaultSize == Some(TargetSize))
      && (i != 0 ==> g.paragraphs[i].defaultSize == f.paragraphs[i].defaultSize)
  {
    MapKeepsText(f.paragraphs[i].runs, SetTarget);
  }

  /** With a title shape the fallback does not fire: every title shape with
      a text frame is retitled and every other shape, whatever its sizes,
      is left exactly as it was. */
  lemma TitleCaseShapes(s: Slide, j: int)
    requires HasTitle(s) && 0 <= j < |s.shapes|
    ensures |TitleSlide(s).shapes| == |s.shapes|
    ensures s.shapes[j].frame.Some? && IsTitleShape(s.shapes[j]) ==>
      TitleSlide(s).shapes[j].frame == Some(RetitleFrame(s.shapes[j].frame.value))
    ensures !(s.shapes[j].frame.Some? && IsTitleShape(s.shapes[j])) ==> TitleSlide(s).shapes[j] == s.shapes[j]
  {
    assert TitleSlide(s).shapes == Map(s.shapes, RetitleShape);
    assert TitleSlide(s).shapes[j] == RetitleShape(s.shapes[j]);
  }

  /** A slide the pass reports as not updated comes out unchanged. */
  lemma NotUpdatedUnchanged(s: Slide)
    requires !SlideUpdated(s)
    ensures TitleSlide(s) == s
  {
    assert MaxRuns(s) == iset{};
    RaiseNothing(s);
  }

  // ---------------------------------------------------------------------
  // One slide, one file, one directory

  /** The title branch: both loops over the runs, then the first paragraph. */
  method RewriteTitleFrame(f: TextFrame) returns (g: TextFrame)
    ensures g == RetitleFrame(f)
  {
    g := RewriteFrameRuns(f, SetTarget);
    if |g.paragraphs| > 0 {
      g := g.(paragraphs := g.paragraphs[0 := g.paragraphs[0].(defaultSize := Some(TargetSize))]);
    }
  }

  /** A shape with a text frame that the pass treats as a title. */
  predicate IsTitleFrame(sh: Shape) {
    sh.frame.Some? && IsTitleShape(sh)
  }

  /** One iteration of the shape loop of `set_title_font_size`. */
  method ShapeStep(s: Slide, j: nat, maxSize: Option<int>, maxRuns: seq<RunRef>)
    returns (sh: Shape, maxSize': Option<int>, maxRuns': seq<RunRef>)
    requires j < |s.shapes|
    requires Tracked(s, j, 0, 0, maxSize, maxRuns)
    ensures sh == RetitleShape(s.shapes[j])
    ensures Tracked(s, j + 1, 0, 0, maxSize', maxRuns')
  {
    sh := s.shapes[j];
    maxSize', maxRuns' := maxSize, maxRuns;
    if sh.frame.None? {
      TrackedMoves(s, j, 0, 0, j + 1, 0, 0, maxSize, maxRuns);
      return;
    }
    if IsTitleShape(sh) {
      var f := RewriteTitleFrame(sh.frame.value);
      sh := sh.(frame := Some(f));
      TrackedMoves(s, j, 0, 0, j + 1, 0, 0, maxSize, maxRuns);
    } else {
      maxSize', maxRuns' := ScanShape(s, j, maxSize, maxRuns);
    }
  }

  /** The shape loop of `set_title_font_size`: title shapes retitled as met,
      the others scanned for the largest size. */
  method ScanShapes(s: Slide) returns (shapes: seq<Shape>, updated: bool, maxSize: Option<int>, maxRuns: seq<RunRef>)
    ensures shapes == Map(s.shapes, RetitleShape)
    ensures updated == HasTitle(s)
    ensures Tracked(s, |s.shapes|, 0, 0, maxSize, maxRuns)
  {
    shapes := s.shapes;
    updated := false;
    maxSize, maxRuns := None, [];
    var j: nat := 0;
    while j < |shapes|
      invariant j <= |shapes| == |s.shapes|
      invariant forall k :: 0 <= k < j ==> shapes[k] == RetitleShape(s.shapes[k])
      invariant forall k :: j <= k < |shapes| ==> shapes[k] == s.shapes[k]
      invariant updated <==> exists k :: 0 <= k < j && IsTitleFrame(s.shapes[k])
      invariant Tracked(s, j, 0, 0, maxSize, maxRuns)
    {
      var title := IsTitleFrame(shapes[j]);
      var sh;
      sh, maxSize, maxRuns := ShapeStep(s, j, maxSize, maxRuns);
      shapes := shapes[j := sh];
      if title {
        updated := true;
      }
      j := j + 1;
    }
    assert updated <==> exists k :: 0 <= k < |s.shapes| && IsTitleFrame(s.shapes[k]);
  }

  /** Without a title shape, retitling changes no shape. */
  lemma NoTitleKeepsShapes(s: Slide)
    requires !HasTitle(s)
    ensures Map(s.shapes, RetitleShape) == s.shapes
  {
    forall j | 0 <= j < |s.shapes| ensures RetitleShape(s.shapes[j]) == s.shapes[j] {
      assert !(s.shapes[j].frame.Some? && IsTitleShape(s.shapes[j]));
    }
  }

  /** `set_title_font_size`: the slide it leaves and the flag it returns. */
  method SetTitleFontSize(s: Slide) returns (t: Slide, updated: bool)
    ensures t == TitleSlide(s)
    ensures updated == SlideUpdated(s)
  {
    var shapes, maxSize, maxRuns;
    shapes, updated, maxSize, maxRuns := ScanShapes(s);
    ScanComplete(s, maxSize, maxRuns);
    if !updated && |maxRuns| > 0 {
      t := RaiseMaxRuns(s, maxRuns);
      updated := true;
    } else if updated {
      t := Slide(shapes);
    } else {
      NoTitleKeepsShapes(s);
      t := Slide(shapes);
      assert Positions(maxRuns) == iset{};
      RaiseNothing(s);
    }
  }

  /** Some slide of the deck is updated; `update_file` then saves it. */
  ghost predicate DeckChanged(slides: seq<Slide>) {
    exists k :: 0 <= k < |slides| && SlideUpdated(slides[k])
  }

  /** `update_file` on a loaded presentation: every slide passes through
      `set_title_font_size`; the result says whether any slide was updated.
      Saving the file is left to the caller. */
  method UpdateFile(prs: Presentation) returns (changed: bool)
    modifies prs
    ensures |prs.slides| == |old(prs.slides)|
    ensures forall k :: 0 <= k < |prs.slides| ==> prs.slides[k] == TitleSlide(old(prs.slides)[k])
    ensures changed == DeckChanged(old(prs.slides))
  {
    changed := false;
    var i := 0;
    while i < |prs.slides|
      invariant 0 <= i <= |prs.slides| == |old(prs.slides)|
      invariant forall k :: 0 <= k < i ==> prs.slides[k] == TitleSlide(old(prs.slides)[k])
      invariant forall k :: i <= k < |prs.slides| ==> prs.slides[k] == old(prs.slides)[k]
      invariant changed <==> exists k :: 0 <= k < i && SlideUpdated(old(prs.slides)[k])
    {
      var slide, updated := SetTitleFontSize(prs.slides[i]);
      prs.slides := prs.slides[i := slide];
      if updated {
        changed := true;
      }
      i := i + 1;
    }
  }

  /** A presentation file of the directory: its name and its slides. */
  datatype DeckFile = DeckFile(name: string, slides: seq<Slide>)

  /** The files `main` processes: `*.pptx` names other than
      `Final_Presentation.pptx` and the `~$` lock files. */
  predicate IsDeckFile(name: string)
    ensures name == "Final_Presentation.pptx" ==> !IsDeckFile(name)
    ensures Text.StartsWith(name, "~$") ==> !IsDeckFile(name)
    ensures IsDeckFile(name) ==> |name| >= 5 && name[|name| - 5..] == ".pptx"
  {
    && Text.EndsWith(name, ".pptx")
    && name != "Final_Presentation.pptx"
    && !Text.StartsWith(name, "~$")
  }

  /** Which names of a listing are processed: an ordinary deck is, while
      the final presentation, an Office lock file and a file of another type
      are not. */
  lemma DeckFileSelection()
    ensures IsDeckFile("Lecture.pptx")
    ensures !IsDeckFile("Final_Presentation.pptx")
    ensures !IsDeckFile("~$Lecture.pptx")
    ensures !IsDeckFile("Lecture.pdf")
  {
    assert "~$Lecture.pptx"[..2] == "~$";
    assert "Lecture.pptx"[..2] != "~$" by {
      assert "Lecture.pptx"[..2][0] == 'L';
    }
    assert "Lecture.pptx"[7..] == ".pptx";
  }

  function Names(files: seq<DeckFile>): (r: seq<string>)
    ensures |r| == |files|
    ensures forall i :: 0 <= i < |files| ==> r[i] == files[i].name
  {
    Map(files, (f: DeckFile) => f.name)
  }

  ghost predicate IsUpdatedFile(f: DeckFile) {
    IsDeckFile(f.name) && DeckChanged(f.slides)
  }

  ghost predicate IsSkippedFile(f: DeckFile) {
    IsDeckFile(f.name) && !DeckChanged(f.slides)
  }

  /** The loop of `main` over a directory listing: each selected file is
      loaded and updated, and its name goes to `updated` or `skipped` in
      listing order. Sorting the two lists for the report is left out with
      the printing. */
  method UpdateDirectory(files: seq<DeckFile>) returns (updated: seq<string>, skipped: seq<string>)
    ensures updated == Names(Filter(files, IsUpdatedFile))
    ensures skipped == Names(Filter(files, IsSkippedFile))
  {
    updated, skipped := [], [];
    var i := 0;
    while i < |files|
      invariant 0 <= i <= |files|
      invariant updated == Names(Filter(files[..i], IsUpdatedFile))
      invariant skipped == Names(Filter(files[..i], IsSkippedFile))
    {
      var file := files[i];
      assert files[..i + 1] == files[..i] + [file];
      FilterSnoc(files[..i], file, IsUpdatedFile);
      FilterSnoc(files[..i], file, IsSkippedFile);
      MapSnoc(Filter(files[..i], IsUpdatedFile), file, (f: DeckFile) => f.name);
      MapSnoc(Filter(files[..i], IsSkippedFile), file, (f: DeckFile) => f.name);
      if IsDeckFile(file.name) {
        var prs := new Presentation(file.slides);
        var changed := UpdateFile(prs);
        if changed {
          updated := updated + [file.name];
        } else {
          skipped := skipped + [file.name];
        }
      }
      i := i + 1;
    }
    assert files[..i] == files;
  }
}
