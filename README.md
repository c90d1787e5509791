# Corpus analysis and slide rewrites, modelled in Dafny

The repository builds a research presentation about corpus linguistics. It
has two groups of scripts, and this project models both.

**The corpus-analysis wrapper** (`scripts/analyze_corpus.py`). It asks
the corpus library for raw results: frequencies, concordance hits,
collocations, keywords and clusters. It then turns those results into
tables. The model takes the library's result lists as inputs, in the
library's order. It states what the wrapper itself does to them:

- basic metrics and the type-token ratio, with their zero guards;
- the `min_freq` filter, whose surviving rows are ranked 1, 2, and so on;
- the pandas `head(top_n)` cap, behind `if top_n:`. A negative cap drops
  rows from the end;
- the concordance's `max_results` break;
- joining context and cluster tokens with single spaces;
- the n-gram punctuation filter, which runs before the cap;
- `0` as the default for absent measures.

**The slide rewrite scripts.** Each loads one PowerPoint deck and
rewrites it in place.

- `update_title_font_sizes.py` sets slide titles to 24pt. Title shapes
  are found by placeholder type, by name or by position. A slide with
  no title shape instead gets its largest explicitly sized runs set to
  24pt.
- `fix_off_page_slides.py` moves sizes strictly between 20pt and 32pt
  down to 18pt or 16pt. On the challenges slide it first renumbers item
  7.
- `fix_definition_slide.py` clears the footer, tightens the spacing and
  takes 2pt off every explicit size, but never goes below 10pt.
- `fix_conclusion_slide.py` turns word wrap on, sets 6pt spacing and
  steps the title and section-header sizes down.
- `fix_conclusion_whitespace.py` empties the cut-off footer paragraph
  and sets the spacing to 0pt before and 4pt after.
- `remove_challenge_item.py` renumbers item 6 to 5 and item 7 to 6.

## Data model

A deck is modelled as a `Presentation` object. It holds a sequence of
slides, which its methods rewrite in place. The layers inside a deck are
values:

- a slide holds shapes;
- a shape has a name, an optional top offset in EMU, placeholder
  information and an optional text frame;
- a text frame holds paragraphs and a word-wrap flag;
- a paragraph holds runs, optional spacing before and after, and its own
  default size;
- a run holds text and an optional size.

Sizes and spacing are in centipoints: `Pt(n)` is `n * 100`, the unit the
file stores. A missing size is `None`. The Python test `if run.font.size`
is `Truthy`: the size is present and non-zero.

Writing `paragraph.text = t` removes every run. Unless `t` is empty, it
then adds one run that holds `t` and has no explicit size (`WithText`).

The scripts' nested loops run at three levels:

- over runs: `RewriteRuns`;
- over paragraphs: `RewriteParagraphs` and the per-script frame methods;
- over shapes and slides: `RewriteSlideRuns`/`RewriteDeckRuns`, or
  `RewriteSlideFrames`/`RewriteDeckFrames`.

Each of these methods is proved equal to a function. The properties are
then lemmas about that function.

The title script holds on to run objects (`max_runs`). The model names
those runs by their position: shape, paragraph and run index. Its
specification `TitleSlide` is stated with `IsMaxRun`: a candidate run
whose size no other candidate exceeds. `SetTitleFontSize` always reads
the sizes from the slide as it was when the pass began. This is exact,
because the scan only reads shapes that are not titles, and the pass only
writes to title shapes.

The code is followed wherever it departs from its own comments:

- `fix_conclusion_slide.py` has a 14pt→12pt branch behind a `> Pt(14)`
  guard. That branch is modelled as written, so it never fires, and
  14pt runs stay at 14pt.
- `fix_vi_challenges_slide` collects `paragraphs_to_keep` but never uses
  it. So items 5 and 6 keep their paragraphs; only item 7 is renumbered
  to 5.
- `remove_challenge_item.py` only renumbers paragraphs; it never removes
  one.

## Model

| member | source | states |
|---|---|---|
| AnalyzeCorpus.GetBasicMetrics | scripts/analyze_corpus.py:60-68 | counts are copied through; the average times the document count is the token count when there are documents, otherwise 0; the ratio times the token count is the type count when there are tokens, otherwise 0 |
| AnalyzeCorpus.CalculateTtr | scripts/analyze_corpus.py:99-109 | the ratio equals the one `get_basic_metrics` reports, and is 0 for an empty corpus |
| AnalyzeCorpus.TtrIgnoresFirstN | scripts/analyze_corpus.py:100-105 | `first_n_tokens` has no effect on the result |
| AnalyzeCorpus.TtrInUnitInterval | scripts/analyze_corpus.py:105 | the ratio lies in [0, 1] when there are no more types than tokens |
| AnalyzeCorpus.GetFrequencyTable | scripts/analyze_corpus.py:156-171 | the rows are the library rows reaching `min_freq`, in order, ranked from 1, then capped by `top_n` with pandas `head` semantics |
| AnalyzeCorpus.FrequencyTableRows | scripts/analyze_corpus.py:158-171 | row i has rank i+1 and the token and frequencies of the i-th kept library row; the table is a prefix of the kept rows, all of them when `top_n` is falsy |
| AnalyzeCorpus.FrequentMembers | scripts/analyze_corpus.py:159 | a library row is kept exactly when it reaches `min_freq` |
| AnalyzeCorpus.GetConcordance | scripts/analyze_corpus.py:214-224 | the lines are the first hits mapped one to one, in order: all hits without a cap, the first `max_results` with a positive cap, none with a negative cap; each line holds the joined contexts, the query and the document id or '' |
| AnalyzeCorpus.ContextSplitsBack | scripts/analyze_corpus.py:220 | splitting a joined left context on spaces gives back the space-free tokens |
| AnalyzeCorpus.GetCollocations | scripts/analyze_corpus.py:275-289 | one row per library result in order, absent MI, LLR and T as 0, then the `top_n` cap |
| AnalyzeCorpus.CollocationRows | scripts/analyze_corpus.py:277-284 | row i carries result i's collocate and frequencies, and each measure or 0 when absent |
| AnalyzeCorpus.GetKeywords | scripts/analyze_corpus.py:338-354 | one row per library result in order, absent RR, LLR and effect size as 0, then the `top_n` cap |
| AnalyzeCorpus.KeywordRows | scripts/analyze_corpus.py:340-349 | row i carries result i's token, raw and normalized target and reference frequencies, and measures, absent ones as 0 |
| AnalyzeCorpus.GetNgrams | scripts/analyze_corpus.py:399-416 | clusters with a non-alphanumeric token are skipped when excluding punctuation; the cap applies after the filter; each n-gram is its tokens joined by single spaces |
| AnalyzeCorpus.NgramsAreAlphanumeric | scripts/analyze_corpus.py:401-405 | with `exclude_punctuation`, every n-gram splits back into alphanumeric tokens of one admitted cluster |
| AnalyzeCorpus.NgramsFilterBeforeCap | scripts/analyze_corpus.py:404-416 | corollary of `Sequences.Cap` applied after the filter: a positive cap keeps min(`top_n`, admitted) rows, never fewer because of skipped clusters |
| Text.ContainsAt | scripts/update_title_font_sizes.py:31 | `p in s` holds exactly when some index of `s` starts an occurrence of `p` |
| Text.ContainsLower | scripts/update_title_font_sizes.py:31 | an occurrence of `p` in `s` is an occurrence of `p.lower()` in `s.lower()` |
| Text.StripIsTrimmedSlice | scripts/fix_off_page_slides.py:41 | `strip()` returns a contiguous piece of the text neither starting nor ending with whitespace, with only whitespace cut on either side |
| Text.TrimStartSpec | scripts/fix_definition_slide.py:17 | leading whitespace is exactly what is cut |
| Text.TrimEndSpec | scripts/fix_definition_slide.py:17 | trailing whitespace is exactly what is cut |
| Text.ReplaceLeading | scripts/remove_challenge_item.py:19 | a text starting with the old phrase comes out starting with the new one |
| Text.ReplaceAbsent | scripts/remove_challenge_item.py:23 | `replace` changes nothing where the old phrase does not occur |
| Text.ReplaceKeepsLength | scripts/remove_challenge_item.py:19 | replacing by a phrase of equal length keeps the length |
| Text.SplitJoin | scripts/analyze_corpus.py:401 | splitting a space join of space-free words gives the words back |
| Sequences.FilterConcat | scripts/analyze_corpus.py:158-159 | the rows kept by a loop filter keep their relative order |
| Sequences.FilterMembers | scripts/analyze_corpus.py:404-405 | an element is kept exactly when it is in the input and passes the test |
| Sequences.Head | scripts/analyze_corpus.py:170-171 | `head(n)` is a prefix: the first n rows for n ≥ 0, all but the last -n rows for n < 0 |
| Sequences.Cap | scripts/analyze_corpus.py:288-289 | a falsy `top_n` keeps every row; a positive one keeps min(n, rows) rows; the result is always a prefix |
| Slides.WithText | scripts/fix_off_page_slides.py:49 | after `para.text = t` the paragraph's text is `t`, it has at most one run, no run has an explicit size, and the spacing and default size are kept |
| Slides.RewriteRuns | scripts/fix_off_page_slides.py:16-21 | the runs come out in order, each rewritten by the rule |
| Slides.RewriteParagraphs | scripts/fix_definition_slide.py:23-25 | the paragraphs come out in order, each rewritten by the rule |
| Slides.MapKeepsText | scripts/fix_definition_slide.py:28-32 | a rule that keeps run texts keeps the paragraph text |
| Slides.MapFramesKeepsLayout | scripts/fix_off_page_slides.py:10-13 | a frame pass keeps the slides and shapes, their names, positions and placeholders, and skips shapes without a text frame |
| Slides.RewriteDeckRuns | scripts/fix_off_page_slides.py:10-21 | every run of every text frame of the deck is rewritten in place; nothing else changes |
| Slides.RewriteDeckFrames | scripts/fix_definition_slide.py:8-13 | every text frame of the deck is rewritten by the pass; shapes without one are skipped |
| Slides.DeckIdempotent | scripts/fix_off_page_slides.py:10-21 | a pass that is idempotent on frames is idempotent on the deck |
| FixOffPageSlides.ShrinkRule | scripts/fix_off_page_slides.py:18-21 | a run changes exactly when its size is in (20pt, 32pt), and then only its size, which becomes the target |
| FixOffPageSlides.ShrinkIdempotent | scripts/fix_off_page_slides.py:56-59 | for a target outside the band, shrinking twice is shrinking once |
| FixOffPageSlides.FixViDefinitionSlide | scripts/fix_off_page_slides.py:6-23 | the deck becomes its image under the 18pt run rule |
| FixOffPageSlides.FixConclusionSlide | scripts/fix_off_page_slides.py:65-82 | the deck becomes its image under the 16pt run rule |
| FixOffPageSlides.DefinitionPassSettles | scripts/fix_off_page_slides.py:15-21 | running the 18pt pass twice gives the same deck as running it once |
| FixOffPageSlides.ConclusionPassSettles | scripts/fix_off_page_slides.py:74-80 | running the 16pt pass twice gives the same deck as running it once |
| FixOffPageSlides.ShrunkFrameRuns | scripts/fix_off_page_slides.py:54-59 | after a pass no size lies in the band; texts and counts are kept, out-of-band runs are unchanged and in-band runs get the target |
| FixOffPageSlides.RenumberStep | scripts/fix_off_page_slides.py:40-51 | one loop step gives the renumbered paragraph; the step reaches the append exactly when the text is neither item 5 nor item 6 |
| FixOffPageSlides.RewriteChallengesFrame | scripts/fix_off_page_slides.py:37-59 | one frame: renumbering, then the 16pt rule |
| FixOffPageSlides.FixViChallengesSlide | scripts/fix_off_page_slides.py:27-61 | the challenges pass applied to every text frame of the deck |
| FixOffPageSlides.ChallengesKeepsParagraphs | scripts/fix_off_page_slides.py:38-51 | no paragraph is removed; items 5 and 6 stay, only shrunk |
| FixOffPageSlides.ChallengesRenumbersSeven | scripts/fix_off_page_slides.py:48-49 | item 7's text becomes the stripped text with "7. Additional" replaced; it starts "5. Additional", keeps its length, and its run has no explicit size |
| FixOffPageSlides.ChallengesKeepsOtherText | scripts/fix_off_page_slides.py:40-51 | a paragraph that is not item 7 only goes through the 16pt rule |
| FixOffPageSlides.RenumberSevenSettles | scripts/fix_off_page_slides.py:41-49 | a paragraph carrying the text a renumbering step produced is left alone by a further step: the new text starts "5. Additional", so it is neither item 5, 6 nor 7 |
| FixOffPageSlides.ChallengesFrameSettles | scripts/fix_off_page_slides.py:40-59 | renumber-then-shrink on one frame, applied twice, equals it applied once |
| FixOffPageSlides.ChallengesPassSettles | scripts/fix_off_page_slides.py:36-59 | running the challenges pass twice gives the same deck as running it once |
| FixDefinitionSlide.RewriteDefinitionFrame | scripts/fix_definition_slide.py:16-32 | one frame: the footer is cleared, then the spacing is set, then the sizes are shrunk |
| FixDefinitionSlide.FixDefinition | scripts/fix_definition_slide.py:8-32 | the three loops are applied to every text frame of the deck |
| FixDefinitionSlide.ShrinkRunRule | scripts/fix_definition_slide.py:30-32 | an explicit non-zero size loses 2pt but ends at least at 10pt; absent and zero sizes stay; text is kept |
| FixDefinitionSlide.DefinitionFrameParagraphs | scripts/fix_definition_slide.py:16-32 | the paragraph count is kept; every paragraph gets 0pt/2pt spacing; the footer has no runs and no text; every other paragraph keeps its text and has its runs shrunk |
| FixConclusionSlide.RewriteConclusionFrame | scripts/fix_conclusion_slide.py:13-30 | one frame: word wrap on, then per paragraph the spacing and the run sizes |
| FixConclusionSlide.FixConclusion | scripts/fix_conclusion_slide.py:8-30 | the frame rewrite is applied to every text frame of the deck |
| FixConclusionSlide.ConclusionRunRule | scripts/fix_conclusion_slide.py:24-30 | 32pt becomes 28pt and 18pt becomes 16pt; every other run, 14pt included, is unchanged; texts are kept |
| FixConclusionSlide.ConclusionRunIdempotent | scripts/fix_conclusion_slide.py:24-30 | the run rule never produces a size it would change again |
| FixConclusionSlide.ConclusionFrameIdempotent | scripts/fix_conclusion_slide.py:13-30 | running the frame rewrite twice gives the same frame as running it once |
| FixConclusionSlide.ConclusionFrameParagraphs | scripts/fix_conclusion_slide.py:15-23 | word wrap is on; every paragraph is kept, gets 6pt/6pt spacing, and keeps its text and run count |
| FixConclusionWhitespace.ClearStep | scripts/fix_conclusion_whitespace.py:18-23 | one step of the first loop empties the cut-off footer and leaves other paragraphs alone |
| FixConclusionWhitespace.ClearCutOffs | scripts/fix_conclusion_whitespace.py:16-23 | the first loop gives every paragraph its cleared form, in order |
| FixConclusionWhitespace.RewriteWhitespaceFrame | scripts/fix_conclusion_whitespace.py:13-28 | one frame: the footer is cleared, then the spacing is set |
| FixConclusionWhitespace.FixWhitespace | scripts/fix_conclusion_whitespace.py:8-28 | the frame rewrite is applied to every text frame of the deck |
| FixConclusionWhitespace.ClearCutOffEmpties | scripts/fix_conclusion_whitespace.py:21-23 | emptying the runs first makes no difference: the footer ends with no runs and no text |
| FixConclusionWhitespace.WhitespaceFrameParagraphs | scripts/fix_conclusion_whitespace.py:16-28 | the paragraph count is kept; every paragraph gets 0pt/4pt spacing; the footer has no runs; every other paragraph keeps its runs |
| RemoveChallengeItem.RenumberStep | scripts/remove_challenge_item.py:15-23 | one loop step gives the renumbered paragraph |
| RemoveChallengeItem.RewriteRenumberFrame | scripts/remove_challenge_item.py:14-23 | one frame: each paragraph renumbered in order |
| RemoveChallengeItem.RenumberChallenges | scripts/remove_challenge_item.py:7-23 | the renumbering is applied to every text frame of the deck |
| RemoveChallengeItem.RenumbersSix | scripts/remove_challenge_item.py:18-19 | item 6 becomes the stripped text with its number replaced; it starts "5. Hyperparameter", keeps its length, and is one run with no explicit size |
| RemoveChallengeItem.RenumbersSeven | scripts/remove_challenge_item.py:22-23 | item 7 becomes item 6 in the same way; the `elif` keeps the cases exclusive |
| RemoveChallengeItem.KeepsOtherParagraphs | scripts/remove_challenge_item.py:14-23 | every other paragraph is left as it was, and none is added or removed |
| RemoveChallengeItem.RenumberedMatchesNoItem | scripts/remove_challenge_item.py:18-23 | text starting "6. Additional" matches neither item phrase once stripped |
| RemoveChallengeItem.SecondPassKeepsSeven | scripts/remove_challenge_item.py:14-23 | a second pass leaves the renumbered item 7 alone |
| UpdateTitleFontSizes.IsTitlePlaceholder | scripts/update_title_font_sizes.py:11-18 | a shape that is no placeholder, whose placeholder format cannot be read, or whose placeholder type is subtitle, body or anything other than title and centre title, is not a title placeholder |
| UpdateTitleFontSizes.IsTitleShape | scripts/update_title_font_sizes.py:28-39 | a title placeholder is a title, so is a shape whose lower-cased name contains "title" and one whose top is at most 914400 EMU; a shape that is neither placeholder nor high enough, and whose lower-cased name does not contain "title", is not (a shape whose top cannot be read is no title by position) |
| UpdateTitleFontSizes.TitleNameAnyCase | scripts/update_title_font_sizes.py:31-32 | a name containing any casing of "title" makes the shape a title, whatever its placeholder and position |
| UpdateTitleFontSizes.RaiseStep | scripts/update_title_font_sizes.py:62-63 | setting one more run to 24pt is selecting one more position |
| UpdateTitleFontSizes.RaiseNothing | scripts/update_title_font_sizes.py:61-64 | selecting no run changes nothing |
| UpdateTitleFontSizes.RaiseMaxRuns | scripts/update_title_font_sizes.py:62-63 | the loop sets exactly the listed runs to 24pt |
| UpdateTitleFontSizes.ScanRun | scripts/update_title_font_sizes.py:53-59 | one run moves the scan on by one position: a run without a size is skipped, a larger size restarts `max_runs`, an equal size joins it, and the scan knowledge still holds |
| UpdateTitleFontSizes.ScanParagraph | scripts/update_title_font_sizes.py:52-59 | after a paragraph's runs, `max_runs` lists exactly the candidates seen so far of the largest size, none of which is exceeded |
| UpdateTitleFontSizes.ScanShape | scripts/update_title_font_sizes.py:51-59 | the same knowledge, carried over a whole non-title shape |
| UpdateTitleFontSizes.ScanComplete | scripts/update_title_font_sizes.py:50-61 | at the end `max_runs` lists exactly the largest-size candidates, and is empty exactly when there is no candidate |
| UpdateTitleFontSizes.RewriteTitleFrame | scripts/update_title_font_sizes.py:42-47 | a title frame: every run and the first paragraph's own size become 24pt |
| UpdateTitleFontSizes.ScanShapes | scripts/update_title_font_sizes.py:25-59 | title shapes are retitled as found, the flag says whether there was one, and the scan covers every other shape |
| UpdateTitleFontSizes.NoTitleKeepsShapes | scripts/update_title_font_sizes.py:28-41 | without a title shape, no shape is retitled |
| UpdateTitleFontSizes.SetTitleFontSize | scripts/update_title_font_sizes.py:21-65 | the slide becomes the specification `TitleSlide`, and the result is true exactly when there is a title shape or a sized run outside one |
| UpdateTitleFontSizes.RaiseRunsAt | scripts/update_title_font_sizes.py:61-63 | raising keeps the layout, paragraph properties and texts; a run becomes 24pt exactly when selected |
| UpdateTitleFontSizes.MaxRunsShareSize | scripts/update_title_font_sizes.py:55-59 | the raised runs all share one size, and a smaller candidate is never raised |
| UpdateTitleFontSizes.FallbackRuns | scripts/update_title_font_sizes.py:50-64 | without a title shape, exactly the largest-size runs become 24pt; every other run and all texts stay |
| UpdateTitleFontSizes.FallbackKeepsLayout | scripts/update_title_font_sizes.py:25-64 | without a title shape, a shape without a text frame is returned as it was; a text shape keeps its name, position, placeholder, word wrap, paragraph count, every paragraph's spacing, own size and run count, and every paragraph without runs |
| UpdateTitleFontSizes.RetitleFrameRuns | scripts/update_title_font_sizes.py:41-47 | a title frame keeps its paragraphs, runs and text; all its runs are 24pt; paragraph 0's own size is 24pt and the others keep theirs |
| UpdateTitleFontSizes.TitleCaseShapes | scripts/update_title_font_sizes.py:41-49 | with a title shape, title shapes are retitled and every other shape is left exactly as it was |
| UpdateTitleFontSizes.NotUpdatedUnchanged | scripts/update_title_font_sizes.py:61-65 | a slide reported as not updated comes out unchanged |
| UpdateTitleFontSizes.UpdateFile | scripts/update_title_font_sizes.py:68-76 | every slide of the deck goes through the slide pass; the result is true exactly when some slide was updated |
| UpdateTitleFontSizes.Names | scripts/update_title_font_sizes.py:92-94 | one name per file, the i-th being the i-th file's name |
| UpdateTitleFontSizes.IsDeckFile | scripts/update_title_font_sizes.py:81-86 | `Final_Presentation.pptx` and `~$` lock files are never processed, and every processed name ends in `.pptx` |
| UpdateTitleFontSizes.DeckFileSelection | scripts/update_title_font_sizes.py:81-86 | an ordinary `.pptx` deck is processed; the final presentation, its lock file and a file of another type are not |
| UpdateTitleFontSizes.UpdateDirectory | scripts/update_title_font_sizes.py:80-94 | the selected `*.pptx` files, excluding `Final_Presentation.pptx` and `~$` lock files, are split in listing order into those with an updated slide and the rest |

## Left out

- The corpus library. Loading a corpus, the frequency, concordance, collocation, keyword and cluster computations, and the reference corpus are library calls. Their results are inputs here, with their order and contents taken as given.
- `export_full_analysis`, `compare_corpora` and the command line of `scripts/analyze_corpus.py` are not modelled. They are CSV/JSON export, file I/O and a composition of the modelled functions.
- Logging and the `except Exception` handlers are not modelled. Those handlers turn any library or I/O failure into `{}`, an empty DataFrame or `0.0`. The modelled code itself cannot raise.
- AnalyzeCorpus.GetBasicMetrics: the ratios are exact reals, not Python floats, so rounding is not modelled.
- Loading and saving `.pptx` files, and the `print` reports of every script, are not modelled; nor is the sorting of the two name lists for the report in `update_title_font_sizes.py`. A deck is given as a value, and the directory listing as a sequence.
- UpdateTitleFontSizes.UpdateDirectory: `presentation_dir.glob("*.pptx")` is modelled as a `.pptx` suffix test on the names of the given listing. The listing's order is taken as given.
- FixDefinitionSlide.ShrinkRun works in centipoints. The source divides a size in EMU by 12700 to get a float, and converts it back with `Pt`. The float rounding of that round trip is not modelled.
- Text.IsAlnumChar follows Python exactly below U+0250 (ASCII and the Latin blocks); characters above that count as not alphanumeric. Text.LowerChar lower-cases only ASCII and Latin-1 capitals, so it follows Python exactly only below U+0100; Latin Extended-A and -B capitals such as U+0100 are left unchanged. The phrases matched after lower-casing ("title" and "transforms a difficult") are ASCII. The only characters above U+0100 whose Python lower case holds an ASCII letter are U+0130 (to "i" and a combining dot) and U+212A (to "k"), and neither can complete those phrases, so no match a script makes depends on this gap.
- Slides.WithText: python-pptx turns a vertical tab or line feed in the assigned text into a line break. That is not modelled; the text is kept as one run.
- Slides.ParagraphText: a paragraph holds only runs. python-pptx's `paragraph.text` also reads line breaks (as a vertical tab) and field elements, which `strip()`, `startswith` and `in` then see; those elements are not modelled.
